/** The skill catalogue page fed from the database: a search box, category
    tabs headed by "All", and the list of skills that pass both. */
module SkillsBrowse {
  import opened Common
  import opened Text
  import opened Sequences

  datatype Category = Category(id: string, name: string)

  /** A skill row with its joined category; `category` is
      `skill.categories?.name`, absent when the join gave `null`. */
  datatype Skill = Skill(id: string, name: string, slug: string, color: Option<string>,
                         iconName: Option<string>, category: Option<string>)

  const AllTab := "All"
  const NoCategoryLabel := "Other"

  /** `activeCategory === "All" || skill.categories?.name === activeCategory`. */
  predicate InCategory(skill: Skill, active: string) {
    active == AllTab || skill.category == Some(active)
  }

  predicate Shown(skill: Skill, query: string, active: string) {
    MatchesQuery(skill.name, query) && InCategory(skill, active)
  }

  /** `filteredSkills`: the skills matching both the search text and the tab,
      in the order they came. */
  function FilteredSkills(skills: seq<Skill>, query: string, active: string): (r: seq<Skill>)
    ensures IsSubseq(r, skills)
    ensures forall s :: s in r <==> s in skills && Shown(s, query, active)
    ensures forall s :: s in r ==> Contains(Lower(s.name), Lower(query))
    ensures active != AllTab ==> forall s :: s in r ==> s.category == Some(active)
  {
    Filter(skills, s => Shown(s, query, active))
  }

  /** The page's initial state (empty search, tab "All") lists every skill. */
  lemma {:induction false} InitialStateShowsAll(skills: seq<Skill>)
    ensures FilteredSkills(skills, "", AllTab) == skills
  {
    forall s | s in skills ensures Shown(s, "", AllTab) {
      MatchesEmptyQuery(s.name);
    }
    FilterKeepsAll(skills, s => Shown(s, "", AllTab));
  }

  /** A skill without a category is listed only under "All". */
  lemma UncategorisedOnlyUnderAll(skills: seq<Skill>, query: string, active: string, s: Skill)
    requires s in FilteredSkills(skills, query, active) && s.category.None?
    ensures active == AllTab
  {
  }

  /** `categoryNames = ["All", ...categories.map(c => c.name)]`. */
  function CategoryNames(categories: seq<Category>): (r: seq<string>)
    ensures |r| == |categories| + 1
    ensures r[0] == AllTab
    ensures forall i :: 0 <= i < |categories| ==> r[i + 1] == categories[i].name
  {
    [AllTab] + seq(|categories|, i requires 0 <= i < |categories| => categories[i].name)
  }

  /** The category shown on a skill card:
      `skill.categories?.name || "Other"`. */
  function CardCategory(skill: Skill): (r: string)
    ensures skill.category.Some? && skill.category.value != "" ==> r == skill.category.value
    ensures skill.category.None? || skill.category.value == "" ==> r == NoCategoryLabel
  {
    OrElse(skill.category, NoCategoryLabel)
  }
}
