/** The search box on the home page: suggestions as the user types (at most
    five), a dropdown that shows them, and navigation on submit or on a
    chosen suggestion. */
module HomeSearch {
  import opened Common
  import opened Text
  import opened Sequences

  /** A skill offered as a suggestion; `category` is `skill.categories?.name`. */
  datatype Skill = Skill(name: string, slug: string, category: Option<string>)

  /** Where a handler sends the browser: `/skills?q=<encoded query>` or
      `/skills/<slug>`. */
  datatype Route = SearchResults(query: string) | SkillPage(slug: string)

  const MaxSuggestions: nat := 5

  /** The skills whose name contains the query, ignoring case. */
  function Matches(skills: seq<Skill>, query: string): (r: seq<Skill>)
    ensures IsSubseq(r, skills)
    ensures forall s :: s in r <==> s in skills && MatchesQuery(s.name, query)
  {
    Filter(skills, (s: Skill) => MatchesQuery(s.name, query))
  }

  /** `filteredSkills`: the matches, cut to the first five. */
  function Suggestions(skills: seq<Skill>, query: string): (r: seq<Skill>)
    ensures |r| <= MaxSuggestions
    ensures |r| == Min(MaxSuggestions, |Matches(skills, query)|)
    ensures r <= Matches(skills, query)
    ensures IsSubseq(r, skills)
    ensures forall s :: s in r ==> s in skills && MatchesQuery(s.name, query)
  {
    var all := Matches(skills, query);
    var r := Take(all, MaxSuggestions);
    PrefixIsSubseq(r, all);
    SubseqTransitive(r, all, skills);
    assert forall s :: s in r ==> s in all;
    r
  }

  /** The label under a suggestion: `skill.categories?.name || "Skill"`. */
  function SuggestionLabel(skill: Skill): (r: string)
    ensures r != ""
    ensures skill.category.Some? && skill.category.value != "" ==> r == skill.category.value
    ensures skill.category.None? || skill.category.value == "" ==> r == "Skill"
  {
    OrElse(skill.category, "Skill")
  }

  class SearchBox {
    var query: string
    var showSuggestions: bool

    constructor ()
      ensures query == "" && !showSuggestions
    {
      query := "";
      showSuggestions := false;
    }

    /** The dropdown is rendered when suggestions are on and the trimmed
        query is not empty. */
    predicate DropdownVisible()
      reads this
    {
      showSuggestions && Trim(query) != ""
    }

    /** Typing: the query takes the input's value and suggestions turn on. */
    method OnChange(value: string)
      modifies this
      ensures query == value && showSuggestions
      ensures DropdownVisible() <==> exists i :: 0 <= i < |value| && !IsWhitespace(value[i])
    {
      query := value;
      showSuggestions := true;
      TrimEmptyIff(value);
    }

    /** Focusing the input turns suggestions on. */
    method OnFocus()
      modifies this
      ensures query == old(query) && showSuggestions
    {
      showSuggestions := true;
    }

    /** A press outside the box turns suggestions off. */
    method Dismiss()
      modifies this
      ensures query == old(query) && !showSuggestions
    {
      showSuggestions := false;
    }

    /** `handleSearch`: navigates to the results page, carrying the query as
        typed, when the query holds something other than whitespace;
        otherwise does nothing. */
    method HandleSearch() returns (target: Option<Route>)
      ensures target.Some? <==> exists i :: 0 <= i < |query| && !IsWhitespace(query[i])
      ensures target.Some? ==> target.value == SearchResults(query)
    {
      TrimEmptyIff(query);
      if Trim(query) != "" {
        target := Some(SearchResults(query));
      } else {
        target := None;
      }
    }

    /** Clicking a suggestion: navigates to its page and closes the dropdown. */
    method ChooseSuggestion(skill: Skill) returns (target: Route)
      modifies this
      ensures target == SkillPage(skill.slug)
      ensures query == old(query) && !showSuggestions && !DropdownVisible()
    {
      target := SkillPage(skill.slug);
      showSuggestions := false;
    }
  }
}
