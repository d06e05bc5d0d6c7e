/** The stand-alone skills page built on a fixed list of fifteen skills and
    six category tabs. */
module SkillsPage {
  import opened Text
  import opened Sequences

  datatype MockSkill = MockSkill(name: string, slug: string, category: string, color: string)

  const Categories: seq<string> := ["All", "Web Dev", "Mobile", "Data Science", "Design", "DevOps"]

  const MockSkills: seq<MockSkill> := [
    MockSkill("React", "react", "Web Dev", "#61DAFB"),
    MockSkill("Next.js", "nextjs", "Web Dev", "#FFFFFF"),
    MockSkill("TypeScript", "typescript", "Web Dev", "#3178C6"),
    MockSkill("Node.js", "node-js", "Web Dev", "#339933"),
    MockSkill("Tailwind CSS", "tailwind-css", "Web Dev", "#38B2AC"),
    MockSkill("SwiftUI", "swiftui", "Mobile", "#F05138"),
    MockSkill("Flutter", "flutter", "Mobile", "#02569B"),
    MockSkill("React Native", "react-native", "Mobile", "#61DAFB"),
    MockSkill("Python", "python", "Data Science", "#3776AB"),
    MockSkill("TensorFlow", "tensorflow", "Data Science", "#FF6F00"),
    MockSkill("Pandas", "pandas", "Data Science", "#150458"),
    MockSkill("Figma", "figma", "Design", "#F24E1E"),
    MockSkill("UI Design", "ui-design", "Design", "#FF3366"),
    MockSkill("Docker", "docker", "DevOps", "#2496ED"),
    MockSkill("Kubernetes", "kubernetes", "DevOps", "#326CE5")
  ]

  /** `matchesSearch && matchesCategory` for one mock skill. */
  predicate Shown(skill: MockSkill, query: string, active: string) {
    MatchesQuery(skill.name, query) && (active == "All" || skill.category == active)
  }

  /** `filteredSkills` over `skills` (the page passes the fixed list). */
  function FilteredSkills(skills: seq<MockSkill>, query: string, active: string): (r: seq<MockSkill>)
    ensures IsSubseq(r, skills)
    ensures forall s :: s in r <==> s in skills && Shown(s, query, active)
  {
    Filter(skills, s => Shown(s, query, active))
  }

  /** What the page lists for a search text and a tab. */
  function VisibleSkills(query: string, active: string): seq<MockSkill> {
    FilteredSkills(MockSkills, query, active)
  }

  /** Typing more characters never brings a skill back: when `q2` contains
      `q1`, the list for `q2` is a sub-list of the list for `q1` under the
      same tab. */
  lemma NarrowerQueryNarrowsList(skills: seq<MockSkill>, q1: string, q2: string, active: string)
    requires Contains(q2, q1)
    ensures IsSubseq(FilteredSkills(skills, q2, active), FilteredSkills(skills, q1, active))
  {
    forall s | s in skills && Shown(s, q2, active) ensures Shown(s, q1, active) {
      MatchesNarrower(s.name, q1, q2);
    }
    FilterStricter(skills, s => Shown(s, q2, active), s => Shown(s, q1, active));
  }

  /** Filtering the list again with the same search and tab changes nothing. */
  lemma FilterAgainChangesNothing(skills: seq<MockSkill>, query: string, active: string)
    ensures FilteredSkills(FilteredSkills(skills, query, active), query, active)
            == FilteredSkills(skills, query, active)
  {
    FilterIdempotent(skills, s => Shown(s, query, active));
  }

  /** With an empty search and the "All" tab, all fifteen skills are listed. */
  lemma InitialStateShowsAll()
    ensures VisibleSkills("", "All") == MockSkills
    ensures |VisibleSkills("", "All")| == 15
  {
    forall s | s in MockSkills ensures Shown(s, "", "All") {
      MatchesEmptyQuery(s.name);
    }
    FilterKeepsAll(MockSkills, s => Shown(s, "", "All"));
  }

  /** Every mock skill sits under one of the tabs other than "All". */
  lemma MockCategoriesAreTabs()
    ensures forall s :: s in MockSkills ==> s.category in Categories[1..]
  {
  }

  /** The mock slugs, which key the rendered cards, are pairwise distinct. */
  lemma MockSlugsDistinct()
    ensures forall i, j :: 0 <= i < j < |MockSkills| ==> MockSkills[i].slug != MockSkills[j].slug
  {
  }
}
