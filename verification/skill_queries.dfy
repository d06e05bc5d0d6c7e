/** The read actions behind the skill pages. Each database query is an input
    (`Ok(rows)` or `Err(message)`); what the actions add on top is a category
    post-filter and a fallback value on error. */
module SkillQueries {
  import opened Common
  import opened Sequences

  /** An approved skill row with its joined category; `category` is
      `skill.categories?.name`, absent when the join gave `null`. */
  datatype SkillRow = SkillRow(id: string, name: string, slug: string, category: Option<string>)

  const AllCategories := "All"

  predicate InCategory(row: SkillRow, categoryName: string) {
    categoryName == AllCategories || row.category == Some(categoryName)
  }

  /** `getSkills(categoryName)`: on a query error the empty list; with
      "All" the rows unchanged; otherwise the rows whose category is the one
      asked for, in order, dropping rows whose category join is `null`. */
  function GetSkills(query: Result<seq<SkillRow>>, categoryName: string := AllCategories): (r: seq<SkillRow>)
    ensures query.Err? ==> r == []
    ensures query.Ok? && categoryName == AllCategories ==> r == query.value
    ensures query.Ok? ==> IsSubseq(r, query.value)
    ensures query.Ok? ==> forall s :: s in r <==> s in query.value && InCategory(s, categoryName)
    ensures categoryName != AllCategories ==> forall s :: s in r ==> s.category == Some(categoryName)
  {
    match query
    case Err(_) => []
    case Ok(rows) =>
      var keep := (s: SkillRow) => InCategory(s, categoryName);
      assert categoryName == AllCategories ==> Filter(rows, keep) == rows by {
        if categoryName == AllCategories {
          FilterKeepsAll(rows, keep);
        }
      }
      Filter(rows, keep)
  }

  /** `getCategories()`: the ordered rows, or the empty list on error. */
  function GetCategories<C>(query: Result<seq<C>>): (r: seq<C>)
    ensures query.Err? ==> r == []
    ensures query.Ok? ==> r == query.value
  {
    match query
    case Err(_) => []
    case Ok(rows) => rows
  }

  /** `getSkillBySlug(slug)`: the single row, or `null` on error (which is
      also what a missing slug gives, since `.single()` then errs). */
  function GetSkillBySlug(query: Result<SkillRow>): (r: Option<SkillRow>)
    ensures r.None? <==> query.Err?
    ensures query.Ok? ==> r == Some(query.value)
  {
    match query
    case Err(_) => None
    case Ok(row) => Some(row)
  }

  /** `getResourcesBySkillId(skillId)`: the published resources, or the empty
      list on error. */
  function GetResourcesBySkillId<R>(query: Result<seq<R>>): (r: seq<R>)
    ensures query.Err? ==> r == []
    ensures query.Ok? ==> r == query.value
  {
    match query
    case Err(_) => []
    case Ok(rows) => rows
  }

  /** The post-filter is idempotent: filtering its result again by the same
      category changes nothing. */
  lemma GetSkillsIdempotent(rows: seq<SkillRow>, categoryName: string)
    ensures GetSkills(Ok(GetSkills(Ok(rows), categoryName)), categoryName) == GetSkills(Ok(rows), categoryName)
  {
    FilterIdempotent(rows, (s: SkillRow) => InCategory(s, categoryName));
  }
}
