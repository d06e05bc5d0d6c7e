/** The page of one skill: its header, three counters over the skill's
    resources and a tab bar that narrows the resource list by type. */
module SkillDetail {
  import opened Common
  import opened Sequences

  /** The skill shown in the header; `category` is `skill.categories?.name`. */
  datatype SkillData = SkillData(id: string, name: string, slug: string,
                                 description: Option<string>, category: Option<string>)

  /** A resource row with its joined profile. `profile` is `None` when the
      join gave `null`, `Some(None)` when the profile's `full_name` is `null`. */
  datatype Resource = Resource(title: string, description: Option<string>, kind: string,
                               level: string, url: Option<string>,
                               profile: Option<Option<string>>, likes: int)

  /** The value of `r.profiles?.full_name`, which JavaScript's `Set` tells
      apart: `undefined`, `null` or a name. */
  datatype AuthorKey = Undefined | Null | Named(name: string)

  datatype Stats = Stats(resources: nat, contributors: nat, avgRating: int)

  const AllTab := "all"

  function AuthorKeyOf(r: Resource): AuthorKey {
    match r.profile
    case None => Undefined
    case Some(None) => Null
    case Some(Some(n)) => Named(n)
  }

  /** `new Set(resources.map(r => r.profiles?.full_name))`. */
  function AuthorKeys(rs: seq<Resource>): (keys: set<AuthorKey>)
    ensures forall k :: k in keys <==> exists i :: 0 <= i < |rs| && AuthorKeyOf(rs[i]) == k
    ensures |keys| <= |rs|
    ensures rs != [] ==> |keys| >= 1
  {
    if rs == [] then {}
    else
      var rest := AuthorKeys(rs[1..]);
      var keys := {AuthorKeyOf(rs[0])} + rest;
      assert forall k :: k in rest ==> exists i :: 0 <= i < |rs| && AuthorKeyOf(rs[i]) == k by {
        forall k | k in rest ensures exists i :: 0 <= i < |rs| && AuthorKeyOf(rs[i]) == k {
          var i :| 0 <= i < |rs[1..]| && AuthorKeyOf(rs[1..][i]) == k;
          assert AuthorKeyOf(rs[i + 1]) == k;
        }
      }
      forall k | exists i :: 0 <= i < |rs| && AuthorKeyOf(rs[i]) == k ensures k in keys {
        var i :| 0 <= i < |rs| && AuthorKeyOf(rs[i]) == k;
        if i > 0 {
          assert AuthorKeyOf(rs[1..][i - 1]) == k;
        }
      }
      assert AuthorKeyOf(rs[0]) in keys;
      keys
  }

  /** `resourceStats`: the number of resources, the number of distinct
      submitters, and a rating fixed at 0. */
  function ResourceStats(rs: seq<Resource>): (st: Stats)
    ensures st.resources == |rs|
    ensures st.contributors == |AuthorKeys(rs)|
    ensures st.contributors <= st.resources
    ensures rs != [] ==> st.contributors >= 1
    ensures rs == [] ==> st.contributors == 0
    ensures st.avgRating == 0
  {
    Stats(|rs|, |AuthorKeys(rs)|, 0)
  }

  /** Resources that all come from one submitter count one contributor. */
  lemma OneSubmitterOneContributor(rs: seq<Resource>, key: AuthorKey)
    requires rs != []
    requires forall i :: 0 <= i < |rs| ==> AuthorKeyOf(rs[i]) == key
    ensures ResourceStats(rs).contributors == 1
  {
    assert AuthorKeys(rs) == {key};
  }

  predicate OnTab(r: Resource, tab: string) {
    tab == AllTab || r.kind == tab
  }

  /** `filteredResources`: on "all" the list unchanged, on any other tab the
      resources of that type in their original order. */
  function FilteredResources(rs: seq<Resource>, tab: string): (r: seq<Resource>)
    ensures tab == AllTab ==> r == rs
    ensures IsSubseq(r, rs)
    ensures forall x :: x in r <==> x in rs && OnTab(x, tab)
    ensures tab != AllTab ==> forall x :: x in r ==> x.kind == tab
  {
    var keep := (x: Resource) => OnTab(x, tab);
    assert tab == AllTab ==> Filter(rs, keep) == rs by {
      if tab == AllTab {
        FilterKeepsAll(rs, keep);
      }
    }
    Filter(rs, keep)
  }

  /** The author on a card: `r.profiles?.full_name || "Community Member"`. */
  function AuthorLabel(r: Resource): (shown: string)
    ensures shown != ""
    ensures AuthorKeyOf(r).Named? && AuthorKeyOf(r).name != "" ==> shown == AuthorKeyOf(r).name
    ensures !(AuthorKeyOf(r).Named? && AuthorKeyOf(r).name != "") ==> shown == "Community Member"
  {
    OrElse(if r.profile.Some? then r.profile.value else None, "Community Member")
  }

  /** The card's description and link: `null` becomes the empty string. */
  function CardDescription(r: Resource): (d: string)
    ensures r.description.Some? ==> d == r.description.value
    ensures r.description.None? ==> d == ""
  {
    OrElse(r.description, "")
  }

  function CardUrl(r: Resource): (u: string)
    ensures r.url.Some? ==> u == r.url.value
    ensures r.url.None? ==> u == ""
  {
    OrElse(r.url, "")
  }

  /** The header's badge and blurb: the category or "Skill", the description
      or "Learning resources for <name>.". */
  function HeaderBadge(skill: SkillData): (b: string)
    ensures b != ""
    ensures skill.category.Some? && skill.category.value != "" ==> b == skill.category.value
    ensures skill.category.None? || skill.category.value == "" ==> b == "Skill"
  {
    OrElse(skill.category, "Skill")
  }

  function HeaderBlurb(skill: SkillData): (b: string)
    ensures b != ""
    ensures skill.description.Some? && skill.description.value != "" ==> b == skill.description.value
    ensures !(skill.description.Some? && skill.description.value != "") ==>
              b == "Learning resources for " + skill.name + "."
  {
    OrElse(skill.description, "Learning resources for " + skill.name + ".")
  }
}
