/** The `createPost` server action of the dashboard: it reads the submitted
    form, optionally suggests a new skill (with a slug derived from its name)
    and inserts the resource. The signed-in user and the outcome of each
    insert are parameters; the rows it writes are returned. */
module PostActions {
  import opened Common
  import opened Text
  import opened Sequences
  import opened FormDataModel

  // ---------------------------------------------------------------- slug

  /** A character of the regular-expression class `\w`. */
  predicate IsWordChar(c: char) {
    ('a' <= c <= 'z') || ('A' <= c <= 'Z') || ('0' <= c <= '9') || c == '_'
  }

  /** A character that may appear in a derived slug. */
  predicate IsSlugChar(c: char) {
    ('a' <= c <= 'z') || ('0' <= c <= '9') || c == '_' || c == '-'
  }

  /** `.replace(/ /g, "-")`. */
  function SpacesToHyphens(s: string): (r: string)
    ensures |r| == |s|
  {
    seq(|s|, i requires 0 <= i < |s| => if s[i] == ' ' then '-' else s[i])
  }

  predicate KeptBySlug(c: char) {
    IsWordChar(c) || c == '-'
  }

  /** `.replace(/[^\w-]+/g, "")`: every run of characters outside `[\w-]`
      is deleted, which deletes each such character. */
  function DropNonWord(s: string): string {
    Filter(s, KeptBySlug)
  }

  /** The slug of a suggested skill name:
      `name.toLowerCase().replace(/ /g, "-").replace(/[^\w-]+/g, "")`. */
  function Slug(name: string): (r: string)
    ensures |r| <= |name|
    ensures forall i :: 0 <= i < |r| ==> IsSlugChar(r[i])
  {
    var lowered := SpacesToHyphens(Lower(name));
    assert forall c :: c in lowered ==> !IsUpper(c);
    var r := DropNonWord(lowered);
    assert forall i :: 0 <= i < |r| ==> r[i] in r;
    r
  }

  /** The slug of one character, read off the three passes. */
  function SlugOfChar(c: char): (r: string)
    ensures c == ' ' ==> r == "-"
    ensures c != ' ' && KeptBySlug(c) ==> r == [LowerChar(c)]
    ensures c != ' ' && !KeptBySlug(c) ==> r == []
  {
    if c == ' ' then "-"
    else if KeptBySlug(LowerChar(c)) then [LowerChar(c)]
    else []
  }

  /** An independent, character-by-character definition of the slug. */
  function SlugByChars(s: string): string {
    if s == [] then [] else SlugOfChar(s[0]) + SlugByChars(s[1..])
  }

  /** The chained expression agrees with the character-by-character reading:
      each space becomes exactly one `-`, letters, digits, `_` and `-`
      survive lower-cased in their original order, and everything else is
      deleted. */
  lemma {:induction false} SlugIsCharacterwise(s: string)
    ensures Slug(s) == SlugByChars(s)
  {
    if s != [] {
      SlugIsCharacterwise(s[1..]);
      var t := SpacesToHyphens(Lower(s));
      assert t[1..] == SpacesToHyphens(Lower(s[1..]));
      assert t[0] == (if s[0] == ' ' then '-' else LowerChar(s[0]));
      assert Slug(s) == Filter(t, KeptBySlug);
    }
  }

  lemma {:induction false} SlugByCharsAppend(a: string, b: string)
    ensures SlugByChars(a + b) == SlugByChars(a) + SlugByChars(b)
  {
    if a == [] {
      assert a + b == b;
    } else {
      assert (a + b)[0] == a[0] && (a + b)[1..] == a[1..] + b;
      SlugByCharsAppend(a[1..], b);
    }
  }

  /** The slug of a concatenation is the concatenation of the slugs, so the
      slug keeps the order of the name. */
  lemma SlugAppend(a: string, b: string)
    ensures Slug(a + b) == Slug(a) + Slug(b)
  {
    SlugIsCharacterwise(a + b);
    SlugIsCharacterwise(a);
    SlugIsCharacterwise(b);
    SlugByCharsAppend(a, b);
  }

  lemma {:induction false} SlugByCharsOfSlug(s: string)
    requires forall i :: 0 <= i < |s| ==> IsSlugChar(s[i])
    ensures SlugByChars(s) == s
  {
    if s != [] {
      assert IsSlugChar(s[0]);
      SlugByCharsOfSlug(s[1..]);
    }
  }

  /** A string made of slug characters is its own slug. */
  lemma SlugFixesSlugs(s: string)
    requires forall i :: 0 <= i < |s| ==> IsSlugChar(s[i])
    ensures Slug(s) == s
  {
    SlugIsCharacterwise(s);
    SlugByCharsOfSlug(s);
  }

  /** Deriving a slug from a slug changes nothing. */
  lemma SlugIdempotent(name: string)
    ensures Slug(Slug(name)) == Slug(name)
  {
    SlugFixesSlugs(Slug(name));
  }

  // ---------------------------------------------------------- createPost

  const PendingStatus := "pending"
  const PublishedStatus := "published"
  const SuggestFailurePrefix := "Failed to suggest skill: "

  /** A row `createPost` writes. */
  datatype Row =
    | SkillRow(name: string, slug: string, categoryId: string, status: string)
    | ResourceRow(userId: string, skillId: Option<string>, title: Option<string>,
                  url: Option<string>, kind: Option<string>,
                  description: Option<string>, status: string)

  /** How the action ends: a redirect (which the client sees as no reply)
      or an `{ error }` object. */
  datatype PostResult = RedirectTo(path: string) | PostError(message: string)

  function ReplyOf(r: PostResult): (reply: Reply)
    ensures reply.ErrorReply? <==> r.PostError?
    ensures r.PostError? ==> reply.message == r.message
    ensures r.RedirectTo? ==> reply == NoReply
  {
    match r
    case RedirectTo(_) => NoReply
    case PostError(m) => ErrorReply(m)
  }

  /** `isNewSkill && newSkillName && categoryId`, with
      `isNewSkill = formData.get("isNewSkill") === "true"`. */
  predicate SuggestsSkill(flag: Option<string>, newSkillName: Option<string>, categoryId: Option<string>) {
    flag == Some("true")
    && newSkillName.Some? && Truthy(newSkillName.value)
    && categoryId.Some? && Truthy(categoryId.value)
  }

  /** The submitted entries ask for a new skill. */
  predicate Suggests(es: seq<(string, string)>) {
    SuggestsSkill(Lookup(es, "isNewSkill"), Lookup(es, "newSkillName"), Lookup(es, "categoryId"))
  }

  /** The pending skill row a suggestion inserts. */
  function SuggestedSkillRow(es: seq<(string, string)>): (w: Row)
    requires Suggests(es)
    ensures w.SkillRow? && w.status == PendingStatus
    ensures w.name == Lookup(es, "newSkillName").value && w.slug == Slug(w.name)
    ensures w.categoryId == Lookup(es, "categoryId").value
  {
    SkillRow(Lookup(es, "newSkillName").value, Slug(Lookup(es, "newSkillName").value),
             Lookup(es, "categoryId").value, PendingStatus)
  }

  /** The published resource row, under skill `skillId`. */
  function ResourceRowFor(userId: string, es: seq<(string, string)>, skillId: Option<string>): (w: Row)
    ensures w.ResourceRow? && w.status == PublishedStatus && w.userId == userId && w.skillId == skillId
    ensures w.title == Lookup(es, "title") && w.url == Lookup(es, "url")
    ensures w.kind == Lookup(es, "type") && w.description == Lookup(es, "description")
  {
    ResourceRow(userId, skillId, Lookup(es, "title"), Lookup(es, "url"), Lookup(es, "type"),
                Lookup(es, "description"), PublishedStatus)
  }

  /** What `createPost` answers and writes for submitted entries `es`, as a
      value. `user` is the signed-in user's id, if any; `skillInsert` is
      what inserting the suggested skill returns (its new id, or an error);
      `resourceError` is the error, if any, of inserting the resource. */
  function Outcome(user: Option<string>, es: seq<(string, string)>, skillInsert: Result<string>,
                   resourceError: Option<string>): (o: (PostResult, seq<Row>))
    // no signed-in user: off to the login page before anything is read
    ensures user.None? ==> o == (RedirectTo("/login"), [])
    // a suggested skill whose insert fails: the prefixed error, nothing written
    ensures user.Some? && Suggests(es) && skillInsert.Err? ==>
              o == (PostError(SuggestFailurePrefix + skillInsert.message), [])
    // a suggestion whose insert succeeds writes its pending skill row first,
    // and that row stays even when the resource insert then fails
    ensures user.Some? && Suggests(es) && skillInsert.Ok? ==>
              |o.1| >= 1 && o.1[0] == SuggestedSkillRow(es)
    // without a suggestion no skill row is written
    ensures !Suggests(es) ==> forall w :: w in o.1 ==> w.ResourceRow?
    // a signed-in user past the skill step: exactly one published resource
    // row when its insert succeeds, under the new skill or the chosen one
    ensures user.Some? && (skillInsert.Ok? || !Suggests(es)) ==>
              && |o.1| == (if Suggests(es) then 1 else 0) + (if resourceError.None? then 1 else 0)
              && (resourceError.None? ==>
                    o.0 == RedirectTo("/dashboard/posts")
                    && o.1[|o.1| - 1] == ResourceRowFor(user.value, es,
                         if Suggests(es) then Some(skillInsert.value) else Lookup(es, "skillId")))
              && (resourceError.Some? ==>
                    o.0 == PostError(resourceError.value) && forall w :: w in o.1 ==> w.SkillRow?)
  {
    if user.None? then (RedirectTo("/login"), [])
    else if Suggests(es) && skillInsert.Err? then
      (PostError(SuggestFailurePrefix + skillInsert.message), [])
    else
      var skillRows := if Suggests(es) then [SuggestedSkillRow(es)] else [];
      var skillId := if Suggests(es) then Some(skillInsert.value) else Lookup(es, "skillId");
      if resourceError.Some? then (PostError(resourceError.value), skillRows)
      else (RedirectTo("/dashboard/posts"), skillRows + [ResourceRowFor(user.value, es, skillId)])
  }

  /** `createPost(formData)`: reads the fields one by one, reassigns the
      skill id when a suggestion was inserted, and performs the writes in
      order. */
  method CreatePost(user: Option<string>, form: FormData, skillInsert: Result<string>,
                    resourceError: Option<string>)
    returns (result: PostResult, writes: seq<Row>)
    ensures (result, writes) == Outcome(user, form.entries, skillInsert, resourceError)
  {
    if user.None? {
      return RedirectTo("/login"), [];
    }
    var title := form.Get("title");
    var url := form.Get("url");
    var kind := form.Get("type");
    var description := form.Get("description");
    var skillId := form.Get("skillId");
    writes := [];

    var isNewSkill := form.Get("isNewSkill") == Some("true");
    var newSkillName := form.Get("newSkillName");
    var categoryId := form.Get("categoryId");

    if isNewSkill && newSkillName.Some? && Truthy(newSkillName.value)
       && categoryId.Some? && Truthy(categoryId.value) {
      var slug := Slug(newSkillName.value);
      if skillInsert.Err? {
        return PostError(SuggestFailurePrefix + skillInsert.message), [];
      }
      writes := [SkillRow(newSkillName.value, slug, categoryId.value, PendingStatus)];
      skillId := Some(skillInsert.value);
    }

    if resourceError.Some? {
      return PostError(resourceError.value), writes;
    }
    writes := writes + [ResourceRow(user.value, skillId, title, url, kind, description, PublishedStatus)];
    result := RedirectTo("/dashboard/posts");
  }
}
