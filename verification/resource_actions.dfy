/** The engagement actions on a resource page: like, bookmark and comment.
    The likes and bookmarks tables are multisets of (resource, user) rows and
    the comments table a list; the signed-in user and the error of each write
    are parameters. */
module ResourceActions {
  import opened Common

  /** A (resource id, user id) row of the likes or bookmarks table. */
  type Pair = (string, string)

  datatype Comment = Comment(resourceId: string, userId: string, content: string)

  const SignInToLike := "Please sign in to like resources."
  const SignInToSave := "Please sign in to save resources."
  const SignInToComment := "Please sign in to comment."

  /** The table after one toggle of `p`. The lookup uses `.single()`, which
      yields the row only when exactly one matches; that row is deleted.
      Otherwise (none, or several) a new row is inserted. */
  function Toggled(table: multiset<Pair>, p: Pair): (t: multiset<Pair>)
    ensures table[p] == 1 ==> t[p] == 0
    ensures table[p] != 1 ==> t[p] == table[p] + 1
    ensures forall q :: q != p ==> t[q] == table[q]
  {
    if table[p] == 1 then table - multiset{p} else table + multiset{p}
  }

  /** At most one row per pair: the state the toggles are designed for. */
  ghost predicate AtMostOnePerPair(table: multiset<Pair>) {
    forall q :: table[q] <= 1
  }

  /** Toggling the same pair twice restores the table, provided the pair had
      at most one row. */
  lemma ToggleTwiceRestores(table: multiset<Pair>, p: Pair)
    requires table[p] <= 1
    ensures Toggled(Toggled(table, p), p) == table
  {
    var t := Toggled(table, p);
    assert forall q :: Toggled(t, p)[q] == table[q];
  }

  /** A toggle keeps "at most one row per pair" and flips whether the pair is
      present. */
  lemma ToggleKeepsAtMostOne(table: multiset<Pair>, p: Pair)
    requires AtMostOnePerPair(table)
    ensures AtMostOnePerPair(Toggled(table, p))
    ensures (p in Toggled(table, p)) <==> p !in table
  {
  }

  /** With duplicate rows for a pair, a toggle only ever adds: the duplicates
      are never cleared. */
  lemma DuplicatesOnlyGrow(table: multiset<Pair>, p: Pair)
    requires table[p] >= 2
    ensures Toggled(table, p)[p] == table[p] + 1
  {
  }

  class Engagement {
    var likes: multiset<Pair>
    var bookmarks: multiset<Pair>
    var comments: seq<Comment>

    constructor (likes: multiset<Pair>, bookmarks: multiset<Pair>, comments: seq<Comment>)
      ensures this.likes == likes && this.bookmarks == bookmarks && this.comments == comments
    {
      this.likes := likes;
      this.bookmarks := bookmarks;
      this.comments := comments;
    }

    /** `toggleLike(resourceId)`. `writeError` is the error, if any, of the
        delete or insert the toggle performs. */
    method ToggleLike(resourceId: string, user: Option<string>, writeError: Option<string>)
      returns (reply: Reply)
      modifies this
      ensures user.None? ==> reply == ErrorReply(SignInToLike) && likes == old(likes)
      ensures user.Some? && writeError.Some? ==> reply == ErrorReply(writeError.value) && likes == old(likes)
      ensures user.Some? && writeError.None? ==>
                reply == SuccessReply && likes == Toggled(old(likes), (resourceId, user.value))
      ensures bookmarks == old(bookmarks) && comments == old(comments)
    {
      if user.None? {
        return ErrorReply(SignInToLike);
      }
      var p := (resourceId, user.value);
      if likes[p] == 1 {
        if writeError.Some? { return ErrorReply(writeError.value); }
        likes := likes - multiset{p};
      } else {
        if writeError.Some? { return ErrorReply(writeError.value); }
        likes := likes + multiset{p};
      }
      reply := SuccessReply;
    }

    /** `toggleBookmark(resourceId)`: the same toggle on the bookmarks table. */
    method ToggleBookmark(resourceId: string, user: Option<string>, writeError: Option<string>)
      returns (reply: Reply)
      modifies this
      ensures user.None? ==> reply == ErrorReply(SignInToSave) && bookmarks == old(bookmarks)
      ensures user.Some? && writeError.Some? ==> reply == ErrorReply(writeError.value) && bookmarks == old(bookmarks)
      ensures user.Some? && writeError.None? ==>
                reply == SuccessReply && bookmarks == Toggled(old(bookmarks), (resourceId, user.value))
      ensures likes == old(likes) && comments == old(comments)
    {
      if user.None? {
        return ErrorReply(SignInToSave);
      }
      var p := (resourceId, user.value);
      if bookmarks[p] == 1 {
        if writeError.Some? { return ErrorReply(writeError.value); }
        bookmarks := bookmarks - multiset{p};
      } else {
        if writeError.Some? { return ErrorReply(writeError.value); }
        bookmarks := bookmarks + multiset{p};
      }
      reply := SuccessReply;
    }

    /** `addComment(resourceId, content)`: one new comment by the signed-in
        user, or an error and no change. */
    method AddComment(resourceId: string, content: string, user: Option<string>, insertError: Option<string>)
      returns (reply: Reply)
      modifies this
      ensures user.None? ==> reply == ErrorReply(SignInToComment) && comments == old(comments)
      ensures user.Some? && insertError.Some? ==> reply == ErrorReply(insertError.value) && comments == old(comments)
      ensures user.Some? && insertError.None? ==>
                reply == SuccessReply && comments == old(comments) + [Comment(resourceId, user.value, content)]
      ensures likes == old(likes) && bookmarks == old(bookmarks)
    {
      if user.None? {
        return ErrorReply(SignInToComment);
      }
      if insertError.Some? {
        return ErrorReply(insertError.value);
      }
      comments := comments + [Comment(resourceId, user.value, content)];
      reply := SuccessReply;
    }
  }
}
