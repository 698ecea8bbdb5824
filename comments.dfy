/**
 * The two kinds of pull-request comment as the API delivers them, the common
 * `comment` record both are projected into, and the views of a comment list
 * that the ordering contract is stated with.
 */
module Comments {

  /** A point in time; `Before` on times is strict `<` on these. */
  type Timestamp = int

  /** The author of a comment; only the login is shown. */
  datatype User = User(login: string)

  /**
   * A review comment or an issue comment as fetched. Both carry the same
   * fields that the command reads: the author, the browser link, the body
   * and the two timestamps.
   */
  datatype ApiComment = ApiComment(
    user: User,
    htmlUrl: string,
    body: string,
    createdAt: Timestamp,
    updatedAt: Timestamp)

  /** The common record of the command: one per comment in the merged feed. */
  datatype Comment = Comment(
    url: string,
    htmlUrl: string,
    body: string,
    user: User,
    createdAt: Timestamp,
    updatedAt: Timestamp)

  /**
   * The field-by-field projection of a fetched comment. The record's `url`
   * receives the browser link; its own `htmlUrl` is never filled in and keeps
   * the empty zero value.
   */
  function Normalize(c: ApiComment): (r: Comment)
    ensures r.user == c.user && r.body == c.body
    ensures r.createdAt == c.createdAt && r.updatedAt == c.updatedAt
    ensures r.url == c.htmlUrl && r.htmlUrl == ""
  {
    Comment(url := c.htmlUrl, htmlUrl := "", body := c.body, user := c.user,
            createdAt := c.createdAt, updatedAt := c.updatedAt)
  }

  /** The inverse of `Normalize` on the records it produces. */
  function Denormalize(r: Comment): ApiComment
  {
    ApiComment(r.user, r.url, r.body, r.createdAt, r.updatedAt)
  }

  /** Normalisation loses nothing that was fetched. */
  lemma NormalizeRoundTrip(c: ApiComment)
    ensures Denormalize(Normalize(c)) == c
  {
  }

  /** Two fetched comments with the same projection are the same comment. */
  lemma NormalizeInjective(a: ApiComment, b: ApiComment)
    requires Normalize(a) == Normalize(b)
    ensures a == b
  {
    NormalizeRoundTrip(a);
    NormalizeRoundTrip(b);
  }

  /** Every fetched comment of a list, projected, in list order. */
  function NormalizeAll(s: seq<ApiComment>): seq<Comment>
  {
    seq(|s|, i requires 0 <= i < |s| => Normalize(s[i]))
  }

  /** Non-decreasing by creation time. */
  predicate SortedByCreatedAt(s: seq<Comment>)
  {
    forall i, j :: 0 <= i < j < |s| ==> s[i].createdAt <= s[j].createdAt
  }

  /**
   * The comments of `s` created at time `t`, in their order in `s`. A sort is
   * stable exactly when it leaves this subsequence unchanged for every `t`.
   */
  function WithCreatedAt(s: seq<Comment>, t: Timestamp): (r: seq<Comment>)
    ensures |r| <= |s|
    ensures forall k :: 0 <= k < |r| ==> r[k].createdAt == t && r[k] in s
  {
    if s == [] then []
    else (if s[0].createdAt == t then [s[0]] else []) + WithCreatedAt(s[1..], t)
  }

  /** The tie view distributes over concatenation. */
  lemma {:induction false} WithCreatedAtAppend(s: seq<Comment>, u: seq<Comment>, t: Timestamp)
    ensures WithCreatedAt(s + u, t) == WithCreatedAt(s, t) + WithCreatedAt(u, t)
  {
    if s == [] {
      assert s + u == u;
    } else {
      assert (s + u)[1..] == s[1..] + u;
      WithCreatedAtAppend(s[1..], u, t);
    }
  }

  /** A comment created at `t` shows up in the tie view for `t`. */
  lemma {:induction false} WithCreatedAtHas(s: seq<Comment>, i: nat)
    requires i < |s|
    ensures s[i] in WithCreatedAt(s, s[i].createdAt)
  {
    if i > 0 {
      WithCreatedAtHas(s[1..], i - 1);
    }
  }

  /** Each comment of a tie group sits at some position of the original list. */
  lemma {:induction false} TieIndex(s: seq<Comment>, t: Timestamp, a: nat) returns (p: nat)
    requires a < |WithCreatedAt(s, t)|
    ensures p < |s| && s[p] == WithCreatedAt(s, t)[a]
  {
    var h := if s[0].createdAt == t then [s[0]] else [];
    assert WithCreatedAt(s, t) == h + WithCreatedAt(s[1..], t);
    if h != [] && a == 0 {
      p := 0;
    } else {
      var p' := TieIndex(s[1..], t, a - |h|);
      p := p' + 1;
    }
  }

  /** A tie group lists its comments in the order of their positions in the list. */
  lemma {:induction false} TieIndices(s: seq<Comment>, t: Timestamp, a: nat, b: nat) returns (p: nat, q: nat)
    requires a < b < |WithCreatedAt(s, t)|
    ensures p < q < |s|
    ensures s[p] == WithCreatedAt(s, t)[a] && s[q] == WithCreatedAt(s, t)[b]
  {
    var h := if s[0].createdAt == t then [s[0]] else [];
    var g, rest := WithCreatedAt(s, t), WithCreatedAt(s[1..], t);
    assert g == h + rest;
    assert g[b] == rest[b - |h|];
    if h != [] && a == 0 {
      var q' := TieIndex(s[1..], t, b - 1);
      assert s[1..][q'] == s[q' + 1];
      p, q := 0, q' + 1;
    } else {
      assert g[a] == rest[a - |h|];
      var p', q' := TieIndices(s[1..], t, a - |h|, b - |h|);
      assert s[1..][p'] == s[p' + 1] && s[1..][q'] == s[q' + 1];
      p, q := p' + 1, q' + 1;
    }
  }
}
