/**
 * The `pr comments` command: it gates on the errors of its collaborators,
 * merges the review comments and the issue comments of a pull request into
 * one feed, stably sorts that feed by creation time, picks the render width
 * and produces the printed transcript.
 */
module PrComments {
  import opened Wrappers
  import opened Comments
  import opened StableSort

  /** The one branch-resolution error the command tolerates. */
  const NotOnAnyBranch: string := "git: not on any branch"

  /** Width used when the terminal size cannot be read. */
  const DefaultWidth: int := 80

  const BranchQueryFailed: string := "could not query for pull request for current branch: "
  const ReviewFetchFailed: string := "failed to get PR review comments: "
  const IssueFetchFailed: string := "failed to get issues comments: "

  /** The pull request the comments belong to. */
  datatype PullRequest = PullRequest(number: int, url: string)

  /**
   * What the command's collaborators deliver: the error (if any) of client
   * construction, of base-repository resolution and of branch resolution,
   * the pull-request lookup, the two comment fetches and the terminal probe.
   */
  datatype Collaborators = Collaborators(
    clientErr: Option<string>,
    baseRepoErr: Option<string>,
    branchErr: Option<string>,
    prLookup: Result<PullRequest, string>,
    reviewFetch: Result<seq<ApiComment>, string>,
    issueFetch: Result<seq<ApiComment>, string>,
    widthProbe: Option<int>)

  /** One printed block, in the order the command prints them. */
  datatype Block =
    | Header(prNumber: int)
    | NoComments
    | Entry(login: string, createdAt: Timestamp, url: string, body: string, width: int)
    | Footer(prUrl: string)

  /**
   * The block for one comment: author, creation time (shown relative to the
   * wall clock), link, and the body rendered as markdown at `width` columns.
   */
  function EntryFor(c: Comment, width: int): Block
  {
    Entry(c.user.login, c.createdAt, c.url, c.body, width)
  }

  /** The merged, time-ordered feed: review comments first, then a stable sort. */
  function Feed(review: seq<ApiComment>, issue: seq<ApiComment>): seq<Comment>
  {
    StableSorted(NormalizeAll(review) + NormalizeAll(issue))
  }

  /** Everything the command prints after a successful fetch. */
  function Transcript(pr: PullRequest, feed: seq<Comment>, width: int): seq<Block>
  {
    [Header(pr.number)]
    + (if feed == [] then [NoComments] else [])
    + seq(|feed|, k requires 0 <= k < |feed| => EntryFor(feed[k], width))
    + [Footer(pr.url)]
  }

  /** Whether a branch-resolution failure ends the command. */
  predicate BranchErrorIsFatal(err: Option<string>)
  {
    err.Some? && err.value != NotOnAnyBranch
  }

  /** The render width: the probed column count, or 80 when the probe failed. */
  function RenderWidth(probe: Option<int>): (w: int)
    ensures probe.None? ==> w == DefaultWidth
    ensures probe.Some? ==> w == probe.value
  {
    match probe
    case None => DefaultWidth
    case Some(columns) => columns
  }

  /**
   * Builds the comment list by appending each normalised review comment and
   * then each normalised issue comment.
   */
  method MergeComments(review: seq<ApiComment>, issue: seq<ApiComment>) returns (comments: seq<Comment>)
    ensures |comments| == |review| + |issue|
    ensures forall k :: 0 <= k < |review| ==> comments[k] == Normalize(review[k])
    ensures forall k :: 0 <= k < |issue| ==> comments[|review| + k] == Normalize(issue[k])
    ensures comments == NormalizeAll(review) + NormalizeAll(issue)
  {
    comments := [];
    for i := 0 to |review|
      invariant comments == NormalizeAll(review[..i])
    {
      comments := comments + [Normalize(review[i])];
    }
    assert review[..|review|] == review;
    for i := 0 to |issue|
      invariant comments == NormalizeAll(review) + NormalizeAll(issue[..i])
    {
      comments := comments + [Normalize(issue[i])];
    }
    assert issue[..|issue|] == issue;
  }

  /** The merged feed has the properties the command relies on. */
  lemma FeedProperties(review: seq<ApiComment>, issue: seq<ApiComment>)
    ensures |Feed(review, issue)| == |review| + |issue|
    ensures SortedByCreatedAt(Feed(review, issue))
    ensures multiset(Feed(review, issue)) == multiset(NormalizeAll(review) + NormalizeAll(issue))
    ensures forall t :: WithCreatedAt(Feed(review, issue), t)
                        == WithCreatedAt(NormalizeAll(review), t) + WithCreatedAt(NormalizeAll(issue), t)
  {
    var merged := NormalizeAll(review) + NormalizeAll(issue);
    StableSortedIsSorted(merged);
    StableSortedPermutes(merged);
    forall t ensures WithCreatedAt(Feed(review, issue), t)
                     == WithCreatedAt(NormalizeAll(review), t) + WithCreatedAt(NormalizeAll(issue), t) {
      StableSortedKeepsTies(merged, t);
      WithCreatedAtAppend(NormalizeAll(review), NormalizeAll(issue), t);
    }
  }

  /**
   * Merges the two fetched lists and sorts the result in place by creation
   * time, stably.
   */
  method AggregateFeed(review: seq<ApiComment>, issue: seq<ApiComment>) returns (feed: seq<Comment>)
    ensures feed == Feed(review, issue)
    ensures |feed| == |review| + |issue|
    ensures SortedByCreatedAt(feed)
    ensures multiset(feed) == multiset(NormalizeAll(review) + NormalizeAll(issue))
    ensures forall t :: WithCreatedAt(feed, t)
                        == WithCreatedAt(NormalizeAll(review), t) + WithCreatedAt(NormalizeAll(issue), t)
  {
    var comments := MergeComments(review, issue);
    var a := new Comment[|comments|](k requires 0 <= k < |comments| => comments[k]);
    assert a[..] == comments;
    SortByCreatedAt(a);
    feed := a[..];
    FeedProperties(review, issue);
  }

  /**
   * Stability across the two fetches: for any lists, a review comment and an
   * issue comment created at the same time appear in the feed review first.
   */
  lemma ReviewFirstOnTie(review: seq<ApiComment>, issue: seq<ApiComment>, i: nat, j: nat)
    returns (p: nat, q: nat)
    requires i < |review| && j < |issue|
    requires review[i].createdAt == issue[j].createdAt
    ensures p < q < |Feed(review, issue)|
    ensures Feed(review, issue)[p] == Normalize(review[i])
    ensures Feed(review, issue)[q] == Normalize(issue[j])
  {
    var t := review[i].createdAt;
    var rs, ns := NormalizeAll(review), NormalizeAll(issue);
    var rt, it := WithCreatedAt(rs, t), WithCreatedAt(ns, t);
    FeedProperties(review, issue);
    WithCreatedAtHas(rs, i);
    WithCreatedAtHas(ns, j);
    var a :| 0 <= a < |rt| && rt[a] == rs[i];
    var b :| 0 <= b < |it| && it[b] == ns[j];
    var g := WithCreatedAt(Feed(review, issue), t);
    assert g == rt + it;
    assert g[a] == rs[i] && g[|rt| + b] == ns[j];
    p, q := TieIndices(Feed(review, issue), t, a, |rt| + b);
  }

  /**
   * For any lists, a comment created strictly earlier than another appears
   * before it in the feed, whichever fetch each came from.
   */
  lemma EarlierFirst(review: seq<ApiComment>, issue: seq<ApiComment>, p: nat, q: nat)
    requires p < |Feed(review, issue)| && q < |Feed(review, issue)|
    requires Feed(review, issue)[p].createdAt < Feed(review, issue)[q].createdAt
    ensures p < q
  {
    FeedProperties(review, issue);
  }

  /** Example: a review comment and an issue comment created at the same time keep merge order. */
  lemma TieKeepsReviewFirst(review: ApiComment, issue: ApiComment)
    requires review.createdAt == issue.createdAt
    ensures Feed([review], [issue]) == [Normalize(review), Normalize(issue)]
  {
    var merged := NormalizeAll([review]) + NormalizeAll([issue]);
    assert merged == [Normalize(review), Normalize(issue)];
    assert merged[..1] == [Normalize(review)];
    assert StableSorted(merged[..1]) == [Normalize(review)] by {
      assert merged[..1][..0] == [];
    }
  }

  /** Example: an issue comment created strictly earlier moves ahead of a review comment. */
  lemma EarlierIssueFirst(review: ApiComment, issue: ApiComment)
    requires issue.createdAt < review.createdAt
    ensures Feed([review], [issue]) == [Normalize(issue), Normalize(review)]
  {
    var merged := NormalizeAll([review]) + NormalizeAll([issue]);
    assert merged == [Normalize(review), Normalize(issue)];
    assert merged[..1] == [Normalize(review)];
    assert StableSorted(merged[..1]) == [Normalize(review)] by {
      assert merged[..1][..0] == [];
    }
    var x, y := Normalize(review), Normalize(issue);
    assert Insert([x], y) == Insert([], y) + [x] by {
      assert [x][..0] == [];
    }
  }

  /** The transcript opens with the header, closes with the link, and lists the feed in order. */
  lemma TranscriptShape(pr: PullRequest, feed: seq<Comment>, width: int)
    ensures var out := Transcript(pr, feed, width);
      && |out| == |feed| + (if feed == [] then 3 else 2)
      && out[0] == Header(pr.number)
      && out[|out| - 1] == Footer(pr.url)
      && (NoComments in out <==> feed == [])
      && (forall k :: 0 <= k < |feed| ==> out[k + 1] == EntryFor(feed[k], width))
  {
    var out := Transcript(pr, feed, width);
    var entries := seq(|feed|, k requires 0 <= k < |feed| => EntryFor(feed[k], width));
    if feed != [] {
      assert out == [Header(pr.number)] + entries + [Footer(pr.url)];
    }
  }

  /** Two empty fetches print the "No Comments." notice and nothing else between header and link. */
  lemma EmptyFetchesShowNotice(pr: PullRequest, width: int)
    ensures Transcript(pr, Feed([], []), width) == [Header(pr.number), NoComments, Footer(pr.url)]
  {
    FeedProperties([], []);
  }

  /** The notice is printed exactly when neither fetch returned a comment. */
  lemma NoticeIffNoComments(pr: PullRequest, review: seq<ApiComment>, issue: seq<ApiComment>, width: int)
    ensures NoComments in Transcript(pr, Feed(review, issue), width) <==> review == [] && issue == []
  {
    FeedProperties(review, issue);
    TranscriptShape(pr, Feed(review, issue), width);
  }

  /** Produces the printed blocks in order: header, notice or entries, link. */
  method RenderTranscript(pr: PullRequest, feed: seq<Comment>, width: int) returns (out: seq<Block>)
    ensures out == Transcript(pr, feed, width)
  {
    out := [Header(pr.number)];
    if |feed| == 0 {
      out := out + [NoComments];
    }
    ghost var opening := out;
    for i := 0 to |feed|
      invariant out == opening + seq(i, k requires 0 <= k < i => EntryFor(feed[k], width))
    {
      out := out + [EntryFor(feed[i], width)];
    }
    out := out + [Footer(pr.url)];
  }

  /**
   * Runs the command against its collaborators' results. Every failure is an
   * `Err` carrying the message the command returns; the printed blocks exist
   * only on success, so nothing is printed before a failure.
   */
  method Run(env: Collaborators) returns (r: Result<seq<Block>, string>)
    ensures env.clientErr.Some? ==> r == Err(env.clientErr.value)
    ensures env.clientErr.None? && env.baseRepoErr.Some? ==> r == Err(env.baseRepoErr.value)
    ensures (env.clientErr.None? && env.baseRepoErr.None? && BranchErrorIsFatal(env.branchErr))
            ==> r == Err(BranchQueryFailed + env.branchErr.value)
    ensures (env.clientErr.None? && env.baseRepoErr.None? && !BranchErrorIsFatal(env.branchErr)
             && env.prLookup.Err?) ==> r == Err(env.prLookup.error)
    ensures (env.clientErr.None? && env.baseRepoErr.None? && !BranchErrorIsFatal(env.branchErr)
             && env.prLookup.Ok? && env.reviewFetch.Err?)
            ==> r == Err(ReviewFetchFailed + env.reviewFetch.error)
    ensures (env.clientErr.None? && env.baseRepoErr.None? && !BranchErrorIsFatal(env.branchErr)
             && env.prLookup.Ok? && env.reviewFetch.Ok? && env.issueFetch.Err?)
            ==> r == Err(IssueFetchFailed + env.issueFetch.error)
    ensures (env.clientErr.None? && env.baseRepoErr.None? && !BranchErrorIsFatal(env.branchErr)
             && env.prLookup.Ok? && env.reviewFetch.Ok? && env.issueFetch.Ok?)
            ==> r == Ok(Transcript(env.prLookup.value,
                                   Feed(env.reviewFetch.value, env.issueFetch.value),
                                   RenderWidth(env.widthProbe)))
  {
    if env.clientErr.Some? {
      return Err(env.clientErr.value);
    }
    if env.baseRepoErr.Some? {
      return Err(env.baseRepoErr.value);
    }
    if BranchErrorIsFatal(env.branchErr) {
      return Err(BranchQueryFailed + env.branchErr.value);
    }
    if env.prLookup.Err? {
      return Err(env.prLookup.error);
    }
    var pr := env.prLookup.value;
    if env.reviewFetch.Err? {
      return Err(ReviewFetchFailed + env.reviewFetch.error);
    }
    if env.issueFetch.Err? {
      return Err(IssueFetchFailed + env.issueFetch.error);
    }
    var feed := AggregateFeed(env.reviewFetch.value, env.issueFetch.value);
    var width := RenderWidth(env.widthProbe);
    var out := RenderTranscript(pr, feed, width);
    return Ok(out);
  }
}
