# pr comments — comment aggregation model

This project models the core of the `pr comments` subcommand of a GitHub
command-line client. The command fetches a pull request's review comments and
issue comments. It projects each one into a common `comment` record. It joins
the two lists, review comments first, and stably sorts the result by creation
time. Then it prints a header, either the entries or a "No Comments." notice,
and the pull request's link. It renders the entries at the terminal width, or
at 80 columns when the terminal size cannot be read.

Modules:

- `Wrappers` (wrappers.dfy): `Option` and `Result`.
- `Comments` (comments.dfy): the fetched comment (`ApiComment`) and the
  command's `Comment` record, with the projection `Normalize`. It also defines
  the views the ordering contract uses: `SortedByCreatedAt`, and
  `WithCreatedAt(s, t)`, the comments of `s` created at `t` in their order
  in `s`.
- `StableSort` (stable_sort.dfy): `StableSorted`, the reference stable sort,
  with its proved properties (sorted, a permutation, keeps every tie group).
  `StableSortIsUnique` shows that any sort with those properties gives the same
  sequence. `SortByCreatedAt` is the in-place array sort. It swaps a comment
  leftwards only while the comment is strictly `Before` its neighbour.
- `PrComments` (pr_comments.dfy): builds the comment list with append loops,
  aggregates it, chooses the width, produces the transcript, and runs the
  command's error gates in order.

Stability is stated as: for every timestamp `t`, the feed's tie group at `t`
equals the review comments' tie group at `t` followed by the issue comments'
tie group at `t`. So a review comment comes before an issue comment created at
the same time.

Two details follow the code and may be unexpected:

- The record keeps `UpdatedAt`, and its `HTMLURL` field stays empty. Only `URL`
  receives the fetched `HTMLURL`.
- A probed terminal width is used as probed. No check requires it to be
  positive.

## Model

| member | source | states |
|---|---|---|
| `Comments.Normalize` | command/pr_comments.go:69-75 | the record carries the fetched user, body, creation and update time unchanged; its `url` is the fetched browser link and its `htmlUrl` is left empty |
| `Comments.NormalizeInjective` | command/pr_comments.go:79-85 | two fetched comments with the same projection are equal: the projection drops no fetched field |
| `Comments.WithCreatedAtAppend` | command/pr_comments.go:66-86 | the tie group at `t` of a concatenation is the first list's tie group followed by the second's |
| `StableSort.StableSortedIsSorted` | command/pr_comments.go:88-90 | the stable sort's result is non-decreasing by creation time |
| `StableSort.StableSortedPermutes` | command/pr_comments.go:88-90 | the stable sort's result has exactly the input's comments, none dropped or duplicated |
| `StableSort.StableSortedKeepsTies` | command/pr_comments.go:88-90 | comments with equal creation time keep their input order |
| `StableSort.StableSortIsUnique` | command/pr_comments.go:88-90 | any sorted sequence that keeps every tie group of the input is the stable sort's result, so the model's sort agrees with any stable sort |
| `StableSort.SinkInto` | command/pr_comments.go:88-90 | moving the last comment left past strictly later neighbours inserts it into the sorted prefix and leaves the rest of the array alone |
| `StableSort.SortByCreatedAt` | command/pr_comments.go:88-90 | the in-place sort leaves the array equal to the stable sort of its old contents: sorted, a permutation, and tie groups unchanged |
| `PrComments.MergeComments` | command/pr_comments.go:66-86 | the list has one entry per fetched comment: the normalised review comments in order, then the normalised issue comments in order |
| `PrComments.FeedProperties` | command/pr_comments.go:66-90 | the feed's length is the sum of both fetches; the feed is sorted and a permutation of review-then-issue comments; each tie group lists review comments before issue comments |
| `PrComments.AggregateFeed` | command/pr_comments.go:66-90 | merging and then sorting in place gives the feed, with its length, order, permutation and stability |
| `PrComments.ReviewFirstOnTie` | command/pr_comments.go:68-90 | for any fetched lists, a review comment and an issue comment created at the same time appear at feed positions p < q, review first |
| `PrComments.EarlierFirst` | command/pr_comments.go:88-90 | for any fetched lists, a feed comment created strictly earlier than another sits at a smaller position, whichever fetch each came from |
| `PrComments.TieKeepsReviewFirst` | command/pr_comments.go:68-90 | example with one comment per fetch: equal creation times give the review comment first, then the issue comment |
| `PrComments.EarlierIssueFirst` | command/pr_comments.go:68-90 | example with one comment per fetch: an issue comment created strictly earlier comes before the review comment |
| `Comments.TieIndices` | command/pr_comments.go:88-90 | two comments of a tie group come from increasing positions of the list, in tie-group order |
| `PrComments.RenderWidth` | command/pr_comments.go:92-95 | the width is 80 when the terminal probe fails, otherwise the probed width |
| `PrComments.TranscriptShape` | command/pr_comments.go:97-115 | the output starts with the header and ends with the link; the notice appears exactly when the feed is empty; entry k is feed comment k |
| `PrComments.EmptyFetchesShowNotice` | command/pr_comments.go:99-101 | two empty fetches print the header, the "No Comments." notice and the link, nothing else |
| `PrComments.NoticeIffNoComments` | command/pr_comments.go:99-101 | the notice is printed exactly when both fetches returned no comment |
| `PrComments.RenderTranscript` | command/pr_comments.go:97-115 | the printing loop emits the transcript blocks in feed order |
| `PrComments.Run` | command/pr_comments.go:32-118 | each collaborator failure returns its error, in the source's order, before anything is printed; a branch error is fatal unless it is exactly "git: not on any branch"; a failed review or issue fetch names which fetch failed; otherwise the output is the transcript of the sorted feed at the chosen width |

## Left out

- API calls (client construction, base-repository resolution, pull-request lookup, the two comment fetches) are network I/O. Their results are inputs to `PrComments.Run` (`Collaborators`), and their failures are error strings.
- Branch resolution's PR number and head ref are not modelled. Nothing outside the lookup reads them, and the lookup itself is an input.
- The `@me` user macro is a backend search feature, so it is not modelled.
- `terminal.GetSize` is an OS call. Its outcome is an `Option<int>` input.
- Markdown rendering, relative-time phrasing ("3 days ago", from the wall clock), colouring and `fmt` printing are foreign libraries and terminal output. An output line is an abstract `Block` that carries the values the line is built from.
- Command registration (`init`, `prCommentsCmd`) is framework plumbing.
- `time.Time` is modelled as an integer timestamp, with `Before` as strict `<`. Monotonic clock readings and time zones are not modelled.
- The fetched comment type comes from the `api` package, which is not part of this model. `ApiComment` holds only the fields the command reads. Its user is never nil, so the panic on a nil `*c.User` is not modelled.
- A nil current pull request in the lookup payload would panic. That is not modelled: a successful lookup always yields a `PullRequest`.
- `StableSort.SortByCreatedAt` uses insertion sort with adjacent swaps. The Go library sort uses this for short slices and merges blocks for longer ones. `StableSort.StableSortIsUnique` shows that every stable sort gives the same result, so the choice of algorithm does not change the feed.
- The comment slice is built as a sequence by appending, and then copied into a fresh array to be sorted. The slice is local to the command, so no aliasing is lost.
