# Gerrit comment-count node decorator, modelled in Dafny

The Gerrit IntelliJ plugin shows the files of a selected change as a tree. For each file
node, `GerritCommentCountChangeNodeDecorator` appends a grey suffix such as
` (3 comments, 1 draft)`. The suffix counts two things: the published review comments on
that file in the change's current revision, and the draft comments buffered locally for it.
The published comments come from one successful Gerrit REST request per selection. That
request is memoized with Guava's `Suppliers.memoize`: a failed request is not cached, and
the next decoration sends it again.

This model is built from three modules:

- `Wrappers` (`wrappers.dfy`): `Option`, `Result` and `Outcome`. A Java `null` becomes `None`,
  and a thrown exception becomes a `Failure` or `Fail` value.
- `Format` (`format.dfy`): how `String.format("%s", n)` prints a count (`FormatInt`) and how
  `Joiner.on(", ")` joins the clauses (`Join`). It also has `ParseInt`, the inverse of
  `FormatInt`.
- `CommentCount` (`comment_count.dfy`): the decorator itself, with these parts:
  - the data model: `ChangeInfo`, `Change`, `ContentRevision`, `CommentInfo`, `CommentInput`,
    and the comment map;
  - the pure parts: path selection, the draft filter, the clauses and the suffix;
  - `ParseSuffix`, a reference inverse of the suffix text, which shows that no two pairs of
    counts render to the same text;
  - the class `CommentCountChangeNodeDecorator`. Its fields are the selected change and the
    state of the memoized supplier. A ghost log records every comment request sent to the
    server.
  - the class `ColoredComponent`, which stands for the node's text component. It is the list
    of text fragments appended to the node so far.

The decorator's collaborators are passed in explicitly:

- the draft buffer `ReviewCommentSink.getCommentsForChange` is a function `DraftSink` from
  (change id, revision) to drafts;
- `PathUtils.getRelativeOrAbsolutePath` is a function `PathResolver`;
- the Gerrit server is represented by `reply`, the answer it would give if asked now. Its
  result is used only when the memoized supplier really sends a request.

Behaviours of the code that the model keeps:

- A map entry holding an empty list still produces the clause `0 comments`.
- `Decorate` forces the supplier before it looks at whether the node has a path. A node
  with no path therefore still triggers the first fetch.
- The file name is resolved against the project of the decorator's own `selectedChange`
  field. Drafts, however, are looked up for the `selectedChange` argument of `decorate`.
- Before any change is selected, the field is `null`. Forcing the supplier then fails
  (`NullSelectedChange`) without sending a request, and nothing is cached.
- The decorator does not return the suffix: it appends ` (<suffix>)` to the node's
  component itself, and only when the suffix is non-empty.

The methods `FailureScenario`, `MemoizedScenario` and `ReselectScenario` are clients that
use only the contracts. They show three behaviours:

- a failed fetch is retried on the next decoration;
- a second decoration in the same selection reuses the cached map;
- selecting the same change again forces a new request.

## Model

| member | source | states |
|---|---|---|
| `Format.FormatInt` | src/main/java/com/urswolfer/intellij/plugin/gerrit/ui/GerritCommentCountChangeNodeDecorator.java:95-99 | the `%s` rendering of a count is a non-empty string of decimal digits; it has one digit exactly when the count is below ten, and it starts with `0` only for zero |
| `Format.ParseFormatInt` | src/main/java/com/urswolfer/intellij/plugin/gerrit/ui/GerritCommentCountChangeNodeDecorator.java:95-99 | reading the decimal rendering back gives the original count, so the rendering loses nothing |
| `Format.Join` | src/main/java/com/urswolfer/intellij/plugin/gerrit/ui/GerritCommentCountChangeNodeDecorator.java:43 | the length of the joined text is the sum of the parts plus one separator per gap, and a single part is returned unchanged |
| `Format.JoinSnoc` | src/main/java/com/urswolfer/intellij/plugin/gerrit/ui/GerritCommentCountChangeNodeDecorator.java:93-101 | joining a list with one more part added at the end gives the earlier join, the separator, then that part: the parts appear in order with the separator between neighbours |
| `CommentCount.AffectedFilePath` | src/main/java/com/urswolfer/intellij/plugin/gerrit/ui/GerritCommentCountChangeNodeDecorator.java:74-84 | a path exists exactly when there is an after or a before revision; the after revision's path wins, the before revision's is used only when there is no after revision, and otherwise there is none |
| `CommentCount.FilterByPath` | src/main/java/com/urswolfer/intellij/plugin/gerrit/ui/GerritCommentCountChangeNodeDecorator.java:104-113 | the kept drafts are exactly the buffered drafts whose path equals the file name: each such draft is kept as many times as it is buffered, and no other draft is kept |
| `CommentCount.DraftsForFile` | src/main/java/com/urswolfer/intellij/plugin/gerrit/ui/GerritCommentCountChangeNodeDecorator.java:104-113 | the drafts counted for the file are exactly the drafts the buffer holds for the change's id and current revision whose path equals the file name, each as many times as it is buffered |
| `CommentCount.CommentCountFor` | src/main/java/com/urswolfer/intellij/plugin/gerrit/ui/GerritCommentCountChangeNodeDecorator.java:91-95 | there is a comment count exactly when the map has an entry for the file, and the count is that entry's list length, which may be zero |
| `CommentCount.SuffixText` | src/main/java/com/urswolfer/intellij/plugin/gerrit/ui/GerritCommentCountChangeNodeDecorator.java:93-101 | the suffix is empty exactly when there is no comment entry and no draft |
| `CommentCount.CountClausePlural` | src/main/java/com/urswolfer/intellij/plugin/gerrit/ui/GerritCommentCountChangeNodeDecorator.java:95-99 | a clause `<n> comment` or `<n> draft` ends in `s` exactly when n is not one |
| `CommentCount.SuffixRoundTrip` | src/main/java/com/urswolfer/intellij/plugin/gerrit/ui/GerritCommentCountChangeNodeDecorator.java:93-101 | both counts can be read back from the suffix: the comment clause comes first, the draft clause second, separated by `, `, and a clause is present exactly when its source is |
| `CommentCount.SuffixInjective` | src/main/java/com/urswolfer/intellij/plugin/gerrit/ui/GerritCommentCountChangeNodeDecorator.java:93-101 | two pairs of counts that render to the same suffix are equal |
| `CommentCount.SuffixExamples` | src/main/java/com/urswolfer/intellij/plugin/gerrit/ui/GerritCommentCountChangeNodeDecorator.java:93-101 | concrete suffixes: `1 comment`, `2 drafts`, `3 comments, 1 draft`, and the empty suffix when there is nothing to count |
| `CommentCount.EmptyCommentListShown` | src/main/java/com/urswolfer/intellij/plugin/gerrit/ui/GerritCommentCountChangeNodeDecorator.java:94-95 | a map entry holding an empty list yields `0 comments` |
| `CommentCount.ColoredComponent.Append` | src/main/java/com/urswolfer/intellij/plugin/gerrit/ui/GerritCommentCountChangeNodeDecorator.java:62 | appending adds exactly one fragment at the end and keeps the earlier fragments |
| `CommentCount.CommentCountChangeNodeDecorator.constructor` | src/main/java/com/urswolfer/intellij/plugin/gerrit/ui/GerritCommentCountChangeNodeDecorator.java:52-53 | a new decorator has no selected change and a fresh supplier that has not fetched, and no request has been sent |
| `CommentCount.CommentCountChangeNodeDecorator.OnChangeSelected` | src/main/java/com/urswolfer/intellij/plugin/gerrit/ui/GerritCommentCountChangeNodeDecorator.java:68-72 | the given change becomes the selection and the cached map is dropped unconditionally, even for the same change; no request is sent; the per-selection invariant starts over |
| `CommentCount.CommentCountChangeNodeDecorator.GetComments` | src/main/java/com/urswolfer/intellij/plugin/gerrit/ui/GerritCommentCountChangeNodeDecorator.java:120-133 | a cached map is returned with no request. Otherwise: with no selection the call fails and sends nothing; with a selection, exactly one request is sent for its id and current revision. A successful answer is cached and returned; a failure is returned and not cached. The invariant keeps at most one successful fetch per selection, and every request of the selection is for the selected revision |
| `CommentCount.CommentCountChangeNodeDecorator.NodeSuffix` | src/main/java/com/urswolfer/intellij/plugin/gerrit/ui/GerritCommentCountChangeNodeDecorator.java:86-118 | the clauses built one by one and joined equal the suffix for the resolved file name. The name is resolved against the stored selection's project; the drafts are those of the change passed in. The text is empty exactly when the map has no entry for the name and no buffered draft has that path |
| `CommentCount.CommentCountChangeNodeDecorator.Decorate` | src/main/java/com/urswolfer/intellij/plugin/gerrit/ui/GerritCommentCountChangeNodeDecorator.java:55-66 | the supplier is forced first. If it fails, the failure is returned and the component is unchanged. If it succeeds, a node with no path gets nothing, and otherwise the component gains ` (<suffix>)` exactly when the suffix is non-empty. The selection is unchanged, and at most one request is sent |

## Left out

- IntelliJ rendering: the grey italic text attributes and `repaint()` are not modelled. The component is only its list of appended text fragments.
- The Gerrit REST call chain is not modelled, and neither is wrapping `RestApiException` with `Throwables.propagate`. The server is the `reply` oracle, and a failure keeps only its message.
- Thread safety of `Suppliers.memoize` is not modelled: the model is single-threaded, computing once on success.
- The internals of `ReviewCommentSink` and `PathUtils` are not part of this model. They are function parameters. Because the draft sink is a function, the model queries it once per decoration, where the code's lazy filter reads it twice (for `isEmpty` and `size`).
- Guice injection is not modelled; the collaborators are passed explicitly.
- Comment and draft content is not modelled beyond a draft's path and the number of comments per file.
- `null` arguments to `decorate` and `onChangeSelected` are not modelled, nor is a draft whose `path` is `null` (the code would throw from `path.equals`). A `null` map returned by the server is left out too, and so is a `null` list value in the map: the code tests the looked-up list for `null`, the model tests whether the file has an entry, and the two agree only when no value is `null`. Only the null `selectedChange` field before the first selection is modelled.
