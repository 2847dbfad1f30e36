/**
 * The comment-count decorator of the Gerrit change browser: for each file node of a
 * change tree it appends a grey suffix such as " (3 comments, 1 draft)" that counts the
 * published review comments of the selected change's current revision (fetched once per
 * selection and memoized) and the locally buffered draft comments for that file.
 *
 * Collaborators are explicit parameters: the draft buffer (`DraftSink`), the path utility
 * (`PathResolver`) and the answer the Gerrit server gives to a comment request (`reply`).
 */
module CommentCount {
  import opened Wrappers
  import opened Format

  /** The parts of a Gerrit `ChangeInfo` the decorator reads. */
  datatype ChangeInfo = ChangeInfo(id: string, currentRevision: string, project: string)

  /** An IntelliJ project, identified by its base directory. */
  datatype Project = Project(basePath: string)

  /** One side of a VCS change: the revision's file path. */
  datatype ContentRevision = ContentRevision(path: string)

  /** A file change of the local diff: no before revision for an added file, no after
      revision for a deleted one. */
  datatype Change = Change(beforeRevision: Option<ContentRevision>, afterRevision: Option<ContentRevision>)

  /** A published comment; only how many there are per file matters here. */
  datatype CommentInfo = CommentInfo(message: string)

  /** A buffered draft comment (`ReviewInput.CommentInput`). */
  datatype CommentInput = CommentInput(path: string, message: string)

  /** Published comments of one revision, keyed by file path. */
  type CommentMap = map<string, seq<CommentInfo>>

  /** `ReviewCommentSink.getCommentsForChange(changeId, revisionId)`. */
  type DraftSink = (string, string) -> seq<CommentInput>

  /** `PathUtils.getRelativeOrAbsolutePath(project, absolutePath, gerritProjectName)`. */
  type PathResolver = (Project, string, string) -> string

  /** The (change, revision) pair a comment request is sent for. */
  datatype RevisionKey = RevisionKey(changeId: string, revision: string)

  /** Why forcing the memoized comment supplier failed. */
  datatype Failure =
    | RestApiFailure(message: string)  // the REST call threw; rethrown unchecked
    | NullSelectedChange               // no change selected yet: the request cannot be built

  function KeyOf(change: ChangeInfo): RevisionKey {
    RevisionKey(change.id, change.currentRevision)
  }

  /** The path a change node stands for: the after revision's path, or failing that the
      before revision's, or none at all. */
  function AffectedFilePath(change: Change): (p: Option<string>)
    ensures p.Some? <==> change.afterRevision.Some? || change.beforeRevision.Some?
    ensures change.afterRevision.Some? ==> p == Some(change.afterRevision.value.path)
    ensures change.afterRevision.None? ==> p == if change.beforeRevision.Some? then Some(change.beforeRevision.value.path) else None
  {
    if change.afterRevision.Some? then Some(change.afterRevision.value.path)
    else if change.beforeRevision.Some? then Some(change.beforeRevision.value.path)
    else None
  }

  /** The drafts whose path equals `fileName` exactly, in buffer order. */
  function FilterByPath(drafts: seq<CommentInput>, fileName: string): (r: seq<CommentInput>)
    ensures forall d :: multiset(r)[d] == if d.path == fileName then multiset(drafts)[d] else 0
    ensures forall i :: 0 <= i < |r| ==> r[i].path == fileName
    ensures |r| <= |drafts|
  {
    if drafts == [] then []
    else
      assert drafts == [drafts[0]] + drafts[1..];
      if drafts[0].path == fileName then [drafts[0]] + FilterByPath(drafts[1..], fileName)
      else FilterByPath(drafts[1..], fileName)
  }

  /** The buffered drafts of the change's current revision that belong to `fileName`. */
  function DraftsForFile(sink: DraftSink, change: ChangeInfo, fileName: string): (r: seq<CommentInput>)
    ensures forall d :: d in r <==> d in sink(change.id, change.currentRevision) && d.path == fileName
    ensures forall d :: multiset(r)[d] ==
              if d.path == fileName then multiset(sink(change.id, change.currentRevision))[d] else 0
  {
    var r := FilterByPath(sink(change.id, change.currentRevision), fileName);
    assert forall d :: d in r <==> multiset(r)[d] > 0;
    r
  }

  /** How many published comments the map holds for `fileName`, or None without an entry. */
  function CommentCountFor(commentsMap: CommentMap, fileName: string): (c: Option<nat>)
    ensures c.Some? <==> fileName in commentsMap
    ensures c.Some? ==> c.value == |commentsMap[fileName]|
  {
    if fileName in commentsMap then Some(|commentsMap[fileName]|) else None
  }

  /** `String.format("%s <noun>%s", n, n == 1 ? "" : "s")`. */
  function CountClause(n: nat, noun: string): string {
    FormatInt(n) + " " + noun + (if n == 1 then "" else "s")
  }

  /** The suffix for a file with `commentCount` published comments (None: no map entry)
      and `draftCount` drafts: the comment clause, then the draft clause, joined by ", ". */
  function SuffixText(commentCount: Option<nat>, draftCount: nat): (text: string)
    ensures text == "" <==> commentCount.None? && draftCount == 0
  {
    match commentCount
    case None =>
      if draftCount == 0 then "" else CountClause(draftCount, "draft")
    case Some(n) =>
      if draftCount == 0 then CountClause(n, "comment")
      else CountClause(n, "comment") + ", " + CountClause(draftCount, "draft")
  }

  /** A clause ends in "s" exactly when its count is not one. */
  lemma CountClausePlural(n: nat, noun: string)
    requires noun != "" && noun[|noun| - 1] != 's'
    ensures var c := CountClause(n, noun); c[|c| - 1] == 's' <==> n != 1
  {
  }

  /** Reads a clause "<digits> <noun>" with an optional plural "s" off the front of `s`. */
  function ParseClause(s: string, noun: string): Option<(nat, string)> {
    var k := DigitRun(s);
    var after := s[k..];
    var word := " " + noun;
    if k == 0 || |after| < |word| || after[..|word|] != word then None
    else
      var tail := after[|word|..];
      var rest := if tail != [] && tail[0] == 's' then tail[1..] else tail;
      Some((ParseInt(s[..k]), rest))
  }

  /** Recovers the two counts from a suffix text. */
  function ParseSuffix(s: string): Option<(Option<nat>, nat)> {
    if s == [] then Some((None, 0))
    else match ParseClause(s, "comment")
      case Some((n, rest)) =>
        if rest == [] then Some((Some(n), 0))
        else if |rest| >= 2 && rest[..2] == ", " then
          match ParseClause(rest[2..], "draft")
          case Some((m, tail)) => if tail == [] then Some((Some(n), m)) else None
          case None => None
        else None
      case None =>
        match ParseClause(s, "draft")
        case Some((m, tail)) => if tail == [] then Some((None, m)) else None
        case None => None
  }

  lemma ParseClauseRoundTrip(n: nat, noun: string, t: string)
    requires t == [] || t[0] == ','
    ensures ParseClause(CountClause(n, noun) + t, noun) == Some((n, t))
  {
    var f := FormatInt(n);
    var word := " " + noun;
    var pl := if n == 1 then "" else "s";
    var after := word + (pl + t);
    var s := CountClause(n, noun) + t;
    assert s == f + after;
    DigitRunOfPrefix(f, after);
    assert s[..|f|] == f;
    assert s[|f|..] == after;
    ParseFormatInt(n);
    assert after[..|word|] == word;
    assert after[|word|..] == pl + t;
  }

  lemma ParseClauseOtherNoun(n: nat, t: string)
    ensures ParseClause(CountClause(n, "draft") + t, "comment") == None
  {
    var f := FormatInt(n);
    var after := " draft" + (if n == 1 then "" else "s") + t;
    var s := CountClause(n, "draft") + t;
    assert s == f + after;
    DigitRunOfPrefix(f, after);
    assert s[|f|..] == after;
    assert |after| >= 8 ==> after[..8][1] == 'd';
  }

  /** The suffix text loses nothing: both counts can be read back from it. */
  lemma SuffixRoundTrip(commentCount: Option<nat>, draftCount: nat)
    ensures ParseSuffix(SuffixText(commentCount, draftCount)) == Some((commentCount, draftCount))
  {
    var s := SuffixText(commentCount, draftCount);
    match commentCount
    case None =>
      if draftCount > 0 {
        assert s == CountClause(draftCount, "draft") + [];
        ParseClauseOtherNoun(draftCount, []);
        ParseClauseRoundTrip(draftCount, "draft", []);
      }
    case Some(n) =>
      if draftCount == 0 {
        assert s == CountClause(n, "comment") + [];
        ParseClauseRoundTrip(n, "comment", []);
      } else {
        var drafts := CountClause(draftCount, "draft");
        var rest := ", " + drafts;
        assert s == CountClause(n, "comment") + rest;
        ParseClauseRoundTrip(n, "comment", rest);
        assert rest[2..] == drafts + [];
        ParseClauseRoundTrip(draftCount, "draft", []);
      }
  }

  /** Different counts never render to the same suffix. */
  lemma SuffixInjective(c1: Option<nat>, d1: nat, c2: Option<nat>, d2: nat)
    requires SuffixText(c1, d1) == SuffixText(c2, d2)
    ensures c1 == c2 && d1 == d2
  {
    SuffixRoundTrip(c1, d1);
    SuffixRoundTrip(c2, d2);
  }

  /** The suffixes shown for typical counts: clause order, separator and plural. */
  lemma SuffixExamples()
    ensures SuffixText(Some(1), 0) == "1 comment"
    ensures SuffixText(None, 2) == "2 drafts"
    ensures SuffixText(Some(3), 1) == "3 comments, 1 draft"
    ensures SuffixText(None, 0) == ""
  {
    assert SuffixText(Some(1), 0) == "1 comment" by { assert FormatInt(1) == "1"; }
    assert SuffixText(None, 2) == "2 drafts" by { assert FormatInt(2) == "2"; }
    assert SuffixText(Some(3), 1) == "3 comments, 1 draft" by {
      assert CountClause(3, "comment") == "3 comments" by { assert FormatInt(3) == "3"; }
      assert CountClause(1, "draft") == "1 draft" by { assert FormatInt(1) == "1"; }
    }
  }

  /** A map entry holding an empty list still yields a comment clause: "0 comments". */
  lemma EmptyCommentListShown(fileName: string)
    ensures SuffixText(CommentCountFor(map[fileName := []], fileName), 0) == "0 comments"
  {
    assert FormatInt(0) == "0";
  }

  /** The tree node's text component; appended fragments are kept in order. */
  class ColoredComponent {
    var fragments: seq<string>

    constructor (text: string)
      ensures fragments == [text]
    {
      fragments := [text];
    }

    method Append(text: string)
      modifies this
      ensures fragments == old(fragments) + [text]
    {
      fragments := fragments + [text];
    }
  }

  class CommentCountChangeNodeDecorator {
    var selectedChange: Option<ChangeInfo>
    /** State of the memoized comment supplier: the map of its first successful fetch since
        the last selection, or None while no fetch has succeeded. */
    var comments: Option<CommentMap>

    /** Every comment request sent to the server, in order. */
    ghost var requests: seq<RevisionKey>
    /** Index in `requests` at which the current selection began. */
    ghost var selectionStart: nat
    /** Successful fetches since the current selection began. */
    ghost var successfulFetches: nat

    ghost predicate Valid()
      reads this
    {
      && selectionStart <= |requests|
      && (selectedChange.None? ==> selectionStart == |requests| && comments.None?)
      && (selectedChange.Some? ==>
            forall i :: selectionStart <= i < |requests| ==> requests[i] == KeyOf(selectedChange.value))
      && successfulFetches <= 1
      && (comments.Some? <==> successfulFetches == 1)
      && successfulFetches <= |requests| - selectionStart
    }

    constructor ()
      ensures Valid()
      ensures selectedChange == None && comments == None && requests == []
    {
      selectedChange := None;
      comments := None;
      requests := [];
      selectionStart := 0;
      successfulFetches := 0;
    }

    /** Records the selection and replaces the memoized supplier, even for the same change. */
    method OnChangeSelected(project: Project, selected: ChangeInfo)
      requires Valid()
      modifies this
      ensures Valid()
      ensures selectedChange == Some(selected) && comments == None
      ensures requests == old(requests) && selectionStart == |requests| && successfulFetches == 0
    {
      selectedChange := Some(selected);
      comments := None;
      selectionStart := |requests|;
      successfulFetches := 0;
    }

    /** Forces the memoized supplier. A cached map is returned without a request; otherwise
        one request is sent for the selected change's current revision, and only a
        successful answer is kept. `reply` is what the server answers if asked. */
    method GetComments(reply: Result<CommentMap, string>) returns (r: Result<CommentMap, Failure>)
      requires Valid()
      modifies this
      ensures Valid()
      ensures selectedChange == old(selectedChange) && selectionStart == old(selectionStart)
      ensures r.Success? <==> comments.Some?
      ensures r.Success? ==> comments == Some(r.value)
      ensures old(comments).Some? ==> r == Success(old(comments).value) && requests == old(requests)
      ensures old(comments).None? && selectedChange.None? ==>
                r == Failure(NullSelectedChange) && requests == old(requests)
      ensures old(comments).None? && selectedChange.Some? ==>
                && requests == old(requests) + [KeyOf(selectedChange.value)]
                && r == match reply
                        case Success(m) => Success(m)
                        case Failure(e) => Failure(RestApiFailure(e))
    {
      if comments.Some? {
        return Success(comments.value);
      }
      if selectedChange.None? {
        return Failure(NullSelectedChange);
      }
      requests := requests + [KeyOf(selectedChange.value)];
      match reply
      case Success(m) =>
        comments := Some(m);
        successfulFetches := successfulFetches + 1;
        r := Success(m);
      case Failure(e) =>
        r := Failure(RestApiFailure(e));
    }

    /** The text for the file at `affectedFilePath`. Its name is resolved against the
        project of the stored selection, while drafts are looked up for `selected`, the
        change passed by the caller. */
    method NodeSuffix(project: Project, selected: ChangeInfo, commentsMap: CommentMap,
                      affectedFilePath: string, sink: DraftSink, pathUtils: PathResolver)
      returns (text: string)
      requires selectedChange.Some?
      ensures var fileName := pathUtils(project, affectedFilePath, selectedChange.value.project);
              && text == SuffixText(CommentCountFor(commentsMap, fileName), |DraftsForFile(sink, selected, fileName)|)
              && (text == "" <==> fileName !in commentsMap &&
                                  forall d :: d in sink(selected.id, selected.currentRevision) ==> d.path != fileName)
    {
      var fileName := pathUtils(project, affectedFilePath, selectedChange.value.project);
      var commentsForFile := if fileName in commentsMap then Some(commentsMap[fileName]) else None;
      var drafts := DraftsForFile(sink, selected, fileName);
      var parts: seq<string> := [];
      if commentsForFile.Some? {
        JoinSnoc(parts, CountClause(|commentsForFile.value|, "comment"), ", ");
        parts := parts + [CountClause(|commentsForFile.value|, "comment")];
      }
      if |drafts| > 0 {
        JoinSnoc(parts, CountClause(|drafts|, "draft"), ", ");
        parts := parts + [CountClause(|drafts|, "draft")];
      }
      text := Join(parts, ", ");
      assert |drafts| == 0 <==> forall d :: d in sink(selected.id, selected.currentRevision) ==> d.path != fileName;
    }

    /** Forces the supplier (before looking at the node's path), then appends
        " (<suffix>)" to the component when the node has a path and the suffix is
        non-empty. A failed fetch propagates and leaves the component as it was. */
    method Decorate(project: Project, change: Change, component: ColoredComponent, selected: ChangeInfo,
                    reply: Result<CommentMap, string>, sink: DraftSink, pathUtils: PathResolver)
      returns (r: Outcome<Failure>)
      requires Valid()
      modifies this, component
      ensures Valid()
      ensures selectedChange == old(selectedChange) && selectionStart == old(selectionStart)
      ensures old(comments).Some? ==> comments == old(comments) && requests == old(requests)
      ensures old(comments).None? && selectedChange.Some? ==>
                requests == old(requests) + [KeyOf(selectedChange.value)]
      ensures old(comments).None? && selectedChange.None? ==> requests == old(requests)
      ensures r.Fail? <==> comments.None?
      ensures r.Fail? ==> component.fragments == old(component.fragments)
      ensures r.Fail? ==> if selectedChange.None? then r.error == NullSelectedChange
                          else reply.Failure? && r.error == RestApiFailure(reply.error)
      ensures r.Pass? ==>
                && (old(comments).None? ==> reply.Success? && comments == Some(reply.value))
                && match AffectedFilePath(change)
                   case None => component.fragments == old(component.fragments)
                   case Some(path) =>
                     var fileName := pathUtils(project, path, selectedChange.value.project);
                     var text := SuffixText(CommentCountFor(comments.value, fileName),
                                            |DraftsForFile(sink, selected, fileName)|);
                     component.fragments == old(component.fragments) + (if text == "" then [] else [" (" + text + ")"])
    {
      var fetched := GetComments(reply);
      if fetched.Failure? {
        return Fail(fetched.error);
      }
      var affectedFilePath := AffectedFilePath(change);
      if affectedFilePath.Some? {
        var text := NodeSuffix(project, selected, fetched.value, affectedFilePath.value, sink, pathUtils);
        if text != "" {
          component.Append(" (" + text + ")");
        }
      }
      r := Pass;
    }
  }

  /** Before any selection the supplier cannot build its request; a failed fetch is not
      memoized, so the next decoration of the same selection fetches again. */
  method FailureScenario()
  {
    var c1 := ChangeInfo("C1", "R1", "p");
    var project := Project("/work");
    var sink: DraftSink := (id: string, rev: string) => [];
    var identity: PathResolver := (p: Project, path: string, gerritProject: string) => path;
    var node := new ColoredComponent("a.txt");
    var change := Change(None, Some(ContentRevision("a.txt")));

    var d := new CommentCountChangeNodeDecorator();
    var r := d.Decorate(project, change, node, c1, Success(map[]), sink, identity);
    assert r == Fail(NullSelectedChange) && d.requests == [];

    d.OnChangeSelected(project, c1);
    r := d.Decorate(project, change, node, c1, Failure("timeout"), sink, identity);
    assert r == Fail(RestApiFailure("timeout")) && d.requests == [RevisionKey("C1", "R1")];
    r := d.Decorate(project, change, node, c1, Success(map[]), sink, identity);
    assert r == Pass && d.requests == [RevisionKey("C1", "R1"), RevisionKey("C1", "R1")];
    assert node.fragments == ["a.txt"];
  }

  /** Within one selection the first decoration fetches, even for a node without a path,
      and later ones reuse the map whatever the server would answer now. */
  method MemoizedScenario()
  {
    var c1 := ChangeInfo("C1", "R1", "p");
    var project := Project("/work");
    var fetched: CommentMap := map["a.txt" := [CommentInfo("x"), CommentInfo("y")]];
    var drafts := [CommentInput("a.txt", "d1"), CommentInput("doc/b.txt", "d2")];
    var sink: DraftSink := (id: string, rev: string) => drafts;
    var identity: PathResolver := (p: Project, path: string, gerritProject: string) => path;

    var d := new CommentCountChangeNodeDecorator();
    d.OnChangeSelected(project, c1);
    var root := new ColoredComponent("root");
    var r := d.Decorate(project, Change(None, None), root, c1, Success(fetched), sink, identity);
    assert r == Pass && d.requests == [RevisionKey("C1", "R1")] && root.fragments == ["root"];

    var nodeA := new ColoredComponent("a.txt");
    r := d.Decorate(project, Change(None, Some(ContentRevision("a.txt"))), nodeA, c1, Failure("unused"), sink, identity);
    assert DraftsForFile(sink, c1, "a.txt") == [drafts[0]];
    assert r == Pass && d.requests == [RevisionKey("C1", "R1")];
    assert nodeA.fragments == ["a.txt", " (" + SuffixText(Some(2), 1) + ")"];
  }

  /** A node without comments and drafts gets no suffix; selecting the same change again
      discards the map, and the next decoration fetches afresh. */
  method ReselectScenario()
  {
    var c1 := ChangeInfo("C1", "R1", "p");
    var project := Project("/work");
    var fetched: CommentMap := map["a.txt" := [CommentInfo("x")]];
    var sink: DraftSink := (id: string, rev: string) => [CommentInput("a.txt", "d1")];
    var identity: PathResolver := (p: Project, path: string, gerritProject: string) => path;

    var d := new CommentCountChangeNodeDecorator();
    d.OnChangeSelected(project, c1);
    var nodeC := new ColoredComponent("c.txt");
    var r := d.Decorate(project, Change(None, Some(ContentRevision("c.txt"))), nodeC, c1, Success(fetched), sink, identity);
    assert DraftsForFile(sink, c1, "c.txt") == [];
    assert r == Pass && nodeC.fragments == ["c.txt"];

    d.OnChangeSelected(project, c1);
    r := d.Decorate(project, Change(None, None), nodeC, c1, Success(map[]), sink, identity);
    assert r == Pass && d.requests == [RevisionKey("C1", "R1"), RevisionKey("C1", "R1")];
    assert nodeC.fragments == ["c.txt"];
  }
}
