/**
 * Multi-file refactoring plans: the operations, their statistics and the
 * line-oriented parser of `=== CREATE|MODIFY|DELETE|RENAME ... ===` text.
 * The unified-diff parser of the diff module is not part of this model; it is
 * passed in as `parseDiff`.
 */
module Refactor {
  import opened Results
  import opened Strings

  datatype DiffLine = Add(text: string) | Remove(text: string) | Context(text: string)

  datatype Hunk = Hunk(oldStart: nat, oldCount: nat, newStart: nat, newCount: nat, lines: seq<DiffLine>)

  datatype UnifiedDiff = UnifiedDiff(hunks: seq<Hunk>)

  /** The diff module's `parse_unified_diff`. */
  type DiffParser = string -> Result<UnifiedDiff, string>

  datatype FileOperation =
    | Create(path: string, content: string)
    | Modify(path: string, diff: UnifiedDiff)
    | Delete(path: string)
    | Rename(from: string, to: string)

  datatype RefactorPlan = RefactorPlan(description: string, operations: seq<FileOperation>)

  datatype RefactorStats = RefactorStats(createCount: nat, modifyCount: nat, deleteCount: nat, renameCount: nat)

  const PlanDescription := "AI-generated refactoring plan"
  const NoOperationsMessage := "No operations found in refactoring plan"

  /** `FileOperation::path`: the path an operation is about (the source of a rename). */
  function Path(op: FileOperation): string
  {
    match op
    case Create(p, _) => p
    case Modify(p, _) => p
    case Delete(p) => p
    case Rename(from, _) => from
  }

  /** `FileOperation::operation_type`. */
  function OperationType(op: FileOperation): (r: string)
    ensures |r| == 6
    ensures r == "CREATE" <==> op.Create?
    ensures r == "MODIFY" <==> op.Modify?
    ensures r == "DELETE" <==> op.Delete?
    ensures r == "RENAME" <==> op.Rename?
  {
    match op
    case Create(_, _) => "CREATE"
    case Modify(_, _) => "MODIFY"
    case Delete(_) => "DELETE"
    case Rename(_, _) => "RENAME"
  }

  // ---- statistics ----

  function CountCreates(ops: seq<FileOperation>): nat
  {
    if ops == [] then 0 else CountCreates(ops[..|ops| - 1]) + (if ops[|ops| - 1].Create? then 1 else 0)
  }

  function CountModifies(ops: seq<FileOperation>): nat
  {
    if ops == [] then 0 else CountModifies(ops[..|ops| - 1]) + (if ops[|ops| - 1].Modify? then 1 else 0)
  }

  function CountDeletes(ops: seq<FileOperation>): nat
  {
    if ops == [] then 0 else CountDeletes(ops[..|ops| - 1]) + (if ops[|ops| - 1].Delete? then 1 else 0)
  }

  function CountRenames(ops: seq<FileOperation>): nat
  {
    if ops == [] then 0 else CountRenames(ops[..|ops| - 1]) + (if ops[|ops| - 1].Rename? then 1 else 0)
  }

  /** The four kind counts always add up to the number of operations. */
  lemma {:induction false} CountsPartition(ops: seq<FileOperation>)
    ensures CountCreates(ops) + CountModifies(ops) + CountDeletes(ops) + CountRenames(ops) == |ops|
  {
    if ops != [] {
      CountsPartition(ops[..|ops| - 1]);
    }
  }

  /** `RefactorPlan::stats`: one pass over the operations, one counter per kind. */
  method Stats(plan: RefactorPlan) returns (stats: RefactorStats)
    ensures stats.createCount == CountCreates(plan.operations)
    ensures stats.modifyCount == CountModifies(plan.operations)
    ensures stats.deleteCount == CountDeletes(plan.operations)
    ensures stats.renameCount == CountRenames(plan.operations)
    ensures stats.createCount + stats.modifyCount + stats.deleteCount + stats.renameCount == |plan.operations|
  {
    var ops := plan.operations;
    stats := RefactorStats(0, 0, 0, 0);
    for i := 0 to |ops|
      invariant stats.createCount == CountCreates(ops[..i])
      invariant stats.modifyCount == CountModifies(ops[..i])
      invariant stats.deleteCount == CountDeletes(ops[..i])
      invariant stats.renameCount == CountRenames(ops[..i])
    {
      assert ops[..i + 1][..i] == ops[..i];
      match ops[i]
      case Create(_, _) => stats := stats.(createCount := stats.createCount + 1);
      case Modify(_, _) => stats := stats.(modifyCount := stats.modifyCount + 1);
      case Delete(_) => stats := stats.(deleteCount := stats.deleteCount + 1);
      case Rename(_, _) => stats := stats.(renameCount := stats.renameCount + 1);
    }
    assert ops[..|ops|] == ops;
    CountsPartition(ops);
  }

  // ---- headers ----

  datatype HeaderKind = CreateHeader | ModifyHeader | DeleteHeader | RenameHeader

  function HeaderPrefix(k: HeaderKind): string
  {
    match k
    case CreateHeader => "=== CREATE "
    case ModifyHeader => "=== MODIFY "
    case DeleteHeader => "=== DELETE "
    case RenameHeader => "=== RENAME "
  }

  const HeaderSuffix := " ==="

  /** A header line: the first of the four keyword prefixes it starts with, if it also ends with " ===". */
  function HeaderKindOf(line: string): (r: Option<HeaderKind>)
  {
    if !EndsWith(line, HeaderSuffix) then None
    else if StartsWith(line, HeaderPrefix(CreateHeader)) then Some(CreateHeader)
    else if StartsWith(line, HeaderPrefix(ModifyHeader)) then Some(ModifyHeader)
    else if StartsWith(line, HeaderPrefix(DeleteHeader)) then Some(DeleteHeader)
    else if StartsWith(line, HeaderPrefix(RenameHeader)) then Some(RenameHeader)
    else None
  }

  /** The text of a header between its keyword and the closing marker. */
  function HeaderArgument(line: string, k: HeaderKind): string
  {
    TrimEndMatches(TrimStartMatches(line, HeaderPrefix(k)), HeaderSuffix)
  }

  /** A line of plan text as the parser sees it. */
  datatype PlanLine = Header(kind: HeaderKind, arg: string) | Text(line: string)

  function ClassifyLine(line: string): PlanLine
  {
    match HeaderKindOf(line)
    case Some(k) => Header(k, HeaderArgument(line, k))
    case None => Text(line)
  }

  function ClassifyLines(ls: seq<string>): (r: seq<PlanLine>)
    ensures |r| == |ls| && forall i :: 0 <= i < |ls| ==> r[i] == ClassifyLine(ls[i])
  {
    seq(|ls|, i requires 0 <= i < |ls| => ClassifyLine(ls[i]))
  }

  datatype PendingOp = PendingCreate(path: string) | PendingModify(path: string)

  /** `finalize_op`: a body becomes file content, or a diff through the diff parser. */
  function FinalizeOp(op: PendingOp, lines: seq<string>, parseDiff: DiffParser): (r: Result<FileOperation, string>)
    ensures op.PendingCreate? ==> r == Ok(Create(op.path, Join(lines, "\n")))
    ensures op.PendingModify? ==> (r.Ok? <==> parseDiff(Join(lines, "\n")).Ok?)
    ensures op.PendingModify? && r.Ok? ==> r.value == Modify(op.path, parseDiff(Join(lines, "\n")).value)
    ensures op.PendingModify? && r.Err? ==> r.error == parseDiff(Join(lines, "\n")).error
  {
    match op
    case PendingCreate(path) => Ok(Create(path, Join(lines, "\n")))
    case PendingModify(path) =>
      var diff :- parseDiff(Join(lines, "\n"));
      Ok(Modify(path, diff))
  }

  // ---- the reference reading of a plan: header, body, header, body, ... ----

  /** The leading text lines: the body that follows a header. */
  function Body(pls: seq<PlanLine>): (body: seq<string>)
    ensures |body| <= |pls|
    ensures forall k :: 0 <= k < |body| ==> pls[k] == Text(body[k])
    ensures |body| < |pls| ==> pls[|body|].Header?
  {
    if pls == [] || pls[0].Header? then [] else [pls[0].line] + Body(pls[1..])
  }

  /** The operations one header with its body stands for. */
  function SectionOps(k: HeaderKind, arg: string, body: seq<string>, parseDiff: DiffParser): Result<seq<FileOperation>, string>
  {
    match k
    case CreateHeader =>
      var op :- FinalizeOp(PendingCreate(arg), body, parseDiff);
      Ok([op])
    case ModifyHeader =>
      var op :- FinalizeOp(PendingModify(arg), body, parseDiff);
      Ok([op])
    case DeleteHeader => Ok([Delete(arg)])
    case RenameHeader =>
      match SplitOnce(arg, " -> ")
      case Some((from, to)) => Ok([Rename(from, to)])
      case None => Ok([])
  }

  /**
   * The plan a sequence of lines describes: text before the first header is
   * skipped, each header takes the text lines after it as its body, and the
   * first section that fails makes the whole reading fail.
   */
  function PlanOps(pls: seq<PlanLine>, parseDiff: DiffParser): Result<seq<FileOperation>, string>
    decreases |pls|
  {
    if pls == [] then Ok([])
    else match pls[0]
      case Text(_) => PlanOps(pls[1..], parseDiff)
      case Header(k, arg) =>
        var body := Body(pls[1..]);
        var ops :- SectionOps(k, arg, body, parseDiff);
        var rest :- PlanOps(pls[1 + |body|..], parseDiff);
        Ok(ops + rest)
  }

  /** The meaning of `parse_multi_file_diff`: the plan of the text's lines, which must not be empty. */
  function ParsedPlan(input: string, parseDiff: DiffParser): Result<RefactorPlan, string>
  {
    var ops :- PlanOps(ClassifyLines(Lines(input)), parseDiff);
    if ops == [] then Err(NoOperationsMessage) else Ok(RefactorPlan(PlanDescription, ops))
  }

  /** What the rest of the lines yields from the parser's state (`ops`, `current`, `content`). */
  ghost function Resume(ops: seq<FileOperation>, current: Option<PendingOp>, content: seq<string>,
                        rest: seq<PlanLine>, parseDiff: DiffParser): Result<seq<FileOperation>, string>
  {
    match current
    case None =>
      var tail :- PlanOps(rest, parseDiff);
      Ok(ops + tail)
    case Some(p) =>
      var body := Body(rest);
      var op :- FinalizeOp(p, content + body, parseDiff);
      var tail :- PlanOps(rest[|body|..], parseDiff);
      Ok(ops + [op] + tail)
  }

  /** Text lines contribute nothing to a plan. */
  lemma {:induction false} SkipText(pls: seq<PlanLine>, n: nat, parseDiff: DiffParser)
    requires n <= |pls| && forall k :: 0 <= k < n ==> pls[k].Text?
    ensures PlanOps(pls, parseDiff) == PlanOps(pls[n..], parseDiff)
    decreases n
  {
    if n > 0 {
      SkipText(pls[1..], n - 1, parseDiff);
      assert pls[1..][n - 1..] == pls[n..];
    }
  }

  /** A text line joins the pending operation's content. */
  lemma ExtendBody(ops: seq<FileOperation>, p: PendingOp, content: seq<string>, rest: seq<PlanLine>, parseDiff: DiffParser)
    requires |rest| > 0 && rest[0].Text?
    ensures Resume(ops, Some(p), content + [rest[0].line], rest[1..], parseDiff) == Resume(ops, Some(p), content, rest, parseDiff)
  {
    var body := Body(rest);
    assert body == [rest[0].line] + Body(rest[1..]);
    assert content + [rest[0].line] + Body(rest[1..]) == content + body;
    assert rest[1..][|Body(rest[1..])|..] == rest[|body|..];
  }

  /** At a header, the pending operation is complete: its body is what was collected. */
  lemma FinalizeAtHeader(ops: seq<FileOperation>, p: PendingOp, content: seq<string>, rest: seq<PlanLine>, parseDiff: DiffParser)
    requires |rest| > 0 && rest[0].Header?
    ensures Resume(ops, Some(p), content, rest, parseDiff) ==
      match FinalizeOp(p, content, parseDiff)
      case Err(e) => Err(e)
      case Ok(op) => Resume(ops + [op], None, [], rest, parseDiff)
  {
    assert Body(rest) == [];
    assert content + [] == content;
    assert rest[0..] == rest;
  }

  /** With nothing pending, a CREATE or MODIFY header makes its operation pending with an empty body. */
  lemma StartPendingSection(ops: seq<FileOperation>, rest: seq<PlanLine>, parseDiff: DiffParser, p: PendingOp)
    requires |rest| > 0 && rest[0].Header?
    requires p == (if rest[0].kind == CreateHeader then PendingCreate(rest[0].arg) else PendingModify(rest[0].arg))
    requires rest[0].kind == CreateHeader || rest[0].kind == ModifyHeader
    ensures Resume(ops, None, [], rest, parseDiff) == Resume(ops, Some(p), [], rest[1..], parseDiff)
  {
    var body := Body(rest[1..]);
    var after := rest[1 + |body|..];
    assert [] + body == body;
    assert rest[1..][|body|..] == after;
    match FinalizeOp(p, body, parseDiff)
    case Err(e) =>
    case Ok(op) =>
      match PlanOps(after, parseDiff)
      case Err(e) =>
      case Ok(tail) => assert ops + ([op] + tail) == ops + [op] + tail;
  }

  /** DELETE and RENAME sections do not look at their body. */
  lemma SectionIgnoresBody(k: HeaderKind, arg: string, body: seq<string>, parseDiff: DiffParser)
    requires k == DeleteHeader || k == RenameHeader
    ensures SectionOps(k, arg, body, parseDiff) == SectionOps(k, arg, [], parseDiff)
  {
  }

  /** With nothing pending, a DELETE or RENAME header adds its operations at once and ignores its body. */
  lemma StartClosedSection(ops: seq<FileOperation>, rest: seq<PlanLine>, parseDiff: DiffParser, sec: seq<FileOperation>)
    requires |rest| > 0 && rest[0].Header?
    requires rest[0].kind == DeleteHeader || rest[0].kind == RenameHeader
    requires SectionOps(rest[0].kind, rest[0].arg, [], parseDiff) == Ok(sec)
    ensures Resume(ops, None, [], rest, parseDiff) == Resume(ops + sec, None, [], rest[1..], parseDiff)
  {
    hide SectionOps;
    var body := Body(rest[1..]);
    var after := rest[1 + |body|..];
    SkipText(rest[1..], |body|, parseDiff);
    assert rest[1..][|body|..] == after;
    SectionIgnoresBody(rest[0].kind, rest[0].arg, body, parseDiff);
    match PlanOps(after, parseDiff)
    case Err(e) =>
    case Ok(tail) => assert ops + (sec + tail) == ops + sec + tail;
  }

  // ---- properties of the plan reading ----

  /** `body` as text lines. */
  function Texts(body: seq<string>): (r: seq<PlanLine>)
    ensures |r| == |body| && forall i :: 0 <= i < |body| ==> r[i] == Text(body[i])
  {
    seq(|body|, i requires 0 <= i < |body| => Text(body[i]))
  }

  lemma {:induction false} BodyOfSection(body: seq<string>, rest: seq<PlanLine>)
    requires rest == [] || rest[0].Header?
    ensures Body(Texts(body) + rest) == body
    decreases |body|
  {
    if body == [] {
      assert Texts(body) + rest == rest;
    } else {
      assert (Texts(body) + rest)[1..] == Texts(body[1..]) + rest;
      BodyOfSection(body[1..], rest);
    }
  }

  /**
   * A header followed by text lines, up to the next header or the end, is one
   * section: its operations come first, then those of what follows.
   */
  lemma SectionDecomposition(k: HeaderKind, arg: string, body: seq<string>, rest: seq<PlanLine>, parseDiff: DiffParser)
    requires rest == [] || rest[0].Header?
    ensures PlanOps([Header(k, arg)] + Texts(body) + rest, parseDiff) ==
      match SectionOps(k, arg, body, parseDiff)
      case Err(e) => Err(e)
      case Ok(sec) =>
        match PlanOps(rest, parseDiff)
        case Err(e) => Err(e)
        case Ok(tail) => Ok(sec + tail)
  {
    var pls := [Header(k, arg)] + Texts(body) + rest;
    assert pls[1..] == Texts(body) + rest;
    BodyOfSection(body, rest);
    assert pls[1 + |body|..] == rest;
  }

  /** A CREATE section's content is its body joined with newlines. */
  lemma CreateSection(path: string, body: seq<string>, rest: seq<PlanLine>, parseDiff: DiffParser)
    requires rest == [] || rest[0].Header?
    requires PlanOps(rest, parseDiff).Ok?
    ensures PlanOps([Header(CreateHeader, path)] + Texts(body) + rest, parseDiff)
         == Ok([Create(path, Join(body, "\n"))] + PlanOps(rest, parseDiff).value)
  {
    SectionDecomposition(CreateHeader, path, body, rest, parseDiff);
  }

  /** A RENAME header yields one operation split at the first " -> ", or none without it. */
  lemma RenameSection(arg: string, body: seq<string>, rest: seq<PlanLine>, parseDiff: DiffParser)
    requires rest == [] || rest[0].Header?
    requires PlanOps(rest, parseDiff).Ok?
    ensures Contains(arg, " -> ") ==>
      exists from, to :: arg == from + " -> " + to
        && (forall k :: 0 <= k < |from| ==> !StartsWith(arg[k..], " -> "))
        && PlanOps([Header(RenameHeader, arg)] + Texts(body) + rest, parseDiff)
           == Ok([Rename(from, to)] + PlanOps(rest, parseDiff).value)
    ensures !Contains(arg, " -> ") ==>
      PlanOps([Header(RenameHeader, arg)] + Texts(body) + rest, parseDiff) == PlanOps(rest, parseDiff)
  {
    SectionDecomposition(RenameHeader, arg, body, rest, parseDiff);
    if !Contains(arg, " -> ") {
      assert [] + PlanOps(rest, parseDiff).value == PlanOps(rest, parseDiff).value;
    } else {
      var parts := SplitOnce(arg, " -> ").value;
      assert arg == parts.0 + " -> " + parts.1;
    }
  }

  /** A DELETE header yields exactly one operation, whatever text follows it. */
  lemma DeleteSection(path: string, body: seq<string>, rest: seq<PlanLine>, parseDiff: DiffParser)
    requires rest == [] || rest[0].Header?
    requires PlanOps(rest, parseDiff).Ok?
    ensures PlanOps([Header(DeleteHeader, path)] + Texts(body) + rest, parseDiff)
         == Ok([Delete(path)] + PlanOps(rest, parseDiff).value)
  {
    SectionDecomposition(DeleteHeader, path, body, rest, parseDiff);
  }

  /** A line that stands for no operation: text, or a RENAME header without " -> ". */
  predicate Silent(pl: PlanLine)
  {
    pl.Text? || (pl.kind == RenameHeader && SplitOnce(pl.arg, " -> ").None?)
  }

  /** A header that is not silent yields an operation or an error. */
  lemma LoudSection(k: HeaderKind, arg: string, body: seq<string>, parseDiff: DiffParser)
    requires !Silent(Header(k, arg))
    ensures SectionOps(k, arg, body, parseDiff) != Ok([])
  {
  }

  lemma LoudHeader(pls: seq<PlanLine>, parseDiff: DiffParser)
    requires |pls| > 0 && pls[0].Header? && !Silent(pls[0])
    ensures PlanOps(pls, parseDiff) != Ok([])
  {
    LoudSection(pls[0].kind, pls[0].arg, Body(pls[1..]), parseDiff);
  }

  lemma SilentHeader(pls: seq<PlanLine>, parseDiff: DiffParser)
    requires |pls| > 0 && pls[0].Header? && Silent(pls[0])
    ensures PlanOps(pls, parseDiff) == PlanOps(pls[1 + |Body(pls[1..])|..], parseDiff)
  {
    var body := Body(pls[1..]);
    assert SectionOps(pls[0].kind, pls[0].arg, body, parseDiff) == Ok([]);
    match PlanOps(pls[1 + |body|..], parseDiff)
    case Err(_) =>
    case Ok(tail) => assert [] + tail == tail;
  }

  /** The plan reading yields no operation and no error exactly when every line is silent. */
  lemma {:induction false} NoOperationsIffSilent(pls: seq<PlanLine>, parseDiff: DiffParser)
    ensures PlanOps(pls, parseDiff) == Ok([]) <==> forall i :: 0 <= i < |pls| ==> Silent(pls[i])
    decreases |pls|
  {
    hide SectionOps, SplitOnce;
    if pls == [] {
    } else if pls[0].Text? {
      NoOperationsIffSilent(pls[1..], parseDiff);
      SilentPrefix(pls, 1);
    } else if !Silent(pls[0]) {
      LoudHeader(pls, parseDiff);
    } else {
      var body := Body(pls[1..]);
      SilentHeader(pls, parseDiff);
      NoOperationsIffSilent(pls[1 + |body|..], parseDiff);
      assert forall i :: 1 <= i < 1 + |body| ==> pls[i] == pls[1..][i - 1];
      SilentPrefix(pls, 1 + |body|);
    }
  }

  /** Past a silent prefix, every line is silent exactly when every line of the rest is. */
  lemma SilentPrefix(pls: seq<PlanLine>, n: nat)
    requires n <= |pls| && forall i :: 0 <= i < n ==> Silent(pls[i])
    ensures (forall i :: 0 <= i < |pls| ==> Silent(pls[i])) <==> (forall i :: 0 <= i < |pls| - n ==> Silent(pls[n..][i]))
  {
    hide SplitOnce;
    if forall i :: 0 <= i < |pls| - n ==> Silent(pls[n..][i]) {
      forall i | n <= i < |pls| ensures Silent(pls[i]) {
        assert pls[i] == pls[n..][i - n];
      }
    }
  }

  /** Text without an operation is refused with the fixed message. */
  lemma SilentTextRejected(input: string, parseDiff: DiffParser)
    requires forall l :: l in Lines(input) ==> Silent(ClassifyLine(l))
    ensures ParsedPlan(input, parseDiff) == Err(NoOperationsMessage)
  {
    var pls := ClassifyLines(Lines(input));
    assert forall i :: 0 <= i < |pls| ==> Lines(input)[i] in Lines(input);
    NoOperationsIffSilent(pls, parseDiff);
  }

  /** An accepted plan is never empty. */
  lemma AcceptedPlanIsNonEmpty(input: string, parseDiff: DiffParser)
    requires ParsedPlan(input, parseDiff).Ok?
    ensures |ParsedPlan(input, parseDiff).value.operations| > 0
    ensures ParsedPlan(input, parseDiff).value.description == PlanDescription
  {
  }

  /** A well-formed header line is classified by its keyword, with the text between the markers as argument. */
  lemma HeaderLine(k: HeaderKind, arg: string)
    requires !StartsWith(arg + HeaderSuffix, HeaderPrefix(k)) && !EndsWith(arg, HeaderSuffix)
    ensures ClassifyLine(HeaderPrefix(k) + arg + HeaderSuffix) == Header(k, arg)
  {
    var pre := HeaderPrefix(k);
    var line := pre + arg + HeaderSuffix;
    assert line[..|pre|] == pre;
    assert line[|line| - 4..] == HeaderSuffix;
    assert line[|pre|..] == arg + HeaderSuffix;
    assert StartsWith(line, pre) && EndsWith(line, HeaderSuffix);
    forall k' | k' != k ensures !StartsWith(line, HeaderPrefix(k')) {
      assert line[4] == pre[4] && HeaderPrefix(k')[4] != pre[4];
    }
    assert HeaderKindOf(line) == Some(k);
    assert TrimStartMatches(line, pre) == arg + HeaderSuffix;
    assert (arg + HeaderSuffix)[..|arg|] == arg;
    assert TrimEndMatches(arg + HeaderSuffix, HeaderSuffix) == TrimEndMatches(arg, HeaderSuffix);
  }

  /** The section a header line opens: a pending create or modify, or a closed delete or rename. */
  method OpenSection(ops: seq<FileOperation>, line: string, k: HeaderKind, ghost rest: seq<PlanLine>, parseDiff: DiffParser)
    returns (ops': seq<FileOperation>, current: Option<PendingOp>)
    requires |rest| > 0 && rest[0] == ClassifyLine(line) && HeaderKindOf(line) == Some(k)
    ensures Resume(ops, None, [], rest, parseDiff) == Resume(ops', current, [], rest[1..], parseDiff)
  {
    var arg := HeaderArgument(line, k);
    assert rest[0] == Header(k, arg);
    match k
    case CreateHeader =>
      StartPendingSection(ops, rest, parseDiff, PendingCreate(arg));
      ops', current := ops, Some(PendingCreate(arg));
    case ModifyHeader =>
      StartPendingSection(ops, rest, parseDiff, PendingModify(arg));
      ops', current := ops, Some(PendingModify(arg));
    case DeleteHeader =>
      StartClosedSection(ops, rest, parseDiff, [Delete(arg)]);
      ops', current := ops + [Delete(arg)], None;
    case RenameHeader =>
      var parts := SplitOnce(arg, " -> ");
      if parts.Some? {
        StartClosedSection(ops, rest, parseDiff, [Rename(parts.value.0, parts.value.1)]);
        ops' := ops + [Rename(parts.value.0, parts.value.1)];
      } else {
        StartClosedSection(ops, rest, parseDiff, []);
        assert ops + [] == ops;
        ops' := ops;
      }
      current := None;
  }

  /** `parse_multi_file_diff`. */
  method ParseMultiFileDiff(input: string, parseDiff: DiffParser) returns (r: Result<RefactorPlan, string>)
    ensures r == ParsedPlan(input, parseDiff)
  {
    var ls := Lines(input);
    ghost var pls := ClassifyLines(ls);
    var ops: seq<FileOperation> := [];
    var current: Option<PendingOp> := None;
    var content: seq<string> := [];
    var i := 0;
    assert pls[0..] == pls;
    match PlanOps(pls, parseDiff) {
      case Err(_) =>
      case Ok(all) => assert [] + all == all;
    }
    while i < |ls|
      invariant 0 <= i <= |ls|
      invariant current.None? ==> content == []
      invariant Resume(ops, current, content, pls[i..], parseDiff) == PlanOps(pls, parseDiff)
    {
      var line := ls[i];
      ghost var rest := pls[i..];
      assert rest[0] == ClassifyLine(line) && rest[1..] == pls[i + 1..];
      var kind := HeaderKindOf(line);
      if kind.Some? {
        if current.Some? {
          FinalizeAtHeader(ops, current.value, content, rest, parseDiff);
          var fin := FinalizeOp(current.value, content, parseDiff);
          if fin.Err? {
            return Err(fin.error);
          }
          ops := ops + [fin.value];
          content := [];
        }
        ops, current := OpenSection(ops, line, kind.value, rest, parseDiff);
      } else if current.Some? {
        ExtendBody(ops, current.value, content, rest, parseDiff);
        content := content + [line];
      }
      i := i + 1;
    }
    assert pls[i..] == [] && Body([]) == [] && PlanOps([], parseDiff) == Ok([]);
    if current.Some? {
      var fin := FinalizeOp(current.value, content, parseDiff);
      assert content + [] == content;
      if fin.Err? {
        return Err(fin.error);
      }
      assert ops + [fin.value] + [] == ops + [fin.value];
      ops := ops + [fin.value];
    } else {
      assert ops + [] == ops;
    }
    if ops == [] {
      return Err(NoOperationsMessage);
    }
    r := Ok(RefactorPlan(PlanDescription, ops));
  }
}
