/**
 * The pure parts of `src/suggest/llm.rs`: reading the suggestions of a
 * deep-analysis reply, and cutting file content down before it is sent.
 *
 * The HTTP exchange with the model is not modelled. The JSON decoding of the
 * extracted array (`serde_json::from_str`) is a parameter: a function from the
 * text to the decoded items or to the decoder's error message. Each
 * `Suggestion::new` draws a fresh UUID; here the suggestion made from item `i`
 * gets the id `base + i`, and `now` is the clock reading they share.
 *
 * `find('[')` and `rfind(']')` return byte offsets; since both brackets are
 * one-byte characters, the character positions used here select the same text.
 */
module Llm {
  import opened Results
  import opened Strings
  import opened Suggest

  /** One element of the JSON array the model is asked for (`SuggestionJson`). */
  datatype SuggestionJson = SuggestionJson(kind: string, priority: string, summary: string, detail: string, line: Option<nat>)

  /** The JSON decoder for the extracted text. */
  type JsonDecoder = string -> Result<seq<SuggestionJson>, string>

  // ---- extracting the array ----

  /**
   * The extraction as written: from the first `[` to the last `]`, or the
   * whole reply when either is missing. `&response[start..=end]` panics when
   * the range runs backwards, that is when the last `]` lies more than one
   * position before the first `[`; the panic is `None`.
   */
  function JsonSliceAsWritten(response: string): (r: Option<string>)
    ensures FindChar(response, '[').None? || RFindChar(response, ']').None? ==> r == Some(response)
  {
    match FindChar(response, '[')
    case None => Some(response)
    case Some(start) =>
      match RFindChar(response, ']')
      case None => Some(response)
      case Some(end) => if start <= end + 1 then Some(response[start..end + 1]) else None
  }

  /** The extraction panics exactly when some `]` exists but none lies after (or just before) the first `[`. */
  lemma JsonSliceAsWrittenPanics(response: string)
    ensures JsonSliceAsWritten(response).None? <==>
      && FindChar(response, '[').Some? && RFindChar(response, ']').Some?
      && RFindChar(response, ']').value + 1 < FindChar(response, '[').value
  {
  }

  /** A reply whose only `]` precedes its `[` by two positions makes the slice panic. */
  lemma JsonSlicePanicExample()
    ensures JsonSliceAsWritten("] [").None?
  {
    assert FindChar("] [", '[') == Some(2);
    assert RFindChar("] [", ']') == Some(0);
  }

  /**
   * The bounds of the array: the first `[` and the last `]` at or after it
   * (end exclusive), or `None` when no `]` follows a `[`.
   */
  function JsonSpan(response: string): (r: Option<(nat, nat)>)
    ensures r.Some? ==> var (start, end) := r.value;
      && start < end <= |response| && response[start] == '[' && response[end - 1] == ']'
      && (forall k :: 0 <= k < start ==> response[k] != '[')
      && (forall k :: end <= k < |response| ==> response[k] != ']')
  {
    match FindChar(response, '[')
    case None => None
    case Some(start) =>
      var rest := response[start..];
      assert forall j :: start <= j < |response| ==> response[j] == rest[j - start];
      match RFindChar(rest, ']')
      case None => None
      case Some(e) => Some((start, start + e + 1))
  }

  /** There is no span exactly when no `]` lies at or after any `[`. */
  lemma JsonSpanNone(response: string)
    ensures JsonSpan(response).None? <==>
      forall i, j :: 0 <= i <= j < |response| && response[i] == '[' ==> response[j] != ']'
  {
    match FindChar(response, '[')
    case None =>
    case Some(start) =>
      var rest := response[start..];
      assert forall j :: start <= j < |response| ==> response[j] == rest[j - start];
  }

  /**
   * The extraction as evidently intended: the text from the first `[` to the
   * last `]` after it, or the whole reply when there is no such pair. It
   * cannot panic.
   */
  function JsonSlice(response: string): (r: string)
    ensures JsonSpan(response).None? ==> r == response
    ensures JsonSpan(response).Some? ==>
      && |r| >= 2 && r[0] == '[' && r[|r| - 1] == ']'
      && r == response[JsonSpan(response).value.0..JsonSpan(response).value.1]
  {
    match JsonSpan(response)
    case None => response
    case Some((start, end)) => response[start..end]
  }

  /**
   * Whenever the program's slice does not panic and the reply has a `]` after
   * its first `[`, it takes the same text as the corrected extraction; when
   * there is no bracket pair at all both take the whole reply.
   */
  lemma JsonSliceAgrees(response: string)
    ensures JsonSpan(response).Some? ==> JsonSliceAsWritten(response) == Some(JsonSlice(response))
    ensures FindChar(response, '[').None? || RFindChar(response, ']').None? ==>
      JsonSliceAsWritten(response) == Some(JsonSlice(response))
  {
    if JsonSpan(response).Some? {
      var (start, end) := JsonSpan(response).value;
      var e := RFindChar(response, ']').value;
      assert response[end - 1] == ']';
      assert e == end - 1;
    }
  }

  /** A reply that is already a bare array is taken whole. */
  lemma JsonSliceOfArray(response: string)
    requires |response| >= 2 && response[0] == '[' && response[|response| - 1] == ']'
    ensures JsonSlice(response) == response
  {
    assert JsonSpan(response).Some?;
  }

  // ---- mapping the fields ----

  /** The `kind` labels: six known ones, every other tag (including "refactoring") an improvement. */
  function KindFromLabel(tag: string): (k: SuggestionKind)
    ensures k != Refactoring
    ensures tag == "bugfix" <==> k == BugFix
    ensures tag == "feature" <==> k == Feature
    ensures tag == "optimization" <==> k == Optimization
    ensures tag == "quality" <==> k == Quality
    ensures tag == "documentation" <==> k == Documentation
    ensures tag == "testing" <==> k == Testing
  {
    if tag == "bugfix" then BugFix
    else if tag == "feature" then Feature
    else if tag == "optimization" then Optimization
    else if tag == "quality" then Quality
    else if tag == "documentation" then Documentation
    else if tag == "testing" then Testing
    else Improvement
  }

  /** The `priority` labels: "high", "low", and Medium for everything else. */
  function PriorityFromLabel(tag: string): (p: Priority)
    ensures p == High <==> tag == "high"
    ensures p == Low <==> tag == "low"
  {
    if tag == "high" then High
    else if tag == "low" then Low
    else Medium
  }

  /** The tag the model is asked to write for each kind it may propose. */
  function KindLabel(k: SuggestionKind): string
  {
    match k
    case Improvement => "improvement"
    case BugFix => "bugfix"
    case Feature => "feature"
    case Optimization => "optimization"
    case Quality => "quality"
    case Documentation => "documentation"
    case Testing => "testing"
    case Refactoring => "refactoring"
  }

  function PriorityLabel(p: Priority): string
  {
    match p
    case High => "high"
    case Medium => "medium"
    case Low => "low"
  }

  /** Every kind but Refactoring survives its tag; "refactoring" reads back as an improvement. */
  lemma KindLabelRoundTrip(k: SuggestionKind)
    ensures k != Refactoring ==> KindFromLabel(KindLabel(k)) == k
    ensures k == Refactoring ==> KindFromLabel(KindLabel(k)) == Improvement
  {
  }

  /** Every priority survives its tag. */
  lemma PriorityLabelRoundTrip(p: Priority)
    ensures PriorityFromLabel(PriorityLabel(p)) == p
  {
  }

  /** The suggestion made from one item: `Suggestion::new(..).with_detail(..)`, then `with_line` when a line is given. */
  function FromJson(item: SuggestionJson, path: string, id: nat, now: int): (s: Suggestion)
    ensures s.id == id && s.createdAt == now && s.file == path && s.source == LlmDeep
    ensures s.kind == KindFromLabel(item.kind) && s.priority == PriorityFromLabel(item.priority)
    ensures s.summary == item.summary && s.detail == Some(item.detail) && s.line == item.line
    ensures !s.dismissed && !s.applied && s.additionalFiles == []
  {
    var s := NewSuggestion(id, now, KindFromLabel(item.kind), PriorityFromLabel(item.priority), path, item.summary, LlmDeep);
    var s := s.(detail := Some(item.detail));
    if item.line.Some? then s.(line := item.line) else s
  }

  /** The item a suggestion would be written as. */
  function ToJson(s: Suggestion): SuggestionJson
    requires s.detail.Some?
  {
    SuggestionJson(KindLabel(s.kind), PriorityLabel(s.priority), s.summary, s.detail.value, s.line)
  }

  /** Every fresh deep-analysis suggestion with a detail and a proposable kind is read back from its own item. */
  lemma FromJsonRoundTrip(s: Suggestion)
    requires s.detail.Some? && s.kind != Refactoring && s.source == LlmDeep
    requires !s.dismissed && !s.applied && s.additionalFiles == []
    ensures FromJson(ToJson(s), s.file, s.id, s.createdAt) == s
  {
    KindLabelRoundTrip(s.kind);
    PriorityLabelRoundTrip(s.priority);
  }

  /**
   * `parse_suggestions(response, path)`: decode the extracted array and make
   * one suggestion per item, in order; a decoding error becomes the error
   * "Failed to parse suggestions: " followed by the decoder's message. The
   * extraction is the program's own, so a reply on which its slice panics is
   * outside what the function accepts.
   */
  function ParseSuggestions(response: string, path: string, decode: JsonDecoder, base: nat, now: int)
    : (r: Result<seq<Suggestion>, string>)
    requires JsonSliceAsWritten(response).Some?
    ensures var text := JsonSliceAsWritten(response).value;
      && (decode(text).Err? <==> r.Err?)
      && (r.Err? ==> r.error == "Failed to parse suggestions: " + decode(text).error)
      && (r.Ok? ==> var items := decode(text).value;
           && |r.value| == |items|
           && forall i :: 0 <= i < |items| ==> r.value[i] == FromJson(items[i], path, base + i, now))
  {
    match decode(JsonSliceAsWritten(response).value)
    case Err(e) => Err("Failed to parse suggestions: " + e)
    case Ok(items) => Ok(seq(|items|, i requires 0 <= i < |items| => FromJson(items[i], path, base + i, now)))
  }

  /**
   * What a successful parse promises: every suggestion is about `path`, comes
   * from deep analysis, carries its item's detail, has a line exactly when its
   * item gives one, and the ids are distinct.
   */
  lemma ParseSuggestionsFacts(response: string, path: string, decode: JsonDecoder, base: nat, now: int)
    requires JsonSliceAsWritten(response).Some? && decode(JsonSliceAsWritten(response).value).Ok?
    ensures var items := decode(JsonSliceAsWritten(response).value).value;
      var r := ParseSuggestions(response, path, decode, base, now);
      && r.Ok? && |r.value| == |items|
      && (forall i :: 0 <= i < |items| ==> r.value[i].file == path && r.value[i].source == LlmDeep && IsActive(r.value[i]))
      && (forall i :: 0 <= i < |items| ==> (r.value[i].line.Some? <==> items[i].line.Some?))
      && (forall i :: 0 <= i < |items| ==> r.value[i].detail == Some(items[i].detail))
      && (forall i, j :: 0 <= i < j < |items| ==> r.value[i].id != r.value[j].id)
  {
  }

  /** The program's own check: a one-item array rated "high" gives one High suggestion at line 10. */
  lemma ParseSuggestionsExample(response: string, path: string, decode: JsonDecoder, base: nat, now: int)
    requires |response| >= 2 && response[0] == '[' && response[|response| - 1] == ']'
    requires decode(response) == Ok([SuggestionJson("improvement", "high", "Test suggestion", "Test detail", Some(10))])
    ensures JsonSliceAsWritten(response) == Some(response)
    ensures var r := ParseSuggestions(response, path, decode, base, now);
      r.Ok? && |r.value| == 1 && r.value[0].priority == High && r.value[0].line == Some(10)
      && r.value[0].kind == Improvement
  {
    JsonSliceOfArray(response);
    JsonSliceAgrees(response);
  }

  // ---- truncate_content ----

  const TruncatedMark := "... (truncated)"

  /** The mark that follows a cut at a newline. */
  const LineMark := "\n... (truncated)"

  /**
   * `truncate_content(content, max_chars)`: content of at most `max_chars`
   * bytes is kept; otherwise the first `max_chars` bytes are cut back to their
   * last newline and "\n... (truncated)" is appended, or, with no newline among
   * them, all of them are kept and "... (truncated)" is appended. The slice
   * panics unless byte `max_chars` is a character boundary.
   */
  function TruncateContent(content: string, maxChars: nat): (r: string)
    requires ByteLen(content) <= maxChars || IsCharBoundary(content, maxChars)
    ensures ByteLen(content) <= maxChars ==> r == content
  {
    if ByteLen(content) <= maxChars then content
    else
      var head := BytePrefix(content, maxChars).value;
      match RFindChar(head, '\n')
      case Some(last) => content[..last] + LineMark
      case None => head + TruncatedMark
  }

  /**
   * Longer content is cut at the last newline of its first `max_chars` bytes,
   * or kept whole up to there when they hold no newline.
   */
  lemma TruncateContentCut(content: string, maxChars: nat)
    requires ByteLen(content) > maxChars && IsCharBoundary(content, maxChars)
    ensures var head := BytePrefix(content, maxChars).value;
      && ((forall k :: 0 <= k < |head| ==> head[k] != '\n') ==> TruncateContent(content, maxChars) == head + TruncatedMark)
      && (forall k :: 0 <= k < |head| && head[k] == '\n' && (forall j :: k < j < |head| ==> head[j] != '\n')
                      ==> TruncateContent(content, maxChars) == content[..k] + LineMark)
  {
  }

  lemma MarkBytes()
    ensures ByteLen(TruncatedMark) == 15
  {
    assert IsAscii(TruncatedMark);
    AsciiByteLen(TruncatedMark);
  }

  lemma LineMarkBytes()
    ensures ByteLen(LineMark) == 16
  {
    assert IsAscii(LineMark);
    AsciiByteLen(LineMark);
  }

  /** A prefix of a text is no longer in bytes than the text. */
  lemma {:induction false} PrefixBytes(s: string, k: nat)
    requires k <= |s|
    ensures ByteLen(s[..k]) <= ByteLen(s)
  {
    assert s == s[..k] + s[k..];
    ByteLenAppend(s[..k], s[k..]);
  }

  /** A kept prefix of at most `limit` bytes followed by a mark ends with the mark and is at most the mark's bytes over the limit. */
  lemma {:induction false} MarkedPrefix(kept: string, mark: string, content: string, limit: nat)
    requires kept <= content && ByteLen(kept) <= limit
    ensures var r := kept + mark;
      EndsWith(r, mark) && r[..|r| - |mark|] <= content && ByteLen(r[..|r| - |mark|]) <= limit
      && ByteLen(r) <= limit + ByteLen(mark)
  {
    var r := kept + mark;
    assert r[..|r| - |mark|] == kept;
    assert r[|r| - |mark|..] == mark;
    ByteLenAppend(kept, mark);
  }

  /** A cut at the last newline keeps at most `max_chars` bytes of the content, then the line mark. */
  lemma CutAtNewline(content: string, maxChars: nat)
    requires ByteLen(content) > maxChars && IsCharBoundary(content, maxChars)
    requires RFindChar(BytePrefix(content, maxChars).value, '\n').Some?
    ensures var r := TruncateContent(content, maxChars);
      EndsWith(r, LineMark) && r[..|r| - 16] <= content && ByteLen(r[..|r| - 16]) <= maxChars
      && ByteLen(r) <= maxChars + 16
  {
    var head := BytePrefix(content, maxChars).value;
    var last := RFindChar(head, '\n').value;
    assert TruncateContent(content, maxChars) == content[..last] + LineMark;
    hide *;
    assert content[..last] == head[..last];
    PrefixBytes(head, last);
    LineMarkBytes();
    MarkedPrefix(content[..last], LineMark, content, maxChars);
  }

  /** With no newline in the first `max_chars` bytes, all of them are kept, then the plain mark. */
  lemma CutWithoutNewline(content: string, maxChars: nat)
    requires ByteLen(content) > maxChars && IsCharBoundary(content, maxChars)
    requires RFindChar(BytePrefix(content, maxChars).value, '\n').None?
    ensures var r := TruncateContent(content, maxChars);
      EndsWith(r, TruncatedMark) && r[..|r| - 15] <= content && ByteLen(r[..|r| - 15]) <= maxChars
      && ByteLen(r) <= maxChars + 15
  {
    var head := BytePrefix(content, maxChars).value;
    assert TruncateContent(content, maxChars) == head + TruncatedMark;
    hide *;
    MarkBytes();
    MarkedPrefix(head, TruncatedMark, content, maxChars);
  }

  /**
   * A cut text is a prefix of the content of at most `max_chars` bytes
   * followed by one of the two marks, so it is at most 16 bytes over the limit
   * (the program's test asks for less than 20 over the original length).
   */
  lemma TruncateContentBound(content: string, maxChars: nat)
    requires ByteLen(content) > maxChars && IsCharBoundary(content, maxChars)
    ensures var r := TruncateContent(content, maxChars);
      || (EndsWith(r, TruncatedMark) && r[..|r| - 15] <= content && ByteLen(r[..|r| - 15]) <= maxChars)
      || (EndsWith(r, LineMark) && r[..|r| - 16] <= content && ByteLen(r[..|r| - 16]) <= maxChars)
    ensures ByteLen(TruncateContent(content, maxChars)) <= maxChars + 16
  {
    if RFindChar(BytePrefix(content, maxChars).value, '\n').Some? {
      CutAtNewline(content, maxChars);
    } else {
      CutWithoutNewline(content, maxChars);
    }
  }
}
