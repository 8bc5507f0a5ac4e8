/**
 * The text helpers of `src/ui/panels.rs`: relative ages and byte-length
 * truncation of paths and free text. The truncations slice UTF-8 bytes; the
 * slice panics unless the cut falls on a character boundary, which is their
 * precondition here.
 */
module Panels {
  import opened Strings

  /** The unit `format_time_ago` chooses, as a rank: days, weeks, months, years. */
  function AgeUnit(days: int): (u: nat)
    ensures u <= 3
  {
    if days < 7 then 0 else if days < 30 then 1 else if days < 365 then 2 else 3
  }

  /** `format_time_ago(days)`. */
  function FormatTimeAgo(days: int): (r: string)
    ensures days == 0 ==> r == "today"
    ensures days == 1 ==> r == "1d"
    ensures days != 0 && days != 1 && days < 7 ==> r == IntToString(days) + "d"
    ensures 7 <= days < 30 ==> r == NatToString(days / 7) + "w"
    ensures 30 <= days < 365 ==> r == NatToString(days / 30) + "mo"
    ensures days >= 365 ==> r == NatToString(days / 365) + "y"
  {
    if days == 0 then "today"
    else if days == 1 then "1d"
    else if days < 7 then IntToString(days) + "d"
    else if days < 30 then NatToString(days / 7) + "w"
    else if days < 365 then NatToString(days / 30) + "mo"
    else NatToString(days / 365) + "y"
  }

  /** The number of whole units `format_time_ago` shows for a positive age. */
  function ShownCount(days: int): int
  {
    match AgeUnit(days)
    case 0 => days
    case 1 => days / 7
    case 2 => days / 30
    case 3 => days / 365
  }

  /** The size in days of each unit. */
  function UnitDays(u: nat): nat
    requires u <= 3
  {
    [1, 7, 30, 365][u]
  }

  /**
   * For a positive age the shown count is at least one whole unit and is the
   * age rounded down to whole units; older ages never get a smaller unit.
   */
  lemma ShownCountMeaning(days: int, later: int)
    requires 1 <= days <= later
    ensures ShownCount(days) >= 1
    ensures ShownCount(days) * UnitDays(AgeUnit(days)) <= days < (ShownCount(days) + 1) * UnitDays(AgeUnit(days))
    ensures AgeUnit(days) <= AgeUnit(later)
  {
  }

  /**
   * `truncate_path(path, max_len)`: a path of at most `max_len` bytes is kept;
   * a longer one becomes "..." and its last `max_len - 3` bytes, so the result
   * has exactly `max_len` bytes and ends with a suffix of the path. The cut
   * must be a character boundary, and `max_len` at least 3, or the slice panics.
   */
  function TruncatePath(path: string, maxLen: nat): (r: string)
    requires ByteLen(path) <= maxLen || (maxLen >= 3 && IsCharBoundary(path, ByteLen(path) - maxLen + 3))
    ensures ByteLen(path) <= maxLen ==> r == path
    ensures ByteLen(path) > maxLen ==>
      && ByteLen(r) == maxLen
      && StartsWith(r, "...")
      && path == BytePrefix(path, ByteLen(path) - maxLen + 3).value + r[3..]
  {
    if ByteLen(path) <= maxLen then path
    else
      var start := ByteLen(path) - maxLen + 3;
      var tail := ByteSuffix(path, start);
      ByteLenAppend("...", tail);
      assert ("..." + tail)[3..] == tail;
      "..." + tail
  }

  /** On ASCII paths every cut is a boundary, and the result keeps the last `max_len - 3` characters. */
  lemma TruncateAsciiPath(path: string, maxLen: nat)
    requires IsAscii(path) && maxLen >= 3
    ensures ByteLen(path) == |path|
    ensures |path| <= maxLen || IsCharBoundary(path, |path| - maxLen + 3)
    ensures |path| > maxLen ==> TruncatePath(path, maxLen) == "..." + path[|path| - maxLen + 3..]
  {
    hide ByteLen, IsCharBoundary, ByteSuffix, BytePrefix, IsAscii;
    AsciiByteLen(path);
    if |path| > maxLen {
      var start := |path| - maxLen + 3;
      AsciiBoundary(path, start);
      AsciiSuffix(path, start);
    }
  }

  lemma AsciiSuffix(path: string, start: nat)
    requires IsAscii(path) && start <= |path|
    ensures IsCharBoundary(path, start) && ByteSuffix(path, start) == path[start..]
  {
    AsciiBoundary(path, start);
  }

  /** `saturating_sub`. */
  function SaturatingSub(a: nat, b: nat): nat { if a >= b then a - b else 0 }

  /**
   * `truncate_text(text, max_len)`: text of at most `max_len` bytes is kept;
   * longer text keeps its first `max_len - 3` bytes (none when `max_len < 3`)
   * followed by "...", so the result has `max(max_len, 3)` bytes.
   */
  function TruncateText(text: string, maxLen: nat): (r: string)
    requires ByteLen(text) <= maxLen || IsCharBoundary(text, SaturatingSub(maxLen, 3))
    ensures ByteLen(text) <= maxLen ==> r == text
    ensures ByteLen(text) > maxLen ==>
      && ByteLen(r) == (if maxLen >= 3 then maxLen else 3)
      && EndsWith(r, "...")
      && r[..|r| - 3] <= text
  {
    if ByteLen(text) <= maxLen then text
    else
      var head := BytePrefix(text, SaturatingSub(maxLen, 3)).value;
      ByteLenAppend(head, "...");
      assert (head + "...")[..|head|] == head;
      head + "..."
  }

  /** With a width below 3 a long text is replaced by "..." alone, which is wider than asked. */
  lemma TruncateTextNarrow(text: string, maxLen: nat)
    requires maxLen < 3 && ByteLen(text) > maxLen
    ensures IsCharBoundary(text, SaturatingSub(maxLen, 3)) && TruncateText(text, maxLen) == "..."
  {
    ZeroIsBoundary(text);
  }
}
