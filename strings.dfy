/**
 * Text helpers with the meaning of the Rust `str` methods the core calls:
 * prefix/suffix tests, repeated trimming, splitting, `lines()`, ASCII case
 * mapping, whitespace trimming and the UTF-8 byte view used by byte slicing.
 */
module Strings {
  import opened Results

  predicate StartsWith(s: string, p: string) { |p| <= |s| && s[..|p|] == p }

  predicate EndsWith(s: string, p: string) { |p| <= |s| && s[|s| - |p|..] == p }

  /** `s.contains(p)`: `p` occurs somewhere in `s`. */
  predicate Contains(s: string, p: string)
    decreases |s|
  {
    StartsWith(s, p) || (|s| > 0 && Contains(s[1..], p))
  }

  /** Index of the first occurrence of `p` in `s` (`str::find`). */
  function Find(s: string, p: string): (r: Option<nat>)
    ensures r.Some? ==> r.value + |p| <= |s| && s[r.value..r.value + |p|] == p
    ensures r.Some? ==> forall k :: 0 <= k < r.value ==> !StartsWith(s[k..], p)
    ensures r.None? ==> !Contains(s, p)
    decreases |s|
  {
    if StartsWith(s, p) then Some(0)
    else if |s| == 0 then None
    else match Find(s[1..], p)
      case None => None
      case Some(i) =>
        assert forall k :: 1 <= k < i + 1 ==> s[k..] == s[1..][k - 1..];
        Some(i + 1)
  }

  /** Index of the last occurrence of the character `c` (`str::rfind`). */
  function RFindChar(s: string, c: char): (r: Option<nat>)
    ensures r.Some? ==> r.value < |s| && s[r.value] == c
    ensures r.Some? ==> forall k :: r.value < k < |s| ==> s[k] != c
    ensures r.None? ==> forall k :: 0 <= k < |s| ==> s[k] != c
  {
    if |s| == 0 then None
    else if s[|s| - 1] == c then Some(|s| - 1)
    else RFindChar(s[..|s| - 1], c)
  }

  /** Index of the first occurrence of the character `c`. */
  function FindChar(s: string, c: char): (r: Option<nat>)
    ensures r.Some? ==> r.value < |s| && s[r.value] == c
    ensures r.Some? ==> forall k :: 0 <= k < r.value ==> s[k] != c
    ensures r.None? ==> forall k :: 0 <= k < |s| ==> s[k] != c
  {
    if |s| == 0 then None
    else if s[0] == c then Some(0)
    else match FindChar(s[1..], c)
      case None => None
      case Some(i) => Some(i + 1)
  }

  /** `s.trim_start_matches(p)`: removes every leading repetition of `p`. */
  function TrimStartMatches(s: string, p: string): (r: string)
    ensures |r| <= |s| && s[|s| - |r|..] == r
    decreases |s|
  {
    if p != [] && StartsWith(s, p) then TrimStartMatches(s[|p|..], p) else s
  }

  /** `s.trim_end_matches(p)`: removes every trailing repetition of `p`. */
  function TrimEndMatches(s: string, p: string): (r: string)
    ensures |r| <= |s| && s[..|r|] == r
    decreases |s|
  {
    if p != [] && EndsWith(s, p) then TrimEndMatches(s[..|s| - |p|], p) else s
  }

  /** `s.split_once(sep)`: the text before and after the first `sep`. */
  function SplitOnce(s: string, sep: string): (r: Option<(string, string)>)
    ensures r.Some? <==> Contains(s, sep)
    ensures r.Some? ==> s == r.value.0 + sep + r.value.1
    ensures r.Some? ==> forall k :: 0 <= k < |r.value.0| ==> !StartsWith(s[k..], sep)
  {
    match Find(s, sep)
    case None => None
    case Some(i) =>
      FindIsContains(s, sep, i);
      SplitAround(s, i, i + |sep|);
      Some((s[..i], s[i + |sep|..]))
  }

  lemma SplitAround(s: string, i: nat, j: nat)
    requires i <= j <= |s|
    ensures s == s[..i] + s[i..j] + s[j..]
  {
    assert s[..j] == s[..i] + s[i..j];
    assert s == s[..j] + s[j..];
  }

  lemma FindIsContains(s: string, p: string, i: nat)
    requires Find(s, p) == Some(i)
    ensures Contains(s, p)
  {
    ContainsAt(s, p, i);
  }

  lemma {:induction false} ContainsAt(s: string, p: string, i: nat)
    requires i + |p| <= |s| && s[i..i + |p|] == p
    ensures Contains(s, p)
    decreases i
  {
    if i > 0 {
      assert s[1..][i - 1..i - 1 + |p|] == s[i..i + |p|];
      ContainsAt(s[1..], p, i - 1);
    }
  }

  lemma {:induction false} ContainsWitness(s: string, p: string) returns (i: nat)
    requires Contains(s, p)
    ensures i + |p| <= |s| && s[i..i + |p|] == p
    decreases |s|
  {
    if StartsWith(s, p) {
      i := 0;
    } else {
      var j := ContainsWitness(s[1..], p);
      assert s[1..][j..j + |p|] == s[j + 1..j + 1 + |p|];
      i := j + 1;
    }
  }

  /** `s.split(c)`: the maximal pieces between occurrences of `c`; never empty. */
  function Split(s: string, c: char): (r: seq<string>)
    ensures |r| >= 1
    ensures forall k :: 0 <= k < |r| ==> c !in r[k]
    decreases |s|
  {
    match FindChar(s, c)
    case None => [s]
    case Some(i) => [s[..i]] + Split(s[i + 1..], c)
  }

  /** `pieces.join(sep)`. */
  function Join(pieces: seq<string>, sep: string): string
  {
    if |pieces| == 0 then []
    else if |pieces| == 1 then pieces[0]
    else pieces[0] + sep + Join(pieces[1..], sep)
  }

  function StripCarriageReturn(line: string): string
  {
    if |line| > 0 && line[|line| - 1] == '\r' then line[..|line| - 1] else line
  }

  /**
   * `s.lines()`: pieces ended by "\n" (a "\r" just before the "\n" is dropped);
   * a final piece without "\n" is kept as it is, and a trailing "\n" does not
   * start an extra empty line.
   */
  function Lines(s: string): (r: seq<string>)
    ensures forall k :: 0 <= k < |r| ==> '\n' !in r[k]
    ensures s == [] <==> r == []
    decreases |s|
  {
    if s == [] then []
    else match FindChar(s, '\n')
      case None => [s]
      case Some(i) => [StripCarriageReturn(s[..i])] + Lines(s[i + 1..])
  }

  function AsciiLowerChar(c: char): char
  {
    if 'A' <= c <= 'Z' then (c as int + 32) as char else c
  }

  function AsciiUpperChar(c: char): char
  {
    if 'a' <= c <= 'z' then (c as int - 32) as char else c
  }

  /** `to_lowercase()` restricted to the ASCII letters. */
  function ToLower(s: string): (r: string)
    ensures |r| == |s| && forall k :: 0 <= k < |s| ==> r[k] == AsciiLowerChar(s[k])
  {
    seq(|s|, k requires 0 <= k < |s| => AsciiLowerChar(s[k]))
  }

  /** `to_uppercase()` restricted to the ASCII letters. */
  function ToUpper(s: string): (r: string)
    ensures |r| == |s| && forall k :: 0 <= k < |s| ==> r[k] == AsciiUpperChar(s[k])
  {
    seq(|s|, k requires 0 <= k < |s| => AsciiUpperChar(s[k]))
  }

  /** Unicode White_Space, the set `str::trim` removes. */
  predicate IsWhitespace(c: char)
  {
    var n := c as int;
    n == 0x20 || (0x09 <= n <= 0x0D) || n == 0x85 || n == 0xA0 || n == 0x1680
    || (0x2000 <= n <= 0x200A) || n == 0x2028 || n == 0x2029 || n == 0x202F
    || n == 0x205F || n == 0x3000
  }

  function TrimStart(s: string): string
  {
    if |s| > 0 && IsWhitespace(s[0]) then TrimStart(s[1..]) else s
  }

  /** `trim_start` removes a whitespace prefix and leaves a non-whitespace first character. */
  lemma {:induction false} TrimStartFacts(s: string)
    ensures |TrimStart(s)| <= |s| && s[|s| - |TrimStart(s)|..] == TrimStart(s)
    ensures TrimStart(s) != [] ==> !IsWhitespace(TrimStart(s)[0])
    ensures forall k :: 0 <= k < |s| - |TrimStart(s)| ==> IsWhitespace(s[k])
  {
    hide IsWhitespace;
    if |s| > 0 && IsWhitespace(s[0]) {
      var t := s[1..];
      TrimStartFacts(t);
      assert TrimStart(s) == TrimStart(t);
      assert t[|t| - |TrimStart(t)|..] == s[|s| - |TrimStart(t)|..];
      assert forall k :: 1 <= k < |s| ==> s[k] == t[k - 1];
    }
  }

  function TrimEnd(s: string): string
  {
    if |s| > 0 && IsWhitespace(s[|s| - 1]) then TrimEnd(s[..|s| - 1]) else s
  }

  /** `trim_end` removes a whitespace suffix and leaves a non-whitespace last character. */
  lemma {:induction false} TrimEndFacts(s: string)
    ensures |TrimEnd(s)| <= |s| && s[..|TrimEnd(s)|] == TrimEnd(s)
    ensures TrimEnd(s) != [] ==> !IsWhitespace(TrimEnd(s)[|TrimEnd(s)| - 1])
    ensures forall k :: |TrimEnd(s)| <= k < |s| ==> IsWhitespace(s[k])
  {
    hide IsWhitespace;
    if |s| > 0 && IsWhitespace(s[|s| - 1]) {
      var t := s[..|s| - 1];
      TrimEndFacts(t);
      assert TrimEnd(s) == TrimEnd(t);
      assert t[..|TrimEnd(t)|] == s[..|TrimEnd(t)|];
      assert forall k :: 0 <= k < |t| ==> s[k] == t[k];
    }
  }

  /** `s.trim()`. */
  function Trim(s: string): string { TrimEnd(TrimStart(s)) }

  /** `s.matches(p).count()`: non-overlapping occurrences, scanned left to right. */
  function MatchCount(s: string, p: string): nat
    requires p != []
    decreases |s|
  {
    if |s| < |p| then 0
    else if StartsWith(s, p) then 1 + MatchCount(s[|p|..], p)
    else MatchCount(s[1..], p)
  }

  /** Some occurrence is counted exactly when `p` occurs at all, and the occurrences do not overlap. */
  lemma {:induction false} MatchCountMeaning(s: string, p: string)
    requires p != []
    ensures MatchCount(s, p) > 0 <==> Contains(s, p)
    ensures MatchCount(s, p) * |p| <= |s|
    decreases |s|
  {
    if |s| < |p| {
      NoRoomNoMatch(s, p);
    } else if StartsWith(s, p) {
      MatchCountMeaning(s[|p|..], p);
    } else {
      MatchCountMeaning(s[1..], p);
    }
  }

  lemma {:induction false} NoRoomNoMatch(s: string, p: string)
    requires |s| < |p|
    ensures !Contains(s, p)
    decreases |s|
  {
    if |s| > 0 {
      NoRoomNoMatch(s[1..], p);
    }
  }

  // ---- UTF-8 byte view ----

  /** Number of bytes of the UTF-8 encoding of `c`. */
  function Utf8Width(c: char): (w: nat)
    ensures 1 <= w <= 4
    ensures w == 1 <==> (c as int) < 0x80
  {
    if (c as int) < 0x80 then 1
    else if (c as int) < 0x800 then 2
    else if (c as int) < 0x10000 then 3
    else 4
  }

  /** `s.len()`: the byte length of the UTF-8 encoding. */
  function ByteLen(s: string): (n: nat)
    ensures n >= |s|
  {
    if s == [] then 0 else Utf8Width(s[0]) + ByteLen(s[1..])
  }

  predicate IsAscii(s: string) { forall k :: 0 <= k < |s| ==> (s[k] as int) < 0x80 }

  /**
   * The characters of `s` whose encoding is exactly the first `n` bytes, or
   * None when byte `n` is not a character boundary (where `&s[..n]` panics).
   */
  function BytePrefix(s: string, n: nat): (r: Option<string>)
    ensures r.Some? ==> |r.value| <= |s| && s[..|r.value|] == r.value && ByteLen(r.value) == n
    decreases |s|
  {
    if n == 0 then Some([])
    else if s == [] || Utf8Width(s[0]) > n then None
    else match BytePrefix(s[1..], n - Utf8Width(s[0]))
      case None => None
      case Some(t) => Some([s[0]] + t)
  }

  /** Byte `n` is a character boundary of `s` (`s.is_char_boundary(n)`). */
  predicate IsCharBoundary(s: string, n: nat) { BytePrefix(s, n).Some? }

  /** `&s[n..]`, defined where `n` is a character boundary. */
  function ByteSuffix(s: string, n: nat): (r: string)
    requires IsCharBoundary(s, n)
    ensures ByteLen(r) + n == ByteLen(s)
    ensures s == BytePrefix(s, n).value + r
  {
    var k := |BytePrefix(s, n).value|;
    ByteLenAppend(s[..k], s[k..]);
    assert s == s[..k] + s[k..];
    s[k..]
  }

  lemma {:induction false} ByteLenAppend(a: string, b: string)
    ensures ByteLen(a + b) == ByteLen(a) + ByteLen(b)
    decreases |a|
  {
    if a != [] {
      assert (a + b)[1..] == a[1..] + b;
      ByteLenAppend(a[1..], b);
    } else {
      assert a + b == b;
    }
  }

  /** In ASCII text every byte index up to the length is a boundary. */
  lemma {:induction false} AsciiBoundary(s: string, n: nat)
    requires IsAscii(s) && n <= |s|
    ensures IsCharBoundary(s, n) && BytePrefix(s, n).value == s[..n]
    decreases n
  {
    if n > 0 {
      assert IsAscii(s[1..]);
      AsciiBoundary(s[1..], n - 1);
      assert [s[0]] + s[1..][..n - 1] == s[..n];
    }
  }

  lemma {:induction false} AsciiByteLen(s: string)
    requires IsAscii(s)
    ensures ByteLen(s) == |s|
    decreases |s|
  {
    if s != [] {
      assert IsAscii(s[1..]);
      AsciiByteLen(s[1..]);
    }
  }

  /** Every byte index of a boundary lies within the text. */
  lemma {:induction false} BoundaryWithin(s: string, n: nat)
    requires IsCharBoundary(s, n)
    ensures n <= ByteLen(s)
  {
    var p := BytePrefix(s, n).value;
    assert s == p + s[|p|..];
    ByteLenAppend(p, s[|p|..]);
  }

  lemma ZeroIsBoundary(s: string)
    ensures IsCharBoundary(s, 0) && BytePrefix(s, 0) == Some([])
  {
  }

  lemma {:induction false} EndIsBoundary(s: string)
    ensures IsCharBoundary(s, ByteLen(s)) && BytePrefix(s, ByteLen(s)) == Some(s)
    decreases |s|
  {
    if s != [] {
      EndIsBoundary(s[1..]);
      assert [s[0]] + s[1..] == s;
    }
  }

  /**
   * `truncate` of src/main.rs, src/ui/mod.rs and src/suggest/static_rules.rs:
   * text of at most `max` bytes is kept, longer text keeps its first
   * `max - 3` bytes followed by "...". The slice panics unless that cut is a
   * character boundary, and `max - 3` underflows for `max < 3`.
   */
  function TruncateBytes(s: string, max: nat): (r: string)
    requires ByteLen(s) <= max || (max >= 3 && IsCharBoundary(s, max - 3))
    ensures ByteLen(r) <= max
    ensures ByteLen(s) <= max ==> r == s
    ensures ByteLen(s) > max ==> ByteLen(r) == max && EndsWith(r, "...") && r[..|r| - 3] <= s
  {
    if ByteLen(s) <= max then s
    else
      var head := BytePrefix(s, max - 3).value;
      ByteLenAppend(head, "...");
      head + "..."
  }

  // ---- decimal rendering ----

  function DigitChar(d: nat): char
    requires d < 10
  {
    "0123456789"[d]
  }

  /** `format!("{}", n)` for a natural number. */
  function NatToString(n: nat): (r: string)
    ensures |r| >= 1
    decreases n
  {
    if n < 10 then [DigitChar(n)] else NatToString(n / 10) + [DigitChar(n % 10)]
  }

  /** `format!("{}", i)` for a signed number. */
  function IntToString(i: int): string
  {
    if i < 0 then "-" + NatToString(-i) else NatToString(i)
  }
}
