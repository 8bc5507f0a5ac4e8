/**
 * Version comparison of `src/update.rs`: a version string is read as
 * (major, minor, patch) after dropping leading `v` characters; a pre-release
 * tag after `-` in the patch part and any part after the third are ignored,
 * and the triples are compared lexicographically as numbers. This loosely
 * follows the precedence rule of section 11 of Semantic Versioning 2.0.0,
 * except that pre-release tags do not take part.
 */
module Update {
  import opened Results
  import opened Strings

  const U32Limit: nat := 0x1_0000_0000

  predicate IsDigit(c: char) { '0' <= c <= '9' }

  predicate AllDigits(s: string) { forall k :: 0 <= k < |s| ==> IsDigit(s[k]) }

  /** The number a string of decimal digits denotes, most significant digit first. */
  function DigitsValue(s: string): nat
    requires AllDigits(s)
  {
    if s == [] then 0 else DigitsValue(s[..|s| - 1]) * 10 + (s[|s| - 1] as int - '0' as int)
  }

  /**
   * `s.parse::<u32>()`: an optional `+`, then at least one decimal digit and
   * nothing else, with a value that fits in 32 bits.
   */
  function ParseU32(s: string): (r: Option<nat>)
    ensures r.Some? ==> r.value < U32Limit
  {
    var digits := if |s| > 0 && s[0] == '+' then s[1..] else s;
    if digits == [] || !AllDigits(digits) then None
    else if DigitsValue(digits) < U32Limit then Some(DigitsValue(digits))
    else None
  }

  datatype Version = Version(major: nat, minor: nat, patch: nat)

  /** The `parse` closure of `is_newer_version`. */
  function ParseVersion(v: string): Option<Version>
  {
    var parts := Split(TrimStartMatches(v, "v"), '.');
    if |parts| >= 3 then
      match (ParseU32(parts[0]), ParseU32(parts[1]), ParseU32(Split(parts[2], '-')[0]))
      case (Some(major), Some(minor), Some(patch)) => Some(Version(major, minor, patch))
      case _ => None
    else None
  }

  /** Rust's derived order on `(u32, u32, u32)`: field by field, the first difference decides. */
  predicate Greater(a: Version, b: Version)
  {
    a.major > b.major
    || (a.major == b.major && a.minor > b.minor)
    || (a.major == b.major && a.minor == b.minor && a.patch > b.patch)
  }

  /** `is_newer_version(latest, current)`: false unless both parse and `latest` is the greater triple. */
  function IsNewerVersion(latest: string, current: string): (r: bool)
    ensures r <==> ParseVersion(latest).Some? && ParseVersion(current).Some?
                   && Greater(ParseVersion(latest).value, ParseVersion(current).value)
  {
    match (ParseVersion(latest), ParseVersion(current))
    case (Some(l), Some(c)) => Greater(l, c)
    case _ => false
  }

  // ---- order properties ----

  /** No version is newer than itself, and of two versions at most one is newer. */
  lemma NewerIrreflexiveAsymmetric(a: string, b: string)
    ensures !IsNewerVersion(a, a)
    ensures !(IsNewerVersion(a, b) && IsNewerVersion(b, a))
  {
  }

  lemma NewerTransitive(a: string, b: string, c: string)
    requires IsNewerVersion(a, b) && IsNewerVersion(b, c)
    ensures IsNewerVersion(a, c)
  {
  }

  /** Two parsed versions are equal or one of them is newer. */
  lemma NewerTotalOnParsed(a: string, b: string)
    requires ParseVersion(a).Some? && ParseVersion(b).Some?
    ensures IsNewerVersion(a, b) || IsNewerVersion(b, a) || ParseVersion(a) == ParseVersion(b)
  {
  }

  /** An unparsable string on either side means "not newer". */
  lemma UnparsableIsNeverNewer(a: string, b: string)
    requires ParseVersion(a).None? || ParseVersion(b).None?
    ensures !IsNewerVersion(a, b) && !IsNewerVersion(b, a)
  {
  }

  /** A leading `v` is ignored on either side. */
  lemma LeadingVIgnored(a: string, b: string)
    ensures IsNewerVersion("v" + a, b) == IsNewerVersion(a, b)
    ensures IsNewerVersion(a, "v" + b) == IsNewerVersion(a, b)
  {
    assert StartsWith("v" + a, "v") && ("v" + a)[1..] == a;
    assert StartsWith("v" + b, "v") && ("v" + b)[1..] == b;
  }

  // ---- rendered versions parse back ----

  /** `format!("{}.{}.{}", major, minor, patch)`. */
  function Render(v: Version): string
  {
    NatToString(v.major) + "." + NatToString(v.minor) + "." + NatToString(v.patch)
  }

  predicate Fits(v: Version) { v.major < U32Limit && v.minor < U32Limit && v.patch < U32Limit }

  lemma {:induction false} NatToStringDigits(n: nat)
    ensures AllDigits(NatToString(n)) && DigitsValue(NatToString(n)) == n
    decreases n
  {
    if n >= 10 {
      NatToStringDigits(n / 10);
      var s := NatToString(n);
      assert s[..|s| - 1] == NatToString(n / 10);
    }
  }

  /** Decimal rendering and `parse::<u32>` are inverse on 32-bit values. */
  lemma ParseRendered(n: nat)
    requires n < U32Limit
    ensures ParseU32(NatToString(n)) == Some(n)
  {
    NatToStringDigits(n);
    assert NatToString(n)[0] != '+' by { assert IsDigit(NatToString(n)[0]); }
  }

  /** Splitting text that starts with a piece free of the separator peels that piece off. */
  lemma SplitPeel(a: string, c: char, b: string)
    requires c !in a
    ensures Split(a + [c] + b, c) == [a] + Split(b, c)
  {
    var s := a + [c] + b;
    assert forall k :: 0 <= k < |a| ==> s[k] == a[k] && a[k] in a;
    assert s[|a|] == c;
    assert FindChar(s, c) == Some(|a|);
    assert s[..|a|] == a && s[|a| + 1..] == b;
  }

  /** The first piece of a split is the text before the first separator, or all of it. */
  lemma SplitHead(a: string, c: char, b: string)
    requires c !in a && (b == [] || b[0] == c)
    ensures Split(a + b, c)[0] == a
  {
    if b == [] {
      assert a + b == a;
      assert forall k :: 0 <= k < |a| ==> a[k] in a;
      assert FindChar(a, c).None?;
    } else {
      assert a + b == a + [c] + b[1..];
      SplitPeel(a, c, b[1..]);
    }
  }

  /** The first piece of a split holds no separator and is a prefix of the text. */
  lemma {:induction false} SplitHeadPrefix(s: string, c: char)
    ensures |Split(s, c)[0]| <= |s| && s[..|Split(s, c)[0]|] == Split(s, c)[0]
    ensures |Split(s, c)[0]| < |s| ==> s[|Split(s, c)[0]|] == c
  {
    match FindChar(s, c)
    case None =>
    case Some(i) =>
  }

  /** A rendered number holds only digits: no separator and no `v`. */
  lemma NoSeparators(n: nat)
    ensures '.' !in NatToString(n) && '-' !in NatToString(n) && 'v' !in NatToString(n)
    ensures NatToString(n)[0] != 'v'
  {
    NatToStringDigits(n);
    var s := NatToString(n);
    assert forall k :: 0 <= k < |s| ==> s[k] != '.' && s[k] != '-' && s[k] != 'v';
  }

  /** `trim_start_matches('v')` leaves text that does not start with `v` alone. */
  lemma NoLeadingV(s: string)
    requires s != [] && s[0] != 'v'
    ensures TrimStartMatches(s, "v") == s
  {
    assert !StartsWith(s, "v") by { assert s[..1] != "v"; }
  }

  /** The first two parts of `a.b.rest` are `a` and `b`. */
  lemma LeadingParts(ma: string, mi: string, rest: string)
    requires '.' !in ma && '.' !in mi
    ensures Split(ma + "." + mi + "." + rest, '.') == [ma, mi] + Split(rest, '.')
  {
    assert ma + "." + mi + "." + rest == ma + ['.'] + (mi + ['.'] + rest);
    SplitPeel(ma, '.', mi + ['.'] + rest);
    SplitPeel(mi, '.', rest);
  }

  /** A tail that neither adds a digit to the patch nor changes the first three parts. */
  predicate IgnoredTail(tail: string) { tail == [] || tail[0] == '.' || tail[0] == '-' }

  /** The first `.`-part of `pa + tail`, cut at its first `-`, is `pa`. */
  lemma PatchPart(pa: string, tail: string)
    requires '.' !in pa && '-' !in pa && IgnoredTail(tail)
    ensures Split(Split(pa + tail, '.')[0], '-')[0] == pa
  {
    var third := Split(pa + tail, '.')[0];
    SplitHeadPrefix(pa + tail, '.');
    assert forall k :: 0 <= k < |pa| ==> (pa + tail)[k] == pa[k] && pa[k] in pa;
    assert |third| >= |pa|;
    assert third == pa + third[|pa|..] by {
      assert third[..|pa|] == (pa + tail)[..|pa|] == pa;
    }
    var rest := third[|pa|..];
    if rest != [] {
      assert rest[0] == tail[0] && rest[0] in third;
    }
    SplitHead(pa, '-', rest);
  }

  /**
   * A rendered 32-bit version parses back to itself, whatever follows the
   * patch number after a `.` (further parts) or a `-` (a pre-release tag).
   */
  lemma ParseRenderedVersion(v: Version, tail: string)
    requires Fits(v) && IgnoredTail(tail)
    ensures ParseVersion(Render(v) + tail) == Some(v)
  {
    var ma, mi, pa := NatToString(v.major), NatToString(v.minor), NatToString(v.patch);
    NoSeparators(v.major);
    NoSeparators(v.minor);
    NoSeparators(v.patch);
    var s := Render(v) + tail;
    assert s == ma + "." + mi + "." + (pa + tail);
    NoLeadingV(s);
    LeadingParts(ma, mi, pa + tail);
    PatchPart(pa, tail);
    ParseRendered(v.major);
    ParseRendered(v.minor);
    ParseRendered(v.patch);
  }

  /** On rendered versions `is_newer_version` is exactly the numeric order of the triples. */
  lemma NewerIsNumericOrder(a: Version, b: Version)
    requires Fits(a) && Fits(b)
    ensures IsNewerVersion(Render(a), Render(b)) <==> Greater(a, b)
  {
    assert Render(a) + [] == Render(a) && Render(b) + [] == Render(b);
    ParseRenderedVersion(a, []);
    ParseRenderedVersion(b, []);
  }

  /** A pre-release tag is dropped: `0.3.0-beta` is neither newer nor older than `0.3.0`. */
  lemma PreReleaseIgnored(v: Version, tag: string)
    requires Fits(v)
    ensures !IsNewerVersion(Render(v) + "-" + tag, Render(v))
    ensures !IsNewerVersion(Render(v), Render(v) + "-" + tag)
  {
    assert Render(v) + "-" + tag == Render(v) + ("-" + tag);
    ParseRenderedVersion(v, "-" + tag);
    assert Render(v) + [] == Render(v);
    ParseRenderedVersion(v, []);
  }

  /** Parts after the third are ignored: `1.2.3.9` compares like `1.2.3`. */
  lemma ExtraPartsIgnored(v: Version, w: Version, extra: string)
    requires Fits(v) && Fits(w)
    ensures IsNewerVersion(Render(v) + "." + extra, Render(w)) == IsNewerVersion(Render(v), Render(w))
  {
    assert Render(v) + "." + extra == Render(v) + ("." + extra);
    ParseRenderedVersion(v, "." + extra);
    assert Render(v) + [] == Render(v) && Render(w) + [] == Render(w);
    ParseRenderedVersion(v, []);
    ParseRenderedVersion(w, []);
  }

  lemma SplitWithout(s: string, c: char)
    requires c !in s
    ensures Split(s, c) == [s]
  {
    assert forall k :: 0 <= k < |s| ==> s[k] in s;
    assert FindChar(s, c).None?;
  }

  /** Two parts are not enough: `1.0` never compares as newer or older. */
  lemma TwoPartsRejected(major: nat, minor: nat, other: string)
    ensures !IsNewerVersion(NatToString(major) + "." + NatToString(minor), other)
    ensures !IsNewerVersion(other, NatToString(major) + "." + NatToString(minor))
  {
    var ma, mi := NatToString(major), NatToString(minor);
    NoSeparators(major);
    NoSeparators(minor);
    var s := ma + "." + mi;
    NoLeadingV(s);
    assert s == ma + ['.'] + mi;
    SplitPeel(ma, '.', mi);
    SplitWithout(mi, '.');
    assert |Split(TrimStartMatches(s, "v"), '.')| == 2;
  }

  /** The cases the program's own tests check, numerically: 0.3.10 is newer than 0.3.9, 1.0.0 than 0.99.99. */
  lemma ExampleComparisons()
    ensures IsNewerVersion(Render(Version(0, 3, 10)), Render(Version(0, 3, 9)))
    ensures IsNewerVersion(Render(Version(1, 0, 0)), Render(Version(0, 99, 99)))
    ensures !IsNewerVersion(Render(Version(0, 3, 0)), Render(Version(0, 3, 1)))
  {
    NewerIsNumericOrder(Version(0, 3, 10), Version(0, 3, 9));
    NewerIsNumericOrder(Version(1, 0, 0), Version(0, 99, 99));
    NewerIsNumericOrder(Version(0, 3, 0), Version(0, 3, 1));
  }
}
