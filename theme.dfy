/**
 * The text gauges and the score shading of `src/ui/theme.rs`. Colours are
 * kept as the RGB triples of the palette; every other style is presentation
 * and not modelled.
 */
module Theme {

  /** A value of Rust's `u8`. */
  newtype U8 = x: int | 0 <= x < 256

  datatype Color = Rgb(r: nat, g: nat, b: nat)

  const White := Rgb(255, 255, 255)
  const Grey100 := Rgb(220, 220, 220)
  const Grey200 := Rgb(180, 180, 180)
  const Grey300 := Rgb(140, 140, 140)
  const Grey400 := Rgb(100, 100, 100)

  const StarFilled := '✦'
  const StarEmpty := '✧'
  const BarFilled := '█'
  const BarEmpty := '░'
  const BulletFilled := '●'
  const BulletEmpty := '○'

  /** `score_color`: 90-100, 75-89, 60-74 and 40-59 get successively dimmer greys; every other byte the dimmest. */
  function ScoreColor(score: U8): (c: Color)
    ensures 90 <= score <= 100 ==> c == White
    ensures 75 <= score <= 89 ==> c == Grey100
    ensures 60 <= score <= 74 ==> c == Grey200
    ensures 40 <= score <= 59 ==> c == Grey300
    ensures score < 40 || score > 100 ==> c == Grey400
  {
    if 90 <= score <= 100 then White
    else if 75 <= score <= 89 then Grey100
    else if 60 <= score <= 74 then Grey200
    else if 40 <= score <= 59 then Grey300
    else Grey400
  }

  /** On the grades 0 to 100 a higher score is never drawn dimmer. */
  lemma ScoreColorMonotone(a: U8, b: U8)
    requires a <= b <= 100
    ensures ScoreColor(a).r <= ScoreColor(b).r
  {
  }

  /** A row of `total` cells whose first `filled` cells (at most all of them) show the filled glyph. */
  function Gauge(filled: nat, total: nat, on: char, off: char): (g: string)
    ensures |g| == total
    ensures forall i :: 0 <= i < total ==> g[i] == if i < filled then on else off
  {
    seq(total, i requires 0 <= i < total => if i < filled then on else off)
  }

  /** The number of filled glyphs in a gauge. */
  function CountOf(s: string, c: char): nat
  {
    if s == [] then 0 else CountOf(s[..|s| - 1], c) + (if s[|s| - 1] == c then 1 else 0)
  }

  /** A gauge with distinct glyphs shows exactly `min(filled, total)` filled cells. */
  lemma {:induction false} GaugeCount(filled: nat, total: nat, on: char, off: char)
    requires on != off
    ensures CountOf(Gauge(filled, total, on, off), on) == if filled < total then filled else total
    decreases total
  {
    if total > 0 {
      GaugeCount(filled, total - 1, on, off);
      assert Gauge(filled, total, on, off)[..total - 1] == Gauge(filled, total - 1, on, off);
    }
  }

  /** The push loop shared by the three gauge builders. */
  method PushCells(filled: nat, total: nat, on: char, off: char) returns (result: string)
    ensures result == Gauge(filled, total, on, off)
  {
    result := "";
    for i := 0 to total
      invariant |result| == i
      invariant forall k :: 0 <= k < i ==> result[k] == if k < filled then on else off
    {
      if i < filled {
        result := result + [on];
      } else {
        result := result + [off];
      }
    }
  }

  /** `star_rating(filled, total)`: exactly `total` stars, the first `min(filled, total)` filled. */
  method StarRating(filled: nat, total: nat) returns (result: string)
    ensures |result| == total
    ensures forall i :: 0 <= i < total ==> result[i] == if i < filled then StarFilled else StarEmpty
    ensures CountOf(result, StarFilled) == if filled < total then filled else total
  {
    result := PushCells(filled, total, StarFilled, StarEmpty);
    GaugeCount(filled, total, StarFilled, StarEmpty);
  }

  /** `bar_gauge(value, width)`: `width` cells, `value * width / 100` of them (at most all) filled. */
  method BarGauge(value: U8, width: nat) returns (result: string)
    ensures |result| == width
    ensures forall i :: 0 <= i < width ==> result[i] == if i < (value as int * width) / 100 then BarFilled else BarEmpty
    ensures CountOf(result, BarFilled) == if (value as int * width) / 100 < width then (value as int * width) / 100 else width
  {
    var filled := (value as int * width) / 100;
    result := PushCells(filled, width, BarFilled, BarEmpty);
    GaugeCount(filled, width, BarFilled, BarEmpty);
  }

  /** `dot_gauge(value, max_dots)`: `max_dots` dots, `value * max_dots / 100` rounded to nearest of them (at most all) filled. */
  method DotGauge(value: U8, maxDots: nat) returns (result: string)
    ensures |result| == maxDots
    ensures forall i :: 0 <= i < maxDots ==> result[i] == if i < (value as int * maxDots + 50) / 100 then BulletFilled else BulletEmpty
    ensures CountOf(result, BulletFilled) ==
      if (value as int * maxDots + 50) / 100 < maxDots then (value as int * maxDots + 50) / 100 else maxDots
  {
    var filled := (value as int * maxDots + 50) / 100;
    result := PushCells(filled, maxDots, BulletFilled, BulletEmpty);
    GaugeCount(filled, maxDots, BulletFilled, BulletEmpty);
  }

  /** A percentage of at most 100 never overfills a bar: the filled part is at most the width, full at 100. */
  lemma BarGaugeWithinWidth(value: U8, width: nat)
    requires value <= 100
    ensures (value as int * width) / 100 <= width
    ensures value == 100 ==> (value as int * width) / 100 == width
  {
  }

  /** The program's own checks: `bar_gauge(50, 10)` has 10 cells, 5 filled; `dot_gauge(80, 5)` has 5 dots, 4 filled. */
  method GaugeExamples()
  {
    var bar := BarGauge(50, 10);
    assert |bar| == 10 && CountOf(bar, BarFilled) == 5;
    var dots := DotGauge(80, 5);
    assert |dots| == 5 && CountOf(dots, BulletFilled) == 4;
  }
}
