/**
 * The text progress bar of the major-order embed: `barLength` cells, the
 * first `filled` of them the "complete" symbol and the rest the
 * "incomplete" symbol, where `filled` is progress/total * barLength rounded
 * to the nearest integer (halves up).
 */
module ProgressBar {
  import opened Wrappers

  /** Default number of cells when the caller gives no length. */
  const DefaultBarLength: nat := 10
  /** Symbol-table key of the "complete" cell. */
  const CompleteKey: string := "HelldiverProgress"
  /** Symbol-table key of the "incomplete" cell. */
  const IncompleteKey: string := "IlluminateProgress"

  /**
   * Why rendering throws: a symbol missing from the table (a TypeError on
   * `undefined.repeat`) or a negative repeat count (a RangeError).
   */
  datatype BarError = MissingSymbol(key: string) | NegativeRepeat(count: int)

  /** `s.repeat(n)`. */
  function Repeat(s: string, n: nat): (r: string)
    ensures |r| == n * |s|
  {
    if n == 0 then "" else s + Repeat(s, n - 1)
  }

  /** The concatenation of a list of cells. */
  function Concat(parts: seq<string>): string {
    if parts == [] then "" else parts[0] + Concat(parts[1..])
  }

  /** The cells of a bar: cell k is complete iff k < filled. */
  function Cells(filled: nat, barLength: nat, complete: string, incomplete: string): (c: seq<string>)
    ensures |c| == barLength
  {
    seq(barLength, k => if k < filled then complete else incomplete)
  }

  /** Progress after the lower clamp; an omitted progress defaults to 0. */
  function ClampedProgress(progress: Option<int>): (p: nat)
    ensures progress.Some? && progress.value >= 0 ==> p == progress.value
    ensures progress.None? || progress.value <= 0 ==> p == 0
  {
    var p := progress.GetOr(0);
    if p < 0 then 0 else p
  }

  /** Total after the lower clamp; an omitted total defaults to 1. */
  function ClampedTotal(total: Option<int>): (t: int)
    ensures t >= 1
    ensures total.Some? && total.value >= 1 ==> t == total.value
    ensures total.None? || total.value <= 1 ==> t == 1
  {
    var t := total.GetOr(1);
    if t < 1 then 1 else t
  }

  /**
   * `Math.round(p / t * barLength)` on exact rationals: the integer nearest
   * to p * barLength / t, a half rounding up.
   */
  function Filled(p: nat, t: int, barLength: nat): (f: nat)
    requires t >= 1
    ensures 2 * t * f <= 2 * p * barLength + t < 2 * t * (f + 1)
  {
    var a, d := 2 * p * barLength + t, 2 * t;
    assert a == d * (a / d) + a % d;
    a / d
  }

  /**
   * `renderCustomProgressBar(progress, total, emojiMap, barLength)`.
   * There is no upper clamp: when progress is far enough above total,
   * `filled` exceeds barLength and the incomplete count is negative.
   */
  function RenderBar(progress: Option<int>, total: Option<int>, emoji: map<string, string>, barLength: nat)
    : (r: Result<string, BarError>)
    ensures r.Success? <==>
      CompleteKey in emoji && IncompleteKey in emoji &&
      Filled(ClampedProgress(progress), ClampedTotal(total), barLength) <= barLength
    ensures CompleteKey !in emoji ==> r == Failure(MissingSymbol(CompleteKey))
  {
    var p := ClampedProgress(progress);
    var t := ClampedTotal(total);
    var filled := Filled(p, t, barLength);
    var empty := barLength - filled;
    if CompleteKey !in emoji then Failure(MissingSymbol(CompleteKey))
    else if IncompleteKey !in emoji then Failure(MissingSymbol(IncompleteKey))
    else if empty < 0 then Failure(NegativeRepeat(empty))
    else Success(Repeat(emoji[CompleteKey], filled) + Repeat(emoji[IncompleteKey], empty))
  }

  lemma {:induction false} ConcatAppend(a: seq<string>, b: seq<string>)
    ensures Concat(a + b) == Concat(a) + Concat(b)
  {
    if a == [] {
      assert a + b == b;
    } else {
      assert (a + b)[0] == a[0];
      assert (a + b)[1..] == a[1..] + b;
      ConcatAppend(a[1..], b);
    }
  }

  /** `s.repeat(n)` is n copies of s. */
  lemma {:induction false} RepeatIsCopies(s: string, n: nat)
    ensures Repeat(s, n) == Concat(seq(n, k => s))
  {
    if n > 0 {
      assert seq(n, k => s)[1..] == seq(n - 1, k => s);
      RepeatIsCopies(s, n - 1);
    }
  }

  /**
   * A rendered bar is exactly barLength cells, cell k complete iff k < filled,
   * and nothing else.
   */
  lemma RenderBarIsCells(progress: Option<int>, total: Option<int>, emoji: map<string, string>, barLength: nat)
    requires RenderBar(progress, total, emoji, barLength).Success?
    ensures var f := Filled(ClampedProgress(progress), ClampedTotal(total), barLength);
      f <= barLength &&
      RenderBar(progress, total, emoji, barLength).value ==
        Concat(Cells(f, barLength, emoji[CompleteKey], emoji[IncompleteKey]))
  {
    var f := Filled(ClampedProgress(progress), ClampedTotal(total), barLength);
    var h, i := emoji[CompleteKey], emoji[IncompleteKey];
    RepeatIsCopies(h, f);
    RepeatIsCopies(i, barLength - f);
    assert Cells(f, barLength, h, i) == seq(f, k => h) + seq(barLength - f, k => i);
    ConcatAppend(seq(f, k => h), seq(barLength - f, k => i));
  }

  lemma MulMonotone(c: int, a: int, b: int)
    requires c >= 0 && a <= b
    ensures c * a <= c * b
  {
    assert c * b - c * a == c * (b - a);
  }

  /** The rounding condition determines the filled count. */
  lemma FilledUnique(p: nat, t: int, barLength: nat, f: int)
    requires t >= 1
    requires 2 * t * f <= 2 * p * barLength + t < 2 * t * (f + 1)
    ensures Filled(p, t, barLength) == f
  {
    var g := Filled(p, t, barLength);
    if g > f {
      MulMonotone(2 * t, f + 1, g);
    } else if g < f {
      MulMonotone(2 * t, g + 1, f);
    }
  }

  /** For progress within [0, total], 0 <= filled <= barLength. */
  lemma FilledWithinBar(p: nat, t: int, barLength: nat)
    requires t >= 1 && p <= t
    ensures Filled(p, t, barLength) <= barLength
  {
    var f := Filled(p, t, barLength);
    MulMonotone(barLength, p, t);
    if f > barLength {
      MulMonotone(2 * t, barLength + 1, f);
    }
  }

  /** For a fixed total and length, more progress never fills fewer cells. */
  lemma FilledMonotone(p1: nat, p2: nat, t: int, barLength: nat)
    requires t >= 1 && p1 <= p2
    ensures Filled(p1, t, barLength) <= Filled(p2, t, barLength)
  {
    var f1, f2 := Filled(p1, t, barLength), Filled(p2, t, barLength);
    MulMonotone(barLength, p1, p2);
    if f1 > f2 {
      MulMonotone(2 * t, f2 + 1, f1);
    }
  }

  /** No progress (omitted, zero or negative) renders every cell incomplete. */
  lemma NoProgressAllIncomplete(progress: Option<int>, total: Option<int>, emoji: map<string, string>, barLength: nat)
    requires progress.None? || progress.value <= 0
    requires CompleteKey in emoji && IncompleteKey in emoji
    ensures RenderBar(progress, total, emoji, barLength) == Success(Repeat(emoji[IncompleteKey], barLength))
  {
    var t := ClampedTotal(total);
    assert ClampedProgress(progress) == 0;
    FilledUnique(0, t, barLength, 0);
    assert Repeat(emoji[CompleteKey], 0) + Repeat(emoji[IncompleteKey], barLength)
      == Repeat(emoji[IncompleteKey], barLength);
  }

  /** Progress equal to a total of at least 1 renders every cell complete. */
  lemma FullProgressAllComplete(total: int, emoji: map<string, string>, barLength: nat)
    requires total >= 1
    requires CompleteKey in emoji && IncompleteKey in emoji
    ensures RenderBar(Some(total), Some(total), emoji, barLength) == Success(Repeat(emoji[CompleteKey], barLength))
  {
    var p, t := ClampedProgress(Some(total)), ClampedTotal(Some(total));
    assert p == total && t == total;
    var m := total * barLength;
    assert 2 * t * barLength == 2 * m && 2 * p * barLength == 2 * m;
    assert 2 * t * (barLength + 1) == 2 * m + 2 * t;
    FilledUnique(p, t, barLength, barLength);
    assert Repeat(emoji[CompleteKey], barLength) + Repeat(emoji[IncompleteKey], 0)
      == Repeat(emoji[CompleteKey], barLength);
  }

  /**
   * Twice the total on a non-empty bar fills 2 * barLength cells, so the
   * incomplete repeat count is -barLength and rendering throws.
   */
  lemma DoubleProgressThrows(total: int, emoji: map<string, string>, barLength: nat)
    requires total >= 1 && barLength >= 1
    requires CompleteKey in emoji && IncompleteKey in emoji
    ensures RenderBar(Some(2 * total), Some(total), emoji, barLength) == Failure(NegativeRepeat(-(barLength as int)))
  {
    assert 2 * (2 * total) * barLength == 2 * total * (2 * barLength);
    assert 2 * total * (2 * barLength + 1) == 2 * total * (2 * barLength) + 2 * total;
    FilledUnique(2 * total, total, barLength, 2 * barLength);
  }
}
