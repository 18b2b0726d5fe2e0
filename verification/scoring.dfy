/** The per-match value tables and the scoring formula (src/utils/gameLogic.ts). */
module Scoring {
  import opened Types

  /** The base values dealt out to the shapes. */
  const BaseValues: seq<int> := [10, 25, 50, 100]

  /** The multipliers 1, 1.5, 2 and 2.5 dealt out to the colours, doubled. */
  const DoubledMultipliers: seq<int> := [2, 3, 4, 5]

  predicate Distinct4(a: int, b: int, c: int, d: int) {
    a != b && a != c && a != d && b != c && b != d && c != d
  }

  /** Every shape has its own value and together they are exactly
      10, 25, 50 and 100: a permutation of the fixed value set. */
  ghost predicate ValidShapeValues(t: ShapeValues) {
    && Distinct4(t.circle, t.square, t.triangle, t.star)
    && {t.circle, t.square, t.triangle, t.star} == {10, 25, 50, 100}
  }

  /** Every colour has its own multiplier and together they are exactly
      1, 1.5, 2 and 2.5 (stored doubled). */
  ghost predicate ValidColorMultipliers(t: ColorMultipliers) {
    && Distinct4(t.red, t.blue, t.green, t.yellow)
    && {t.red, t.blue, t.green, t.yellow} == {2, 3, 4, 5}
  }

  /** `order` lists 0 .. n-1, each exactly once. */
  predicate IsPermutation(order: seq<int>, n: nat) {
    && |order| == n
    && (forall i | 0 <= i < n :: 0 <= order[i] < n)
    && (forall i, j | 0 <= i < j < n :: order[i] != order[j])
  }

  /** Four different members of a four-element set are all of it. */
  lemma FourFillFour(a: int, b: int, c: int, d: int, t: set<int>)
    requires Distinct4(a, b, c, d)
    requires {a, b, c, d} <= t && |t| == 4
    ensures {a, b, c, d} == t
  {
    var s := {a, b, c, d};
    assert |s| == 4 by {
      assert |{a, b}| == 2;
      assert |{a, b, c}| == 3;
    }
    assert t == s + (t - s);
    assert |t - s| == 0;
    assert t - s == {};
  }

  lemma FourValues(a: int, b: int, c: int, d: int)
    requires a < b < c < d
    ensures |{a, b, c, d}| == 4
  {
    assert |{a, b}| == 2;
    assert |{a, b, c}| == 3;
  }

  /** `generateRandomShapeValues`: the shuffled value list dealt to circle,
      square, triangle and star in that order. The shuffle itself is the
      parameter `order`; whatever permutation it is, the table is valid. */
  function GenerateShapeValues(order: seq<int>): (t: ShapeValues)
    requires IsPermutation(order, 4)
    ensures ValidShapeValues(t)
  {
    var t := ShapeValues(BaseValues[order[0]], BaseValues[order[1]],
                         BaseValues[order[2]], BaseValues[order[3]]);
    FourValues(10, 25, 50, 100);
    FourFillFour(t.circle, t.square, t.triangle, t.star, {10, 25, 50, 100});
    t
  }

  /** `generateColorMultipliers`: the shuffled multiplier list dealt to red,
      blue, green and yellow in that order. */
  function GenerateColorMultipliers(order: seq<int>): (t: ColorMultipliers)
    requires IsPermutation(order, 4)
    ensures ValidColorMultipliers(t)
  {
    var t := ColorMultipliers(DoubledMultipliers[order[0]], DoubledMultipliers[order[1]],
                              DoubledMultipliers[order[2]], DoubledMultipliers[order[3]]);
    FourValues(2, 3, 4, 5);
    FourFillFour(t.red, t.blue, t.green, t.yellow, {2, 3, 4, 5});
    t
  }

  /** `calculateTokenScore`: base value times multiplier, rounded to the
      nearest integer with halves going up (`Math.round`). With the
      multiplier held doubled the exact product is p / 2 for
      p = base * doubled multiplier, and the result r is the integer with
      r - 1/2 <= p / 2 < r + 1/2. */
  function CalculateTokenScore(t: Token, sv: ShapeValues, cm: ColorMultipliers): (r: int)
    ensures 2 * r - 1 <= sv.Of(t.shape) * cm.TwiceOf(t.color) < 2 * r + 1
  {
    (sv.Of(t.shape) * cm.TwiceOf(t.color) + 1) / 2
  }

  /** With valid tables every token is worth between 10 and 250 points, so
      a hit always raises the score. */
  lemma ScoreInRange(t: Token, sv: ShapeValues, cm: ColorMultipliers)
    requires ValidShapeValues(sv) && ValidColorMultipliers(cm)
    ensures 10 <= CalculateTokenScore(t, sv, cm) <= 250
  {
    var v := sv.Of(t.shape);
    var m := cm.TwiceOf(t.color);
    assert v in {sv.circle, sv.square, sv.triangle, sv.star};
    assert m in {cm.red, cm.blue, cm.green, cm.yellow};
    assert 10 <= v <= 100;
    assert 2 <= m <= 5;
    assert 20 <= v * m <= 500 by {
      assert 10 * m <= v * m <= 100 * m;
    }
  }

  /** Star worth 100 in red at 2.5 scores 250. */
  lemma StarRedExample(sv: ShapeValues, cm: ColorMultipliers)
    requires sv.star == 100 && cm.red == 5
    ensures CalculateTokenScore(Token(Star, Red), sv, cm) == 250
  {
  }

  /** 25 points at 1.5 is 37.5, which rounds up to 38. */
  lemma HalfRoundsUpExample(sv: ShapeValues, cm: ColorMultipliers)
    requires sv.square == 25 && cm.blue == 3
    ensures CalculateTokenScore(Token(Square, Blue), sv, cm) == 38
  {
  }
}
