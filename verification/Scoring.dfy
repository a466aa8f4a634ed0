/** The points of one answer: app/game/services.py, `calculate_score`. The program's float
    arithmetic is taken as exact. */
module Scoring {

  const MAX_POINTS_PER_QUESTION := 1000
  const MIN_POINTS_PER_QUESTION := 100

  function CalculateScore(timeTakenMs: int, timeLimitMs: int, isCorrect: bool): int
    requires timeLimitMs > 0
  {
    if !isCorrect then 0
    else
      var remaining := 1.0 - (timeTakenMs as real / timeLimitMs as real);
      var timeFactor := if remaining > 0.0 then remaining else 0.0;
      var speedBonus :=
        ((MAX_POINTS_PER_QUESTION - MIN_POINTS_PER_QUESTION) as real * timeFactor).Floor;
      MIN_POINTS_PER_QUESTION + speedBonus
  }

  /** The integer form of the speed bonus. */
  function IntegerBonus(timeTakenMs: int, timeLimitMs: int): int
    requires timeLimitMs > 0
  {
    if timeTakenMs < timeLimitMs then 900 * (timeLimitMs - timeTakenMs) / timeLimitMs else 0
  }

  lemma MulMonotone(a: int, b: int, d: int)
    requires a <= b && d >= 0
    ensures a * d <= b * d
  {
    assert (b - a) * d >= 0;
  }

  /** Euclidean division by a positive number is the largest quotient that fits. */
  lemma QuotientFits(a: int, d: int, q: int)
    requires d > 0
    ensures q <= a / d <==> q * d <= a
  {
    var k := a / d;
    assert a == k * d + a % d;
    if q <= k {
      MulMonotone(q, k, d);
    } else {
      MulMonotone(k + 1, q, d);
      assert (k + 1) * d == k * d + d;
    }
  }

  /** The product `xy` of two integers, as a real. */
  lemma {:induction false} RealProduct(x: int, y: nat, xy: int, product: real)
    requires xy == x * y && product == x as real * y as real
    ensures xy as real == product
  {
    if y > 0 {
      var before, xr, yr := x * (y - 1), x as real, (y - 1) as real;
      RealProduct(x, y - 1, before, xr * yr);
      assert xy == before + x;
      assert product == xr * yr + xr;
    }
  }

  /** Multiplying by a positive number keeps the order. */
  lemma ScaleLess(x: real, y: real, d: real, xd: real, yd: real)
    requires d > 0.0 && xd == x * d && yd == y * d
    ensures x < y <==> xd < yd
  {
    var gap := y - x;
    var gapd := gap * d;
    assert gapd == yd - xd;
    if gap > 0.0 {
      assert gapd > 0.0;
    } else if gap < 0.0 {
      assert gapd < 0.0;
    }
  }

  /** The floor of a ratio of integers is their integer quotient. */
  lemma FloorOfRatio(a: int, b: int, r: real, rd: real)
    requires b > 0 && rd == r * (b as real) && rd == a as real
    ensures r.Floor == a / b
  {
    var f := r.Floor;
    var g := f + 1;
    var d, fr, gr := b as real, f as real, g as real;
    var low, high, fd, gd := f * b, g * b, fr * d, gr * d;
    RealProduct(f, b, low, fd);
    RealProduct(g, b, high, gd);
    ScaleLess(r, fr, d, rd, fd);
    ScaleLess(r, gr, d, rd, gd);
    assert low <= a < high;
    QuotientFits(a, b, f);
    QuotientFits(a, b, g);
  }

  /** The exact real-valued formula and integer division agree, for every limit and time. */
  lemma ScoreIsIntegerFormula(timeTakenMs: int, timeLimitMs: int)
    requires timeLimitMs > 0
    ensures CalculateScore(timeTakenMs, timeLimitMs, true)
         == MIN_POINTS_PER_QUESTION + IntegerBonus(timeTakenMs, timeLimitMs)
  {
    var t, l := timeTakenMs as real, timeLimitMs as real;
    var ratio := t / l;
    assert ratio * l == t;
    ScaleLess(ratio, 1.0, l, t, l);
    if timeTakenMs < timeLimitMs {
      var bonus := 900.0 * (1.0 - ratio);
      BonusRatio(timeTakenMs, timeLimitMs, ratio, bonus, bonus * l);
      FloorOfRatio(900 * (timeLimitMs - timeTakenMs), timeLimitMs, bonus, bonus * l);
    }
  }

  lemma BonusRatio(timeTakenMs: int, timeLimitMs: int, ratio: real, bonus: real, scaled: real)
    requires ratio * (timeLimitMs as real) == timeTakenMs as real
    requires bonus == 900.0 * (1.0 - ratio) && scaled == bonus * (timeLimitMs as real)
    ensures scaled == (900 * (timeLimitMs - timeTakenMs)) as real
  {
    var t, l := timeTakenMs as real, timeLimitMs as real;
    var x := ratio * l;
    assert scaled == 900.0 * l - 900.0 * x;
    var rest := timeLimitMs - timeTakenMs;
    assert rest as real == l - t;
    assert (900 * rest) as real == 900.0 * (rest as real);
  }

  /** A correct answer is worth 100 to 1000 points, 1000 only when it took no time at all and
      100 only when less than one part in nine hundred of the limit was left. */
  lemma ScoreBounds(timeTakenMs: int, timeLimitMs: int)
    requires timeLimitMs > 0 && timeTakenMs >= 0
    ensures var p := CalculateScore(timeTakenMs, timeLimitMs, true);
      && MIN_POINTS_PER_QUESTION <= p <= MAX_POINTS_PER_QUESTION
      && (p == MAX_POINTS_PER_QUESTION <==> timeTakenMs == 0)
      && (p == MIN_POINTS_PER_QUESTION <==> 900 * (timeLimitMs - timeTakenMs) < timeLimitMs)
  {
    ScoreIsIntegerFormula(timeTakenMs, timeLimitMs);
    if timeTakenMs < timeLimitMs {
      var a := 900 * (timeLimitMs - timeTakenMs);
      QuotientFits(a, timeLimitMs, 0);
      QuotientFits(a, timeLimitMs, 1);
      QuotientFits(a, timeLimitMs, 900);
      QuotientFits(a, timeLimitMs, 901);
    }
  }

  /** Answering later never earns more. */
  lemma ScoreAntitoneInTime(earlier: int, later: int, timeLimitMs: int)
    requires timeLimitMs > 0 && earlier <= later
    ensures CalculateScore(later, timeLimitMs, true) <= CalculateScore(earlier, timeLimitMs, true)
  {
    ScoreIsIntegerFormula(earlier, timeLimitMs);
    ScoreIsIntegerFormula(later, timeLimitMs);
    var q := IntegerBonus(later, timeLimitMs);
    if earlier < timeLimitMs {
      QuotientFits(900 * (timeLimitMs - earlier), timeLimitMs, q);
      if later < timeLimitMs {
        QuotientFits(900 * (timeLimitMs - later), timeLimitMs, q);
      }
    }
  }

  /** For the same time taken, a longer limit never earns less. */
  lemma ScoreMonotoneInLimit(timeTakenMs: int, shorter: int, longer: int)
    requires 0 < shorter <= longer && timeTakenMs >= 0
    ensures CalculateScore(timeTakenMs, shorter, true) <= CalculateScore(timeTakenMs, longer, true)
  {
    var t := timeTakenMs;
    ScoreIsIntegerFormula(t, shorter);
    ScoreIsIntegerFormula(t, longer);
    ScoreBounds(t, shorter);
    var q := IntegerBonus(t, shorter);
    if t < longer {
      QuotientFits(900 * (longer - t), longer, q);
      if t < shorter {
        QuotientFits(900 * (shorter - t), shorter, q);
        MulMonotone(q, 900, longer - shorter);
        assert q * longer == q * shorter + q * (longer - shorter);
      }
    }
  }
}
