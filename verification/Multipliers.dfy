/**
  What a streak and presence are worth (src/stream_rewards.rs). The source computes
  in 32-bit floats, so every operation rounds: `narrow` is that rounding, and the
  results hold of any rounding that is monotone and leaves what has 24 significant
  bits as it is, whichever way it breaks ties.
 */
module Multipliers {
  type Narrow = real -> real

  const SIGNIFICAND := 0x100_0000
  const I32_MAX := 0x7FFF_FFFF

  /** An integer of at most 24 bits after at most `k` doublings or halvings. */
  predicate Fits(x: real, k: nat)
    decreases k
  {
    || (x == x.Floor as real && -SIGNIFICAND <= x.Floor <= SIGNIFICAND)
    || (k > 0 && (Fits(2.0 * x, k - 1) || Fits(x / 2.0, k - 1)))
  }

  /** At most 24 significant bits, well inside the range of the exponents. */
  ghost predicate HasFloat(x: real) {
    exists k: nat :: k <= 100 && Fits(x, k)
  }

  ghost predicate Rounds(narrow: Narrow) {
    && (forall x, y :: x <= y ==> narrow(x) <= narrow(y))
    && (forall x :: narrow(narrow(x)) == narrow(x))
    && forall x :: HasFloat(x) ==> narrow(x) == x
  }

  /** Rounding nothing is a rounding. */
  lemma ExactRounds()
    ensures Rounds((x: real) => x)
  {
  }

  lemma IntegersFit(n: int)
    requires -SIGNIFICAND <= n <= SIGNIFICAND
    ensures HasFloat(n as real) && HasFloat(4.0 * n as real)
  {
    assert Fits(n as real, 0);
    assert Fits(2.0 * n as real, 1);
    assert Fits(4.0 * n as real, 2);
  }

  lemma SixteenthsFit(n: int)
    requires -SIGNIFICAND <= n <= SIGNIFICAND
    ensures HasFloat(n as real / 16.0)
  {
    assert Fits(n as real, 0);
    assert Fits(n as real / 2.0, 1);
    assert Fits(n as real / 4.0, 2);
    assert Fits(n as real / 8.0, 3);
    assert Fits(n as real / 16.0, 4);
  }

  function Max(x: int, y: int): int { if x < y then y else x }

  function MinReal(x: real, y: real): real { if x < y then x else y }

  function Clamp(x: real, low: real, high: real): real
    requires low <= high
  {
    if x < low then low else if x > high then high else x
  }

  /** Rounding never crosses a value that needs no rounding. */
  lemma Between(narrow: Narrow, low: real, x: real, high: real)
    requires Rounds(narrow) && HasFloat(low) && HasFloat(high)
    ensures low <= x ==> low <= narrow(x)
    ensures x <= high ==> narrow(x) <= high
  {
  }

  /** The 32-bit float nearest to one tenth. */
  const TENTH := 13421773.0 / 134217728.0

  /** `streak_multiplier`: a tenth more for each stream in a row, 2.0 at most. */
  function StreakMultiplier(narrow: Narrow, count: int): real {
    var streams := narrow(Max(count, 1) as real);
    MinReal(narrow(1.0 + narrow(TENTH * narrow(streams - 1.0))), 2.0)
  }

  /** 1.0 for a first stream only, 2.0 from the eleventh on, however the steps between are rounded. */
  lemma StreakAnchors(narrow: Narrow, count: int)
    requires Rounds(narrow)
    ensures 1.0 <= StreakMultiplier(narrow, count) <= 2.0
    ensures StreakMultiplier(narrow, count) == 2.0 <==> count >= 11
    ensures StreakMultiplier(narrow, count) == 1.0 <==> count <= 1
  {
    var streams := narrow(Max(count, 1) as real);
    var before := narrow(streams - 1.0);
    var bonus := narrow(TENTH * before);
    StreamsBefore(narrow, count);
    Bonus(narrow, before);
    Anchors(narrow, bonus);
  }

  lemma StreamsBefore(narrow: Narrow, count: int)
    requires Rounds(narrow)
    ensures var before := narrow(narrow(Max(count, 1) as real) - 1.0);
      if count <= 1 then before == 0.0 else if count >= 11 then before >= 10.0 else 1.0 <= before <= 9.0
  {
    IntegersFit(0); IntegersFit(1); IntegersFit(2); IntegersFit(9); IntegersFit(10); IntegersFit(11);
    var n := Max(count, 1) as real;
    if 1 < count < 11 {
      Between(narrow, 2.0, n, 10.0);
      Between(narrow, 1.0, narrow(n) - 1.0, 9.0);
    } else if count >= 11 {
      Between(narrow, 11.0, n, 11.0);
      Between(narrow, 10.0, narrow(n) - 1.0, 10.0);
    }
  }

  lemma Bonus(narrow: Narrow, before: real)
    requires Rounds(narrow)
    ensures var bonus := narrow(TENTH * before);
      && (before == 0.0 ==> bonus == 0.0)
      && (1.0 <= before <= 9.0 ==> 0.0625 <= bonus <= 0.9375)
      && (before >= 10.0 ==> bonus >= 1.0)
  {
    IntegersFit(0); IntegersFit(1); SixteenthsFit(1); SixteenthsFit(15);
    Between(narrow, 0.0625, TENTH * before, 0.9375);
    Between(narrow, 1.0, TENTH * before, 1.0);
    Between(narrow, 0.0, TENTH * before, 0.0);
  }

  lemma Anchors(narrow: Narrow, bonus: real)
    requires Rounds(narrow)
    ensures var r := narrow(1.0 + bonus);
      && (bonus == 0.0 ==> r == 1.0)
      && (0.0625 <= bonus <= 0.9375 ==> 1.0625 <= r <= 1.9375)
      && (bonus >= 1.0 ==> r >= 2.0)
  {
    IntegersFit(1); IntegersFit(2); SixteenthsFit(17); SixteenthsFit(31);
    Between(narrow, 1.0625, 1.0 + bonus, 1.9375);
    Between(narrow, 1.0, 1.0 + bonus, 1.0);
    Between(narrow, 2.0, 1.0 + bonus, 2.0);
  }

  /** The share of the stream so far that the user was there. */
  function Ratio(narrow: Narrow, present: int, elapsed: int): real
    requires Rounds(narrow) && elapsed >= 1
  {
    Positive(narrow, elapsed);
    narrow(narrow(present as real) / narrow(elapsed as real))
  }

  lemma Positive(narrow: Narrow, n: int)
    requires Rounds(narrow) && n >= 1
    ensures narrow(n as real) >= 1.0
  {
    IntegersFit(1);
    Between(narrow, 1.0, n as real, 1.0);
  }

  /** `activity_multiplier`. */
  function ActivityMultiplier(narrow: Narrow, now: int, firstSeen: int, started: int): real
    requires Rounds(narrow)
  {
    MinReal(narrow(1.0 + Clamp(Ratio(narrow, now - firstSeen, Max(now - started, 1)), 0.0, 1.0)), 2.0)
  }

  /** 1.0 for no presence in the stream so far, 2.0 for all of it. */
  lemma ActivityAnchors(narrow: Narrow, now: int, firstSeen: int, started: int)
    requires Rounds(narrow)
    ensures var r := ActivityMultiplier(narrow, now, firstSeen, started);
      && 1.0 <= r <= 2.0
      && (now <= firstSeen ==> r == 1.0)
      && (started < now && firstSeen <= started ==> r == 2.0)
  {
    IntegersFit(1); IntegersFit(2);
    var present, elapsed := now - firstSeen, Max(now - started, 1);
    RatioAnchors(narrow, present, elapsed);
    var presence := Clamp(Ratio(narrow, present, elapsed), 0.0, 1.0);
    Between(narrow, 1.0, 1.0 + presence, 2.0);
  }

  lemma RatioAnchors(narrow: Narrow, present: int, elapsed: int)
    requires Rounds(narrow) && elapsed >= 1
    ensures present <= 0 ==> Ratio(narrow, present, elapsed) <= 0.0
    ensures present >= elapsed ==> Ratio(narrow, present, elapsed) >= 1.0
  {
    IntegersFit(0); IntegersFit(1);
    Positive(narrow, elapsed);
    var p, e := narrow(present as real), narrow(elapsed as real);
    Between(narrow, 0.0, present as real, 0.0);
    Quotient(p, e);
    Between(narrow, 1.0, p / e, 0.0);
  }

  lemma Quotient(p: real, e: real)
    requires e > 0.0
    ensures p <= 0.0 ==> p / e <= 0.0
    ensures p >= e ==> p / e >= 1.0
  {
  }

  /** `combined_multiplier`: the two factors stack, up to 4.0. */
  function CombinedMultiplier(narrow: Narrow, streak: real, activity: real): real {
    MinReal(narrow(streak * activity), 4.0)
  }

  /** With both factors in range the cap never changes the product. */
  lemma CapNeverBinds(narrow: Narrow, streak: real, activity: real)
    requires Rounds(narrow) && 1.0 <= streak <= 2.0 && 1.0 <= activity <= 2.0
    ensures CombinedMultiplier(narrow, streak, activity) == narrow(streak * activity)
    ensures 1.0 <= CombinedMultiplier(narrow, streak, activity) <= 4.0
  {
    Product(streak, activity);
    WithinFour(narrow, streak * activity);
  }

  lemma Product(x: real, y: real)
    requires 1.0 <= x <= 2.0 && 1.0 <= y <= 2.0
    ensures 1.0 <= x * y <= 4.0
  {
    NonNegative(x - 1.0, y);
    NonNegative(2.0 - x, y);
  }

  lemma WithinFour(narrow: Narrow, product: real)
    requires Rounds(narrow) && 1.0 <= product <= 4.0
    ensures 1.0 <= narrow(product) <= 4.0
  {
    IntegersFit(1); IntegersFit(4);
    Between(narrow, 1.0, product, 4.0);
  }

  lemma NonNegative(x: real, y: real)
    requires x >= 0.0 && y >= 0.0
    ensures x * y >= 0.0
  {
  }

  /** Half away from zero, of what is not negative. */
  function Nearest(x: real): int {
    (x + 0.5).Floor
  }

  /** A cast to `i32` saturates. */
  function Saturated(n: int): int {
    if n > I32_MAX then I32_MAX else n
  }

  /** The product before its own rounding. */
  function Scaled(narrow: Narrow, delta: int, combined: real): real {
    narrow(delta as real) * combined
  }

  /** `apply_multiplier`: only a gain is scaled. */
  function ApplyMultiplier(narrow: Narrow, delta: int, combined: real): int {
    if delta > 0 then Saturated(Nearest(narrow(Scaled(narrow, delta, combined)))) else delta
  }

  /** A gain of at most 24 bits is never shrunk nor more than quadrupled; a loss is never scaled. */
  lemma GainsAreScaledOnly(narrow: Narrow, delta: int, combined: real)
    requires Rounds(narrow) && delta <= I32_MAX && 1.0 <= combined <= 4.0
    ensures delta <= 0 ==> ApplyMultiplier(narrow, delta, combined) == delta
    ensures 0 < delta <= SIGNIFICAND ==> delta <= ApplyMultiplier(narrow, delta, combined) <= 4 * delta
  {
    if 0 < delta <= SIGNIFICAND {
      IntegersFit(delta);
      ScaledBetween(narrow, delta, combined);
      GainBetween(narrow, delta, Scaled(narrow, delta, combined));
    }
  }

  lemma ScaledBetween(narrow: Narrow, delta: int, combined: real)
    requires Rounds(narrow) && delta > 0 && 1.0 <= combined <= 4.0
    ensures narrow(delta as real) <= Scaled(narrow, delta, combined) <= 4.0 * narrow(delta as real)
  {
    Positive(narrow, delta);
    ProductBetween(narrow, delta, combined);
  }

  lemma ProductBetween(narrow: Narrow, delta: int, combined: real)
    requires narrow(delta as real) >= 0.0 && 1.0 <= combined <= 4.0
    ensures narrow(delta as real) <= Scaled(narrow, delta, combined) <= 4.0 * narrow(delta as real)
  {
    Scale(narrow(delta as real), combined);
  }

  lemma Scale(d: real, combined: real)
    requires d >= 0.0 && 1.0 <= combined <= 4.0
    ensures d <= d * combined <= 4.0 * d
  {
    NonNegative(d, combined - 1.0);
    NonNegative(d, 4.0 - combined);
  }

  lemma GainBetween(narrow: Narrow, delta: int, product: real)
    requires Rounds(narrow) && 0 < delta <= SIGNIFICAND && delta as real <= product <= 4.0 * delta as real
    ensures delta <= Nearest(narrow(product)) <= 4 * delta
  {
    IntegersFit(delta);
    Between(narrow, delta as real, product, 4.0 * delta as real);
    FloorBetween(narrow(product) + 0.5, delta, 4 * delta);
  }

  lemma FloorBetween(x: real, low: int, high: int)
    requires low as real <= x < high as real + 1.0
    ensures low <= x.Floor <= high
  {
  }

  /** Some multiplier shrinks a gain exactly when the gain does not survive its own cast to a float. */
  lemma ShrinksIff(narrow: Narrow, delta: int)
    requires Rounds(narrow) && 0 < delta <= I32_MAX
    ensures (exists combined :: 1.0 <= combined <= 4.0 && ApplyMultiplier(narrow, delta, combined) < delta)
      <==> Nearest(narrow(delta as real)) < delta
  {
    var d := narrow(delta as real);
    Positive(narrow, delta);
    forall combined | 1.0 <= combined <= 4.0
      ensures ApplyMultiplier(narrow, delta, combined) >= Saturated(Nearest(d))
    {
      ScaledBetween(narrow, delta, combined);
      NoLess(narrow, d, Scaled(narrow, delta, combined));
    }
    Neutral(narrow, delta);
  }

  lemma Neutral(narrow: Narrow, delta: int)
    requires Rounds(narrow) && delta > 0
    ensures ApplyMultiplier(narrow, delta, 1.0) == Saturated(Nearest(narrow(delta as real)))
  {
    assert narrow(delta as real) * 1.0 == narrow(delta as real);
  }

  lemma NoLess(narrow: Narrow, d: real, product: real)
    requires Rounds(narrow) && narrow(d) == d <= product
    ensures Nearest(d) <= Nearest(narrow(product))
  {
    assert narrow(d) <= narrow(product);
  }

  /** The first gain that shrinks: a cast to the even neighbour takes one off. */
  lemma FirstShrunk(narrow: Narrow)
    requires Rounds(narrow) && narrow(16777217.0) == 16777216.0
    ensures ApplyMultiplier(narrow, SIGNIFICAND + 1, 1.0) == SIGNIFICAND
    ensures forall delta, combined {:trigger ApplyMultiplier(narrow, delta, combined)} ::
      delta <= SIGNIFICAND && 1.0 <= combined <= 4.0 ==> ApplyMultiplier(narrow, delta, combined) >= delta
  {
    Neutral(narrow, SIGNIFICAND + 1);
    forall delta, combined | delta <= SIGNIFICAND && 1.0 <= combined <= 4.0
      ensures ApplyMultiplier(narrow, delta, combined) >= delta
    {
      GainsAreScaledOnly(narrow, delta, combined);
    }
  }
}
