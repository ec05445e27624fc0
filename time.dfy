/**
 * Millisecond timestamps and the whole-day conversions the app uses.
 *
 * Kotlin's `TimeUnit.MILLISECONDS.toDays` and `Long / Int` truncate toward
 * zero, while Dafny's `/` is Euclidean; `TruncDiv` spells the truncating
 * division out so that negative differences are converted as on the JVM.
 */
module Time {

  const MsPerSecond: int := 1000
  const MsPerHour: int := 3_600_000
  const MsPerDay: int := 86_400_000

  /** Integer division truncating toward zero (JVM `/` on integers). */
  function TruncDiv(a: int, b: int): (q: int)
    requires b > 0
    ensures a >= 0 ==> 0 <= a - q * b < b
    ensures a < 0 ==> -b < a - q * b <= 0
    ensures q >= 0 <==> a > -b
  {
    if a >= 0 then
      DivBounds(a, b);
      a / b
    else
      DivBounds(-a, b);
      -((-a) / b)
  }

  /** Division of a natural number leaves a remainder below the divisor,
      and the quotient is zero exactly for numbers below the divisor. */
  lemma DivBounds(n: nat, b: int)
    requires b > 0
    ensures 0 <= n - (n / b) * b < b
    ensures n / b >= 0
    ensures n / b == 0 <==> n < b
  {
    assert n == (n / b) * b + n % b;
  }

  /** `TimeUnit.MILLISECONDS.toDays(ms)`: whole days, truncated toward zero. */
  function ToDays(ms: int): (d: int)
    ensures ms >= 0 ==> 0 <= ms - d * MsPerDay < MsPerDay
    ensures ms < 0 ==> -MsPerDay < ms - d * MsPerDay <= 0
  {
    if ms >= 0 then ms / MsPerDay else -((-ms) / MsPerDay)
  }

  /** A gap is zero whole days exactly when it is shorter than a day either way. */
  lemma ToDaysZero(ms: int)
    ensures ToDays(ms) == 0 <==> -MsPerDay < ms < MsPerDay
  {
    var d := ToDays(ms);
    if ms >= 0 && d != 0 {
      assert d >= 1;
      assert d * MsPerDay >= MsPerDay;
    } else if ms < 0 && d != 0 {
      assert d <= -1;
      assert d * MsPerDay <= -MsPerDay;
    }
  }

  /** The sign of a truncated day count follows the sign of the gap,
      except that gaps shorter than a day give zero. */
  lemma ToDaysSign(ms: int)
    ensures ToDays(ms) > 0 <==> ms >= MsPerDay
    ensures ToDays(ms) < 0 <==> ms <= -MsPerDay
  {
    var d := ToDays(ms);
    if d > 0 {
      assert d * MsPerDay >= MsPerDay;
    } else if d < 0 {
      assert d * MsPerDay <= -MsPerDay;
    }
  }

  /** A gap of exactly `k` days converts back to `k`. */
  lemma ToDaysOfWholeDays(k: int)
    ensures ToDays(k * MsPerDay) == k
  {
  }

  /** Truncated days of non-negative gaps are super-additive: truncating
      two gaps separately never gives more than truncating their sum. */
  lemma ToDaysSuperAdditive(a: int, b: int)
    requires a >= 0 && b >= 0
    ensures ToDays(a) + ToDays(b) <= ToDays(a + b)
    ensures ToDays(a + b) <= ToDays(a) + ToDays(b) + 1
  {
  }

  /** Truncated days are monotone in the gap. */
  lemma ToDaysMonotone(a: int, b: int)
    requires a <= b
    ensures ToDays(a) <= ToDays(b)
  {
  }
}
