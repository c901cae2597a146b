/** The few JavaScript number behaviours the core relies on: values that may
    be absent or non-finite, and `toFixed(2)` followed by `parseFloat`. */
module JsNumber {

  /** A JavaScript value read where a number is expected: absent (`undefined`
      or `null`), one of NaN, +Infinity or -Infinity, or a finite number. */
  datatype Num = Missing | NonFinite | Finite(value: real)

  /** The distance readout's guard `!x || x <= 0 || !isFinite(x)`, test by
      test: `!x` holds for an absent value and for zero, `x <= 0` for a
      non-positive number, `!isFinite(x)` for NaN and the infinities. (NaN is
      also falsy and -Infinity is also not above zero; the last test rejects
      both anyway.) */
  predicate ReadoutGuardRejects(n: Num) {
    (n.Missing? || (n.Finite? && n.value == 0.0))
    || (n.Finite? && n.value <= 0.0)
    || n.NonFinite?
  }

  /** The guard of the calibration and of the measurement screen's entry,
      `!isFinite(x) || x <= 0`: `isFinite(undefined)` is false, and `null`
      passes `isFinite` but then fails `null <= 0`, so an absent value is
      rejected by one test or the other. */
  predicate EntryGuardRejects(n: Num) {
    (n.Missing? || n.NonFinite?) || (n.Finite? && n.value <= 0.0)
  }

  /** A usable factor: present, finite and strictly positive. Both guards of
      the app let through exactly these values. */
  predicate IsPositive(n: Num)
    ensures IsPositive(n) <==> !ReadoutGuardRejects(n)
    ensures IsPositive(n) <==> !EntryGuardRejects(n)
  {
    n.Finite? && n.value > 0.0
  }

  /** `n ?? d`: an absent value is replaced by the default, anything else is kept. */
  function Coalesce(n: Num, d: real): (r: Num)
    ensures r != Missing
    ensures n != Missing ==> r == n
    ensures n == Missing ==> r == Finite(d)
  {
    if n.Missing? then Finite(d) else n
  }

  /** True when `r` has at most two decimal places. */
  predicate IsHundredths(r: real) {
    (r * 100.0).Floor as real == r * 100.0
  }

  /** `toFixed(2)` of a non-negative number: the hundredth nearest to it,
      the larger one on a tie. */
  function RoundHalfUp(v: real): (r: real)
    requires v >= 0.0
    ensures r >= 0.0
    ensures -0.005 < r - v <= 0.005
    ensures IsHundredths(r)
  {
    var n := (v * 100.0 + 0.5).Floor;
    assert (n as real / 100.0) * 100.0 == n as real;
    n as real / 100.0
  }

  /** `parseFloat(v.toFixed(2))`. `toFixed` rounds the magnitude and keeps the
      sign, so a tie rounds away from zero. */
  function Round2(v: real): (r: real)
    ensures -0.005 <= r - v <= 0.005
    ensures v >= 0.0 ==> r >= 0.0
    ensures v <= 0.0 ==> r <= 0.0
    ensures IsHundredths(r)
    // a tie goes away from zero: up for a non-negative value, down for a negative one
    ensures v >= 0.0 ==> -0.005 < r - v
    ensures v <= 0.0 ==> r - v < 0.005
  {
    if v >= 0.0 then RoundHalfUp(v)
    else
      var m := RoundHalfUp(-v);
      assert (-m * 100.0).Floor == -((m * 100.0).Floor);
      -m
  }

  /** A number that already has two decimal places is printed unchanged. */
  lemma {:induction false} Round2Exact(n: int)
    ensures Round2(n as real / 100.0) == n as real / 100.0
  {
    var v := n as real / 100.0;
    if n >= 0 {
      assert v * 100.0 + 0.5 == n as real + 0.5;
      assert (v * 100.0 + 0.5).Floor == n;
    } else {
      assert -v * 100.0 + 0.5 == -(n as real) + 0.5;
      assert (-v * 100.0 + 0.5).Floor == -n;
    }
  }

  /** Rounding is symmetric about zero. */
  lemma Round2Negate(v: real)
    ensures Round2(-v) == -Round2(v)
  {
    if v == 0.0 {
      assert -v == 0.0;
    }
  }
}
