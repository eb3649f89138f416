/** The delay before a retry, computed in 64-bit milliseconds from a floating-point power. */
module Backoff {
  import opened WorkflowTypes
  import opened RetryPolicies

  const MAX_LONG: int := 0x7FFF_FFFF_FFFF_FFFF
  const MIN_LONG: int := -0x8000_0000_0000_0000
  const NANOS_PER_MILLI: int := 1_000_000

  predicate IsLong(x: int) { MIN_LONG <= x <= MAX_LONG }

  /** Exact arithmetic: None stands for an ArithmeticException. */
  function Exact(x: int): Option<int> {
    if IsLong(x) then Some(x) else None
  }

  /** Whole milliseconds of a duration that is not negative. */
  function ToMillis(duration: nat): Option<int> { Exact(duration / NANOS_PER_MILLI) }

  /** Java's cast of a double to a long: towards zero, saturating, NaN to zero. */
  function ToLong(d: Double): (r: int)
    ensures IsLong(r)
  {
    match d
    case NotANumber => 0
    case PositiveInfinity => MAX_LONG
    case NegativeInfinity => MIN_LONG
    case Finite(v) =>
      var whole := if v >= 0.0 then v.Floor else -((-v).Floor);
      if whole > MAX_LONG then MAX_LONG else if whole < MIN_LONG then MIN_LONG else whole
  }

  /** Math.pow, of which only what `IsPow` says is used. */
  type Power = (Double, int) -> Double

  /** No number is below another one or infinity. */
  predicate AtMost(a: Double, b: Double) {
    b.PositiveInfinity? || (a.Finite? && b.Finite? && a.value <= b.value)
  }

  ghost predicate IsPow(pow: Power) {
    forall base, n, m | !Less(base, 1.0) && !base.NotANumber? && 0 <= n <= m ::
      AtMost(Finite(1.0), pow(base, n)) && AtMost(pow(base, n), pow(base, m))
  }

  function PowExact(pow: Power, base: Double, exponent: int): Option<Double> {
    if base == Finite(0.0) then Some(Finite(0.0))
    else
      var r := pow(base, exponent);
      if r.PositiveInfinity? || r.NegativeInfinity? || r == Finite(0.0) then None else Some(r)
  }

  /** The power, cast to a long, times the first interval in milliseconds. */
  function Product(s: Settings, pow: Power, attempt: int): Option<int>
    requires IsPolicy(s)
  {
    var first := ToMillis(s.first);
    if first.None? then None
    else
      var power := PowExact(pow, s.coefficient, attempt);
      if power.None? then None else Exact(first.value * ToLong(power.value))
  }

  /** `Overflowed`: an ArithmeticException. `NullCap`: the NullPointerException of a
      policy whose cap was set to null, which its setter documents as "no cap". */
  datatype Delay = Delay(nanos: int) | Overflowed | NullCap

  function NextDelay(s: Settings, pow: Power, attempt: int): Delay
    requires IsPolicy(s)
  {
    if s.cap.None? then NullCap
    else
      var max := ToMillis(s.cap.value);
      if max.None? then Overflowed
      else
        var next := Product(s, pow, attempt);
        if next.None? then (if max.value > 0 then Delay(s.cap.value) else Overflowed)
        else if next.value > max.value && max.value > 0 then Delay(s.cap.value)
        else Delay(next.value * NANOS_PER_MILLI)
  }

  // ----- what the delay is, in unbounded arithmetic -----

  /** A cap counts only from one millisecond on. */
  predicate HasCap(s: Settings) { s.cap.Some? && s.cap.value >= NANOS_PER_MILLI }

  /** The multiple of the first interval, in milliseconds and without any overflow: as often
      as the power says in whole numbers, which a long can hold; None if it is infinite. */
  function Wanted(s: Settings, pow: Power, attempt: int): Option<int>
    requires IsPolicy(s)
  {
    match pow(s.coefficient, attempt)
    case PositiveInfinity => None
    case Finite(v) => Some(s.first / NANOS_PER_MILLI * Earlier(v.Floor, 0x7FFF_FFFF_FFFF_FFFF))
    case _ => Some(0)
  }

  ghost predicate IsOrdinary(s: Settings) {
    IsPolicy(s) && !s.coefficient.NotANumber?
  }

  lemma Scaled(first: int, factor: int)
    requires first >= 0 && factor >= 1
    ensures first * factor >= first
  {
  }

  lemma {:induction false} ProductIsExact(s: Settings, pow: Power, attempt: nat)
    requires IsOrdinary(s) && IsPow(pow)
    ensures var w := Wanted(s, pow, attempt);
            Product(s, pow, attempt) == if w.None? || w.value > MAX_LONG then None else w
    ensures Wanted(s, pow, attempt).Some? ==> Wanted(s, pow, attempt).value >= 0
  {
    var power := pow(s.coefficient, attempt);
    assert AtMost(Finite(1.0), power);
    if power.Finite? {
      Scaled(s.first / NANOS_PER_MILLI, ToLong(power));
    }
  }

  /** With a cap, the delay is the wanted multiple as long as that is within the cap, and
      the cap otherwise, as in arithmetic without any overflow; there is no failure, and
      never a wrapped-around value. Without a cap it is the wanted multiple, and fails
      exactly when that does not fit. */
  lemma {:induction false} DelayIsExact(s: Settings, pow: Power, attempt: nat)
    requires IsOrdinary(s) && IsPow(pow)
    ensures var w := Wanted(s, pow, attempt);
            NextDelay(s, pow, attempt) ==
              if s.cap.None? then NullCap
              else if s.cap.value / NANOS_PER_MILLI > MAX_LONG then Overflowed
              else if HasCap(s) then
                (if w.Some? && w.value <= s.cap.value / NANOS_PER_MILLI then Delay(w.value * NANOS_PER_MILLI)
                 else Delay(s.cap.value))
              else if w.Some? && w.value <= MAX_LONG then Delay(w.value * NANOS_PER_MILLI)
              else Overflowed
  {
    ProductIsExact(s, pow, attempt);
  }

  /** A delay stays within a cap that is set exactly when the cap is at least a
      millisecond, or the wanted multiple itself is within it. */
  lemma {:induction false} CapHoldsExactlyWhen(s: Settings, pow: Power, attempt: nat)
    requires IsOrdinary(s) && IsPow(pow) && s.cap.Some? && NextDelay(s, pow, attempt).Delay?
    ensures NextDelay(s, pow, attempt).nanos <= s.cap.value
            <==> HasCap(s) || Wanted(s, pow, attempt) == Some(0)
    ensures NextDelay(s, pow, attempt).nanos >= 0
  {
    DelayIsExact(s, pow, attempt);
  }

  /** Computing the delay fails exactly for a null cap, for a cap too long to be counted
      in milliseconds, and for an overflow with no cap in force. */
  lemma {:induction false} DelayFailsExactlyWhen(s: Settings, pow: Power, attempt: nat)
    requires IsOrdinary(s) && IsPow(pow)
    ensures !NextDelay(s, pow, attempt).Delay? <==>
              s.cap.None? || s.cap.value / NANOS_PER_MILLI > MAX_LONG
              || (!HasCap(s) && (Wanted(s, pow, attempt).None? || Wanted(s, pow, attempt).value > MAX_LONG))
  {
    DelayIsExact(s, pow, attempt);
  }

  lemma {:induction false} WantedGrows(s: Settings, pow: Power, a: nat, b: nat)
    requires IsOrdinary(s) && IsPow(pow) && a <= b
    ensures var wa, wb := Wanted(s, pow, a), Wanted(s, pow, b);
            wb.Some? ==> wa.Some? && wa.value <= wb.value
  {
    var pa, pb := pow(s.coefficient, a), pow(s.coefficient, b);
    assert AtMost(pa, pb) && AtMost(Finite(1.0), pa);
    if pb.Finite? {
      assert ToLong(pa) <= ToLong(pb);
      var first := s.first / NANOS_PER_MILLI;
      assert first * ToLong(pb) == first * ToLong(pa) + first * (ToLong(pb) - ToLong(pa));
    }
  }

  /** Later attempts never wait less, and a delay that can be computed for an attempt can
      be computed for every earlier one. */
  lemma {:induction false} DelayGrows(s: Settings, pow: Power, a: nat, b: nat)
    requires IsOrdinary(s) && IsPow(pow) && a <= b && NextDelay(s, pow, b).Delay?
    ensures NextDelay(s, pow, a).Delay?
    ensures NextDelay(s, pow, a).nanos <= NextDelay(s, pow, b).nanos
  {
    DelayIsExact(s, pow, a);
    DelayIsExact(s, pow, b);
    WantedGrows(s, pow, a, b);
  }

  /** The policy documents the first interval as the delay between the first and the
      second attempt. The engine scales it already there, by the first power of the
      coefficient, so without a cap the first delay is the first interval exactly when
      that is in whole milliseconds and that power is below two. Where the first power of a
      number is the number itself, this is a condition on the coefficient. */
  lemma {:induction false} FirstDelayIsFirstIntervalExactlyWhen(s: Settings, pow: Power)
    requires IsOrdinary(s) && IsPow(pow) && s.cap == Some(0)
    ensures NextDelay(s, pow, 1) == Delay(s.first)
            <==> s.first % NANOS_PER_MILLI == 0 && s.first / NANOS_PER_MILLI <= MAX_LONG
                 && pow(s.coefficient, 1).Finite? && pow(s.coefficient, 1).value < 2.0
    ensures pow(s.coefficient, 1) == s.coefficient ==>
              (NextDelay(s, pow, 1) == Delay(s.first)
               <==> s.first % NANOS_PER_MILLI == 0 && s.first / NANOS_PER_MILLI <= MAX_LONG
                    && s.coefficient.Finite? && s.coefficient.value < 2.0)
  {
    DelayIsExact(s, pow, 1);
    var power := pow(s.coefficient, 1);
    assert AtMost(Finite(1.0), power);
    var first := s.first / NANOS_PER_MILLI;
    if power.Finite? {
      if power.value < 2.0 {
        assert ToLong(power) == 1;
      } else {
        assert ToLong(power) >= 2;
        if first >= 1 {
          assert first * ToLong(power) == 2 * first + first * (ToLong(power) - 2);
          Scaled(first, ToLong(power) - 1);
        }
      }
    }
  }

  /** A coefficient that is not a number passes the policy's check and turns every delay
      that has an exponent into none at all. */
  lemma NotANumberMeansNoDelay(s: Settings, pow: Power, attempt: int)
    requires IsPolicy(s) && s.coefficient.NotANumber? && pow(NotANumber, attempt).NotANumber?
    requires s.cap.Some? && s.cap.value / NANOS_PER_MILLI <= MAX_LONG && s.first / NANOS_PER_MILLI <= MAX_LONG
    ensures NextDelay(s, pow, attempt) == Delay(0)
  {
  }
}
