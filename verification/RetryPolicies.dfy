/** The retry policy: an object whose setters check what they are given. Durations are in
    nanoseconds; a null duration is None. */
module RetryPolicies {
  import opened WorkflowTypes

  /** A Java double, up to rounding. */
  datatype Double = NotANumber | PositiveInfinity | NegativeInfinity | Finite(value: real)

  /** Java's `<`: false as soon as an operand is not a number. */
  predicate Less(a: Double, b: real) {
    match a
    case NotANumber => false
    case PositiveInfinity => false
    case NegativeInfinity => true
    case Finite(v) => v < b
  }

  datatype Settings = Settings(maxAttempts: int, first: int, coefficient: Double, cap: Option<int>, timeout: int)

  /** What the setters guarantee. A cap that is set is positive, but it may be below the
      first interval (which can be raised later), and it may be null; the coefficient may
      be NaN. */
  predicate IsPolicy(s: Settings) {
    && 1 <= s.maxAttempts <= 0x7FFF_FFFF
    && s.first > 0
    && !Less(s.coefficient, 1.0)
    && (s.cap.Some? ==> s.cap.value >= 0)
    && s.timeout >= 0
  }

  class RetryPolicy {
    var maxNumberOfAttempts: int
    var firstRetryInterval: int
    var backoffCoefficient: Double
    var maxRetryInterval: Option<int>
    var retryTimeout: int

    function Values(): Settings
      reads this
    {
      Settings(maxNumberOfAttempts, firstRetryInterval, backoffCoefficient, maxRetryInterval, retryTimeout)
    }

    predicate Valid()
      reads this
    {
      IsPolicy(Values())
    }

    constructor (maxAttempts: int, first: int)
      requires 1 <= maxAttempts <= 0x7FFF_FFFF && first > 0
      ensures Valid() && Values() == Settings(maxAttempts, first, Finite(1.0), Some(0), 0)
    {
      maxNumberOfAttempts, firstRetryInterval := maxAttempts, first;
      backoffCoefficient, maxRetryInterval, retryTimeout := Finite(1.0), Some(0), 0;
    }

    /** Null stands for the exception that the Java constructor throws. */
    static method Create(maxAttempts: int, first: Option<int>) returns (policy: RetryPolicy?)
      requires maxAttempts <= 0x7FFF_FFFF
      ensures policy == null <==> maxAttempts <= 0 || first.None? || first.value <= 0
      ensures policy != null ==> fresh(policy) && policy.Valid()
      ensures policy != null ==> policy.Values() == Settings(maxAttempts, first.value, Finite(1.0), Some(0), 0)
    {
      if maxAttempts <= 0 || first.None? || first.value <= 0 {
        return null;
      }
      policy := new RetryPolicy(maxAttempts, first.value);
    }

    method SetMaxNumberOfAttempts(n: int) returns (ok: bool)
      requires Valid() && n <= 0x7FFF_FFFF
      modifies this
      ensures Valid() && (ok <==> n > 0)
      ensures Values() == if ok then old(Values()).(maxAttempts := n) else old(Values())
    {
      ok := n > 0;
      if ok { maxNumberOfAttempts := n; }
    }

    method SetFirstRetryInterval(interval: Option<int>) returns (ok: bool)
      requires Valid()
      modifies this
      ensures Valid() && (ok <==> interval.Some? && interval.value > 0)
      ensures Values() == if ok then old(Values()).(first := interval.value) else old(Values())
    {
      ok := interval.Some? && interval.value > 0;
      if ok { firstRetryInterval := interval.value; }
    }

    /** A NaN passes the check, for it is not less than one. */
    method SetBackoffCoefficient(c: Double) returns (ok: bool)
      requires Valid()
      modifies this
      ensures Valid() && (ok <==> c.NotANumber? || c.PositiveInfinity? || (c.Finite? && c.value >= 1.0))
      ensures Values() == if ok then old(Values()).(coefficient := c) else old(Values())
    {
      ok := !Less(c, 1.0);
      if ok { backoffCoefficient := c; }
    }

    method SetMaxRetryInterval(interval: Option<int>) returns (ok: bool)
      requires Valid()
      modifies this
      ensures Valid() && (ok <==> interval.None? || interval.value >= firstRetryInterval)
      ensures Values() == if ok then old(Values()).(cap := interval) else old(Values())
    {
      ok := interval.None? || interval.value >= firstRetryInterval;
      if ok { maxRetryInterval := interval; }
    }

    method SetRetryTimeout(timeout: Option<int>) returns (ok: bool)
      requires Valid()
      modifies this
      ensures Valid() && (ok <==> timeout.Some? && timeout.value >= firstRetryInterval)
      ensures Values() == if ok then old(Values()).(timeout := timeout.value) else old(Values())
    {
      ok := timeout.Some? && timeout.value >= firstRetryInterval;
      if ok { retryTimeout := timeout.value; }
    }
  }
}
