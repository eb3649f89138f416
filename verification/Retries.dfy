/** A task with retries: how many children it creates, when, and until when it retries. The
    awaits of the orchestrator and the outcomes of the children come in any order. */
module Retries {
  import opened WorkflowTypes
  import opened ReplayContext
  import opened RetryPolicies
  import opened Backoff

  const MAX_INT: int := 0x7FFF_FFFF

  /** Java's int increment. */
  function Increment(x: int): int { if x == MAX_INT then -MAX_INT - 1 else x + 1 }

  /** `Delaying`: inside the await of the delay timer, which is inside the handler of the
      child's failure. That await ends with the timer's first sub-timer, at `due`. `Broken`: an exception left the failure handler, so the task's own
      future is never completed. */
  datatype Phase = ChildRunning | Delaying(due: int) | Succeeded | Failed | Broken

  /** The fields of a retriable task, and how many children it has created. */
  datatype Task = Task(
    firstAttempt: int,
    startTime: Option<int>,
    attemptNumber: int,
    totalRetryTime: int,
    children: nat,
    phase: Phase)

  /** What the task was created with; at least one of the two is there. `power` is
      Math.pow. `maxInterval` is the engine's maximum timer interval. */
  datatype Setup = Setup(policy: Option<Settings>, hasHandler: bool, power: Power, maxInterval: int)

  ghost predicate IsSetup(u: Setup) {
    (u.policy.Some? || u.hasHandler) && (u.policy.Some? ==> IsPolicy(u.policy.value))
  }

  /** Every step happens at an instant, the `currentInstant` of its turn. `DelayOver`: the
      delay's sub-timer fires, which it does not before it is due. */
  datatype Step =
    | Awaited(now: int)
    | ChildSucceeded(now: int)
    | ChildThrew(now: int, nonRetriable: bool, handlerSays: bool)
    | DelayOver(now: int)

  function Created(now: int): Task {
    Task(now, None, 0, 0, 1, ChildRunning)
  }

  function Init(t: Task, now: int): Task {
    t.(startTime := if t.startTime.None? then Some(now) else t.startTime, attemptNumber := Increment(t.attemptNumber))
  }

  predicate PolicyAllows(p: Settings, t: Task, now: int) {
    t.attemptNumber < p.maxAttempts && (p.timeout > 0 ==> now < t.firstAttempt + p.timeout)
  }

  predicate ShouldRetry(u: Setup, t: Task, now: int, nonRetriable: bool, handlerSays: bool) {
    && !nonRetriable
    && (u.policy.Some? || u.hasHandler)
    && (u.policy.Some? ==> PolicyAllows(u.policy.value, t, now))
    && (u.hasHandler ==> handlerSays)
  }

  /** Without a policy there is no delay. */
  function DelayAfter(u: Setup, attemptNumber: int): Delay
    requires IsSetup(u)
  {
    if u.policy.Some? then NextDelay(u.policy.value, u.power, attemptNumber) else Delay(0)
  }

  /** The next child, and the await for it. A task that was never awaited has no start
      time to measure from. */
  function Relaunch(t: Task, now: int): Task {
    if t.startTime.None? then t.(phase := Broken)
    else Init(t.(totalRetryTime := now - t.startTime.value, children := t.children + 1, phase := ChildRunning), now)
  }

  function TryRetry(u: Setup, t: Task, now: int, nonRetriable: bool, handlerSays: bool): Task
    requires IsSetup(u)
  {
    if !ShouldRetry(u, t, now, nonRetriable, handlerSays) || t.attemptNumber == MAX_INT then t.(phase := Failed)
    else
      match DelayAfter(u, t.attemptNumber)
      case Delay(nanos) =>
        if nanos > 0 then t.(phase := Delaying(SubTimerFireAt(now, now + nanos, u.maxInterval))) else Relaunch(t, now)
      case _ => t.(phase := Broken)
  }

  /** A step that the phase does not allow does not happen. In particular, the
      orchestrator does not run while a failure handler is waiting. */
  function Next(u: Setup, t: Task, s: Step): Task
    requires IsSetup(u)
  {
    match s
    case Awaited(now) => if t.phase.Delaying? then t else Init(t, now)
    case ChildSucceeded(_) => if t.phase.ChildRunning? then t.(phase := Succeeded) else t
    case ChildThrew(now, nonRetriable, handlerSays) =>
      if t.phase.ChildRunning? then TryRetry(u, t, now, nonRetriable, handlerSays) else t
    case DelayOver(now) => if t.phase.Delaying? && now >= t.phase.due then Relaunch(t, now) else t
  }

  function Run(u: Setup, t: Task, steps: seq<Step>): Task
    requires IsSetup(u)
    decreases |steps|
  {
    if steps == [] then t else Run(u, Next(u, t, steps[0]), steps[1..])
  }

  // ----- the object -----

  class RetriableTask {
    const setup: Setup
    const firstAttempt: int
    var startTime: Option<int>
    var attemptNumber: int
    var totalRetryTime: int
    ghost var children: nat
    var phase: Phase

    ghost function Fields(): Task
      reads this
    {
      Task(firstAttempt, startTime, attemptNumber, totalRetryTime, children, phase)
    }

    constructor (u: Setup, now: int)
      ensures setup == u && Fields() == Created(now)
    {
      setup, firstAttempt := u, now;
      startTime, attemptNumber, totalRetryTime, children, phase := None, 0, 0, 1, ChildRunning;
    }

    method InitAttempt(now: int)
      modifies this
      ensures Fields() == Init(old(Fields()), now)
    {
      if startTime.None? {
        startTime := Some(now);
      }
      attemptNumber := if attemptNumber == MAX_INT then -MAX_INT - 1 else attemptNumber + 1;
    }

    method HandleChildSuccess()
      requires phase.ChildRunning?
      modifies this
      ensures Fields() == old(Fields()).(phase := Succeeded)
    {
      phase := Succeeded;
    }

    method AllowedByPolicy(now: int) returns (ok: bool)
      requires setup.policy.Some?
      ensures ok <==> PolicyAllows(setup.policy.value, Fields(), now)
    {
      var p := setup.policy.value;
      if attemptNumber >= p.maxAttempts {
        return false;
      }
      if p.timeout > 0 {
        var expiration := firstAttempt + p.timeout;
        if now >= expiration {
          return false;
        }
      }
      return true;
    }

    /** Up to the delay timer, if there is one; `Resume` is what follows it. */
    method HandleChildException(now: int, nonRetriable: bool, handlerSays: bool)
      requires IsSetup(setup) && phase.ChildRunning?
      modifies this
      ensures Fields() == TryRetry(setup, old(Fields()), now, nonRetriable, handlerSays)
    {
      var retry := false;
      if !nonRetriable && (setup.policy.Some? || setup.hasHandler) {
        var byPolicy := true;
        if setup.policy.Some? {
          byPolicy := AllowedByPolicy(now);
        }
        retry := byPolicy && (!setup.hasHandler || handlerSays);
      }
      if !retry || attemptNumber == MAX_INT {
        phase := Failed;
        return;
      }
      var delay := Delay(0);
      if setup.policy.Some? {
        delay := NextDelay(setup.policy.value, setup.power, attemptNumber);
      }
      if !delay.Delay? {
        phase := Broken;
      } else if delay.nanos > 0 {
        phase := Delaying(if delay.nanos > setup.maxInterval then now + setup.maxInterval else now + delay.nanos);
      } else {
        Resume(now);
      }
    }

    method Resume(now: int)
      modifies this
      ensures Fields() == Relaunch(old(Fields()), now)
    {
      if startTime.None? {
        phase := Broken;
        return;
      }
      totalRetryTime := now - startTime.value;
      children, phase := children + 1, ChildRunning;
      InitAttempt(now);
    }
  }

  // ----- how many children -----

  /** How often the orchestrator awaits the task, awaits that come to nothing included. */
  function CountAwaits(steps: seq<Step>): nat {
    if steps == [] then 0 else (if steps[0].Awaited? then 1 else 0) + CountAwaits(steps[1..])
  }

  /** `awaits` is how many awaits there can have been so far; each child after the first
      brings one of the task's own. */
  ghost predicate Counted(p: Settings, t: Task, awaits: nat) {
    && 0 <= t.attemptNumber <= awaits + t.children - 1
    && (t.startTime.None? <==> t.attemptNumber == 0)
    && (t.startTime.None? ==> t.children == 1)
    && 1 <= t.children <= p.maxAttempts
    && (t.children == 1 || t.children <= t.attemptNumber)
    && (t.phase.Delaying? ==> t.attemptNumber < p.maxAttempts)
  }

  lemma NextIsCounted(u: Setup, t: Task, s: Step, awaits: nat)
    requires IsSetup(u) && u.policy.Some? && Counted(u.policy.value, t, awaits)
    requires awaits + u.policy.value.maxAttempts - 1 + (if s.Awaited? then 1 else 0) <= MAX_INT
    ensures Counted(u.policy.value, Next(u, t, s), awaits + if s.Awaited? then 1 else 0)
  {
    hide NextDelay;
  }

  lemma {:induction false} RunIsCounted(u: Setup, t: Task, steps: seq<Step>, awaits: nat)
    requires IsSetup(u) && u.policy.Some? && Counted(u.policy.value, t, awaits)
    requires awaits + CountAwaits(steps) + u.policy.value.maxAttempts - 1 <= MAX_INT
    ensures Run(u, t, steps).children <= u.policy.value.maxAttempts
    decreases |steps|
  {
    hide Next;
    if steps != [] {
      NextIsCounted(u, t, steps[0], awaits);
      RunIsCounted(u, Next(u, t, steps[0]), steps[1..], awaits + if steps[0].Awaited? then 1 else 0);
    }
  }

  /** Whatever is awaited, in whatever order children fail and delays end: with a policy,
      a task never creates more children than the policy's number of attempts, as long as
      it is not awaited so often that the attempt number wraps around. */
  lemma ChildrenAreBounded(u: Setup, created: int, steps: seq<Step>)
    requires IsSetup(u) && u.policy.Some? && CountAwaits(steps) + u.policy.value.maxAttempts - 1 <= MAX_INT
    ensures Run(u, Created(created), steps).children <= u.policy.value.maxAttempts
  {
    RunIsCounted(u, Created(created), steps, 0);
  }

  // ----- when a retry comes -----

  /** The child has failed at `failed` in a way that is to be retried after `delay`. */
  ghost predicate IsRetried(u: Setup, t: Task, failed: int, handlerSays: bool, delay: int) {
    && IsSetup(u) && t.phase.ChildRunning? && t.startTime.Some? && t.attemptNumber < MAX_INT
    && ShouldRetry(u, t, failed, false, handlerSays)
    && DelayAfter(u, t.attemptNumber) == Delay(delay)
  }

  predicate AllBefore(steps: seq<Step>, instant: int) {
    forall i :: 0 <= i < |steps| ==> steps[i].now < instant
  }

  lemma {:induction false} NothingBefore(u: Setup, t: Task, steps: seq<Step>)
    requires IsSetup(u) && t.phase.Delaying? && AllBefore(steps, t.phase.due)
    ensures Run(u, t, steps) == t
    decreases |steps|
  {
    if steps != [] {
      assert Next(u, t, steps[0]) == t;
      NothingBefore(u, t, steps[1..]);
    }
  }

  /** A retry with a delay: until the delay is over, or one maximum interval, whatever comes
      creates no child and changes nothing; then, and not before, the next child is there,
      and the time and the number of the attempt are counted on. */
  lemma {:induction false} RetryComesAfterTheDelay(u: Setup, t: Task, failed: int, handlerSays: bool, delay: int,
                                                   steps: seq<Step>, over: int)
    requires IsRetried(u, t, failed, handlerSays, delay) && delay > 0
    requires AllBefore(steps, Earlier(failed + delay, failed + u.maxInterval))
    requires over >= Earlier(failed + delay, failed + u.maxInterval)
    ensures var f := Next(u, t, ChildThrew(failed, false, handlerSays));
            var waiting := Run(u, f, steps);
            && waiting == t.(phase := waiting.phase) && waiting.phase.Delaying?
            && Next(u, waiting, DelayOver(over))
               == t.(children := t.children + 1, attemptNumber := t.attemptNumber + 1,
                     totalRetryTime := over - t.startTime.value, phase := ChildRunning)
  {
    hide NextDelay;
    var f := Next(u, t, ChildThrew(failed, false, handlerSays));
    assert f.phase.due == Earlier(failed + delay, failed + u.maxInterval);
    NothingBefore(u, f, steps);
  }

  /** Without a delay the next child is there at once. */
  lemma {:induction false} RetryComesAtOnce(u: Setup, t: Task, failed: int, handlerSays: bool, delay: int)
    requires IsRetried(u, t, failed, handlerSays, delay) && delay <= 0
    ensures Next(u, t, ChildThrew(failed, false, handlerSays))
         == t.(children := t.children + 1, attemptNumber := t.attemptNumber + 1,
               totalRetryTime := failed - t.startTime.value, phase := ChildRunning)
  {
    hide NextDelay;
  }

  /** The delay is waited for in full exactly when it is no longer than the maximum timer
      interval: the await of a longer timer ends with its first sub-timer. */
  lemma {:induction false} DelayIsKeptExactlyWhen(u: Setup, t: Task, failed: int, handlerSays: bool, delay: int)
    requires IsRetried(u, t, failed, handlerSays, delay) && delay > 0
    ensures (forall steps :: AllBefore(steps, failed + delay) ==>
               Run(u, Next(u, t, ChildThrew(failed, false, handlerSays)), steps).children == t.children)
            <==> delay <= u.maxInterval
  {
    hide NextDelay;
    var f := Next(u, t, ChildThrew(failed, false, handlerSays));
    if delay <= u.maxInterval {
      forall steps | AllBefore(steps, failed + delay) ensures Run(u, f, steps).children == t.children {
        NothingBefore(u, f, steps);
      }
    } else {
      var early := [DelayOver(failed + u.maxInterval)];
      RetryComesAfterTheDelay(u, t, failed, handlerSays, delay, [], failed + u.maxInterval);
      assert Run(u, f, []) == f;
      assert early[1..] == [];
      assert Run(u, f, early) == Next(u, f, early[0]);
      assert AllBefore(early, failed + delay);
    }
  }

  /** A task that has succeeded or failed stays so, and creates no more children. */
  lemma {:induction false} EndIsFinal(u: Setup, t: Task, steps: seq<Step>)
    requires IsSetup(u) && (t.phase.Succeeded? || t.phase.Failed? || t.phase.Broken?)
    ensures Run(u, t, steps).phase == t.phase && Run(u, t, steps).children == t.children
    decreases |steps|
  {
    if steps != [] {
      EndIsFinal(u, Next(u, t, steps[0]), steps[1..]);
    }
  }

  /** It succeeds with the success of the child that is running, and fails with a failure
      that is not retried, or when its attempts are used up. */
  lemma {:induction false} EndsWithItsChild(u: Setup, t: Task, now: int, nonRetriable: bool, handlerSays: bool)
    requires IsSetup(u) && t.phase.ChildRunning?
    ensures Next(u, t, ChildSucceeded(now)) == t.(phase := Succeeded)
    ensures Next(u, t, ChildThrew(now, nonRetriable, handlerSays)).phase.Failed?
            <==> (nonRetriable || (u.hasHandler && !handlerSays) || t.attemptNumber == MAX_INT
                  || (u.policy.Some?
                      && (t.attemptNumber >= u.policy.value.maxAttempts
                          || (u.policy.value.timeout > 0 && now >= t.firstAttempt + u.policy.value.timeout))))
  {
    hide NextDelay;
  }

  // ----- until when -----

  predicate AllFrom(steps: seq<Step>, instant: int) {
    forall i :: 0 <= i < |steps| ==> steps[i].now >= instant
  }

  /** Once the retry timeout has passed, no retry is decided: at most the child of a retry
      that was decided before, and whose delay was running, is still created. */
  lemma {:induction false} NoRetryAfterTimeout(u: Setup, t: Task, steps: seq<Step>)
    requires IsSetup(u) && u.policy.Some? && u.policy.value.timeout > 0
    requires AllFrom(steps, t.firstAttempt + u.policy.value.timeout)
    ensures Run(u, t, steps).children <= t.children + (if t.phase.Delaying? then 1 else 0)
    decreases |steps|
  {
    hide NextDelay;
    if steps != [] {
      NoRetryAfterTimeout(u, Next(u, t, steps[0]), steps[1..]);
    }
  }

  /** A null cap, which the policy's setter documents as no cap at all, breaks the first
      retry: no task under such a policy ever gets a second child. */
  lemma {:induction false} NullCapNeverRetries(u: Setup, t: Task, steps: seq<Step>)
    requires IsSetup(u) && u.policy.Some? && u.policy.value.cap.None? && !t.phase.Delaying?
    ensures Run(u, t, steps).children == t.children
    decreases |steps|
  {
    if steps != [] {
      NullCapNeverRetries(u, Next(u, t, steps[0]), steps[1..]);
    }
  }

  // ----- what an await costs -----

  function Awaits(n: nat, now: int): seq<Step> {
    seq(n, i => Awaited(now))
  }

  lemma {:induction false} AwaitsCount(u: Setup, t: Task, n: nat, now: int)
    requires IsSetup(u) && t.phase.ChildRunning? && 0 <= t.attemptNumber && t.attemptNumber + n <= MAX_INT
    ensures Run(u, t, Awaits(n, now))
         == t.(attemptNumber := t.attemptNumber + n, startTime := if n > 0 && t.startTime.None? then Some(now) else t.startTime)
    decreases n
  {
    if n > 0 {
      assert Awaits(n, now)[1..] == Awaits(n - 1, now);
      AwaitsCount(u, Init(t, now), n - 1, now);
    }
  }

  /** The attempt number counts awaits, not attempts. The first failure leads to a second
      child exactly when the task was awaited at least once, the failure is retriable, the
      handler agrees if there is one, and, under a policy, the task was awaited fewer times
      than the number of attempts, the retry timeout has not passed, and the delay can be
      computed. So awaiting a task again uses its attempts up, and a task that fails before
      its first await is never retried. */
  lemma {:induction false} FirstFailureIsRetriedExactlyWhen(u: Setup, created: int, awaits: nat, now: int, failed: int,
                                                            nonRetriable: bool, handlerSays: bool, over: int)
    requires IsSetup(u) && awaits <= MAX_INT
    requires DelayAfter(u, awaits).Delay? ==> over >= failed + DelayAfter(u, awaits).nanos
    ensures var t := Run(u, Created(created), Awaits(awaits, now));
            var f := Next(u, t, ChildThrew(failed, nonRetriable, handlerSays));
            Next(u, f, DelayOver(over)).children == 2 <==>
              (1 <= awaits < MAX_INT && !nonRetriable && (u.hasHandler ==> handlerSays)
               && (u.policy.Some? ==>
                     awaits < u.policy.value.maxAttempts
                     && (u.policy.value.timeout > 0 ==> failed < created + u.policy.value.timeout)
                     && NextDelay(u.policy.value, u.power, awaits).Delay?))
  {
    hide NextDelay;
    AwaitsCount(u, Created(created), awaits, now);
  }

  // ----- awaits until the attempt number wraps around -----

  lemma {:induction false} RunSplits(u: Setup, t: Task, a: seq<Step>, b: seq<Step>)
    requires IsSetup(u)
    ensures Run(u, t, a + b) == Run(u, Run(u, t, a), b)
    ensures CountAwaits(a + b) == CountAwaits(a) + CountAwaits(b)
    decreases |a|
  {
    hide Next;
    if a == [] {
      assert a + b == b;
    } else {
      assert (a + b)[1..] == a[1..] + b;
      RunSplits(u, Next(u, t, a[0]), a[1..], b);
    }
  }

  /** One failure after another, each with its delay. */
  function Failures(n: nat, over: int): seq<Step> {
    if n == 0 then [] else [ChildThrew(0, false, true), DelayOver(over)] + Failures(n - 1, over)
  }

  /** No retry timeout, and every delay can be computed. */
  ghost predicate Unhindered(u: Setup) {
    && IsSetup(u) && u.policy.Some? && u.policy.value.timeout <= 0
    && forall n: int :: NextDelay(u.policy.value, u.power, n).Delay?
  }

  lemma OneFailure(u: Setup, t: Task)
    requires Unhindered(u) && t.phase.ChildRunning? && t.startTime.Some? && t.attemptNumber < u.policy.value.maxAttempts
    requires t.attemptNumber < MAX_INT
    ensures var f := Next(u, Next(u, t, ChildThrew(0, false, true)), DelayOver(u.maxInterval));
            && f.phase.ChildRunning? && f.startTime.Some?
            && f.attemptNumber == t.attemptNumber + 1 && f.children == t.children + 1
  {
    hide NextDelay;
    assert NextDelay(u.policy.value, u.power, t.attemptNumber).Delay?;
  }

  lemma {:induction false} FailuresRelaunch(u: Setup, t: Task, n: nat)
    requires Unhindered(u) && t.phase.ChildRunning? && t.startTime.Some?
    requires t.attemptNumber + n <= u.policy.value.maxAttempts && t.attemptNumber + n <= MAX_INT
    ensures var f := Run(u, t, Failures(n, u.maxInterval));
            && f.phase.ChildRunning? && f.startTime.Some?
            && f.attemptNumber == t.attemptNumber + n && f.children == t.children + n
    ensures CountAwaits(Failures(n, u.maxInterval)) == 0
    decreases n
  {
    hide Next;
    if n > 0 {
      var over := u.maxInterval;
      var f := Next(u, Next(u, t, ChildThrew(0, false, true)), DelayOver(over));
      OneFailure(u, t);
      FailuresRelaunch(u, f, n - 1);
      assert Failures(n, over)[1..] == [DelayOver(over)] + Failures(n - 1, over);
      assert Failures(n, over)[1..][1..] == Failures(n - 1, over);
    }
  }

  lemma {:induction false} AwaitsAreCounted(n: nat)
    ensures CountAwaits(Awaits(n, 0)) == n
    decreases n
  {
    if n > 0 {
      assert Awaits(n, 0)[1..] == Awaits(n - 1, 0);
      AwaitsAreCounted(n - 1);
    }
  }

  /** All the attempts, and then awaits until the attempt number is negative: the next
      failure is retried once more. */
  lemma {:induction false} OneChildTooMany(u: Setup, created: int) returns (steps: seq<Step>)
    requires Unhindered(u) && u.policy.value.maxAttempts <= MAX_INT
    ensures CountAwaits(steps) + u.policy.value.maxAttempts - 1 == MAX_INT + 1
    ensures Run(u, Created(created), steps).children == u.policy.value.maxAttempts + 1
  {
    hide Next, Run;
    var max := u.policy.value.maxAttempts;
    var t0 := Created(created);
    AwaitsCount(u, t0, 1, 0);
    AwaitsAreCounted(1);
    var t1 := Run(u, t0, Awaits(1, 0));
    FailuresRelaunch(u, t1, max - 1);
    RunSplits(u, t0, Awaits(1, 0), Failures(max - 1, u.maxInterval));
    var t2 := Run(u, t1, Failures(max - 1, u.maxInterval));
    steps := Awaits(1, 0) + Failures(max - 1, u.maxInterval);
    AwaitsCount(u, t2, MAX_INT - max, 0);
    AwaitsAreCounted(MAX_INT - max);
    RunSplits(u, t0, steps, Awaits(MAX_INT - max, 0));
    var t3 := Run(u, t2, Awaits(MAX_INT - max, 0));
    steps := steps + Awaits(MAX_INT - max, 0);
    AndThenWraps(u, t3);
    RunSplits(u, t0, steps, [Awaited(0), ChildThrew(0, false, true), DelayOver(u.maxInterval)]);
    steps := steps + [Awaited(0), ChildThrew(0, false, true), DelayOver(u.maxInterval)];
  }

  lemma AndThenWraps(u: Setup, t: Task)
    requires Unhindered(u) && t.phase.ChildRunning? && t.startTime.Some? && t.attemptNumber == MAX_INT
    ensures Run(u, t, [Awaited(0), ChildThrew(0, false, true), DelayOver(u.maxInterval)]).children == t.children + 1
    ensures CountAwaits([Awaited(0), ChildThrew(0, false, true), DelayOver(u.maxInterval)]) == 1
  {
    hide NextDelay;
    var s := [Awaited(0), ChildThrew(0, false, true), DelayOver(u.maxInterval)];
    assert s[1..] == [ChildThrew(0, false, true), DelayOver(u.maxInterval)] && s[1..][1..] == [DelayOver(u.maxInterval)] && s[1..][1..][1..] == [];
    var w := Next(u, t, Awaited(0));
    OneFailure(u, w);
    assert CountAwaits([DelayOver(u.maxInterval)]) == 0;
    assert CountAwaits(s[1..]) == 0;
    assert Run(u, w, s[1..]) == Run(u, Next(u, w, s[1]), [DelayOver(u.maxInterval)]);
    assert Run(u, Next(u, w, s[1]), [DelayOver(u.maxInterval)]) == Next(u, Next(u, w, s[1]), DelayOver(u.maxInterval));
  }

  /** How often a task may be awaited: with nothing else that ends the retries, the policy's
      number of attempts bounds the children exactly up to that many awaits at which the
      attempt number does not wrap around. */
  lemma {:induction false} BoundHoldsExactlyWhen(u: Setup, created: int, awaits: nat)
    requires Unhindered(u) && u.policy.value.maxAttempts <= MAX_INT
    ensures (forall steps :: CountAwaits(steps) <= awaits ==>
               Run(u, Created(created), steps).children <= u.policy.value.maxAttempts)
            <==> awaits + u.policy.value.maxAttempts - 1 <= MAX_INT
  {
    if awaits + u.policy.value.maxAttempts - 1 <= MAX_INT {
      forall steps | CountAwaits(steps) <= awaits
        ensures Run(u, Created(created), steps).children <= u.policy.value.maxAttempts
      {
        ChildrenAreBounded(u, created, steps);
      }
    } else {
      var steps := OneChildTooMany(u, created);
    }
  }
}
