/**
 * The login rate limiter (`core/auth.py`): two counters and a lockout, under any interleaving of
 * concurrent attempts, and how many wrong passwords it lets through in a window of time.
 */
module LoginLimiter {
  import opened Prelude

  type Time = real

  datatype Limits = Limits(maxFailures: nat, lockout: Time)

  /** Five failures in a row, sixty seconds. */
  const PORTAL_LIMITS := Limits(5, 60.0)

  predicate Sane(l: Limits) {
    l.maxFailures > 0 && l.lockout > 0.0
  }

  datatype Counters = Counters(failures: nat, pending: nat, lockedUntil: Option<Time>)

  const Fresh := Counters(0, 0, None)

  /** What callers do with the limiter. */
  datatype Op = Try | Fail | Succeed | Release | Ask

  predicate LockedAt(s: Counters, now: Time) {
    s.lockedUntil.Some? && now < s.lockedUntil.value
  }

  /** An expired lockout is forgotten when somebody asks. */
  function Expire(s: Counters, now: Time): Counters {
    if s.lockedUntil.Some? && now >= s.lockedUntil.value then s.(lockedUntil := None, failures := 0) else s
  }

  predicate Grants(l: Limits, s: Counters, now: Time) {
    var e := Expire(s, now);
    e.lockedUntil.None? && e.failures + e.pending < l.maxFailures
  }

  function Less(n: nat): nat {
    if n == 0 then 0 else n - 1
  }

  function Step(l: Limits, s: Counters, op: Op, now: Time): Counters {
    match op
    case Ask => Expire(s, now)
    case Try =>
      var e := Expire(s, now);
      if Grants(l, s, now) then e.(pending := e.pending + 1) else e
    case Fail =>
      if s.failures + 1 >= l.maxFailures then Counters(0, Less(s.pending), Some(now + l.lockout))
      else s.(pending := Less(s.pending), failures := s.failures + 1)
    case Succeed => Counters(0, Less(s.pending), None)
    case Release => s.(pending := Less(s.pending))
  }

  /** The limiter of one process. */
  class LoginRateLimiter {
    const limits: Limits
    var failures: nat
    var pending: nat
    var lockedUntil: Option<Time>

    constructor (l: Limits)
      ensures limits == l && Now() == Fresh
    {
      limits, failures, pending, lockedUntil := l, 0, 0, None;
    }

    ghost function Now(): Counters
      reads this
    {
      Counters(failures, pending, lockedUntil)
    }

    method IsLocked(now: Time) returns (locked: bool)
      modifies this
      ensures Now() == Step(limits, old(Now()), Ask, now)
      ensures locked <==> LockedAt(old(Now()), now)
    {
      if lockedUntil.None? {
        return false;
      }
      if now >= lockedUntil.value {
        lockedUntil := None;
        failures := 0;
        return false;
      }
      locked := true;
    }

    method TryAttempt(now: Time) returns (granted: bool)
      modifies this
      ensures Now() == Step(limits, old(Now()), Try, now)
      ensures granted <==> Grants(limits, old(Now()), now)
      ensures pending == old(pending) + if granted then 1 else 0
    {
      var locked := IsLocked(now);
      if locked || failures + pending >= limits.maxFailures {
        return false;
      }
      pending := pending + 1;
      granted := true;
    }

    method RecordFailure(now: Time)
      modifies this
      ensures Now() == Step(limits, old(Now()), Fail, now)
    {
      pending := if pending == 0 then 0 else pending - 1;
      failures := failures + 1;
      if failures >= limits.maxFailures {
        lockedUntil := Some(now + limits.lockout);
        failures := 0;
      }
    }

    method RecordSuccess(now: Time)
      modifies this
      ensures Now() == Step(limits, old(Now()), Succeed, now)
    {
      pending := if pending == 0 then 0 else pending - 1;
      failures := 0;
      lockedUntil := None;
    }

    method ReleaseAttempt(now: Time)
      modifies this
      ensures Now() == Step(limits, old(Now()), Release, now)
    {
      pending := if pending == 0 then 0 else pending - 1;
    }
  }

  // ----- Runs -----

  datatype Event = Event(op: Op, at: Time)

  /** Only an attempt that was granted and is still open can be resolved. */
  predicate Disciplined(s: Counters, op: Op) {
    op.Fail? || op.Succeed? || op.Release? ==> s.pending > 0
  }

  /** The state after some events, if the clock never ran backwards and every attempt was resolved at most once. */
  function Run(l: Limits, s: Counters, events: seq<Event>): Option<Counters> {
    if events == [] then Some(s)
    else
      var before := Run(l, s, events[..|events| - 1]);
      var e := events[|events| - 1];
      if before.None? || !Disciplined(before.value, e.op) || (|events| > 1 && e.at < events[|events| - 2].at) then None
      else Some(Step(l, before.value, e.op, e.at))
  }

  predicate Inv(l: Limits, s: Counters) {
    && s.failures + s.pending <= l.maxFailures && s.failures < l.maxFailures
    && (s.lockedUntil.Some? ==> s.pending == 0 && s.failures == 0)
  }

  lemma StepKeepsInv(l: Limits, s: Counters, op: Op, now: Time)
    requires Sane(l) && Inv(l, s) && Disciplined(s, op)
    ensures Inv(l, Step(l, s, op, now))
  {
  }

  lemma {:induction false} RunKeepsInv(l: Limits, s: Counters, events: seq<Event>)
    requires Sane(l) && Inv(l, s)
    ensures Run(l, s, events).Some? ==> Inv(l, Run(l, s, events).value)
  {
    if events != [] && Run(l, s, events).Some? {
      RunKeepsInv(l, s, events[..|events| - 1]);
      StepKeepsInv(l, Run(l, s, events[..|events| - 1]).value, events[|events| - 1].op, events[|events| - 1].at);
    }
  }

  /**
   * Confirmed failures and open attempts never exceed the budget together, and while a lockout is
   * active no verification is open: none is granted, and so no success can lift the lockout.
   */
  lemma {:induction false} BudgetHolds(l: Limits, events: seq<Event>, now: Time)
    requires Sane(l) && Run(l, Fresh, events).Some?
    ensures var s := Run(l, Fresh, events).value;
            && s.failures + s.pending <= l.maxFailures
            && (LockedAt(s, now) ==> s.pending == 0 && !Grants(l, s, now) && !Disciplined(s, Succeed))
  {
    RunKeepsInv(l, Fresh, events);
  }

  // ----- Wrong passwords in a window -----

  function Failures(events: seq<Event>): nat {
    if events == [] then 0
    else Failures(events[..|events| - 1]) + if events[|events| - 1].op.Fail? then 1 else 0
  }

  predicate NoSuccess(events: seq<Event>) {
    forall i | 0 <= i < |events| :: !events[i].op.Succeed?
  }

  /**
   * What holds `now`, after `engaged` lockouts and `n` failures without a success since `start`:
   * each lockout but the first had to wait out the one before it.
   */
  predicate Accounted(l: Limits, s: Counters, first: nat, start: Time, now: Time, n: nat, engaged: nat) {
    && Inv(l, s)
    && n + first == l.maxFailures * engaged + s.failures
    && start <= now
    && (s.lockedUntil.Some? ==> s.lockedUntil.value <= now + l.lockout)
    && (engaged > 0 && s.lockedUntil.Some? ==> s.lockedUntil.value >= start + engaged as real * l.lockout)
    && (engaged > 0 && s.lockedUntil.None? ==> now >= start + engaged as real * l.lockout)
  }

  lemma AccountStep(l: Limits, s: Counters, first: nat, start: Time, now: Time, n: nat, engaged: nat, e: Event)
    returns (engaged': nat)
    requires Sane(l) && Accounted(l, s, first, start, now, n, engaged)
    requires e.at >= now && !e.op.Succeed? && Disciplined(s, e.op)
    ensures Accounted(l, Step(l, s, e.op, e.at), first, start, e.at, n + (if e.op.Fail? then 1 else 0), engaged')
  {
    StepKeepsInv(l, s, e.op, e.at);
    var s' := Step(l, s, e.op, e.at);
    engaged' := engaged;
    if e.op.Fail? && s.failures + 1 >= l.maxFailures {
      engaged' := engaged + 1;
      assert engaged' as real * l.lockout == engaged as real * l.lockout + l.lockout;
      assert l.maxFailures * engaged' == l.maxFailures * engaged + l.maxFailures;
      assert engaged == 0 ==> engaged as real * l.lockout == 0.0;
    }
  }

  lemma {:induction false} AccountRun(l: Limits, s: Counters, events: seq<Event>, start: Time) returns (engaged: nat)
    requires Sane(l) && Inv(l, s) && Run(l, s, events).Some? && NoSuccess(events)
    requires (events != [] ==> start <= events[0].at) && (s.lockedUntil.Some? ==> s.lockedUntil.value <= start + l.lockout)
    ensures Accounted(l, Run(l, s, events).value, s.failures, start,
                      if events == [] then start else events[|events| - 1].at, Failures(events), engaged)
  {
    if events == [] {
      engaged := 0;
    } else {
      var before := events[..|events| - 1];
      engaged := AccountRun(l, s, before, start);
      engaged := AccountStep(l, Run(l, s, before).value, s.failures, start,
                             if before == [] then start else before[|before| - 1].at, Failures(before), engaged,
                             events[|events| - 1]);
    }
  }

  lemma FloorAtLeast(l: Limits, engaged: nat, w: Time)
    requires Sane(l) && w >= engaged as real * l.lockout
    ensures (w / l.lockout).Floor >= engaged
  {
    assert w / l.lockout >= engaged as real by {
      assert (w / l.lockout) * l.lockout == w;
    }
  }

  lemma {:induction false} FewEngagements(l: Limits, s: Counters, first: nat, start: Time, now: Time, n: nat, engaged: nat)
    requires Sane(l) && Accounted(l, s, first, start, now, n, engaged)
    ensures n <= l.maxFailures * (((now - start) / l.lockout).Floor + 1)
  {
    var k := ((now - start) / l.lockout).Floor;
    FloorAtLeast(l, 0, now - start);
    if engaged > 0 && s.lockedUntil.Some? {
      assert (engaged - 1) as real * l.lockout == engaged as real * l.lockout - l.lockout;
      FloorAtLeast(l, engaged - 1, now - start);
      Scale(l.maxFailures, engaged, k + 1);
    } else if engaged > 0 {
      FloorAtLeast(l, engaged, now - start);
      Scale(l.maxFailures, engaged + 1, k + 1);
      assert l.maxFailures * (engaged + 1) == l.maxFailures * engaged + l.maxFailures;
    } else {
      Scale(l.maxFailures, 1, k + 1);
    }
  }

  lemma Scale(m: nat, a: nat, b: nat)
    requires a <= b
    ensures m * a <= m * b
  {
    assert m * b == m * a + m * (b - a);
  }

  /**
   * In any window without a success, of any run, the number of wrong passwords is at most
   * `maxFailures` for each full lockout period that fits into the window, and once more.
   */
  lemma {:induction false} WindowBound(l: Limits, before: seq<Event>, window: seq<Event>)
    requires Sane(l) && Run(l, Fresh, before).Some? && Run(l, Run(l, Fresh, before).value, window).Some?
    requires window != [] && NoSuccess(window)
    requires before != [] ==> before[|before| - 1].at <= window[0].at
    ensures var w := window[|window| - 1].at - window[0].at;
            && w >= 0.0
            && Failures(window) <= l.maxFailures * ((w / l.lockout).Floor + 1)
  {
    RunKeepsInv(l, Fresh, before);
    LockoutsAreRecent(l, before);
    var engaged := AccountRun(l, Run(l, Fresh, before).value, window, window[0].at);
    FewEngagements(l, Run(l, Run(l, Fresh, before).value, window).value, Run(l, Fresh, before).value.failures,
                   window[0].at, window[|window| - 1].at, Failures(window), engaged);
  }

  /** A lockout never ends later than one lockout period from now. */
  lemma {:induction false} LockoutsAreRecent(l: Limits, events: seq<Event>)
    requires Sane(l) && Run(l, Fresh, events).Some?
    ensures var s := Run(l, Fresh, events).value;
            s.lockedUntil.Some? ==> events != [] && s.lockedUntil.value <= events[|events| - 1].at + l.lockout
  {
    if events != [] {
      LockoutsAreRecent(l, events[..|events| - 1]);
    }
  }

  // ----- The bound is reached -----

  /** `n` wrong passwords, one after the other, all at one time. */
  function Burst(n: nat, at: Time): seq<Event> {
    if n == 0 then [] else Burst(n - 1, at) + [Event(Try, at), Event(Fail, at)]
  }

  /** When the lockout that began `periods` lockouts ago ends. */
  function After(l: Limits, periods: nat): Time {
    if periods == 0 then 0.0 else After(l, periods - 1) + l.lockout
  }

  lemma {:induction false} AfterPeriods(l: Limits, periods: nat)
    ensures After(l, periods) == periods as real * l.lockout
  {
    if periods > 0 {
      AfterPeriods(l, periods - 1);
      assert periods as real * l.lockout == (periods - 1) as real * l.lockout + l.lockout;
    }
  }

  /** A burst at each end of a lockout, `periods` times after the first. */
  function Bursts(l: Limits, periods: nat): seq<Event> {
    (if periods == 0 then [] else Bursts(l, periods - 1)) + Burst(l.maxFailures, After(l, periods))
  }

  /** The events can happen up to a time, and lead to this state after this many failures. */
  predicate Leads(l: Limits, events: seq<Event>, at: Time, s: Counters, n: nat) {
    Run(l, Fresh, events) == Some(s) && Failures(events) == n && (events != [] ==> events[|events| - 1].at <= at)
  }

  lemma RunOne(l: Limits, events: seq<Event>, at: Time, s: Counters, n: nat, op: Op)
    requires Leads(l, events, at, s, n) && Disciplined(s, op)
    ensures Leads(l, events + [Event(op, at)], at, Step(l, s, op, at), n + if op.Fail? then 1 else 0)
  {
    var one := events + [Event(op, at)];
    assert one[..|one| - 1] == events;
  }

  lemma OneWrongPassword(l: Limits, events: seq<Event>, at: Time, s: Counters, n: nat)
    requires Sane(l) && Leads(l, events, at, s, n) && s.pending == 0 && s.failures < l.maxFailures
    requires !LockedAt(s, at) && (s.lockedUntil.Some? ==> s.failures == 0)
    ensures Leads(l, events + [Event(Try, at), Event(Fail, at)], at,
                  if s.failures + 1 < l.maxFailures then Counters(s.failures + 1, 0, None)
                  else Counters(0, 0, Some(at + l.lockout)), n + 1)
  {
    RunOne(l, events, at, s, n, Try);
    var tried := Step(l, s, Try, at);
    assert tried == Counters(s.failures, 1, None);
    RunOne(l, events + [Event(Try, at)], at, tried, n, Fail);
    assert events + [Event(Try, at)] + [Event(Fail, at)] == events + [Event(Try, at), Event(Fail, at)];
  }

  lemma {:induction false} OneBurst(l: Limits, events: seq<Event>, at: Time, s: Counters, n: nat, size: nat)
    requires Sane(l) && Leads(l, events, at, s, n) && 0 < size <= l.maxFailures
    requires s.failures == 0 && s.pending == 0 && !LockedAt(s, at)
    ensures Leads(l, events + Burst(size, at), at,
                  if size < l.maxFailures then Counters(size, 0, None) else Counters(0, 0, Some(at + l.lockout)), n + size)
  {
    if size == 1 {
      OneWrongPassword(l, events, at, s, n);
      assert Burst(1, at) == [Event(Try, at), Event(Fail, at)];
    } else {
      OneBurst(l, events, at, s, n, size - 1);
      OneWrongPassword(l, events + Burst(size - 1, at), at, Counters(size - 1, 0, None), n + size - 1);
      assert events + Burst(size, at) == events + Burst(size - 1, at) + [Event(Try, at), Event(Fail, at)];
    }
  }

  lemma {:induction false} BurstsRun(l: Limits, periods: nat)
    requires Sane(l)
    ensures Leads(l, Bursts(l, periods), After(l, periods), Counters(0, 0, Some(After(l, periods) + l.lockout)),
                  l.maxFailures * (periods + 1))
  {
    var at := After(l, periods);
    if periods == 0 {
      OneBurst(l, [], at, Fresh, 0, l.maxFailures);
      assert [] + Burst(l.maxFailures, at) == Bursts(l, 0);
    } else {
      BurstsRun(l, periods - 1);
      OneBurst(l, Bursts(l, periods - 1), at, Counters(0, 0, Some(at)), l.maxFailures * periods, l.maxFailures);
      assert l.maxFailures * (periods + 1) == l.maxFailures * periods + l.maxFailures;
    }
  }

  /** The bound is exact: for every number of lockout periods some window of that length reaches it. */
  lemma {:induction false} WindowBoundIsReached(l: Limits, periods: nat)
    requires Sane(l)
    ensures Run(l, Fresh, Bursts(l, periods)).Some?
    ensures Failures(Bursts(l, periods)) == l.maxFailures * (periods + 1)
    ensures var all := Bursts(l, periods);
            all != [] && all[0].at == 0.0 && all[|all| - 1].at <= periods as real * l.lockout
  {
    AfterPeriods(l, periods);
    BurstsRun(l, periods);
    BurstsStart(l, periods);
  }

  lemma {:induction false} BurstsStart(l: Limits, periods: nat)
    requires Sane(l)
    ensures Bursts(l, periods) != [] && Bursts(l, periods)[0].at == 0.0
  {
    if periods == 0 {
      BurstStarts(l.maxFailures, 0.0);
    } else {
      BurstsStart(l, periods - 1);
    }
  }

  lemma {:induction false} BurstStarts(n: nat, at: Time)
    requires n > 0
    ensures Burst(n, at) != [] && Burst(n, at)[0].at == at
  {
    if n > 1 {
      BurstStarts(n - 1, at);
    }
  }
}
