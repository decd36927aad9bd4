/** PIN login: the failure counter, the lock it sets, and how many wrong PINs that lets anyone try. */
module PinLockout {
  import opened Base

  /** Both settings are validated as positive integers; the duration is in milliseconds. */
  datatype Policy = Policy(max: nat, duration: nat)

  ghost predicate PolicyOk(p: Policy) {
    p.max >= 1 && p.duration >= 1
  }

  datatype PinState = PinState(active: bool, pin: Option<string>, failures: nat, lockedUntil: Option<int>)
  datatype Outcome = InvalidCredentials | PinLocked(retryAfter: nat) | LoggedIn
  datatype Login = Login(state: PinState, outcome: Outcome, evaluated: bool)

  predicate LockedAt(s: PinState, now: int) {
    s.lockedUntil.Some? && s.lockedUntil.value > now
  }

  /** Whole seconds left of a running lock, rounded up and at least one. */
  function RetryAfter(until: int, now: int): nat {
    if until - now <= 1000 then 1 else (until - now + 999) / 1000
  }

  /** The counter restarts after an expired lock. */
  function Failed(p: Policy, s: PinState, at: int): PinState {
    var failures := (if s.lockedUntil.Some? && s.lockedUntil.value <= at then 0 else s.failures) + 1;
    s.(failures := failures, lockedUntil := if failures >= p.max then Some(at + p.duration) else None)
  }

  /** One attempt; evaluated says whether the entered PIN was compared with the stored one. */
  function Try(p: Policy, s: PinState, entered: string, now: int): Login {
    if !s.active || s.pin.None? then Login(s, InvalidCredentials, false)
    else if LockedAt(s, now) then Login(s, PinLocked(RetryAfter(s.lockedUntil.value, now)), false)
    else if entered == s.pin.value then Login(s.(failures := 0, lockedUntil := None), LoggedIn, true)
    else
      var after := Failed(p, s, now);
      Login(after, if after.lockedUntil.Some? then PinLocked(RetryAfter(after.lockedUntil.value, now)) else InvalidCredentials, true)
  }

  /**
   What an attempt is answered and leaves, read off the row: the PIN is compared exactly when the user is active, has one
   and is not locked; it logs in exactly when it is then right, which clears counter and lock; it is answered as locked
   exactly when a lock is running or this failure reaches the maximum, with that lock's wait; and as invalid otherwise.
   */
  lemma TryExact(p: Policy, s: PinState, entered: string, now: int)
    requires PolicyOk(p)
    ensures var t := Try(p, s, entered, now);
            var open := s.active && s.pin.Some?;
            var locked := s.lockedUntil.Some? && s.lockedUntil.value > now;
            var failed := (if s.lockedUntil.Some? && s.lockedUntil.value <= now then 0 else s.failures) + 1;
            && (t.evaluated <==> open && !locked)
            && (t.outcome == LoggedIn <==> open && !locked && s.pin.value == entered)
            && (t.outcome == LoggedIn ==> t.state == s.(failures := 0, lockedUntil := None))
            && (open && locked ==> t.outcome == PinLocked(RetryAfter(s.lockedUntil.value, now)) && t.state == s)
            && (!open ==> t.outcome == InvalidCredentials && t.state == s)
            && (open && !locked && s.pin.value != entered ==>
                  if failed >= p.max
                  then t.outcome == PinLocked(RetryAfter(now + p.duration, now))
                       && t.state == s.(failures := failed, lockedUntil := Some(now + p.duration))
                  else t.outcome == InvalidCredentials && t.state == s.(failures := failed, lockedUntil := None))
  {
  }

  /** Waiting as long as the response says is enough, and a second less never is unless it says one second. */
  lemma RetryAfterSuffices(until: int, now: int)
    requires until > now
    ensures now + RetryAfter(until, now) * 1000 >= until
    ensures RetryAfter(until, now) > 1 ==> now + (RetryAfter(until, now) - 1) * 1000 < until
  {
    var gap := until - now + 999;
    assert gap == gap / 1000 * 1000 + gap % 1000;
  }

  // ---------- the rows as they are updated ----------

  /** locked_until is set exactly when the counter has reached the maximum. */
  ghost predicate LockIffMax(p: Policy, s: PinState) {
    s.lockedUntil.Some? <==> s.failures >= p.max
  }

  class PinUser {
    const policy: Policy
    var active: bool
    var pin: Option<string>
    var failures: nat
    var lockedUntil: Option<int>

    function State(): PinState
      reads this
    {
      PinState(active, pin, failures, lockedUntil)
    }

    ghost predicate Valid()
      reads this
    {
      PolicyOk(policy) && LockIffMax(policy, State())
    }

    constructor (policy: Policy)
      requires PolicyOk(policy)
      ensures Valid() && this.policy == policy && State() == PinState(true, None, 0, None)
    {
      this.policy := policy;
      active, pin, failures, lockedUntil := true, None, 0, None;
    }

    /** Reads the row again before it counts, as its own transaction. */
    method RecordFailedPin(at: int) returns (lock: Option<int>)
      requires Valid()
      modifies `failures, `lockedUntil
      ensures Valid()
      ensures State() == if LockedAt(old(State()), at) then old(State()) else Failed(policy, old(State()), at)
      ensures lock == lockedUntil
    {
      if lockedUntil.Some? && lockedUntil.value > at {
        return lockedUntil;
      }
      var previous := if lockedUntil.Some? && lockedUntil.value <= at then 0 else failures;
      failures := previous + 1;
      lockedUntil := if failures >= policy.max then Some(at + policy.duration) else None;
      lock := lockedUntil;
    }

    method PinLogin(entered: string, now: int) returns (r: Outcome)
      requires Valid()
      modifies `failures, `lockedUntil
      ensures Valid()
      ensures var t := Try(policy, old(State()), entered, now); State() == t.state && r == t.outcome
    {
      if !active || pin.None? {
        return InvalidCredentials;
      }
      if lockedUntil.Some? && lockedUntil.value > now {
        return PinLocked(RetryAfter(lockedUntil.value, now));
      }
      if entered != pin.value {
        var lock := RecordFailedPin(now);
        return if lock.Some? then PinLocked(RetryAfter(lock.value, now)) else InvalidCredentials;
      }
      failures, lockedUntil := 0, None;
      r := LoggedIn;
    }

    /** UsersService.setPin: a new PIN starts with a clean counter. */
    method SetPin(value: string) returns (ok: bool)
      requires Valid()
      modifies `pin, `failures, `lockedUntil
      ensures Valid() && ok == active
      ensures State() == if ok then PinState(active, Some(value), 0, None) else old(State())
    {
      ok := active;
      if ok {
        pin, failures, lockedUntil := Some(value), 0, None;
      }
    }
  }

  // ---------- the lock and the counter ----------

  datatype PinEvent = Tried(entered: string, at: int) | PinSet(value: string) | ActiveSet(activated: bool)

  function Next(p: Policy, s: PinState, e: PinEvent): PinState {
    match e
    case Tried(entered, at) => Try(p, s, entered, at).state
    case PinSet(value) => if s.active then PinState(true, Some(value), 0, None) else s
    case ActiveSet(activated) => s.(active := activated)
  }

  function After(p: Policy, s: PinState, es: seq<PinEvent>): PinState {
    if es == [] then s else Next(p, After(p, s, es[..|es| - 1]), es[|es| - 1])
  }

  /** In every run of attempts, resets and deactivations, at any times. */
  lemma {:induction false} LockIffMaxAlways(p: Policy, s: PinState, es: seq<PinEvent>)
    requires PolicyOk(p) && LockIffMax(p, s)
    ensures LockIffMax(p, After(p, s, es))
  {
    if es != [] {
      LockIffMaxAlways(p, s, es[..|es| - 1]);
    }
  }

  // ---------- the rate bound ----------

  datatype Attempt = Attempt(entered: string, at: int)

  function StateAfter(p: Policy, s: PinState, attempts: seq<Attempt>): PinState {
    if attempts == [] then s
    else
      var last := attempts[|attempts| - 1];
      Try(p, StateAfter(p, s, attempts[..|attempts| - 1]), last.entered, last.at).state
  }

  /** How many of the attempts had their PIN compared. */
  function Evaluated(p: Policy, s: PinState, attempts: seq<Attempt>): nat {
    if attempts == [] then 0
    else
      var n, last := |attempts| - 1, attempts[|attempts| - 1];
      Evaluated(p, s, attempts[..n])
      + if Try(p, StateAfter(p, s, attempts[..n]), last.entered, last.at).evaluated then 1 else 0
  }

  ghost predicate InTime(attempts: seq<Attempt>) {
    forall i, j :: 0 <= i < j < |attempts| ==> attempts[i].at <= attempts[j].at
  }

  ghost predicate AllWrong(s: PinState, attempts: seq<Attempt>) {
    forall i :: 0 <= i < |attempts| ==> Some(attempts[i].entered) != s.pin
  }

  ghost predicate Reset(s: PinState) {
    s.failures == 0 && s.lockedUntil.None?
  }

  /** k lock periods have passed since the first attempt, and the counter is in round k. */
  ghost predicate InRound(p: Policy, st: PinState, evaluated: nat, elapsed: int, start: int, k: nat) {
    && k * p.duration <= elapsed
    && (st.lockedUntil.None? ==> evaluated == k * p.max + st.failures && st.failures < p.max)
    && (st.lockedUntil.Some? ==>
          evaluated == (k + 1) * p.max && st.failures >= p.max && st.lockedUntil.value >= start + (k + 1) * p.duration)
  }

  lemma Round(k: nat, m: nat)
    ensures (k + 1) * m == k * m + m
  {
  }

  lemma NextRound(p: Policy, st: PinState, entered: string, evaluated: nat, start: int, previous: int, now: int, k: nat) returns (k': nat)
    requires PolicyOk(p) && previous <= now && Some(entered) != st.pin
    requires InRound(p, st, evaluated, previous - start, start, k)
    ensures var t := Try(p, st, entered, now);
            InRound(p, t.state, evaluated + (if t.evaluated then 1 else 0), now - start, start, k')
  {
    Round(k, p.max);
    Round(k, p.duration);
    if st.active && st.pin.Some? && st.lockedUntil.Some? && st.lockedUntil.value <= now {
      k' := k + 1;
      Round(k + 1, p.max);
      Round(k + 1, p.duration);
    } else {
      k' := k;
    }
  }

  lemma {:induction false} RoundReached(p: Policy, s: PinState, attempts: seq<Attempt>) returns (k: nat)
    requires PolicyOk(p) && Reset(s) && InTime(attempts) && AllWrong(s, attempts) && attempts != []
    ensures InRound(p, StateAfter(p, s, attempts), Evaluated(p, s, attempts), attempts[|attempts| - 1].at - attempts[0].at,
                    attempts[0].at, k)
    ensures StateAfter(p, s, attempts).pin == s.pin
  {
    var n := |attempts| - 1;
    var last := attempts[n];
    if n == 0 {
      assert attempts[..0] == [];
      assert 0 * p.max == 0;
      k := NextRound(p, s, last.entered, 0, last.at, last.at, last.at, 0);
    } else {
      var j := RoundReached(p, s, attempts[..n]);
      var st := StateAfter(p, s, attempts[..n]);
      k := NextRound(p, st, last.entered, Evaluated(p, s, attempts[..n]), attempts[0].at, attempts[n - 1].at, last.at, j);
    }
  }

  lemma RoundsFit(k: nat, d: nat, elapsed: nat, m: nat)
    requires d >= 1 && k * d <= elapsed
    ensures (k + 1) * m <= m * (elapsed / d + 1)
  {
    var q := elapsed / d;
    assert elapsed == q * d + elapsed % d;
    if k > q {
      Scaled(q + 1, k, d);
      Round(q, d);
      assert false;
    }
    Scaled(k + 1, q + 1, m);
  }

  /**
   From a clean counter, whatever non-decreasing times a guesser picks and whatever wrong PINs are entered, at most
   max * (floor(T / duration) + 1) of them are compared within a span of length T.
   */
  lemma RateBound(p: Policy, s: PinState, attempts: seq<Attempt>)
    requires PolicyOk(p) && Reset(s) && InTime(attempts) && AllWrong(s, attempts) && attempts != []
    ensures var span := attempts[|attempts| - 1].at - attempts[0].at;
            span >= 0 && Evaluated(p, s, attempts) <= p.max * (span / p.duration + 1)
  {
    var k := RoundReached(p, s, attempts);
    var span := attempts[|attempts| - 1].at - attempts[0].at;
    Round(k, p.max);
    RoundsFit(k, p.duration, span, p.max);
  }

  // ---------- the bound is attained ----------

  function Burst(entered: string, at: int, n: nat): seq<Attempt> {
    seq(n, _ => Attempt(entered, at))
  }

  /** max guesses at once, again each time the lock has just expired. */
  function Schedule(p: Policy, entered: string, start: int, k: nat): seq<Attempt> {
    if k == 0 then Burst(entered, start, p.max)
    else Schedule(p, entered, start, k - 1) + Burst(entered, start + k * p.duration, p.max)
  }

  lemma OneMore(p: Policy, s: PinState, before: seq<Attempt>, last: Attempt)
    ensures var t := Try(p, StateAfter(p, s, before), last.entered, last.at);
            && StateAfter(p, s, before + [last]) == t.state
            && Evaluated(p, s, before + [last]) == Evaluated(p, s, before) + if t.evaluated then 1 else 0
  {
    assert (before + [last])[..|before|] == before;
  }

  /** The counter stands at n, counting from an expired or absent lock. */
  ghost predicate CountedTo(p: Policy, st: PinState, pin: string, at: int, n: nat) {
    && st.active && st.pin == Some(pin)
    && (n == 0 ==> if st.lockedUntil.Some? then st.lockedUntil.value <= at else st.failures == 0)
    && (n > 0 ==> st.failures == n && st.lockedUntil == if n == p.max then Some(at + p.duration) else None)
  }

  lemma CountsOn(p: Policy, st: PinState, pin: string, entered: string, at: int, n: nat)
    requires PolicyOk(p) && n < p.max && CountedTo(p, st, pin, at, n) && entered != pin
    ensures Try(p, st, entered, at).evaluated && CountedTo(p, Try(p, st, entered, at).state, pin, at, n + 1)
  {
  }

  /** n more failures at one moment. */
  lemma {:induction false} BurstFails(p: Policy, s: PinState, before: seq<Attempt>, pin: string, entered: string, at: int, n: nat)
    requires PolicyOk(p) && n <= p.max && entered != pin && CountedTo(p, StateAfter(p, s, before), pin, at, 0)
    ensures CountedTo(p, StateAfter(p, s, before + Burst(entered, at, n)), pin, at, n)
    ensures Evaluated(p, s, before + Burst(entered, at, n)) == Evaluated(p, s, before) + n
  {
    if n == 0 {
      assert before + Burst(entered, at, 0) == before;
    } else {
      var most := before + Burst(entered, at, n - 1);
      BurstFails(p, s, before, pin, entered, at, n - 1);
      assert before + Burst(entered, at, n) == most + [Attempt(entered, at)];
      OneMore(p, s, most, Attempt(entered, at));
      CountsOn(p, StateAfter(p, s, most), pin, entered, at, n - 1);
    }
  }

  lemma Expires(p: Policy, st: PinState, pin: string, at: int)
    requires PolicyOk(p) && CountedTo(p, st, pin, at, p.max)
    ensures CountedTo(p, st, pin, at + p.duration, 0)
  {
  }

  lemma NextBurst(p: Policy, s: PinState, before: seq<Attempt>, pin: string, entered: string, last: int)
    requires PolicyOk(p) && entered != pin && CountedTo(p, StateAfter(p, s, before), pin, last, p.max)
    ensures var at := last + p.duration; var xs := before + Burst(entered, at, p.max);
            && CountedTo(p, StateAfter(p, s, xs), pin, at, p.max)
            && Evaluated(p, s, xs) == Evaluated(p, s, before) + p.max
  {
    Expires(p, StateAfter(p, s, before), pin, last);
    BurstFails(p, s, before, pin, entered, last + p.duration, p.max);
  }

  lemma FirstBurst(p: Policy, s: PinState, pin: string, entered: string, start: int)
    requires PolicyOk(p) && Reset(s) && s.active && s.pin == Some(pin) && entered != pin
    ensures var xs := Schedule(p, entered, start, 0);
            CountedTo(p, StateAfter(p, s, xs), pin, start, p.max) && Evaluated(p, s, xs) == p.max
  {
    BurstFails(p, s, [], pin, entered, start, p.max);
    assert [] + Burst(entered, start, p.max) == Schedule(p, entered, start, 0);
  }

  /** After burst k, at its moment. */
  ghost predicate Reached(p: Policy, s: PinState, pin: string, xs: seq<Attempt>, at: int, evaluated: int) {
    CountedTo(p, StateAfter(p, s, xs), pin, at, p.max) && Evaluated(p, s, xs) == evaluated
  }

  lemma ScheduleGrows(p: Policy, s: PinState, pin: string, entered: string, start: int, k: nat, last: int, evaluated: int)
    requires PolicyOk(p) && entered != pin && k >= 1 && last + p.duration == start + k * p.duration
    requires Reached(p, s, pin, Schedule(p, entered, start, k - 1), last, evaluated)
    ensures Reached(p, s, pin, Schedule(p, entered, start, k), last + p.duration, evaluated + p.max)
  {
    var before := Schedule(p, entered, start, k - 1);
    NextBurst(p, s, before, pin, entered, last);
    assert Schedule(p, entered, start, k) == before + Burst(entered, last + p.duration, p.max);
  }

  lemma {:induction false} ScheduleEvaluates(p: Policy, s: PinState, pin: string, entered: string, start: int, k: nat) returns (at: int, n: int)
    requires PolicyOk(p) && Reset(s) && s.active && s.pin == Some(pin) && entered != pin
    ensures at == start + k * p.duration && n == (k + 1) * p.max
    ensures Reached(p, s, pin, Schedule(p, entered, start, k), at, n)
  {
    Round(k, p.max);
    if k == 0 {
      FirstBurst(p, s, pin, entered, start);
      at, n := start, p.max;
    } else {
      var last, m := ScheduleEvaluates(p, s, pin, entered, start, k - 1);
      Round(k - 1, p.duration);
      at, n := last + p.duration, m + p.max;
      ScheduleGrows(p, s, pin, entered, start, k, last, m);
    }
  }

  lemma {:induction false} ScheduleSpans(p: Policy, entered: string, start: int, k: nat)
    requires PolicyOk(p)
    ensures var xs := Schedule(p, entered, start, k);
            && xs != [] && xs[0].at == start && xs[|xs| - 1].at == start + k * p.duration && InTime(xs)
            && forall i :: 0 <= i < |xs| ==> xs[i].entered == entered
  {
    if k > 0 {
      ScheduleSpans(p, entered, start, k - 1);
      Round(k - 1, p.duration);
    }
  }

  lemma WrongThroughout(s: PinState, entered: string, xs: seq<Attempt>)
    requires Some(entered) != s.pin && forall i :: 0 <= i < |xs| ==> xs[i].entered == entered
    ensures AllWrong(s, xs)
  {
  }

  lemma SpanOf(first: int, last: int, k: nat, d: nat)
    requires d >= 1 && last == first + k * d
    ensures (last - first) / d == k
  {
    Quotient(last - first, d, k);
  }

  /** For every number of lock periods there are attempts that reach the bound exactly. */
  lemma RateBoundIsTight(p: Policy, s: PinState, entered: string, start: int, k: nat)
    requires PolicyOk(p) && Reset(s) && s.active && s.pin.Some? && entered != s.pin.value
    ensures var xs := Schedule(p, entered, start, k);
            && xs != [] && InTime(xs) && AllWrong(s, xs)
            && Evaluated(p, s, xs) == ((xs[|xs| - 1].at - xs[0].at) / p.duration + 1) * p.max
  {
    var at, n := ScheduleEvaluates(p, s, s.pin.value, entered, start, k);
    ScheduleSpans(p, entered, start, k);
    var xs := Schedule(p, entered, start, k);
    WrongThroughout(s, entered, xs);
    SpanOf(xs[0].at, xs[|xs| - 1].at, k, p.duration);
  }
}
