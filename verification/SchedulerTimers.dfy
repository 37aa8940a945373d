/**
 Timers keep their time: how the calls with a timeout park their caller, that the due time stays
 until the thread is woken, and that a call times out no earlier and at the next clock check.
 */
module SchedulerTimers {
  import opened Threads
  import opened SchedulerModel
  import opened SchedulerInvariant
  import opened SchedulerSteps
  import opened SchedulerRuns
  import opened SchedulerTheorems
  import opened SchedulerCauses

  // ---------- parking ----------

  predicate Timed(op: Op) {
    op.DoPoll? || op.DoSleep? || op.DoWait?
  }

  /** The caller has given up the processor in the state and at the point of its call, in the queue it waits on. */
  ghost predicate Waits(s: Vp, op: Op, s': Vp)
    requires Timed(op)
  {
    && s.current in s.threads && s'.threads.Keys == s.threads.Keys && s'.current == null
    && (forall u | u in s.threads && u != s.current :: s'.threads[u] == s.threads[u])
    && var r, r' := s.threads[s.current], s'.threads[s.current];
       && r' == r.(state := r'.state, at := r'.at, onSleepQ := r'.onSleepQ, due := r'.due, cause := r'.cause)
       && s' == s.(threads := s'.threads, current := null, ioQ := s'.ioQ, conds := s'.conds, sleepers := s'.sleepers)
       && match op
          case DoPoll(npds, _, _) =>
            && r'.state == IoWait && r'.at == InPoll(npds, true, 0)
            && s'.ioQ == s.ioQ + [s.current] && s'.conds == s.conds
          case DoSleep(timeout) =>
            && r'.state == (if timeout.Forever? then Suspended else Sleeping) && r'.at == InSleep
            && s'.ioQ == s.ioQ && s'.conds == s.conds
          case DoWait(c, _) =>
            && r'.state == CondWait && r'.at == InWait(c)
            && c in s.conds && s'.conds == s.conds[c := s.conds[c] + [s.current]] && s'.ioQ == s.ioQ
  }

  /** The timer of the caller runs from now, or there is none. */
  ghost predicate TimerSet(s: Vp, s': Vp, timeout: Timeout) {
    && s.current in s'.threads
    && var r' := s'.threads[s.current];
       match timeout
       case After(usecs) =>
         s'.sleepers == s.sleepers + {s.current} && r'.onSleepQ && r'.due == s.clock + usecs
       case Forever => s'.sleepers == s.sleepers && !r'.onSleepQ
  }

  /** The interrupt is used up, and nothing else changes. */
  ghost predicate Refused(s: Vp, s': Vp, out: Outcome)
    requires s.current in s.threads
  {
    && out == Returned(Err(EINTR))
    && s' == s.(threads := s.threads[s.current := s.threads[s.current].(interrupt := false)])
  }

  /** The answers of the calls with a timeout, and how they park. */
  lemma TimedCall(s: Vp, op: Op)
    requires Inv(s) && Sane(s) && Enabled(s, op) && Timed(op)
    ensures var (s', out) := Do(s, op);
            var r := s.threads[s.current];
            if r.interrupt then Refused(s, s', out)
            else if op.DoPoll? && !op.added then s' == s && out == Returned(Err(EADD))
            else out == Parked && Waits(s, op, s') && TimerSet(s, s', op.timeout)
  {
    hide Inv, Sane, Waits, TimerSet, Poll, Sleep, WaitAt;
    NotAsleep(s);
    match op {
      case DoPoll(npds, timeout, added) => PollCall(s, npds, timeout, added);
      case DoSleep(timeout) => SleepCall(s, timeout);
      case DoWait(c, timeout) => WaitCall(s, c, timeout);
    }
  }

  lemma NotAsleep(s: Vp)
    requires Inv(s) && AtCall(s)
    ensures s.current in s.threads && !s.threads[s.current].onSleepQ
  {
    hide QueuesOk, LocksOk, RestOk;
    assert ThreadOk(s, s.current);
  }

  lemma PollCall(s: Vp, npds: nat, timeout: Timeout, added: bool)
    requires s.current in s.threads && !s.threads[s.current].onSleepQ
    ensures var (s', out) := Poll(s, npds, timeout, added);
            if s.threads[s.current].interrupt then Refused(s, s', out)
            else if !added then s' == s && out == Returned(Err(EADD))
            else
              out == Parked && Waits(s, DoPoll(npds, timeout, added), s') && TimerSet(s, s', timeout)
  {
  }

  lemma SleepCall(s: Vp, timeout: Timeout)
    requires s.current in s.threads && !s.threads[s.current].onSleepQ
    ensures var (s', out) := Sleep(s, timeout);
            if s.threads[s.current].interrupt then Refused(s, s', out)
            else out == Parked && Waits(s, DoSleep(timeout), s') && TimerSet(s, s', timeout)
  {
  }

  lemma WaitCall(s: Vp, c: Cond, timeout: Timeout)
    requires s.current in s.threads && !s.threads[s.current].onSleepQ && c in s.conds
    ensures var (s', out) := WaitAt(s, c, timeout, InWait(c));
            if s.threads[s.current].interrupt then Refused(s, s', out)
            else out == Parked && Waits(s, DoWait(c, timeout), s') && TimerSet(s, s', timeout)
  {
  }

  // ---------- the clock ----------

  /** The step reads the clock: a yield, or a turn of the idle thread that does not end the process. */
  predicate ChecksClock(s: Vp, op: Op) {
    op.DoYield? || (op.DoIdle? && s.active > 0)
  }

  /** From `s` to `s'` the time became `now`: nobody due stays asleep, and whoever was due can run. */
  ghost predicate TimePasses(s: Vp, s': Vp, now: nat) {
    && s'.clock == now && s'.sleepers <= s.sleepers
    && (forall t | t in s'.sleepers :: t in s'.threads && s'.threads[t].due > now)
    && (forall t | t in s.sleepers && t in s.threads && s.threads[t].due <= now ::
         t in s'.threads && s'.threads[t].state.Runnable? && t in s'.runQ)
  }

  lemma YieldPasses(s: Vp, now: nat, expired: seq<Thread>)
    requires s.current in s.threads && (forall t | t in s.sleepers :: t in s.threads) && ExpiryOrder(s, now, expired)
    ensures TimePasses(s, Yield(s, now, expired).0, now)
  {
    hide Reverse;
  }

  lemma ExpirePasses(s: Vp, now: nat, expired: seq<Thread>)
    requires s.idle in s.threads && (forall t | t in s.sleepers :: t in s.threads) && ExpiryOrder(s, now, expired)
    ensures TimePasses(s, Park(Expire(s, now, expired), s.idle, Runnable, AtIdle), now)
  {
    hide Reverse;
  }

  lemma IdlePasses(s: Vp, ready: map<Thread, nat>, now: nat, expired: seq<Thread>)
    requires s.idle in s.threads && (forall t | t in s.sleepers :: t in s.threads) && s.idle !in ready
    requires (forall t | t in ready :: t in s.ioQ && t in s.threads)
    requires ExpiryOrder(Dispatch(s, ready), now, expired)
    ensures TimePasses(s, Idle(s, ready, now, expired), now)
  {
    hide Dispatch, ExpiryOrder, Expire;
    var d := Dispatch(s, ready);
    DispatchWakes(s, ready);
    ExpirePasses(d, now, expired);
    forall t | t in ready ensures t in Idle(s, ready, now, expired).threads
      ensures Idle(s, ready, now, expired).threads[t].state.Runnable? && t in Idle(s, ready, now, expired).runQ
    {
      StaysAwake(d, now, expired, t);
    }
  }

  lemma DispatchWakes(s: Vp, ready: map<Thread, nat>)
    requires forall t | t in ready :: t in s.ioQ && t in s.threads
    ensures var d := Dispatch(s, ready);
            && d.idle == s.idle && d.threads.Keys == s.threads.Keys && d.sleepers == s.sleepers - ready.Keys
            && (forall t | t in s.threads :: t !in ready ==> d.threads[t] == s.threads[t])
            && (forall t | t in ready :: d.threads[t].state.Runnable? && t in d.runQ)
  {
  }

  lemma StaysAwake(d: Vp, now: nat, expired: seq<Thread>, t: Thread)
    requires d.idle in d.threads && t in d.threads && d.threads[t].state.Runnable? && t in d.runQ
    ensures var s' := Park(Expire(d, now, expired), d.idle, Runnable, AtIdle);
            t in s'.threads && s'.threads[t].state.Runnable? && t in s'.runQ
  {
    hide Reverse;
  }

  lemma CheckPasses(s: Vp, op: Op)
    requires Inv(s) && Sane(s) && Enabled(s, op) && ChecksClock(s, op)
    ensures TimePasses(s, Do(s, op).0, op.now)
  {
    hide Inv, Sane, Yield, IdleTurn, Dispatch, ExpiryOrder, TimePasses, Fires;
    SleepersKnown(s);
    match op {
      case DoYield(now, expired) => YieldPasses(s, now, expired);
      case DoIdle(ready, now, expired) => TurnPasses(s, ready, now, expired);
    }
  }

  lemma TurnPasses(s: Vp, ready: map<Thread, nat>, now: nat, expired: seq<Thread>)
    requires Inv(s) && s.active > 0 && Fires(s, ready) && ExpiryOrder(Dispatch(s, ready), now, expired)
    ensures s.idle in s.threads && TimePasses(s, IdleTurn(s, ready, now, expired).0, now)
  {
    hide Inv, Dispatch, ExpiryOrder, Idle, Fires, TimePasses;
    SleepersKnown(s);
    NotReady(s, ready);
    IdlePasses(s, ready, now, expired);
  }

  lemma SleepersKnown(s: Vp)
    requires Inv(s)
    ensures s.idle in s.threads && (s.current != null ==> s.current in s.threads)
    ensures forall t | t in s.sleepers :: t in s.threads
  {
  }

  lemma NotReady(s: Vp, ready: map<Thread, nat>)
    requires Inv(s) && Fires(s, ready)
    ensures s.idle !in ready && forall t | t in ready :: t in s.ioQ && t in s.threads
  {
    hide QueuesOk, LocksOk, RestOk;
    assert ThreadOk(s, s.idle);
  }

  lemma CallClock(s: Vp, op: Op)
    requires Sane(s) && Enabled(s, op) && (Timed(op) || op.DoLock? || op.DoJoin?)
    ensures Do(s, op).0.clock == s.clock
  {
    hide Do, Sane, Enabled;
    if Timed(op) { TimedClock(s, op); } else { LockJoinClock(s, op); }
  }

  lemma TimedClock(s: Vp, op: Op)
    requires Sane(s) && Enabled(s, op) && Timed(op)
    ensures Do(s, op).0.clock == s.clock
  {
    hide Poll, Sleep, WaitAt;
    match op {
      case DoPoll(npds, timeout, added) => PollClock(s, npds, timeout, added);
      case DoSleep(timeout) => SleepClock(s, timeout);
      case DoWait(c, timeout) => WaitClock(s, c, timeout, InWait(c));
    }
  }

  lemma LockJoinClock(s: Vp, op: Op)
    requires Sane(s) && Enabled(s, op) && (op.DoLock? || op.DoJoin?)
    ensures Do(s, op).0.clock == s.clock
  {
    hide Lock, Join;
    match op {
      case DoLock(m) => LockClock(s, m);
      case DoJoin(target) => JoinClock(s, target);
    }
  }

  lemma PollClock(s: Vp, npds: nat, timeout: Timeout, added: bool)
    requires s.current in s.threads
    ensures Poll(s, npds, timeout, added).0.clock == s.clock
  {
  }

  lemma SleepClock(s: Vp, timeout: Timeout)
    requires s.current in s.threads
    ensures Sleep(s, timeout).0.clock == s.clock
  {
  }

  lemma WaitClock(s: Vp, c: Cond, timeout: Timeout, at: Point)
    requires s.current in s.threads && c in s.conds
    ensures WaitAt(s, c, timeout, at).0.clock == s.clock
  {
  }

  lemma LockClock(s: Vp, m: Mutex)
    requires s.current in s.threads && m in s.owners && m in s.lockQ
    ensures Lock(s, m).0.clock == s.clock
  {
  }

  lemma RoundClock(s: Vp, target: Thread, c: Cond)
    requires s.current in s.threads && target in s.threads && c in s.conds
    ensures JoinRound(s, target, c).0.clock == s.clock
  {
    hide WaitAt, Without;
    WaitClock(s, c, Forever, InJoin(target, c));
  }

  lemma JoinClock(s: Vp, target: Thread)
    requires s.current in s.threads && target in s.threads
    requires var c := s.threads[target].term; c != null ==> c in s.conds
    ensures Join(s, target).0.clock == s.clock
  {
    hide JoinRound;
    var c := s.threads[target].term;
    if c != null { RoundClock(s, target, c); }
  }

  lemma WakeClock(s: Vp, op: Op)
    requires Sane(s) && Enabled(s, op)
    requires op.DoSignal? || op.DoBroadcast? || op.DoUnlock? || op.DoTryLock? || op.DoInterrupt?
    ensures Do(s, op).0.clock == s.clock
  {
    hide First, Only;
  }

  lemma NewClock(s: Vp, op: Op)
    requires Sane(s) && Enabled(s, op)
    requires op.DoCreate? || op.DoNoThread? || op.DoNewCond? || op.DoNewMutex? || (op.DoIdle? && s.active <= 0)
    ensures Do(s, op).0.clock == s.clock
  {
    hide Sane, StackNew, StackFree, Dispatch, Fires;
  }

  lemma ExitClock(s: Vp, retval: int)
    requires Sane(s) && Enabled(s, DoExit(retval))
    ensures Do(s, DoExit(retval)).0.clock == s.clock
  {
    hide First, StackFree;
  }

  lemma ResumeClock(s: Vp, u: Thread)
    requires Picked(s, u)
    ensures Resume(s, u).0.clock == s.clock
  {
    hide Without, StackFree, JoinRound;
    if s.threads[u].at.InJoin? {
      RoundClock(Awake(s, u, s.threads[u].at.cond), s.threads[u].at.target, s.threads[u].at.cond);
    }
  }

  lemma PickClock(s: Vp)
    requires Inv(s) && Sane(s) && Enabled(s, DoSchedule)
    ensures Do(s, DoSchedule).0.clock == s.clock
  {
    hide ThreadsOk, QueuesOk, LocksOk, RestOk, Resume;
    NextRunnable(s);
    ResumeClock(Pick(s), Next(s));
  }

  lemma ClockStays(s: Vp, op: Op)
    requires Inv(s) && Sane(s) && Enabled(s, op) && !ChecksClock(s, op)
    ensures Do(s, op).0.clock == s.clock
  {
    hide Inv, Sane, Enabled, Do;
    if Timed(op) || op.DoLock? || op.DoJoin? {
      CallClock(s, op);
    } else if op.DoSchedule? {
      PickClock(s);
    } else if op.DoExit? {
      ExitClock(s, op.retval);
    } else if op.DoCreate? || op.DoNoThread? || op.DoNewCond? || op.DoNewMutex? || op.DoIdle? {
      NewClock(s, op);
    } else {
      WakeClock(s, op);
    }
  }

  /** A clock check moves the clock and wakes whoever is due; nothing else moves the clock. */
  lemma ClockStep(s: Vp, op: Op)
    requires Inv(s) && Sane(s) && Enabled(s, op)
    ensures if ChecksClock(s, op) then TimePasses(s, Do(s, op).0, op.now) else Do(s, op).0.clock == s.clock
  {
    hide Inv, Sane, Do, Enabled, TimePasses;
    if ChecksClock(s, op) { CheckPasses(s, op); } else { ClockStays(s, op); }
  }

  // ---------- timers over runs ----------

  /** At step `i` the run parks `t` in a call with a timeout, and it is still blocked in state `j`. */
  ghost predicate ParkedSince(states: seq<Vp>, ops: seq<Op>, i: nat, j: nat, t: Thread) {
    && IsRun(states, ops) && i < j <= |ops| && Timed(ops[i]) && states[i].current == t
    && Sane(states[i]) && Enabled(states[i], ops[i]) && Do(states[i], ops[i]).1 == Parked
    && forall m | i < m <= j :: t in states[m].threads && Blocked(states[m].threads[t])
  }

  /** While a thread is blocked its record stays as it was when it parked. */
  lemma {:induction false} ParkedStays(states: seq<Vp>, ops: seq<Op>, i: nat, j: nat, t: Thread)
    requires ParkedSince(states, ops, i, j, t)
    ensures |states| == |ops| + 1 && t in states[i + 1].threads && t in states[j].threads
    ensures states[j].threads[t] == states[i + 1].threads[t]
    decreases j
  {
    hide Inv, Sane, Enabled, Do, Follows, IsInitial;
    if j > i + 1 {
      ParkedStays(states, ops, i, j - 1, t);
      RunExplained(states, ops, j - 1, t);
    }
  }

  /**
   As long as `t` stays blocked, its timer is due exactly `usecs` after the time at which it
   parked; without a timeout it has none.
   */
  lemma TimerKept(states: seq<Vp>, ops: seq<Op>, i: nat, j: nat, t: Thread)
    requires ParkedSince(states, ops, i, j, t)
    ensures t in states[j].threads
    ensures match ops[i].timeout
            case After(usecs) =>
              t in states[j].sleepers && states[j].threads[t].due == states[i].clock + usecs
            case Forever => t !in states[j].sleepers
  {
    hide Inv, Sane, Enabled, Do, IsInitial;
    ParkedStays(states, ops, i, j, t);
    RunInv(states, ops, i);
    assert Follows(states[i], ops[i], states[i + 1]);
    ParkSetsTimer(states[i], ops[i]);
    RunInv(states, ops, j);
    SleepsIff(states[j], t);
  }

  lemma ParkSetsTimer(s: Vp, op: Op)
    requires Inv(s) && Sane(s) && Enabled(s, op) && Timed(op) && Do(s, op).1 == Parked
    ensures TimerSet(s, Do(s, op).0, op.timeout)
  {
    hide Inv, Sane, Enabled, Do, Waits, TimerSet;
    TimedCall(s, op);
  }

  lemma SleepsIff(s: Vp, t: Thread)
    requires Inv(s) && t in s.threads
    ensures t in s.sleepers <==> s.threads[t].onSleepQ
  {
    hide QueuesOk, LocksOk, RestOk;
    assert ThreadOk(s, t);
  }

  /**
   A parked thread times out at a clock check iff it has a timeout and that long has passed
   since it parked; then it is blocked no longer.
   */
  lemma TimesOutIff(states: seq<Vp>, ops: seq<Op>, i: nat, j: nat, t: Thread)
    requires ParkedSince(states, ops, i, j, t) && j < |ops| && ChecksClock(states[j], ops[j]) && !ReadyIn(ops[j], t)
    ensures var timeout := ops[i].timeout;
            TimesOut(states[j], ops[j], t) <==>
              timeout.After? && ops[j].now >= states[i].clock + timeout.usecs
    ensures TimesOut(states[j], ops[j], t) ==> t in states[j + 1].threads && states[j + 1].threads[t].state.Runnable?
  {
    hide Inv, Sane, Enabled, Do, IsInitial;
    TimerKept(states, ops, i, j, t);
    RunInv(states, ops, j);
    assert Follows(states[j], ops[j], states[j + 1]);
    ClockStep(states[j], ops[j]);
  }

  /** `t` parks at `i`, is woken at `j` and resumes at `k`. */
  ghost predicate Waited(states: seq<Vp>, ops: seq<Op>, i: nat, j: nat, k: nat, t: Thread) {
    ParkedSince(states, ops, i, j, t) && WokenAndResumed(states, ops, j, k, t)
  }

  /** A parked thread stands at the point of its call. */
  lemma ParkedPoint(states: seq<Vp>, ops: seq<Op>, i: nat, j: nat, t: Thread)
    requires ParkedSince(states, ops, i, j, t)
    ensures t in states[j].threads
    ensures match ops[i]
            case DoPoll(npds, _, _) => states[j].threads[t].at == InPoll(npds, true, 0)
            case DoSleep(_) => states[j].threads[t].at == InSleep
            case DoWait(c, _) => states[j].threads[t].at == InWait(c)
  {
    hide Inv, Sane, Enabled, Do, IsInitial;
    ParkedStays(states, ops, i, j, t);
    RunInv(states, ops, i);
    assert Follows(states[i], ops[i], states[i + 1]);
    ParkWaits(states[i], ops[i]);
  }

  lemma ParkWaits(s: Vp, op: Op)
    requires Inv(s) && Sane(s) && Enabled(s, op) && Timed(op) && Do(s, op).1 == Parked
    ensures Waits(s, op, Do(s, op).0)
  {
    hide Inv, Sane, Enabled, Do, Waits, TimerSet;
    TimedCall(s, op);
  }

  lemma TimedOutReady(s: Vp, op: Op, t: Thread)
    requires TimesOut(s, op, t)
    ensures !ReadyIn(op, t)
  {
  }

  /** An idle turn that ends the process wakes nobody. */
  lemma TimedOutChecks(states: seq<Vp>, ops: seq<Op>, j: nat, t: Thread)
    requires IsRun(states, ops) && j < |ops| && TimesOut(states[j], ops[j], t) && Blocked(states[j].threads[t])
    requires t in states[j + 1].threads && states[j + 1].threads[t].state.Runnable?
    ensures ChecksClock(states[j], ops[j])
  {
    hide Inv, Sane, Enabled, IsInitial, Idle, Yield;
    RunInv(states, ops, j);
    assert Follows(states[j], ops[j], states[j + 1]);
  }

  /** No timeout comes early: a call that reports one has a timeout, and was woken when that long had passed. */
  lemma NoEarlyTimeout(states: seq<Vp>, ops: seq<Op>, i: nat, j: nat, k: nat, t: Thread)
    requires Waited(states, ops, i, j, k, t)
    ensures Sane(states[k]) && Enabled(states[k], ops[k])
    ensures Result(states, ops, k) == Returned(if ops[i].DoWait? then Err(ETIME) else Ok(0)) ==>
              && ops[i].timeout.After? && ChecksClock(states[j], ops[j])
              && ops[j].now >= states[i].clock + ops[i].timeout.usecs
  {
    hide Inv, Sane, Enabled, Do, IsInitial, TimesOut;
    ParkedPoint(states, ops, i, j, t);
    match ops[i] {
      case DoPoll(_, _, _) => PollOutcome(states, ops, j, k, t);
      case DoSleep(_) => SleepOutcome(states, ops, j, k, t);
      case DoWait(c, _) => WaitOutcome(states, ops, j, k, t, c);
    }
    if TimesOut(states[j], ops[j], t) {
      TimedOutReady(states[j], ops[j], t);
      TimedOutChecks(states, ops, j, t);
      TimesOutIff(states, ops, i, j, t);
    }
  }
}
