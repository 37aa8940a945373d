/**
 Why a call that blocked returns what it returns: over every run, the step that woke the
 thread and the interrupt flag at its resumption decide the result.
 */
module SchedulerCauses {
  import opened Threads
  import opened SchedulerModel
  import opened SchedulerInvariant
  import opened SchedulerSteps
  import opened SchedulerRuns

  /** The step `op` wakes the blocked thread `t` for the reason `cause`. */
  ghost predicate Because(s: Vp, op: Op, t: Thread, cause: Cause)
    requires t in s.threads
  {
    var r := s.threads[t];
    match cause
    case Signalled => Signals(s, op, r)
    case TimerFired => (op.DoYield? || op.DoIdle?) && t in s.sleepers && r.due <= op.now && !ReadyIn(op, t)
    case Interrupted => op == DoInterrupt(t)
    case IoReady => ReadyIn(op, t)
    case LockGranted => r.at.InLock? && op == DoUnlock(r.at.lock)
    case Nothing => false
  }

  predicate ReadyIn(op: Op, t: Thread) {
    op.DoIdle? && t in op.ready
  }

  ghost predicate Signals(s: Vp, op: Op, r: Rec) {
    r.state.CondWait? &&
    match r.at
    case InWait(c) => op == DoSignal(c) || op == DoBroadcast(c)
    case InJoin(target, _) => op.DoExit? && s.current == target
    case _ => false
  }

  /** The step resumes `t`. */
  ghost predicate Picks(s: Vp, op: Op, t: Thread) {
    op == DoSchedule && Next(s) == t
  }

  /** Where `t` stands once it is woken: a poll that fired is off the queue with its count. */
  function Woken(at: Point, op: Op, t: Thread): Point {
    if ReadyIn(op, t) && at.InPoll? then at.(onIoq := false, ready := op.ready[t]) else at
  }

  /** A blocked thread stays as it is or is woken for a reason; a runnable one keeps its reason until it is resumed. */
  ghost predicate Explained(s: Vp, op: Op, s': Vp, t: Thread)
    requires t in s.threads
  {
    t in s'.threads &&
    var r, r' := s.threads[t], s'.threads[t];
    && (Blocked(r) ==> r' == r || (r'.state.Runnable? && r'.at == Woken(r.at, op, t) && Because(s, op, t, r'.cause)))
    && (r.state.Runnable? && !Picks(s, op, t) ==> r'.state.Runnable? && r'.at == r.at && r'.cause == r.cause)
  }

  lemma ParkExplained(s: Vp, op: Op, t: Thread)
    requires Sane(s) && Enabled(s, op) && t in s.threads && AtCall(s) && s.threads[s.current].state.Running?
    requires op.DoPoll? || op.DoSleep?
    ensures Explained(s, op, Do(s, op).0, t)
  {
    hide Explained, Poll, Sleep;
    if op.DoPoll? {
      PollExplained(s, op.npds, op.timeout, op.added, t);
    } else {
      SleepExplained(s, op.timeout, t);
    }
  }

  lemma PollExplained(s: Vp, npds: nat, timeout: Timeout, added: bool, t: Thread)
    requires s.current in s.threads && s.threads[s.current].state.Running? && t in s.threads
    ensures Explained(s, DoPoll(npds, timeout, added), Poll(s, npds, timeout, added).0, t)
  {
  }

  lemma SleepExplained(s: Vp, timeout: Timeout, t: Thread)
    requires s.current in s.threads && s.threads[s.current].state.Running? && t in s.threads
    ensures Explained(s, DoSleep(timeout), Sleep(s, timeout).0, t)
  {
  }

  lemma QueueExplained(s: Vp, op: Op, t: Thread)
    requires Sane(s) && Enabled(s, op) && t in s.threads && AtCall(s) && s.threads[s.current].state.Running?
    requires op.DoWait? || op.DoLock?
    ensures Explained(s, op, Do(s, op).0, t)
  {
    hide Sane;
  }

  lemma SignalExplained(s: Vp, op: Op, t: Thread)
    requires Sane(s) && Enabled(s, op) && t in s.threads && AtCall(s) && PointOk(s, t, s.threads[t]) && QueuesOk(s)
    requires op.DoSignal?
    ensures Explained(s, op, Do(s, op).0, t)
  {
    hide Explained, Signal, QueuesOk;
    SignalCallExplained(s, op.c, t);
  }

  lemma SignalCallExplained(s: Vp, c: Cond, t: Thread)
    requires c in s.conds && (forall u | u in s.conds[c] :: u in s.threads) && t in s.threads && QueuesOk(s)
    requires PointOk(s, t, s.threads[t]) && forall u | u in s.threads :: s.threads[u].term != c
    ensures Explained(s, DoSignal(c), Signal(s, c), t)
  {
    hide NoDup;
  }

  lemma BroadcastExplained(s: Vp, op: Op, t: Thread)
    requires Sane(s) && Enabled(s, op) && t in s.threads && AtCall(s) && PointOk(s, t, s.threads[t]) && QueuesOk(s)
    requires op.DoBroadcast?
    ensures Explained(s, op, Do(s, op).0, t)
  {
    hide Sane, Only;
  }

  lemma GrantExplained(s: Vp, op: Op, t: Thread)
    requires Sane(s) && Enabled(s, op) && t in s.threads && AtCall(s) && QueuesOk(s)
    requires op.DoUnlock? || op.DoTryLock?
    ensures Explained(s, op, Do(s, op).0, t)
  {
    hide Explained, Unlock, TryLock;
    match op {
      case DoUnlock(m) => UnlockExplained(s, m, t);
      case DoTryLock(m) => TryLockExplained(s, m, t);
    }
  }

  lemma UnlockExplained(s: Vp, m: Mutex, t: Thread)
    requires m in s.owners && m in s.lockQ && QueuesOk(s) && t in s.threads
    ensures Explained(s, DoUnlock(m), Unlock(s, m).0, t)
  {
    hide NoDup;
  }

  lemma TryLockExplained(s: Vp, m: Mutex, t: Thread)
    requires m in s.owners && t in s.threads
    ensures Explained(s, DoTryLock(m), TryLock(s, m).0, t)
  {
  }

  lemma InterruptExplained(s: Vp, u: Thread, t: Thread)
    requires t in s.threads && u in s.threads
    ensures Explained(s, DoInterrupt(u), Interrupt(s, u), t)
  {
    hide Signals;
  }

  lemma NewExplained(s: Vp, op: Op, t: Thread)
    requires Sane(s) && Enabled(s, op) && t in s.threads && AtCall(s)
    requires op.DoCreate? || op.DoNoThread? || op.DoNewCond? || op.DoNewMutex?
    ensures Explained(s, op, Do(s, op).0, t)
  {
    hide Sane;
  }

  lemma ExitExplained(s: Vp, retval: int, t: Thread)
    requires ThreadsOk(s) && QueuesOk(s) && TermsOk(s) && ExitReady(s) && AtCall(s) && t in s.threads
    ensures Explained(s, DoExit(retval), Exit(s, retval), t)
  {
    hide ThreadsOk, QueuesOk, Exit, Signal, Zombified, Explained, PointOk;
    var me: Thread := s.current;
    CurrentOk(s);
    ExitForm(s, retval);
    var c := s.threads[me].term;
    if c != null {
      assert TermOk(s, me, c);
      ExitSignals(s, retval, c, t);
    } else {
      BuryExplained(s, retval, t);
    }
  }

  lemma BuryExplained(s: Vp, retval: int, t: Thread)
    requires s.current in s.threads && s.threads[s.current].state.Running? && t in s.threads
    ensures Explained(s, DoExit(retval), Bury(Retire(s, s.current, retval), s.current), t)
  {
  }

  lemma ExitSignals(s: Vp, retval: int, c: Cond, t: Thread)
    requires s.current in s.threads && s.threads[s.current].state.Running? && c in s.conds && t in s.threads
    requires forall u | u in s.conds[c] :: u in s.threads && u != s.current && s.threads[u].at == InJoin(s.current, c)
    ensures var z := Zombified(Set(s, s.current, s.threads[s.current].(retval := retval)));
            Explained(s, DoExit(retval), Signal(z, c), t)
  {
  }

  lemma JoinExplained(s: Vp, target: Thread, t: Thread)
    requires s.current in s.threads && s.threads[s.current].state.Running? && target in s.threads && t in s.threads
    requires var c := s.threads[target].term; c != null ==> c in s.conds
    ensures Explained(s, DoJoin(target), Join(s, target).0, t)
  {
    hide Without;
  }

  lemma ExpireExplained(s: Vp, now: nat, expired: seq<Thread>, t: Thread)
    requires t in s.threads && s.current in s.threads && s.threads[s.current].state.Running? && s.current !in expired
    requires forall u | u in expired ::
               u in s.sleepers && u in s.threads && s.threads[u].due <= now && Blocked(s.threads[u])
    ensures Explained(s, DoYield(now, expired), Yield(s, now, expired).0, t)
  {
  }

  lemma YieldExplained(s: Vp, now: nat, expired: seq<Thread>, t: Thread)
    requires ThreadsOk(s) && AtCall(s) && t in s.threads && ExpiryOrder(s, now, expired)
    ensures Explained(s, DoYield(now, expired), Yield(s, now, expired).0, t)
  {
    assert ThreadOk(s, s.current);
    forall u | u in expired ensures Blocked(s.threads[u]) && u != s.current { assert ThreadOk(s, u); }
    ExpireExplained(s, now, expired, t);
  }

  lemma IdleExplained(s: Vp, ready: map<Thread, nat>, now: nat, expired: seq<Thread>, t: Thread)
    requires ThreadsOk(s) && s.current == s.idle && s.runQ == [] && t in s.threads && Fires(s, ready)
    requires ExpiryOrder(Dispatch(s, ready), now, expired)
    ensures Explained(s, DoIdle(ready, now, expired), Idle(s, ready, now, expired), t)
  {
    IdleFacts(s, ready, now, expired, t);
    IdleFrom(s, Dispatch(s, ready), ready, now, expired, t);
  }

  /** Those ready are blocked in a poll, and those that expire after the dispatch are blocked and not ready. */
  lemma IdleFacts(s: Vp, ready: map<Thread, nat>, now: nat, expired: seq<Thread>, t: Thread)
    requires ThreadsOk(s) && s.current == s.idle && s.runQ == [] && t in s.threads && Fires(s, ready)
    requires ExpiryOrder(Dispatch(s, ready), now, expired)
    ensures Dispatched(s, Dispatch(s, ready), ready, t)
    ensures t == s.idle ==> s.threads[t].state.Running?
    ensures t in ready ==> Blocked(s.threads[t])
    ensures t in expired ==>
              t in Dispatch(s, ready).sleepers && t !in ready && Blocked(s.threads[t]) && s.threads[t].due <= now
  {
    assert ThreadOk(s, s.idle) && ThreadOk(s, t);
    DispatchThread(s, ready, t);
    DispatchedOne(s, ready, t);
    if t in ready { IdlePolls(s, t); }
  }

  ghost predicate Dispatched(s: Vp, d: Vp, ready: map<Thread, nat>, t: Thread)
    requires t in s.threads
  {
    && t in d.threads && d.idle == s.idle && d.sleepers <= s.sleepers
    && var r, r' := s.threads[t], d.threads[t];
       if t !in ready then r' == r
       else r'.state.Runnable? && r'.cause == IoReady && !r'.onSleepQ && r'.at == Woken(r.at, DoIdle(ready, 0, []), t)
  }

  lemma IdleFrom(s: Vp, d: Vp, ready: map<Thread, nat>, now: nat, expired: seq<Thread>, t: Thread)
    requires t in s.threads && Dispatched(s, d, ready, t) && d.idle in d.threads
    requires t == s.idle ==> s.threads[t].state.Running?
    requires t in ready ==> Blocked(s.threads[t])
    requires t in expired ==> t in d.sleepers && t !in ready && Blocked(s.threads[t]) && s.threads[t].due <= now
    ensures Explained(s, DoIdle(ready, now, expired), Park(Expire(d, now, expired), d.idle, Runnable, AtIdle), t)
  {
    if t != d.idle { ExpiredOne(d, now, expired, t); }
  }

  lemma DispatchedOne(s: Vp, ready: map<Thread, nat>, t: Thread)
    requires t in s.threads
    ensures Dispatched(s, Dispatch(s, ready), ready, t)
  {
  }

  lemma ExpiredOne(d: Vp, now: nat, expired: seq<Thread>, t: Thread)
    requires t in d.threads && d.idle in d.threads && t != d.idle
    ensures var s' := Park(Expire(d, now, expired), d.idle, Runnable, AtIdle);
            && t in s'.threads
            && (t !in expired ==> s'.threads[t] == d.threads[t])
            && (t in expired ==>
                  var r := s'.threads[t]; r.state.Runnable? && r.cause == TimerFired && r.at == d.threads[t].at)
  {
  }

  /** A resumption leaves the other threads' records alone, but for the target of a join. */
  lemma ResumeAlone(s: Vp, u: Thread, t: Thread)
    requires Picked(s, u) && t in s.threads && !s.threads[u].at.InJoin?
    ensures t in Resume(s, u).0.threads && (t != u ==> Resume(s, u).0.threads[t] == s.threads[t])
  {
    match s.threads[u].at
    case InExit => ExitAlone(s, u, t);
    case InWait(_) => WaitAlone(s, u, t);
    case InLock(_) => WaitAlone(s, u, t);
    case _ =>
  }

  lemma ExitAlone(s: Vp, u: Thread, t: Thread)
    requires Picked(s, u) && t in s.threads && s.threads[u].at.InExit?
    ensures t in Resume(s, u).0.threads && (t != u ==> Resume(s, u).0.threads[t] == s.threads[t])
  {
  }

  lemma WaitAlone(s: Vp, u: Thread, t: Thread)
    requires Picked(s, u) && t in s.threads && (s.threads[u].at.InWait? || s.threads[u].at.InLock?)
    ensures t in Resume(s, u).0.threads && (t != u ==> Resume(s, u).0.threads[t] == s.threads[t])
  {
  }

  lemma JoinAlone(s: Vp, u: Thread, t: Thread)
    requires Picked(s, u) && t in s.threads && s.threads[u].at.InJoin?
    ensures t in Resume(s, u).0.threads
    ensures t != u && (t != s.threads[u].at.target || !s.threads[t].state.Zombie?) ==>
            Resume(s, u).0.threads[t] == s.threads[t]
  {
  }

  lemma ResumeExplained(s: Vp, u: Thread, t: Thread)
    requires Picked(s, u) && t in s.threads
    ensures t in Resume(s, u).0.threads
    ensures t != u && (Blocked(s.threads[t]) || s.threads[t].state.Runnable?) ==>
            Resume(s, u).0.threads[t] == s.threads[t]
  {
    if s.threads[u].at.InJoin? { JoinAlone(s, u, t); } else { ResumeAlone(s, u, t); }
  }

  lemma ScheduleExplained(s: Vp, t: Thread)
    requires ThreadsOk(s) && QueuesOk(s) && s.current == null && t in s.threads
    requires Next(s) in s.threads && PointKnown(s, s.threads[Next(s)].at)
    ensures Explained(s, DoSchedule, Schedule(s).0, t)
  {
    hide QueuesOk;
    NextRunnable(s);
    ResumeExplained(Pick(s), Next(s), t);
  }

  /** Every step explains what it does to every thread. */
  lemma StepExplained(s: Vp, op: Op, t: Thread)
    requires Inv(s) && Sane(s) && Enabled(s, op) && t in s.threads
    ensures Explained(s, op, Do(s, op).0, t)
  {
    hide Sane, ThreadsOk, QueuesOk, LocksOk, TermsOk, StacksOk, Do, Explained;
    if op.DoSchedule? {
      PickExplained(s, t);
    } else if op.DoIdle? {
      TurnExplained(s, op, t);
    } else if op.DoYield? || op.DoExit? || op.DoJoin? {
      EndExplained(s, op, t);
    } else {
      CallExplained(s, op, t);
    }
  }

  lemma PickExplained(s: Vp, t: Thread)
    requires ThreadsOk(s) && QueuesOk(s) && Sane(s) && Enabled(s, DoSchedule) && t in s.threads
    ensures Explained(s, DoSchedule, Do(s, DoSchedule).0, t)
  {
    SaneSchedules(s);
    ScheduleExplained(s, t);
  }

  lemma TurnExplained(s: Vp, op: Op, t: Thread)
    requires ThreadsOk(s) && Sane(s) && Enabled(s, op) && t in s.threads && op.DoIdle? && s.runQ == []
    ensures Explained(s, op, Do(s, op).0, t)
  {
    hide PointOk;
    if s.active > 0 { IdleExplained(s, op.ready, op.now, op.expired, t); }
  }

  lemma EndExplained(s: Vp, op: Op, t: Thread)
    requires ThreadsOk(s) && QueuesOk(s) && TermsOk(s) && Sane(s) && Enabled(s, op) && t in s.threads && AtCall(s)
    requires op.DoYield? || op.DoExit? || op.DoJoin?
    ensures Explained(s, op, Do(s, op).0, t)
  {
    hide QueuesOk, ThreadsOk, TermsOk, Explained, Yield, Exit, Do, ExpiryOrder;
    match op {
      case DoYield(now, expired) => YieldStepExplained(s, now, expired, t);
      case DoExit(retval) => ExitStepExplained(s, retval, t);
      case DoJoin(target) => JoinStepExplained(s, target, t);
    }
  }

  lemma YieldStepExplained(s: Vp, now: nat, expired: seq<Thread>, t: Thread)
    requires ThreadsOk(s) && Sane(s) && Enabled(s, DoYield(now, expired)) && t in s.threads
    ensures Explained(s, DoYield(now, expired), Do(s, DoYield(now, expired)).0, t)
  {
    hide ThreadsOk, Sane, Explained, Yield, ExpiryOrder;
    CurrentOk(s);
    YieldExplained(s, now, expired, t);
  }

  lemma ExitStepExplained(s: Vp, retval: int, t: Thread)
    requires ThreadsOk(s) && QueuesOk(s) && TermsOk(s) && Sane(s) && Enabled(s, DoExit(retval)) && t in s.threads
    ensures Explained(s, DoExit(retval), Do(s, DoExit(retval)).0, t)
  {
    hide ThreadsOk, QueuesOk, TermsOk, Explained, Exit;
    ReadyToExit(s);
    ExitExplained(s, retval, t);
  }

  lemma JoinStepExplained(s: Vp, target: Thread, t: Thread)
    requires ThreadsOk(s) && Sane(s) && Enabled(s, DoJoin(target)) && t in s.threads
    ensures Explained(s, DoJoin(target), Do(s, DoJoin(target)).0, t)
  {
    hide ThreadsOk, Explained, Join;
    CurrentOk(s);
    JoinExplained(s, target, t);
  }

  lemma SaneSchedules(s: Vp)
    requires Sane(s)
    ensures Next(s) in s.threads && PointKnown(s, s.threads[Next(s)].at)
  {
  }

  lemma CallExplained(s: Vp, op: Op, t: Thread)
    requires Sane(s) && ThreadsOk(s) && QueuesOk(s) && Enabled(s, op) && t in s.threads && AtCall(s)
    requires !(op.DoYield? || op.DoExit? || op.DoJoin? || op.DoSchedule? || op.DoIdle?)
    ensures Explained(s, op, Do(s, op).0, t)
  {
    assert ThreadOk(s, t) && ThreadOk(s, s.current);
    if op.DoPoll? || op.DoSleep? {
      ParkExplained(s, op, t);
    } else if op.DoWait? || op.DoLock? {
      QueueExplained(s, op, t);
    } else if op.DoSignal? {
      SignalExplained(s, op, t);
    } else if op.DoBroadcast? {
      BroadcastExplained(s, op, t);
    } else if op.DoInterrupt? {
      InterruptExplained(s, op.t, t);
    } else if op.DoUnlock? || op.DoTryLock? {
      GrantExplained(s, op, t);
    } else {
      NewExplained(s, op, t);
    }
  }

  // ---------- from the wake-up to the return ----------

  /** In the run, step `i` wakes the blocked `t`, and step `k` is the first one after it to resume `t`. */
  ghost predicate WokenAndResumed(states: seq<Vp>, ops: seq<Op>, i: nat, k: nat, t: Thread) {
    && IsRun(states, ops) && i < k < |ops|
    && t in states[i].threads && Blocked(states[i].threads[t])
    && t in states[i + 1].threads && states[i + 1].threads[t].state.Runnable?
    && Picks(states[k], ops[k], t)
    && forall j | i < j < k :: !Picks(states[j], ops[j], t)
  }

  lemma RunExplained(states: seq<Vp>, ops: seq<Op>, j: nat, t: Thread)
    requires IsRun(states, ops) && j < |ops| && t in states[j].threads
    ensures Explained(states[j], ops[j], states[j + 1], t)
  {
    RunInv(states, ops, j);
    assert Follows(states[j], ops[j], states[j + 1]);
    StepExplained(states[j], ops[j], t);
  }

  /** The reason given at the wake-up is still recorded at the resumption. */
  lemma {:induction false} CauseLasts(states: seq<Vp>, ops: seq<Op>, i: nat, k: nat, t: Thread, j: nat)
    requires WokenAndResumed(states, ops, i, k, t) && i < j <= k
    ensures t in states[j].threads
    ensures var r := states[j].threads[t];
            && r.state.Runnable? && Because(states[i], ops[i], t, r.cause)
            && r.at == Woken(states[i].threads[t].at, ops[i], t)
    decreases j
  {
    hide Enabled;
    if j == i + 1 {
      RunExplained(states, ops, i, t);
    } else {
      CauseLasts(states, ops, i, k, t, j - 1);
      CauseKept(states, ops, j - 1, t);
    }
  }

  lemma CauseKept(states: seq<Vp>, ops: seq<Op>, j: nat, t: Thread)
    requires IsRun(states, ops) && j < |ops| && t in states[j].threads
    requires states[j].threads[t].state.Runnable? && !Picks(states[j], ops[j], t)
    ensures t in states[j + 1].threads
    ensures var r, r' := states[j].threads[t], states[j + 1].threads[t];
            r'.state.Runnable? && r'.cause == r.cause && r'.at == r.at
  {
    RunExplained(states, ops, j, t);
  }

  /** What is known at the resumption: the invariant, and the reason. */
  lemma AtResumption(states: seq<Vp>, ops: seq<Op>, i: nat, k: nat, t: Thread)
    requires WokenAndResumed(states, ops, i, k, t)
    ensures var s := states[k];
            && Inv(s) && Sane(s) && s.current == null && Next(s) == t && t in s.threads && ThreadOk(s, t)
            && Enabled(s, ops[k]) && Because(states[i], ops[i], t, s.threads[t].cause)
            && s.threads[t].at == Woken(states[i].threads[t].at, ops[i], t)
  {
    RunInv(states, ops, k);
    assert Follows(states[k], ops[k], states[k + 1]);
    CauseLasts(states, ops, i, k, t, k);
    assert ThreadOk(states[k], t);
  }

  /** What the resumed call of step `k` returns, and whether an interrupt was pending then. */
  ghost function Result(states: seq<Vp>, ops: seq<Op>, k: nat): Outcome
    requires k < |ops| && k < |states| && Sane(states[k]) && Enabled(states[k], ops[k])
  {
    Do(states[k], ops[k]).1
  }

  ghost predicate Pending(s: Vp, t: Thread) {
    t in s.threads && s.threads[t].interrupt
  }

  /** The step is a clock check that finds `t` due. */
  ghost predicate TimesOut(s: Vp, op: Op, t: Thread) {
    (op.DoYield? || op.DoIdle?) && t in s.sleepers && t in s.threads && s.threads[t].due <= op.now && !ReadyIn(op, t)
  }

  /**
   A condition wait that blocked returns 0 iff the step that woke it signalled its condition,
   and ETIME iff that step was a clock check past its due time, unless an interrupt is
   pending when it resumes; EINTR iff one is.
   */
  lemma WaitOutcome(states: seq<Vp>, ops: seq<Op>, i: nat, k: nat, t: Thread, c: Cond)
    requires WokenAndResumed(states, ops, i, k, t) && states[i].threads[t].at == InWait(c)
    ensures Sane(states[k]) && Enabled(states[k], ops[k])
    ensures var out, pending := Result(states, ops, k), Pending(states[k], t);
            && (out == Returned(Err(EINTR)) <==> pending)
            && (out == Returned(Ok(0)) <==> (ops[i] == DoSignal(c) || ops[i] == DoBroadcast(c)) && !pending)
            && (out == Returned(Err(ETIME)) <==> TimesOut(states[i], ops[i], t) && !pending)
  {
    AtResumption(states, ops, i, k, t);
  }

  /**
   A poll that blocked returns 0 iff a clock check past its due time woke it, and a positive
   count iff a dispatch did, unless interrupted.
   */
  lemma PollOutcome(states: seq<Vp>, ops: seq<Op>, i: nat, k: nat, t: Thread)
    requires WokenAndResumed(states, ops, i, k, t) && states[i].threads[t].at.InPoll?
    ensures Sane(states[k]) && Enabled(states[k], ops[k])
    ensures var out, pending := Result(states, ops, k), Pending(states[k], t);
            && (out == Returned(Err(EINTR)) <==> pending)
            && (out == Returned(Ok(0)) <==> TimesOut(states[i], ops[i], t) && !pending)
            && (ReadyIn(ops[i], t) && !pending ==> out == Returned(Ok(ops[i].ready[t])) && ops[i].ready[t] > 0)
            && (ReadyIn(ops[i], t) || TimesOut(states[i], ops[i], t) || ops[i] == DoInterrupt(t))
  {
    hide Inv, Sane, Follows, IsInitial;
    AtResumption(states, ops, i, k, t);
    PollResult(states[k], t);
  }

  /** What the resumption of a poll returns. */
  lemma PollResult(s: Vp, t: Thread)
    requires Sane(s) && Enabled(s, DoSchedule) && Next(s) == t && t in s.threads && s.threads[t].at.InPoll?
    ensures var r := s.threads[t];
            Do(s, DoSchedule).1 ==
              Returned(if r.interrupt then Err(EINTR) else Ok(if r.at.onIoq then 0 else r.at.ready))
  {
  }

  /**
   A lock call that blocked returns 0 iff an unlock of the mutex handed it over, whatever
   interrupts came since, and EINTR iff an interrupt woke it.
   */
  lemma LockOutcome(states: seq<Vp>, ops: seq<Op>, i: nat, k: nat, t: Thread, m: Mutex)
    requires WokenAndResumed(states, ops, i, k, t) && states[i].threads[t].at == InLock(m)
    ensures Sane(states[k]) && Enabled(states[k], ops[k])
    ensures Result(states, ops, k) == Returned(Ok(0)) <==> ops[i] == DoUnlock(m)
    ensures Result(states, ops, k) == Returned(Err(EINTR)) <==> ops[i] == DoInterrupt(t)
    ensures ops[i] == DoUnlock(m) ==> m in Do(states[k], ops[k]).0.owners && Do(states[k], ops[k]).0.owners[m] == t
  {
    AtResumption(states, ops, i, k, t);
    var s := states[k];
    assert LockOk(s.threads[t], s.owners[m] == null, s.owners[m] == t);
  }

  /** A sleep that blocked returns 0 iff its timer woke it, unless interrupted. */
  lemma SleepOutcome(states: seq<Vp>, ops: seq<Op>, i: nat, k: nat, t: Thread)
    requires WokenAndResumed(states, ops, i, k, t) && states[i].threads[t].at.InSleep?
    ensures Sane(states[k]) && Enabled(states[k], ops[k])
    ensures Result(states, ops, k) == Returned(if Pending(states[k], t) then Err(EINTR) else Ok(0))
    ensures !Pending(states[k], t) ==> TimesOut(states[i], ops[i], t)
  {
    AtResumption(states, ops, i, k, t);
  }

  /** TIMEDOUT is set only on a thread whose timer has ended its condition wait, and only until that wait returns. */
  lemma TimedOutInWait(states: seq<Vp>, ops: seq<Op>, i: nat, t: Thread)
    requires IsRun(states, ops) && i < |states| && t in states[i].threads && states[i].threads[t].timedOut
    ensures var r := states[i].threads[t]; r.at.InWait? && r.state.Runnable? && r.cause == TimerFired
  {
    RunInv(states, ops, i);
    assert ThreadOk(states[i], t);
  }

  // ---------- joins ----------

  /** `t` has been woken in its join of the zombie `target`. */
  ghost predicate Awaits(s: Vp, t: Thread, target: Thread, c: Cond) {
    && t in s.threads && s.threads[t].state.Runnable? && s.threads[t].at == InJoin(target, c)
    && target in s.threads && s.threads[target].state.Zombie?
  }

  lemma ParkLeavesZombie(s: Vp, op: Op, z: Thread)
    requires Sane(s) && Enabled(s, op) && AtCall(s) && z in s.threads && z != s.current
    requires op.DoPoll? || op.DoSleep?
    ensures z in Do(s, op).0.threads && Do(s, op).0.threads[z] == s.threads[z]
  {
    hide Poll, Sleep;
    if op.DoPoll? { PollSpares(s, op.npds, op.timeout, op.added, z); } else { SleepSpares(s, op.timeout, z); }
  }

  lemma PollSpares(s: Vp, npds: nat, timeout: Timeout, added: bool, z: Thread)
    requires s.current in s.threads && z in s.threads && z != s.current
    ensures var s' := Poll(s, npds, timeout, added).0; z in s'.threads && s'.threads[z] == s.threads[z]
  {
  }

  lemma SleepSpares(s: Vp, timeout: Timeout, z: Thread)
    requires s.current in s.threads && z in s.threads && z != s.current
    ensures var s' := Sleep(s, timeout).0; z in s'.threads && s'.threads[z] == s.threads[z]
  {
  }

  lemma QueueLeavesZombie(s: Vp, op: Op, z: Thread)
    requires Sane(s) && Enabled(s, op) && AtCall(s) && z in s.threads && z != s.current
    requires op.DoWait? || op.DoLock?
    ensures z in Do(s, op).0.threads && Do(s, op).0.threads[z] == s.threads[z]
  {
    hide Sane;
  }

  lemma WakeLeavesZombie(s: Vp, op: Op, z: Thread)
    requires Sane(s) && Enabled(s, op) && AtCall(s) && z in s.threads && s.threads[z].state.Zombie?
    requires op.DoSignal? || op.DoBroadcast? || op.DoUnlock? || op.DoInterrupt?
    ensures z in Do(s, op).0.threads && Do(s, op).0.threads[z] == s.threads[z]
  {
    hide Signal, Broadcast, Unlock, Interrupt;
    match op {
      case DoSignal(c) => SignalSpares(s, c, z);
      case DoBroadcast(c) => SignalSpares(s, c, z);
      case DoUnlock(m) => UnlockSpares(s, m, z);
      case DoInterrupt(u) => InterruptSpares(s, u, z);
    }
  }

  lemma SignalSpares(s: Vp, c: Cond, z: Thread)
    requires c in s.conds && (forall t | t in s.conds[c] :: t in s.threads)
    requires z in s.threads && s.threads[z].state.Zombie?
    ensures z in Signal(s, c).threads && Signal(s, c).threads[z] == s.threads[z]
    ensures z in Broadcast(s, c).threads && Broadcast(s, c).threads[z] == s.threads[z]
  {
  }

  lemma UnlockSpares(s: Vp, m: Mutex, z: Thread)
    requires m in s.owners && m in s.lockQ && (forall t | t in s.lockQ[m] :: t in s.threads)
    requires z in s.threads && s.threads[z].state.Zombie?
    ensures z in Unlock(s, m).0.threads && Unlock(s, m).0.threads[z] == s.threads[z]
  {
  }

  lemma InterruptSpares(s: Vp, u: Thread, z: Thread)
    requires u in s.threads && z in s.threads && s.threads[z].state.Zombie?
    ensures z in Interrupt(s, u).threads && Interrupt(s, u).threads[z] == s.threads[z]
  {
  }

  lemma NewLeavesZombie(s: Vp, op: Op, z: Thread)
    requires Sane(s) && Enabled(s, op) && AtCall(s) && z in s.threads
    requires op.DoTryLock? || op.DoCreate? || op.DoNoThread? || op.DoNewCond? || op.DoNewMutex?
    ensures z in Do(s, op).0.threads && Do(s, op).0.threads[z] == s.threads[z]
  {
    hide Sane, First;
  }

  /** Steps other than joins, resumptions and exits do not touch a zombie. */
  lemma CallLeavesZombie(s: Vp, op: Op, z: Thread)
    requires Sane(s) && Enabled(s, op) && AtCall(s) && z in s.threads && s.threads[z].state.Zombie? && z != s.current
    requires !(op.DoYield? || op.DoExit? || op.DoJoin? || op.DoSchedule? || op.DoIdle?)
    ensures z in Do(s, op).0.threads && Do(s, op).0.threads[z] == s.threads[z]
  {
    if op.DoPoll? || op.DoSleep? {
      ParkLeavesZombie(s, op, z);
    } else if op.DoWait? || op.DoLock? {
      QueueLeavesZombie(s, op, z);
    } else if op.DoSignal? || op.DoBroadcast? || op.DoUnlock? || op.DoInterrupt? {
      WakeLeavesZombie(s, op, z);
    } else {
      NewLeavesZombie(s, op, z);
    }
  }

  lemma ExpireLeavesZombie(s: Vp, now: nat, expired: seq<Thread>, z: Thread)
    requires s.current in s.threads && s.idle in s.threads && z in s.threads && z !in expired && z != s.current
    requires z != s.idle
    ensures z in Yield(s, now, expired).0.threads && Yield(s, now, expired).0.threads[z] == s.threads[z]
    ensures var s' := Park(Expire(s, now, expired), s.idle, Runnable, AtIdle);
            z in s'.threads && s'.threads[z] == s.threads[z]
  {
  }

  lemma IdleLeavesZombie(s: Vp, ready: map<Thread, nat>, now: nat, expired: seq<Thread>, z: Thread)
    requires ThreadsOk(s) && s.current == s.idle && s.runQ == [] && Fires(s, ready)
    requires ExpiryOrder(Dispatch(s, ready), now, expired)
    requires z in s.threads && s.threads[z].state.Zombie?
    ensures var s' := Idle(s, ready, now, expired).threads; z in s' && s'[z] == s.threads[z]
  {
    assert ThreadOk(s, z);
    IdleFacts(s, ready, now, expired, z);
    assert z != s.idle;
    ExpiredOne(Dispatch(s, ready), now, expired, z);
  }

  lemma ExitLeavesZombie(s: Vp, retval: int, z: Thread)
    requires ExitReady(s) && z in s.threads && s.threads[z].state.Zombie? && z != s.current
    ensures z in Exit(s, retval).threads && Exit(s, retval).threads[z] == s.threads[z]
  {
    ExitForm(s, retval);
  }

  lemma JoinLeavesZombie(s: Vp, target: Thread, z: Thread)
    requires s.current in s.threads && target in s.threads && z in s.threads && z != s.current
    requires var c := s.threads[target].term; c != null ==> c in s.conds
    requires z == target ==> s.threads[z].term != null && s.conds[s.threads[z].term] != []
    ensures z in Join(s, target).0.threads && Join(s, target).0.threads[z] == s.threads[z]
  {
  }

  lemma ResumeLeavesZombie(s: Vp, u: Thread, z: Thread)
    requires Picked(s, u) && z in s.threads && z != u
    requires s.threads[u].at.InJoin? ==> s.threads[u].at.target != z
    ensures z in Resume(s, u).0.threads && Resume(s, u).0.threads[z] == s.threads[z]
  {
    if s.threads[u].at.InJoin? { JoinAlone(s, u, z); } else { ResumeAlone(s, u, z); }
  }

  lemma ScheduleLeavesZombie(s: Vp, t: Thread, target: Thread, c: Cond)
    requires ThreadsOk(s) && QueuesOk(s) && TermsOk(s) && s.current == null && Awaits(s, t, target, c) && Next(s) != t
    requires Next(s) in s.threads && PointKnown(s, s.threads[Next(s)].at)
    ensures target in Schedule(s).0.threads && Schedule(s).0.threads[target] == s.threads[target]
  {
    hide Resume;
    var u := Next(s);
    NextRunnable(s);
    assert ThreadOk(s, t);
    assert TermOk(s, target, c);
    ResumeLeavesZombie(Pick(s), u, target);
  }

  /** A zombie waits for its joiner: until that thread resumes, nothing changes its record. */
  lemma ZombieWaits(s: Vp, op: Op, t: Thread, target: Thread, c: Cond)
    requires Inv(s) && Sane(s) && Enabled(s, op) && Awaits(s, t, target, c) && !Picks(s, op, t)
    ensures target in Do(s, op).0.threads && Do(s, op).0.threads[target] == s.threads[target]
  {
    hide Sane, Enabled, Do, ThreadsOk, QueuesOk, LocksOk, TermsOk, StacksOk, Awaits;
    match op {
      case DoSchedule => PickLeavesZombie(s, t, target, c);
      case _ => AwaitedZombie(s, t, target, c); BusyLeavesZombie(s, op, target);
    }
  }

  lemma PickLeavesZombie(s: Vp, t: Thread, target: Thread, c: Cond)
    requires Inv(s) && Sane(s) && Enabled(s, DoSchedule) && Awaits(s, t, target, c) && !Picks(s, DoSchedule, t)
    ensures target in Do(s, DoSchedule).0.threads && Do(s, DoSchedule).0.threads[target] == s.threads[target]
  {
    hide Sane, ThreadsOk, QueuesOk, LocksOk, TermsOk, StacksOk, Schedule, Awaits, Next;
    SaneSchedules(s);
    ScheduleLeavesZombie(s, t, target, c);
  }

  /** The zombie is off the timeout heap, and its joiner is linked to its condition variable. */
  lemma AwaitedZombie(s: Vp, t: Thread, target: Thread, c: Cond)
    requires ThreadsOk(s) && Awaits(s, t, target, c)
    ensures target in s.threads && s.threads[target].state.Zombie? && target !in s.sleepers && target != s.idle
    ensures s.threads[target].term in s.conds && s.conds[s.threads[target].term] != []
  {
    assert ThreadOk(s, t) && ThreadOk(s, target);
  }

  lemma BusyLeavesZombie(s: Vp, op: Op, target: Thread)
    requires ThreadsOk(s) && Sane(s) && Enabled(s, op) && !op.DoSchedule? && (s.current == s.idle ==> s.runQ == [])
    requires target in s.threads && s.threads[target].state.Zombie? && target !in s.sleepers && target != s.idle
    requires s.threads[target].term in s.conds && s.conds[s.threads[target].term] != []
    ensures target in Do(s, op).0.threads && Do(s, op).0.threads[target] == s.threads[target]
  {
    hide ThreadsOk, Sane, Do;
    CurrentOk(s);
    if op.DoYield? || op.DoIdle? {
      TurnLeavesZombie(s, op, target);
    } else if op.DoExit? || op.DoJoin? {
      EndLeavesZombie(s, op, target);
    } else {
      CallLeavesZombie(s, op, target);
    }
  }

  lemma TurnLeavesZombie(s: Vp, op: Op, target: Thread)
    requires ThreadsOk(s) && Sane(s) && Enabled(s, op) && (s.current == s.idle ==> s.runQ == [])
    requires target in s.threads && s.threads[target].state.Zombie? && target !in s.sleepers && target != s.idle
    requires op.DoYield? || op.DoIdle?
    ensures target in Do(s, op).0.threads && Do(s, op).0.threads[target] == s.threads[target]
  {
    hide ThreadsOk, Sane, Yield, IdleTurn, Dispatch, Fires;
    CurrentOk(s);
    match op {
      case DoYield(now, expired) => ExpireLeavesZombie(s, now, expired, target);
      case DoIdle(ready, now, expired) => IdleTurnLeavesZombie(s, ready, now, expired, target);
    }
  }

  lemma IdleTurnLeavesZombie(s: Vp, ready: map<Thread, nat>, now: nat, expired: seq<Thread>, z: Thread)
    requires ThreadsOk(s) && s.current == s.idle && s.runQ == [] && Fires(s, ready)
    requires s.active > 0 ==> ExpiryOrder(Dispatch(s, ready), now, expired)
    requires z in s.threads && s.threads[z].state.Zombie?
    ensures var s' := IdleTurn(s, ready, now, expired).0.threads; z in s' && s'[z] == s.threads[z]
  {
    hide ThreadsOk, Fires, ExpiryOrder, Idle, Dispatch;
    if s.active > 0 { IdleLeavesZombie(s, ready, now, expired, z); }
  }

  lemma EndLeavesZombie(s: Vp, op: Op, target: Thread)
    requires Sane(s) && Enabled(s, op) && (op.DoExit? || op.DoJoin?)
    requires target in s.threads && s.threads[target].state.Zombie? && target != s.current
    requires s.threads[target].term in s.conds && s.conds[s.threads[target].term] != []
    ensures target in Do(s, op).0.threads && Do(s, op).0.threads[target] == s.threads[target]
  {
    hide Exit, Join;
    match op {
      case DoExit(retval) => ExitLeavesZombie(s, retval, target);
      case DoJoin(u) => JoinLeavesZombie(s, u, target);
    }
  }

  lemma RunZombieWaits(states: seq<Vp>, ops: seq<Op>, j: nat, t: Thread, target: Thread, c: Cond)
    requires IsRun(states, ops) && j < |ops| && Awaits(states[j], t, target, c) && !Picks(states[j], ops[j], t)
    ensures Awaits(states[j + 1], t, target, c)
    ensures states[j + 1].threads[target].retval == states[j].threads[target].retval
  {
    RunInv(states, ops, j);
    assert Follows(states[j], ops[j], states[j + 1]);
    ZombieWaits(states[j], ops[j], t, target, c);
    RunExplained(states, ops, j, t);
  }

  lemma {:induction false} AwaitsLasts(states: seq<Vp>, ops: seq<Op>, i: nat, k: nat, t: Thread, target: Thread,
                                       c: Cond, j: nat)
    requires WokenAndResumed(states, ops, i, k, t) && i < j <= k && Awaits(states[i + 1], t, target, c)
    ensures Awaits(states[j], t, target, c) && states[j].threads[target].retval == states[i + 1].threads[target].retval
    decreases j
  {
    hide Enabled;
    if j > i + 1 {
      AwaitsLasts(states, ops, i, k, t, target, c, j - 1);
      RunZombieWaits(states, ops, j - 1, t, target, c);
    }
  }

  lemma ExitMakesZombie(s: Vp, retval: int, c: Cond)
    requires ExitReady(s) && s.threads[s.current].term == c
    ensures s.current in Exit(s, retval).threads
    ensures var r := Exit(s, retval).threads[s.current]; r.state.Zombie? && r.retval == retval
  {
    ExitForm(s, retval);
  }

  /** The exit that wakes a joiner leaves a zombie with its exit value. */
  lemma JoinerWoken(states: seq<Vp>, ops: seq<Op>, i: nat, t: Thread, target: Thread, c: Cond)
    requires IsRun(states, ops) && i < |ops| && ops[i].DoExit? && states[i].current == target
    requires t in states[i].threads && states[i].threads[t].at == InJoin(target, c)
    requires t in states[i + 1].threads && states[i + 1].threads[t].state.Runnable?
    requires states[i + 1].threads[t].at == InJoin(target, c)
    ensures Awaits(states[i + 1], t, target, c) && states[i + 1].threads[target].retval == ops[i].retval
  {
    hide Sane, Enabled, Do, QueuesOk, LocksOk, RestOk, ThreadOk, IsInitial;
    RunInv(states, ops, i);
    assert Follows(states[i], ops[i], states[i + 1]);
    ExitOfTarget(states[i], ops[i].retval, t, target, c);
  }

  lemma ExitOfTarget(s: Vp, retval: int, t: Thread, target: Thread, c: Cond)
    requires Sane(s) && s.current == target && t in s.threads && ThreadOk(s, t) && s.threads[t].at == InJoin(target, c)
    requires Enabled(s, DoExit(retval))
    ensures var s' := Do(s, DoExit(retval)).0;
            target in s'.threads && s'.threads[target].state.Zombie? && s'.threads[target].retval == retval
  {
    hide Exit;
    ExitMakesZombie(s, retval, c);
  }

  /** A join that blocked returns the value of the exit that woke it, unless an interrupt is pending when it resumes. */
  lemma JoinOutcome(states: seq<Vp>, ops: seq<Op>, i: nat, k: nat, t: Thread, target: Thread, c: Cond)
    requires WokenAndResumed(states, ops, i, k, t) && states[i].threads[t].at == InJoin(target, c)
    ensures Sane(states[k]) && Enabled(states[k], ops[k])
    ensures !Pending(states[k], t) ==> ops[i].DoExit? && states[i].current == target
    ensures Result(states, ops, k) == Returned(if Pending(states[k], t) then Err(EINTR) else Ok(ops[i].retval))
  {
    hide Inv, Sane, Enabled, Do, ThreadOk, Follows, IsInitial, Awaits;
    AtResumption(states, ops, i, k, t);
    if !Pending(states[k], t) {
      JoinerSignalled(states[i], ops[i], states[k], t, target, c);
      CauseLasts(states, ops, i, k, t, i + 1);
      JoinerWoken(states, ops, i, t, target, c);
      AwaitsLasts(states, ops, i, k, t, target, c, k);
      ReapedValue(states[k], t, target, c);
    } else {
      JoinInterrupted(states[k], t, target, c);
    }
  }

  /** A joiner that runs again with no interrupt pending was signalled by the exit. */
  lemma JoinerSignalled(s0: Vp, op: Op, s: Vp, t: Thread, target: Thread, c: Cond)
    requires t in s0.threads && s0.threads[t].at == InJoin(target, c)
    requires t in s.threads && ThreadOk(s, t) && s.threads[t].state.Runnable? && !s.threads[t].interrupt
    requires Because(s0, op, t, s.threads[t].cause) && s.threads[t].at == Woken(s0.threads[t].at, op, t)
    ensures op.DoExit? && s0.current == target && s.threads[t].at == InJoin(target, c)
  {
  }

  lemma ReapedValue(s: Vp, t: Thread, target: Thread, c: Cond)
    requires Sane(s) && Enabled(s, DoSchedule) && Next(s) == t && Awaits(s, t, target, c) && ThreadOk(s, t)
    requires !s.threads[t].interrupt
    ensures Do(s, DoSchedule).1 == Returned(Ok(s.threads[target].retval))
  {
  }

  lemma JoinInterrupted(s: Vp, t: Thread, target: Thread, c: Cond)
    requires Sane(s) && Enabled(s, DoSchedule) && Next(s) == t && t in s.threads && s.threads[t].interrupt
    requires s.threads[t].at == InJoin(target, c)
    ensures Do(s, DoSchedule).1 == Returned(Err(EINTR))
  {
  }
}
