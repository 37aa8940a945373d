/**
 Interrupts reach their threads: what an interrupt does to a thread in each state, that its flag
 is kept until EINTR is returned, and that a blocked thread returns EINTR when it runs again.
 */
module SchedulerInterrupts {
  import opened Threads
  import opened SchedulerModel
  import opened SchedulerInvariant
  import opened SchedulerSteps
  import opened SchedulerRuns
  import opened SchedulerCauses
  import L = SchedulerLives

  /** Besides the record of `t`, only the run queue and the sleepers may differ. */
  ghost predicate Touches(s: Vp, s': Vp, t: Thread) {
    && s' == s.(threads := s'.threads, runQ := s'.runQ, sleepers := s'.sleepers)
    && s'.threads.Keys == s.threads.Keys && forall u | u in s.threads && u != t :: s'.threads[u] == s.threads[u]
  }

  // ---------- interrupts ----------

  /**
   An interrupt of a blocked thread sets its flag, takes it off the timeout heap and puts it,
   runnable, behind the run queue; a thread that can run gets the flag and a zombie nothing.
   */
  lemma InterruptEffect(s: Vp, t: Thread)
    requires Inv(s) && Sane(s) && Enabled(s, DoInterrupt(t))
    ensures Do(s, DoInterrupt(t)).1 == Returned(Ok(0))
    ensures var s', r := Do(s, DoInterrupt(t)).0, s.threads[t];
            if r.state.Zombie? then s' == s
            else if r.state.Running? || r.state.Runnable? then
              s' == s.(threads := s.threads[t := r.(interrupt := true)])
            else
              && Touches(s, s', t) && t in s'.threads && s'.runQ == s.runQ + [t] && s'.sleepers == s.sleepers - {t}
              && var r' := s'.threads[t];
                 && r'.interrupt && r'.state.Runnable? && !r'.onSleepQ && r'.cause == Interrupted
                 && r' == r.(interrupt := true, state := r'.state, onSleepQ := false, cause := r'.cause)
  {
    hide ThreadsOk, QueuesOk, LocksOk, RestOk, Sane;
  }

  /** The step returns EINTR to `t`. */
  ghost predicate Eintr(s: Vp, op: Op, t: Thread) {
    Sane(s) && Enabled(s, op) && Do(s, op).1 == Returned(Err(EINTR)) && Do(s, op).0.current == t
  }

  ghost predicate Interrupting(s: Vp, op: Op, t: Thread) {
    op == DoInterrupt(t) && t in s.threads && !s.threads[t].state.Zombie?
  }

  /** What a step that is not an interrupt does to the flag of `t`: only a return of EINTR to it takes the flag. */
  ghost predicate FlagFollows(s: Vp, s': Vp, out: Outcome, t: Thread)
    requires t in s.threads
  {
    && s'.threads.Keys == s.threads.Keys && t in s'.threads
    && (s'.threads[t].interrupt <==>
          s.threads[t].interrupt && !(out == Returned(Err(EINTR)) && s'.current == t))
    && (out == Returned(Err(EINTR)) && s'.current == t ==> s.threads[t].interrupt)
  }

  lemma PollFlag(s: Vp, npds: nat, timeout: Timeout, added: bool, t: Thread)
    requires s.current in s.threads && t in s.threads
    ensures var (s', out) := Poll(s, npds, timeout, added); FlagFollows(s, s', out, t)
  {
  }

  lemma SleepFlag(s: Vp, timeout: Timeout, t: Thread)
    requires s.current in s.threads && t in s.threads
    ensures var (s', out) := Sleep(s, timeout); FlagFollows(s, s', out, t)
  {
  }

  lemma WaitFlag(s: Vp, c: Cond, timeout: Timeout, at: Point, t: Thread)
    requires s.current in s.threads && c in s.conds && t in s.threads
    ensures var (s', out) := WaitAt(s, c, timeout, at); FlagFollows(s, s', out, t)
  {
    hide Doze;
    DozeFlag(Park(s, s.current, CondWait, at).(conds := s.conds[c := s.conds[c] + [s.current]]), s.current, timeout, t);
  }

  lemma DozeFlag(s: Vp, me: Thread, timeout: Timeout, t: Thread)
    requires me in s.threads && t in s.threads
    ensures var s' := Doze(s, me, timeout);
            && s'.threads.Keys == s.threads.Keys && s'.current == s.current
            && s'.threads[t].interrupt == s.threads[t].interrupt
  {
  }

  lemma LockFlag(s: Vp, m: Mutex, t: Thread)
    requires s.current in s.threads && m in s.owners && m in s.lockQ && t in s.threads
    ensures var (s', out) := Lock(s, m); FlagFollows(s, s', out, t)
  {
  }

  lemma BlockFlag(s: Vp, op: Op, t: Thread)
    requires Sane(s) && Enabled(s, op) && MayBlock(op) && t in s.threads
    ensures var (s', out) := Do(s, op); FlagFollows(s, s', out, t)
  {
    hide FlagFollows, Poll, Sleep, WaitAt, Lock;
    match op {
      case DoPoll(npds, timeout, added) => PollFlag(s, npds, timeout, added, t);
      case DoSleep(timeout) => SleepFlag(s, timeout, t);
      case DoWait(c, timeout) => WaitFlag(s, c, timeout, InWait(c), t);
      case DoLock(m) => LockFlag(s, m, t);
    }
  }

  lemma SignalFlag(s: Vp, c: Cond, t: Thread)
    requires c in s.conds && (forall u | u in s.conds[c] :: u in s.threads) && t in s.threads
    ensures Signal(s, c).threads.Keys == s.threads.Keys == Broadcast(s, c).threads.Keys
    ensures Signal(s, c).threads[t].interrupt == s.threads[t].interrupt
    ensures Broadcast(s, c).threads[t].interrupt == s.threads[t].interrupt
  {
  }

  lemma UnlockFlag(s: Vp, m: Mutex, t: Thread)
    requires m in s.owners && m in s.lockQ && (forall u | u in s.lockQ[m] :: u in s.threads) && t in s.threads
    ensures var (s', out) := Unlock(s, m); FlagFollows(s, s', out, t)
  {
  }

  lemma WakeFlag(s: Vp, op: Op, t: Thread)
    requires Sane(s) && Enabled(s, op) && t in s.threads
    requires op.DoSignal? || op.DoBroadcast? || op.DoUnlock? || op.DoTryLock?
    ensures var (s', out) := Do(s, op); FlagFollows(s, s', out, t)
  {
    hide Signal, Broadcast, Unlock;
    match op {
      case DoSignal(c) => SignalFlag(s, c, t);
      case DoBroadcast(c) => SignalFlag(s, c, t);
      case DoUnlock(m) => UnlockFlag(s, m, t);
      case DoTryLock(m) =>
    }
  }

  lemma NewFlag(s: Vp, op: Op, t: Thread)
    requires Sane(s) && Enabled(s, op) && t in s.threads
    requires op.DoNoThread? || op.DoNewCond? || op.DoNewMutex?
    ensures var (s', out) := Do(s, op); FlagFollows(s, s', out, t)
  {
    hide Sane, StackNew, StackFree;
  }

  lemma ExpireFlag(s: Vp, now: nat, expired: seq<Thread>, t: Thread)
    requires t in s.threads
    ensures var s' := Expire(s, now, expired);
            s'.threads.Keys == s.threads.Keys && s'.threads[t].interrupt == s.threads[t].interrupt
    ensures Expire(s, now, expired).current == s.current && Expire(s, now, expired).idle == s.idle
  {
  }

  lemma DispatchFlag(s: Vp, ready: map<Thread, nat>, t: Thread)
    requires t in s.threads
    ensures var s' := Dispatch(s, ready);
            && s'.threads.Keys == s.threads.Keys && s'.idle == s.idle
            && s'.threads[t].interrupt == s.threads[t].interrupt
  {
  }

  lemma TurnFlag(s: Vp, op: Op, t: Thread)
    requires Sane(s) && Enabled(s, op) && t in s.threads && (op.DoYield? || op.DoIdle?)
    ensures var (s', out) := Do(s, op); FlagFollows(s, s', out, t)
  {
    hide FlagFollows, Yield, IdleTurn, Dispatch, ExpiryOrder, Fires;
    match op {
      case DoYield(now, expired) => YieldFlag(s, now, expired, t);
      case DoIdle(ready, now, expired) => IdleFlag(s, ready, now, expired, t);
    }
  }

  lemma YieldFlag(s: Vp, now: nat, expired: seq<Thread>, t: Thread)
    requires s.current in s.threads && t in s.threads
    ensures var (s', out) := Yield(s, now, expired); FlagFollows(s, s', out, t)
  {
    hide Expire;
    ExpireFlag(s, now, expired, t);
  }

  lemma IdleFlag(s: Vp, ready: map<Thread, nat>, now: nat, expired: seq<Thread>, t: Thread)
    requires s.idle in s.threads && t in s.threads
    ensures var (s', out) := IdleTurn(s, ready, now, expired); FlagFollows(s, s', out, t)
  {
    hide Expire, Dispatch;
    DispatchFlag(s, ready, t);
    ExpireFlag(Dispatch(s, ready), now, expired, t);
  }

  lemma RoundFlag(s: Vp, target: Thread, c: Cond, t: Thread)
    requires s.current in s.threads && target in s.threads && c in s.conds && t in s.threads
    ensures var (s', out) := JoinRound(s, target, c); FlagFollows(s, s', out, t)
  {
    hide WaitAt, Without;
    WaitFlag(s, c, Forever, InJoin(target, c), t);
  }

  lemma JoinFlag(s: Vp, target: Thread, t: Thread)
    requires Sane(s) && Enabled(s, DoJoin(target)) && t in s.threads
    ensures var (s', out) := Do(s, DoJoin(target)); FlagFollows(s, s', out, t)
  {
    hide JoinRound;
    var c := s.threads[target].term;
    if c != null { RoundFlag(s, target, c, t); }
  }

  lemma ExitFlag(s: Vp, retval: int, t: Thread)
    requires Sane(s) && Enabled(s, DoExit(retval)) && t in s.threads
    ensures var (s', out) := Do(s, DoExit(retval)); FlagFollows(s, s', out, t)
  {
    hide Exit, FlagFollows;
    ExitedFlag(s, retval, t);
  }

  lemma ExitedFlag(s: Vp, retval: int, t: Thread)
    requires ExitReady(s) && t in s.threads
    ensures FlagFollows(s, Exit(s, retval), Parked, t)
  {
    hide Exit, Signal, Bury, Zombified;
    ExitForm(s, retval);
    var s1, c := Set(s, s.current, s.threads[s.current].(retval := retval)), s.threads[s.current].term;
    GoneFlag(s1, s.current, t);
    if c != null { SignalFlag(Zombified(s1), c, t); }
  }

  lemma GoneFlag(s: Vp, me: Thread, t: Thread)
    requires s.current == me && me in s.threads && t in s.threads
    ensures var z, b := Zombified(s), Bury(s, me);
            && z.conds == s.conds && z.threads.Keys == s.threads.Keys
            && z.threads[t].interrupt == s.threads[t].interrupt
            && b.threads.Keys == s.threads.Keys && b.threads[t].interrupt == s.threads[t].interrupt
  {
    hide StackFree;
  }

  /** A thread that waits for its joiner does not come back from a call. */
  lemma ResumeFlag(s: Vp, u: Thread, t: Thread)
    requires Picked(s, u) && t in s.threads && !s.threads[u].at.InJoin?
    ensures var (s', out) := Resume(s, u); FlagFollows(s, s', out, t)
  {
    hide Without, StackFree;
    match s.threads[u].at
    case InExit => FinishFlag(s, u, t);
    case InLock(_) => LockEndFlag(s, u, t);
    case InWait(_) => WaitEndFlag(s, u, t);
    case _ =>
  }

  lemma FinishFlag(s: Vp, u: Thread, t: Thread)
    requires Picked(s, u) && t in s.threads && s.threads[u].at.InExit?
    ensures var (s', out) := Resume(s, u); FlagFollows(s, s', out, t)
  {
    hide StackFree;
  }

  lemma LockEndFlag(s: Vp, u: Thread, t: Thread)
    requires Picked(s, u) && t in s.threads && s.threads[u].at.InLock?
    ensures var (s', out) := Resume(s, u); FlagFollows(s, s', out, t)
  {
    hide Without;
  }

  lemma WaitEndFlag(s: Vp, u: Thread, t: Thread)
    requires Picked(s, u) && t in s.threads && s.threads[u].at.InWait?
    ensures var (s', out) := Resume(s, u); FlagFollows(s, s', out, t)
  {
    hide Without;
  }

  lemma JoinEndFlag(s: Vp, u: Thread, t: Thread)
    requires Picked(s, u) && t in s.threads && s.threads[u].at.InJoin? && !s.threads[u].timedOut
    ensures var (s', out) := Resume(s, u); FlagFollows(s, s', out, t)
  {
    hide Without, JoinRound, Awake;
    var at := s.threads[u].at;
    AwakeFlag(s, u, at.cond, t);
    AwakeFlag(s, u, at.cond, u);
    RoundFlag(Awake(s, u, at.cond), at.target, at.cond, t);
  }

  lemma AwakeFlag(s: Vp, u: Thread, c: Cond, t: Thread)
    requires Picked(s, u) && t in s.threads && c in s.conds
    ensures var a := Awake(s, u, c);
            && a.current == u && a.threads.Keys == s.threads.Keys && c in a.conds
            && a.threads[t].interrupt == (t != u && s.threads[t].interrupt)
  {
  }

  lemma ScheduleFlag(s: Vp, t: Thread)
    requires Inv(s) && Sane(s) && Enabled(s, DoSchedule) && t in s.threads
    ensures var (s', out) := Do(s, DoSchedule); FlagFollows(s, s', out, t)
  {
    hide ThreadsOk, QueuesOk, LocksOk, RestOk, Sane, Resume, FlagFollows, PointOk;
    NextRunnable(s);
    if s.threads[Next(s)].at.InJoin? {
      JoinEndFlag(Pick(s), Next(s), t);
    } else {
      ResumeFlag(Pick(s), Next(s), t);
    }
    PickFlag(s, t);
    FlagThrough(s, Pick(s), Do(s, DoSchedule).0, Do(s, DoSchedule).1, t);
  }

  lemma PickFlag(s: Vp, t: Thread)
    requires Next(s) in s.threads && t in s.threads
    ensures Pick(s).threads.Keys == s.threads.Keys && Pick(s).threads[t].interrupt == s.threads[t].interrupt
  {
  }

  lemma FlagThrough(s: Vp, p: Vp, s': Vp, out: Outcome, t: Thread)
    requires t in s.threads && p.threads.Keys == s.threads.Keys && p.threads[t].interrupt == s.threads[t].interrupt
    requires FlagFollows(p, s', out, t)
    ensures FlagFollows(s, s', out, t)
  {
  }

  function NewThreads(op: Op): set<Thread> {
    if op.DoCreate? then {op.t} else {}
  }

  lemma CreateFlag(s: Vp, op: Op, t: Thread)
    requires Sane(s) && Enabled(s, op) && op.DoCreate? && t in s.threads
    ensures var (s', out) := Do(s, op);
            && out == Returned(Ok(0)) && s'.threads.Keys == s.threads.Keys + {op.t}
            && s'.threads[t].interrupt == s.threads[t].interrupt && !s'.threads[op.t].interrupt
  {
    hide Sane, StackNew;
  }

  /** An interrupt sets the flag of its thread; nothing but the return of EINTR to the thread takes it. */
  lemma FlagStep(s: Vp, op: Op, t: Thread)
    requires Inv(s) && Sane(s) && Enabled(s, op) && t in s.threads
    ensures t in Do(s, op).0.threads && Do(s, op).0.threads.Keys == s.threads.Keys + NewThreads(op)
    ensures Do(s, op).0.threads[t].interrupt <==>
            Interrupting(s, op, t) || (s.threads[t].interrupt && !Eintr(s, op, t))
    ensures Eintr(s, op, t) ==> s.threads[t].interrupt
  {
    hide Inv, Sane, Enabled, Do;
    match op
    case DoSchedule => ScheduleFlag(s, t);
    case DoPoll(_, _, _) => BlockFlag(s, op, t);
    case DoSleep(_) => BlockFlag(s, op, t);
    case DoWait(_, _) => BlockFlag(s, op, t);
    case DoLock(_) => BlockFlag(s, op, t);
    case DoSignal(_) => WakeFlag(s, op, t);
    case DoBroadcast(_) => WakeFlag(s, op, t);
    case DoUnlock(_) => WakeFlag(s, op, t);
    case DoTryLock(_) => WakeFlag(s, op, t);
    case DoYield(_, _) => TurnFlag(s, op, t);
    case DoIdle(_, _, _) => TurnFlag(s, op, t);
    case DoJoin(target) => JoinFlag(s, target, t);
    case DoExit(retval) => ExitFlag(s, retval, t);
    case DoInterrupt(u) => InterruptFlag(s, u, t);
    case DoCreate(_, _, _, _) => CreateFlag(s, op, t);
    case DoNoThread(_, _, _) => NewFlag(s, op, t);
    case DoNewCond(_) => NewFlag(s, op, t);
    case DoNewMutex(_) => NewFlag(s, op, t);
  }

  lemma InterruptFlag(s: Vp, u: Thread, t: Thread)
    requires Inv(s) && Sane(s) && Enabled(s, DoInterrupt(u)) && t in s.threads
    ensures var (s', out) := Do(s, DoInterrupt(u));
            && out == Returned(Ok(0)) && s'.threads.Keys == s.threads.Keys
            && (s'.threads[t].interrupt <==> s.threads[t].interrupt || (t == u && !s.threads[t].state.Zombie?))
  {
    hide Inv, Sane, Interrupt;
    InterruptEffect(s, u);
  }

  /** No step after `i` and before `k` returns EINTR to `t`. */
  ghost predicate NotTaken(states: seq<Vp>, ops: seq<Op>, i: nat, k: nat, t: Thread)
    requires k <= |ops| && k <= |states|
  {
    forall j | i < j < k :: !Eintr(states[j], ops[j], t)
  }

  /** In state `k` of the run an interrupt of `t` has come that no return of EINTR has taken since. */
  ghost predicate Outstanding(states: seq<Vp>, ops: seq<Op>, k: nat, t: Thread)
    requires k <= |ops| && k <= |states|
  {
    exists i | 0 <= i < k :: Interrupting(states[i], ops[i], t) && NotTaken(states, ops, i, k, t)
  }

  lemma OutstandingStep(states: seq<Vp>, ops: seq<Op>, k: nat, t: Thread)
    requires k < |ops| && k < |states|
    ensures Outstanding(states, ops, k + 1, t) <==>
            Interrupting(states[k], ops[k], t) || (Outstanding(states, ops, k, t) && !Eintr(states[k], ops[k], t))
  {
    hide Interrupting, Eintr;
    if Outstanding(states, ops, k + 1, t) {
      var i :| 0 <= i < k + 1 && Interrupting(states[i], ops[i], t) && NotTaken(states, ops, i, k + 1, t);
      assert i < k ==> NotTaken(states, ops, i, k, t);
    }
    if Outstanding(states, ops, k, t) && !Eintr(states[k], ops[k], t) {
      var i :| 0 <= i < k && Interrupting(states[i], ops[i], t) && NotTaken(states, ops, i, k, t);
      assert NotTaken(states, ops, i, k + 1, t);
    }
    assert NotTaken(states, ops, k, k + 1, t);
  }

  lemma InitialFlag(states: seq<Vp>, ops: seq<Op>, t: Thread)
    requires IsRun(states, ops) && t in states[0].threads
    ensures !states[0].threads[t].interrupt && !Outstanding(states, ops, 0, t)
  {
  }

  /** A new thread has not been interrupted. */
  lemma NewThreadFlag(states: seq<Vp>, ops: seq<Op>, k: nat, t: Thread)
    requires IsRun(states, ops) && k < |ops| && t !in states[k].threads && t in states[k + 1].threads
    ensures !states[k + 1].threads[t].interrupt && !Interrupting(states[k], ops[k], t)
    ensures !Outstanding(states, ops, k, t)
  {
    hide Inv, Sane, Enabled, Do;
    RunInv(states, ops, k);
    assert Follows(states[k], ops[k], states[k + 1]);
    IdleKnown(states[k]);
    FlagStep(states[k], ops[k], states[k].idle);
    assert ops[k].DoCreate? && ops[k].t == t;
    CreateFlag(states[k], ops[k], states[k].idle);
    forall i | 0 <= i < k ensures t !in states[i].threads {
      if t in states[i].threads { L.RunOnward(states, ops, i, k, t); }
    }
  }

  lemma IdleKnown(s: Vp)
    requires Sane(s)
    ensures s.idle in s.threads
  {
  }

  /**
   No interrupt is lost and none is invented: over every run, the flag of a thread is set iff
   the thread was interrupted and EINTR has not been returned to it since.
   */
  lemma {:induction false} PendingIff(states: seq<Vp>, ops: seq<Op>, k: nat, t: Thread)
    requires IsRun(states, ops) && k <= |ops| && t in states[k].threads
    ensures states[k].threads[t].interrupt <==> Outstanding(states, ops, k, t)
  {
    hide Inv, Sane, Enabled, Do, Interrupting, Eintr, Outstanding;
    if k > 0 {
      RunInv(states, ops, k - 1);
      assert Follows(states[k - 1], ops[k - 1], states[k]);
      OutstandingStep(states, ops, k - 1, t);
      if t in states[k - 1].threads {
        PendingIff(states, ops, k - 1, t);
        FlagStep(states[k - 1], ops[k - 1], t);
      } else {
        NewThreadFlag(states, ops, k - 1, t);
      }
    } else {
      InitialFlag(states, ops, t);
    }
  }

  /** A thread woken by an interrupt returns EINTR from the call it was blocked in, which uses the interrupt up. */
  lemma InterruptDelivered(states: seq<Vp>, ops: seq<Op>, i: nat, k: nat, t: Thread)
    requires WokenAndResumed(states, ops, i, k, t) && ops[i] == DoInterrupt(t)
    ensures Eintr(states[k], ops[k], t)
    ensures t in states[k + 1].threads && !states[k + 1].threads[t].interrupt
  {
    hide Inv, Sane, Enabled, Do, Interrupting, Eintr, IsInitial;
    AtResumption(states, ops, i, k, t);
    RunInv(states, ops, i);
    BlockedInCall(states[i], t);
    WokenInCall(states[i].threads[t].at, ops[i], t);
    CauseLasts(states, ops, i, k, t, k);
    InterruptCause(states[i], t, states[k].threads[t].cause);
    InterruptedResumes(states[k], t);
    FlagStep(states[k], DoSchedule, t);
    assert Follows(states[k], ops[k], states[k + 1]);
    NotInterrupting(states[k], t);
  }

  lemma WokenInCall(at: Point, op: Op, t: Thread)
    requires InCall(at)
    ensures InCall(Woken(at, op, t))
  {
  }

  lemma NotInterrupting(s: Vp, t: Thread)
    ensures !Interrupting(s, DoSchedule, t)
  {
  }

  lemma InterruptCause(s: Vp, t: Thread, cause: Cause)
    requires t in s.threads && Because(s, DoInterrupt(t), t, cause)
    ensures cause == Interrupted
  {
  }

  /** Inside a call that blocks. */
  predicate InCall(at: Point) {
    at.InPoll? || at.InSleep? || at.InWait? || at.InJoin? || at.InLock?
  }

  lemma BlockedInCall(s: Vp, t: Thread)
    requires Inv(s) && t in s.threads && Blocked(s.threads[t])
    ensures InCall(s.threads[t].at)
  {
    hide QueuesOk, LocksOk, RestOk;
    assert ThreadOk(s, t);
  }

  /** Whoever runs again because of an interrupt has it pending, and no mutex to show for its wait. */
  lemma InterruptedWaits(s: Vp, t: Thread)
    requires Inv(s) && t in s.threads && InCall(s.threads[t].at)
    requires s.threads[t].state.Runnable? && s.threads[t].cause == Interrupted
    ensures s.threads[t].interrupt
    ensures var at := s.threads[t].at; at.InLock? ==> at.lock in s.owners && s.owners[at.lock] != t
  {
    hide TermsOk, StacksOk;
    assert ThreadOk(s, t);
    if s.threads[t].at.InLock? {
      var m := s.threads[t].at.lock;
      assert LockOk(s.threads[t], s.owners[m] == null, s.owners[m] == t);
    }
  }

  lemma InterruptedResumes(s: Vp, t: Thread)
    requires Inv(s) && Sane(s) && Enabled(s, DoSchedule) && Next(s) == t && t in s.threads
    requires s.threads[t].state.Runnable? && s.threads[t].cause == Interrupted && InCall(s.threads[t].at)
    ensures Eintr(s, DoSchedule, t)
  {
    hide Inv, Resume, Next;
    SaneSchedules(s);
    InterruptedWaits(s, t);
    FlaggedResumes(Pick(s), t);
  }

  lemma FlaggedResumes(p: Vp, t: Thread)
    requires Picked(p, t) && InCall(p.threads[t].at) && p.threads[t].interrupt
    requires var at := p.threads[t].at; at.InLock? ==> at.lock in p.owners && p.owners[at.lock] != t
    ensures Resume(p, t).1 == Returned(Err(EINTR)) && Resume(p, t).0.current == t
  {
    hide Without;
  }

  /** A call that may block returns EINTR at once when an interrupt is pending. */
  lemma InterruptedCalls(s: Vp, op: Op)
    requires Inv(s) && Sane(s) && Enabled(s, op) && MayBlock(op) && s.threads[s.current].interrupt
    ensures Eintr(s, op, s.current) && !Do(s, op).0.threads[s.current].interrupt
  {
    hide Inv;
  }
}
