/** The lives of threads over whole runs: exit once, join once, with the exit value; and the order of the run queue. */
module SchedulerLives {
  import opened Threads
  import opened SchedulerModel
  import opened SchedulerInvariant
  import opened SchedulerSteps
  import opened SchedulerRuns
  import opened SchedulerTheorems

  /** Alive, zombie, joined, gone. */
  function Phase(r: Rec): nat {
    if r.at.Gone? then 3 else if !r.at.InExit? then 0 else if r.state.Zombie? then 1 else 2
  }

  /** `t` has not moved back, and keeps its exit value once it has exited. */
  ghost predicate Onward(s: Vp, s': Vp, t: Thread)
    requires t in s.threads
  {
    && t in s'.threads && Phase(s.threads[t]) <= Phase(s'.threads[t])
    && (Phase(s.threads[t]) >= 1 ==> s'.threads[t].retval == s.threads[t].retval)
  }

  lemma ExpireOnward(s: Vp, now: nat, expired: seq<Thread>, t: Thread)
    requires t in s.threads && (t in expired ==> Phase(s.threads[t]) == 0)
    ensures Onward(s, Expire(s, now, expired), t)
  {
  }

  lemma DispatchOnward(s: Vp, ready: map<Thread, nat>, t: Thread)
    requires t in s.threads && (t in ready ==> Phase(s.threads[t]) == 0)
    ensures Onward(s, Dispatch(s, ready), t)
  {
  }

  lemma RoundOnward(s: Vp, target: Thread, c: Cond, t: Thread)
    requires s.current in s.threads && target in s.threads && c in s.conds && t in s.threads
    requires s.threads[s.current].at.AtUser? && (s.threads[target].state.Zombie? ==> s.threads[target].at.InExit?)
    ensures Onward(s, JoinRound(s, target, c).0, t)
  {
  }

  lemma PickOnward(s: Vp, t: Thread)
    requires Next(s) in s.threads && s.threads[Next(s)].state.Runnable? && t in s.threads
    ensures Onward(s, Pick(s), t)
  {
  }

  lemma ResumeJoinOnward(s: Vp, u: Thread, t: Thread)
    requires Picked(s, u) && t in s.threads && s.threads[u].at.InJoin?
    requires var r := s.threads[s.threads[u].at.target]; r.state.Zombie? ==> r.at.InExit?
    ensures Onward(s, Resume(s, u).0, t)
  {
    hide Awake, JoinRound, Phase;
    var at := s.threads[u].at;
    AwakeOnward(s, u, at.cond, t);
    AwakeOnward(s, u, at.cond, at.target);
    RoundOnward(Awake(s, u, at.cond), at.target, at.cond, t);
  }

  lemma AwakeOnward(s: Vp, u: Thread, c: Cond, t: Thread)
    requires Picked(s, u) && t in s.threads && c in s.conds && s.threads[u].at.InJoin?
    ensures var a := Awake(s, u, c);
            && Onward(s, a, t) && a.current == u && u in a.threads && c in a.conds
            && a.threads[u].at.AtUser? && a.threads[u].state.Running?
            && (t != u ==> a.threads[t] == s.threads[t])
  {
  }

  lemma ResumeExitOnward(s: Vp, u: Thread, t: Thread)
    requires Picked(s, u) && t in s.threads && s.threads[u].at.InExit?
    ensures Onward(s, Resume(s, u).0, t)
  {
  }

  lemma ResumeWaitOnward(s: Vp, u: Thread, t: Thread)
    requires Picked(s, u) && t in s.threads && (s.threads[u].at.InWait? || s.threads[u].at.InLock?)
    ensures Onward(s, Resume(s, u).0, t)
  {
  }

  lemma ResumeOnward(s: Vp, u: Thread, t: Thread)
    requires Picked(s, u) && t in s.threads
    requires s.threads[u].at.InJoin? ==> var r := s.threads[s.threads[u].at.target]; r.state.Zombie? ==> r.at.InExit?
    ensures Onward(s, Resume(s, u).0, t)
  {
    match s.threads[u].at
    case InJoin(_, _) => ResumeJoinOnward(s, u, t);
    case InExit => ResumeExitOnward(s, u, t);
    case InWait(_) => ResumeWaitOnward(s, u, t);
    case InLock(_) => ResumeWaitOnward(s, u, t);
    case _ =>
  }

  lemma ScheduleOnward(s: Vp, t: Thread)
    requires ThreadsOk(s) && QueuesOk(s) && s.current == null && t in s.threads
    requires Next(s) in s.threads && PointKnown(s, s.threads[Next(s)].at)
    ensures Onward(s, Schedule(s).0, t)
  {
    NextRunnable(s);
    PickOnward(s, t);
    if s.threads[Next(s)].at.InJoin? { assert ThreadOk(s, s.threads[Next(s)].at.target); }
    ResumeOnward(Pick(s), Next(s), t);
  }

  lemma SignalOnward(s: Vp, c: Cond, t: Thread)
    requires c in s.conds && (forall u | u in s.conds[c] :: u in s.threads) && t in s.threads
    requires s.threads[t].state.CondWait? ==> Phase(s.threads[t]) == 0
    ensures Onward(s, Signal(s, c), t) && Onward(s, Broadcast(s, c), t)
    ensures Signal(s, c).threads[t].retval == s.threads[t].retval && Signal(s, c).threads[t].at == s.threads[t].at
  {
  }

  lemma UnlockOnward(s: Vp, m: Mutex, t: Thread)
    requires m in s.owners && m in s.lockQ && (forall u | u in s.lockQ[m] :: u in s.threads) && t in s.threads
    requires s.threads[t].state.LockWait? ==> Phase(s.threads[t]) == 0
    ensures Onward(s, Unlock(s, m).0, t) && Onward(s, TryLock(s, m).0, t)
  {
  }

  lemma InterruptOnward(s: Vp, u: Thread, t: Thread)
    requires u in s.threads && t in s.threads && (Blocked(s.threads[t]) ==> Phase(s.threads[t]) == 0)
    ensures Onward(s, Interrupt(s, u), t)
  {
  }

  lemma YieldOnward(s: Vp, now: nat, expired: seq<Thread>, t: Thread)
    requires s.current in s.threads && s.threads[s.current].at.AtUser? && t in s.threads
    requires s.current !in expired && (t in expired ==> Phase(s.threads[t]) == 0)
    ensures Onward(s, Yield(s, now, expired).0, t)
  {
    ExpireOnward(s, now, expired, t);
  }

  lemma YieldsOnward(s: Vp, now: nat, expired: seq<Thread>, t: Thread)
    requires Inv(s) && AtCall(s) && t in s.threads && ExpiryOrder(s, now, expired)
    ensures Onward(s, Yield(s, now, expired).0, t)
  {
    PhaseOf(s, t);
    PhaseOf(s, s.current);
    YieldOnward(s, now, expired, t);
  }

  lemma ExitOnward(s: Vp, retval: int, t: Thread)
    requires ExitReady(s) && s.current in s.threads && s.threads[s.current].at.AtUser? && t in s.threads
    requires s.threads[t].state.CondWait? ==> Phase(s.threads[t]) == 0
    ensures Onward(s, Exit(s, retval), t)
    ensures t == s.current ==> Exit(s, retval).threads[t].retval == retval && Phase(Exit(s, retval).threads[t]) >= 1
  {
    hide Exit;
    ExitForm(s, retval);
    var s1 := Set(s, s.current, s.threads[s.current].(retval := retval));
    if s.threads[s.current].term != null {
      SignalOnward(Zombified(s1), s.threads[s.current].term, t);
    }
  }

  lemma JoinOnward(s: Vp, target: Thread, t: Thread)
    requires ThreadsOk(s) && AtCall(s) && target in s.threads && t in s.threads
    requires var c := s.threads[target].term; c != null ==> c in s.conds
    ensures Onward(s, Join(s, target).0, t)
  {
    assert ThreadOk(s, target) && ThreadOk(s, s.current);
    var c := s.threads[target].term;
    if c != null { RoundOnward(s, target, c, t); }
  }

  lemma IdleOnward(s: Vp, ready: map<Thread, nat>, now: nat, expired: seq<Thread>, t: Thread)
    requires ThreadsOk(s) && s.runQ == [] && s.current == s.idle && Fires(s, ready) && t in s.threads
    requires ExpiryOrder(Dispatch(s, ready), now, expired)
    ensures Onward(s, Idle(s, ready, now, expired), t)
  {
    hide Dispatch;
    assert ThreadOk(s, t) && ThreadOk(s, s.idle);
    DispatchOnward(s, ready, t);
    DispatchThread(s, ready, t);
    ExpireOnward(Dispatch(s, ready), now, expired, t);
  }

  lemma TurnOnward(s: Vp, ready: map<Thread, nat>, now: nat, expired: seq<Thread>, t: Thread)
    requires Inv(s) && s.current == s.idle && Fires(s, ready) && t in s.threads
    requires s.active > 0 ==> ExpiryOrder(Dispatch(s, ready), now, expired)
    ensures Onward(s, IdleTurn(s, ready, now, expired).0, t)
  {
    hide ThreadsOk, Fires, ExpiryOrder, Idle, Dispatch;
    if s.active > 0 { IdleOnward(s, ready, now, expired, t); }
  }

  /** What the thread's own record says about it while user code runs. */
  lemma PhaseOf(s: Vp, t: Thread)
    requires t in s.threads && ThreadOk(s, t)
    ensures Blocked(s.threads[t]) || t in s.sleepers || (t == s.current && t != s.idle) ==> Phase(s.threads[t]) == 0
    ensures t == s.current && t != s.idle ==> s.threads[t].at.AtUser? && t !in s.sleepers
  {
  }

  lemma BlockOnward(s: Vp, op: Op, t: Thread)
    requires Sane(s) && Enabled(s, op) && t in s.threads && AtCall(s) && s.threads[s.current].at.AtUser?
    requires op.DoPoll? || op.DoSleep?
    ensures Onward(s, Do(s, op).0, t)
  {
    hide Onward, Poll, Sleep;
    if op.DoPoll? { PollOnward(s, op.npds, op.timeout, op.added, t); } else { SleepOnward(s, op.timeout, t); }
  }

  lemma PollOnward(s: Vp, npds: nat, timeout: Timeout, added: bool, t: Thread)
    requires s.current in s.threads && s.threads[s.current].at.AtUser? && t in s.threads
    ensures Onward(s, Poll(s, npds, timeout, added).0, t)
  {
  }

  lemma SleepOnward(s: Vp, timeout: Timeout, t: Thread)
    requires s.current in s.threads && s.threads[s.current].at.AtUser? && t in s.threads
    ensures Onward(s, Sleep(s, timeout).0, t)
  {
  }

  lemma QueueOnward(s: Vp, op: Op, t: Thread)
    requires Sane(s) && Enabled(s, op) && t in s.threads && AtCall(s) && s.threads[s.current].at.AtUser?
    requires op.DoWait? || op.DoLock?
    ensures Onward(s, Do(s, op).0, t)
  {
    hide Sane;
  }

  lemma RouseOnward(s: Vp, op: Op, t: Thread)
    requires Sane(s) && Enabled(s, op) && t in s.threads && (Blocked(s.threads[t]) ==> Phase(s.threads[t]) == 0)
    requires op.DoSignal? || op.DoBroadcast? || op.DoUnlock? || op.DoTryLock? || op.DoInterrupt?
    ensures Onward(s, Do(s, op).0, t)
  {
    hide Onward, Signal, Broadcast, Unlock, TryLock, Interrupt, Phase;
    match op {
      case DoSignal(c) => SignalOnward(s, c, t);
      case DoBroadcast(c) => SignalOnward(s, c, t);
      case DoUnlock(m) => UnlockOnward(s, m, t);
      case DoTryLock(m) => UnlockOnward(s, m, t);
      case DoInterrupt(u) => InterruptOnward(s, u, t);
    }
  }

  lemma NewOnward(s: Vp, op: Op, t: Thread)
    requires Sane(s) && Enabled(s, op) && t in s.threads
    requires op.DoCreate? || op.DoNoThread? || op.DoNewCond? || op.DoNewMutex?
    ensures Onward(s, Do(s, op).0, t)
  {
    hide Sane, StackNew, StackFree, Phase;
  }

  lemma CallOnward(s: Vp, op: Op, t: Thread)
    requires Inv(s) && Sane(s) && Enabled(s, op) && t in s.threads && !MayPark(op) && !op.DoExit?
    ensures Onward(s, Do(s, op).0, t)
  {
    hide Sane, Enabled, Do, Onward;
    PhaseOf(s, t);
    if op.DoCreate? || op.DoNoThread? || op.DoNewCond? || op.DoNewMutex? {
      NewOnward(s, op, t);
    } else {
      RouseOnward(s, op, t);
    }
  }

  lemma StopOnward(s: Vp, op: Op, t: Thread)
    requires Inv(s) && Sane(s) && Enabled(s, op) && t in s.threads && MayBlock(op)
    ensures Onward(s, Do(s, op).0, t)
  {
    hide Sane, Do, Onward;
    PhaseOf(s, s.current);
    if op.DoPoll? || op.DoSleep? { BlockOnward(s, op, t); } else { QueueOnward(s, op, t); }
  }

  lemma EndOnward(s: Vp, op: Op, t: Thread)
    requires Inv(s) && Sane(s) && Enabled(s, op) && t in s.threads && op.DoExit?
    ensures Onward(s, Do(s, op).0, t)
  {
    hide Exit, Onward, QueuesOk;
    ReadyToExit(s);
    PhaseOf(s, t);
    PhaseOf(s, s.current);
    ExitOnward(s, op.retval, t);
  }

  lemma PickedOnward(s: Vp, t: Thread)
    requires Inv(s) && Sane(s) && s.current == null && t in s.threads
    ensures Onward(s, Schedule(s).0, t)
  {
    hide Onward, Resume;
    NextRunnable(s);
    ScheduleOnward(s, t);
  }

  lemma JoinsOnward(s: Vp, target: Thread, t: Thread)
    requires Inv(s) && Sane(s) && AtCall(s) && target in s.threads && t in s.threads
    ensures Onward(s, Join(s, target).0, t)
  {
    hide Onward, Join, JoinRound;
    JoinOnward(s, target, t);
  }

  lemma ParkOnward(s: Vp, op: Op, t: Thread)
    requires Inv(s) && Sane(s) && Enabled(s, op) && t in s.threads && MayPark(op) && !MayBlock(op)
    ensures Onward(s, Do(s, op).0, t)
  {
    hide Onward, Schedule, IdleTurn, Join, Yield, Dispatch, ExpiryOrder, Inv, Sane, Fires;
    match op {
      case DoSchedule => PickedOnward(s, t);
      case DoIdle(ready, now, expired) => TurnOnward(s, ready, now, expired, t);
      case DoJoin(target) => JoinsOnward(s, target, t);
      case DoYield(now, expired) => YieldsOnward(s, now, expired, t);
    }
  }

  /** No step takes a thread back in its life or changes the exit value of one that has exited. */
  lemma StepOnward(s: Vp, op: Op, t: Thread)
    requires Inv(s) && Sane(s) && Enabled(s, op) && t in s.threads
    ensures Onward(s, Do(s, op).0, t)
  {
    hide Inv, Sane, Enabled, Do, Onward;
    if op.DoExit? {
      EndOnward(s, op, t);
    } else if MayBlock(op) {
      StopOnward(s, op, t);
    } else if MayPark(op) {
      ParkOnward(s, op, t);
    } else {
      CallOnward(s, op, t);
    }
  }

  lemma {:induction false} RunOnward(states: seq<Vp>, ops: seq<Op>, i: nat, j: nat, t: Thread)
    requires IsRun(states, ops) && i <= j < |states| && t in states[i].threads
    ensures Onward(states[i], states[j], t)
    decreases j
  {
    hide Enabled, Sane;
    if i < j {
      RunOnward(states, ops, i, j - 1, t);
      RunInv(states, ops, j - 1);
      assert Follows(states[j - 1], ops[j - 1], states[j]);
      StepOnward(states[j - 1], ops[j - 1], t);
    }
  }

  ghost predicate BecomesZombie(s: Vp, s': Vp, t: Thread) {
    t in s.threads && t in s'.threads && s.threads[t].state != Zombie && s'.threads[t].state == Zombie
  }

  /** In no run does a thread become a zombie twice. */
  lemma ZombieOnce(states: seq<Vp>, ops: seq<Op>, i: nat, j: nat, t: Thread)
    requires IsRun(states, ops) && i < j < |ops|
    requires BecomesZombie(states[i], states[i + 1], t)
    ensures !BecomesZombie(states[j], states[j + 1], t)
  {
    RunPhase(states, ops, i + 1, t);
    RunOnward(states, ops, i + 1, j, t);
    RunOnward(states, ops, j, j + 1, t);
    RunPhase(states, ops, j, t);
    if t in states[j + 1].threads { RunPhase(states, ops, j + 1, t); }
  }

  lemma RunPhase(states: seq<Vp>, ops: seq<Op>, i: nat, t: Thread)
    requires IsRun(states, ops) && i < |states| && t in states[i].threads
    ensures Phase(states[i].threads[t]) == 1 <==> states[i].threads[t].state == Zombie
  {
    RunInv(states, ops, i);
    assert ThreadOk(states[i], t);
  }

  /** The step returns successfully from a join of `t`, at once or after waiting. */
  ghost predicate JoinReturns(s: Vp, op: Op, t: Thread, value: int) {
    && Sane(s) && Enabled(s, op) && Do(s, op).1 == Returned(Ok(value))
    && (op == DoJoin(t) || (op == DoSchedule && Next(s) in s.threads && s.threads[Next(s)].at.InJoin? &&
         s.threads[Next(s)].at.target == t))
  }

  /** A successful join finds an unjoined zombie, yields its exit value, and leaves it joined. */
  lemma JoinReturnsValue(s: Vp, op: Op, t: Thread, value: int)
    requires Inv(s) && JoinReturns(s, op, t, value)
    ensures t in s.threads && Phase(s.threads[t]) == 1 && s.threads[t].retval == value
    ensures t in Do(s, op).0.threads && Phase(Do(s, op).0.threads[t]) == 2
  {
    hide Inv, Sane, Do, Phase, Next;
    if op == DoSchedule { LateJoinReturns(s, t, value); } else { PromptJoinReturns(s, t, value); }
  }

  lemma LateJoinReturns(s: Vp, t: Thread, value: int)
    requires Inv(s) && JoinReturns(s, DoSchedule, t, value)
    ensures t in s.threads && Phase(s.threads[t]) == 1 && s.threads[t].retval == value
    ensures t in Do(s, DoSchedule).0.threads && Phase(Do(s, DoSchedule).0.threads[t]) == 2
  {
    hide QueuesOk, LocksOk, RestOk, Sane, Schedule, Phase;
    NextRunnable(s);
    ResumeJoinReturns(s, t, s.threads[Next(s)].at.cond, value);
  }

  lemma PromptJoinReturns(s: Vp, t: Thread, value: int)
    requires Inv(s) && JoinReturns(s, DoJoin(t), t, value)
    ensures t in s.threads && Phase(s.threads[t]) == 1 && s.threads[t].retval == value
    ensures t in Do(s, DoJoin(t)).0.threads && Phase(Do(s, DoJoin(t)).0.threads[t]) == 2
  {
    hide QueuesOk, LocksOk, RestOk, Sane, Without;
    assert ThreadOk(s, t);
  }

  lemma ResumeJoinReturns(s: Vp, t: Thread, c: Cond, value: int)
    requires ThreadsOk(s) && QueuesOk(s) && s.current == null && Next(s) in s.threads
    requires s.threads[Next(s)].at == InJoin(t, c)
    requires PointKnown(s, InJoin(t, c)) && Schedule(s).1 == Returned(Ok(value))
    ensures t in s.threads && Phase(s.threads[t]) == 1 && s.threads[t].retval == value
    ensures t in Schedule(s).0.threads && Phase(Schedule(s).0.threads[t]) == 2
  {
    hide QueuesOk;
    assert ThreadOk(s, Next(s)) && ThreadOk(s, t);
  }

  /** In every run, a thread is joined successfully at most once. */
  lemma JoinOnce(states: seq<Vp>, ops: seq<Op>, i: nat, j: nat, t: Thread, v: int, w: int)
    requires IsRun(states, ops) && i < j < |ops|
    requires JoinReturns(states[i], ops[i], t, v)
    ensures !JoinReturns(states[j], ops[j], t, w)
  {
    RunInv(states, ops, i);
    RunInv(states, ops, j);
    assert Follows(states[i], ops[i], states[i + 1]);
    JoinReturnsValue(states[i], ops[i], t, v);
    RunOnward(states, ops, i + 1, j, t);
    if JoinReturns(states[j], ops[j], t, w) {
      JoinReturnsValue(states[j], ops[j], t, w);
    }
  }

  /** In every run, what a join returns is what the thread exited with. */
  lemma JoinYieldsExitValue(states: seq<Vp>, ops: seq<Op>, i: nat, j: nat, t: Thread, v: int, w: int)
    requires IsRun(states, ops) && i < |ops| && j < |ops|
    requires ops[i] == DoExit(v) && states[i].current == t && JoinReturns(states[j], ops[j], t, w)
    ensures i < j && w == v
  {
    hide Sane, Resume, Exit;
    RunInv(states, ops, i);
    RunInv(states, ops, j);
    assert Follows(states[i], ops[i], states[i + 1]);
    JoinReturnsValue(states[j], ops[j], t, w);
    assert ThreadOk(states[i], t);
    if j <= i {
      RunOnward(states, ops, j, i, t);
    } else {
      PhaseOf(states[i], t);
      ExitOnward(states[i], v, t);
      RunOnward(states, ops, i + 1, j, t);
    }
  }

  /** No thread is left waiting for the end of a thread that has exited. */
  lemma ZombieNotAwaited(states: seq<Vp>, ops: seq<Op>, i: nat, t: Thread, c: Cond, u: Thread)
    requires IsRun(states, ops) && i < |states| && t in states[i].threads && states[i].threads[t].state == Zombie
    requires states[i].threads[t].term == c && u in states[i].threads && states[i].threads[u].state == CondWait
    ensures c in states[i].conds && u !in states[i].conds[c]
  {
    RunInv(states, ops, i);
    assert TermOk(states[i], t, c);
  }

  /** A thread whose stack is on the free list is gone for good: no later state of the run can schedule it. */
  lemma FreeStackNeverRuns(states: seq<Vp>, ops: seq<Op>, i: nat, j: nat, t: Thread)
    requires IsRun(states, ops) && i <= j < |states| && t in states[i].threads
    requires states[i].threads[t].stack.Some? && states[i].threads[t].stack.value in states[i].freeStacks
    ensures t in states[j].threads && states[j].threads[t].at == Gone && states[j].current != t && t !in states[j].runQ
  {
    RunInv(states, ops, i);
    RunInv(states, ops, j);
    RunOnward(states, ops, i, j, t);
    assert ThreadOk(states[j], t);
  }

  /** `_st_active_count` is the number of threads, other than the idle one, that have not begun to exit. */
  lemma ActiveCount(states: seq<Vp>, ops: seq<Op>, i: nat)
    requires IsRun(states, ops) && i < |states|
    ensures var s := states[i];
            s.active == |set t | t in s.threads && t != s.idle && Phase(s.threads[t]) == 0|
  {
    RunInv(states, ops, i);
    var s := states[i];
    assert Active(s) == set t | t in s.threads && t != s.idle && Phase(s.threads[t]) == 0;
  }

  /** The process exits in a turn of the idle thread iff every other thread has begun to exit. */
  lemma ExitsWhenNoneActive(states: seq<Vp>, ops: seq<Op>, i: nat)
    requires IsRun(states, ops) && i < |ops| && ops[i].DoIdle?
    ensures var s := states[i];
            Sane(s) && Enabled(s, ops[i]) &&
            (Do(s, ops[i]).1 == Exited <==> forall t | t in s.threads && t != s.idle :: Phase(s.threads[t]) > 0)
  {
    hide Enabled, Sane, Do, Inv;
    RunInv(states, ops, i);
    assert Follows(states[i], ops[i], states[i + 1]);
    NoneActive(states[i]);
    ExitsIff(states[i], ops[i]);
  }

  lemma ExitsIff(s: Vp, op: Op)
    requires Sane(s) && Enabled(s, op) && op.DoIdle?
    ensures Do(s, op).1 == Exited <==> s.active <= 0
  {
    hide Enabled, Idle;
  }

  lemma NoneActive(s: Vp)
    requires Inv(s)
    ensures s.active <= 0 <==> forall t | t in s.threads && t != s.idle :: Phase(s.threads[t]) > 0
  {
    hide ThreadsOk, QueuesOk, LocksOk, TermsOk, StacksOk;
    if t :| t in s.threads && t != s.idle && Phase(s.threads[t]) == 0 {
      assert t in Active(s);
    } else {
      assert Active(s) == {};
    }
  }

  // ---------- the run queue ----------

  /** `q'` holds `q`, less its head when `popped`, with newcomers only before and after it. */
  ghost predicate Grown(q: seq<Thread>, q': seq<Thread>, popped: bool) {
    exists k | 0 <= k <= |q'| :: GrownAt(q, q', popped, k)
  }

  ghost predicate GrownAt(q: seq<Thread>, q': seq<Thread>, popped: bool, k: nat) {
    k + |Rest(q, popped)| <= |q'| && q' == q'[..k] + (Rest(q, popped) + q'[k + |Rest(q, popped)|..])
  }

  function Rest(q: seq<Thread>, popped: bool): seq<Thread> {
    if popped && q != [] then q[1..] else q
  }

  lemma Between(front: seq<Thread>, r: seq<Thread>, back: seq<Thread>)
    ensures var q := front + r + back; q[..|front|] == front && q[|front| + |r|..] == back && q == front + (r + back)
  {
  }

  lemma Ends(q: seq<Thread>, q': seq<Thread>, popped: bool, front: seq<Thread>, back: seq<Thread>)
    ensures q' == front + Rest(q, popped) + back ==> Grown(q, q', popped)
  {
    if q' == front + Rest(q, popped) + back {
      Between(front, Rest(q, popped), back);
      assert GrownAt(q, q', popped, |front|);
    }
  }

  lemma Unchanged(q: seq<Thread>, popped: bool)
    ensures Grown(q, Rest(q, popped), popped)
  {
    var r := Rest(q, popped);
    assert r == r[..0] + (r + r[|r|..]);
    assert GrownAt(q, r, popped, 0);
  }

  lemma OneMore(q: seq<Thread>, popped: bool, t: Thread)
    ensures Grown(q, Rest(q, popped) + [t], popped)
  {
    var r := Rest(q, popped);
    Between([], r, [t]);
    assert [] + r + [t] == r + [t];
    assert GrownAt(q, r + [t], popped, 0);
  }

  lemma JoinRunQ(s: Vp, target: Thread, c: Cond)
    requires s.current in s.threads && target in s.threads && c in s.conds
    ensures JoinRound(s, target, c).0.runQ == s.runQ || JoinRound(s, target, c).0.runQ == s.runQ + [target]
  {
  }

  lemma JoinGrown(s: Vp, target: Thread, c: Cond)
    requires s.current in s.threads && target in s.threads && c in s.conds
    ensures Grown(s.runQ, JoinRound(s, target, c).0.runQ, false)
  {
    JoinRunQ(s, target, c);
    Unchanged(s.runQ, false);
    OneMore(s.runQ, false, target);
  }

  lemma ResumeRunQ(p: Vp, t: Thread)
    requires t in p.threads && p.current == t && PointKnown(p, p.threads[t].at)
    ensures var q, at := Resume(p, t).0.runQ, p.threads[t].at; q == p.runQ || (at.InJoin? && q == p.runQ + [at.target])
  {
    if p.threads[t].at.InJoin? {
      var at := p.threads[t].at;
      JoinRunQ(Awake(p, t, at.cond), at.target, at.cond);
    }
  }

  lemma ScheduleGrown(s: Vp)
    requires Next(s) in s.threads && PointKnown(s, s.threads[Next(s)].at)
    ensures Grown(s.runQ, Schedule(s).0.runQ, true)
  {
    var t, p := Next(s), Pick(s);
    ResumeRunQ(p, t);
    assert p.runQ == Rest(s.runQ, true);
    Unchanged(s.runQ, true);
    if s.threads[t].at.InJoin? {
      OneMore(s.runQ, true, s.threads[t].at.target);
    }
  }

  lemma ExpireGrown(s: Vp, now: nat, expired: seq<Thread>, back: seq<Thread>)
    ensures Grown(s.runQ, Expire(s, now, expired).runQ + back, false)
  {
    Ends(s.runQ, Expire(s, now, expired).runQ + back, false, Reverse(expired), back);
  }

  lemma YieldGrown(s: Vp, now: nat, expired: seq<Thread>)
    requires s.current in s.threads
    ensures Grown(s.runQ, Yield(s, now, expired).0.runQ, false)
  {
    var s1 := Expire(s, now, expired);
    ExpireGrown(s, now, expired, []);
    ExpireGrown(s, now, expired, [s.current]);
    assert s1.runQ + [] == s1.runQ;
  }

  lemma IdleGrown(s: Vp, ready: map<Thread, nat>, now: nat, expired: seq<Thread>)
    requires s.idle in s.threads
    ensures Grown(s.runQ, Idle(s, ready, now, expired).runQ, false)
  {
    Ends(s.runQ, Idle(s, ready, now, expired).runQ, false, Reverse(expired), Only(s.ioQ, ready.Keys));
  }

  lemma WakeGrown(s: Vp, op: Op)
    requires Sane(s) && Enabled(s, op) && (op.DoSignal? || op.DoBroadcast? || op.DoUnlock?)
    ensures Grown(s.runQ, Do(s, op).0.runQ, false)
  {
    hide First, Only, Grown;
    assert s.runQ + [] == s.runQ;
    Behind(s.runQ, []);
    match op {
      case DoSignal(c) =>
        var k := First(s, s.conds[c], CondWait);
        if k < |s.conds[c]| { Behind(s.runQ, [s.conds[c][k]]); }
      case DoBroadcast(c) => Behind(s.runQ, Only(s.conds[c], WaitersOf(s, c)));
      case DoUnlock(m) =>
        var k := First(s, s.lockQ[m], LockWait);
        if k < |s.lockQ[m]| { Behind(s.runQ, [s.lockQ[m][k]]); }
    }
  }

  lemma InterruptGrown(s: Vp, t: Thread)
    requires t in s.threads
    ensures Grown(s.runQ, Interrupt(s, t).runQ, false)
  {
    var q' := Interrupt(s, t).runQ;
    Ends(s.runQ, q', false, [], []);
    Ends(s.runQ, q', false, [], [t]);
  }

  lemma ExitGrown(s: Vp, retval: int)
    requires ExitReady(s)
    ensures Grown(s.runQ, Exit(s, retval).runQ, false)
  {
    hide First;
    ExitForm(s, retval);
    var c := s.threads[s.current].term;
    var q' := Exit(s, retval).runQ;
    if c != null {
      var z := Zombified(Set(s, s.current, s.threads[s.current].(retval := retval)));
      var k := First(z, z.conds[c], CondWait);
      Ends(s.runQ, q', false, [], if k < |z.conds[c]| then [z.conds[c][k]] else []);
    } else {
      Ends(s.runQ, q', false, [], []);
    }
  }

  lemma CallGrown(s: Vp, op: Op)
    requires Sane(s) && Enabled(s, op)
    requires op.DoPoll? || op.DoSleep? || op.DoWait? || op.DoLock? || op.DoTryLock? || op.DoNewCond? ||
             op.DoNewMutex? || op.DoCreate? || op.DoNoThread?
    ensures Grown(s.runQ, Do(s, op).0.runQ, false)
  {
    hide Do, Grown, Sane, Enabled;
    if op.DoPoll? || op.DoSleep? || op.DoWait? || op.DoLock? { BlockRunQ(s, op); } else { NewRunQ(s, op); }
    Behind(s.runQ, if op.DoCreate? then [op.t] else []);
    assert s.runQ + [] == s.runQ;
  }

  lemma BlockRunQ(s: Vp, op: Op)
    requires Sane(s) && Enabled(s, op) && (op.DoPoll? || op.DoSleep? || op.DoWait? || op.DoLock?)
    ensures Do(s, op).0.runQ == s.runQ
  {
    hide Poll, Sleep, WaitAt, Lock;
    ParkRunQ(s);
    match op {
      case DoWait(c, timeout) => WaitRunQ(s, c, timeout);
      case DoLock(m) => LockRunQ(s, m);
      case _ =>
    }
  }

  lemma ParkRunQ(s: Vp)
    requires s.current in s.threads
    ensures forall npds, timeout, added :: Poll(s, npds, timeout, added).0.runQ == s.runQ
    ensures forall timeout :: Sleep(s, timeout).0.runQ == s.runQ
  {
  }

  lemma WaitRunQ(s: Vp, c: Cond, timeout: Timeout)
    requires s.current in s.threads && c in s.conds
    ensures WaitAt(s, c, timeout, InWait(c)).0.runQ == s.runQ
  {
  }

  lemma LockRunQ(s: Vp, m: Mutex)
    requires s.current in s.threads && m in s.owners && m in s.lockQ
    ensures Lock(s, m).0.runQ == s.runQ
  {
  }

  lemma NewRunQ(s: Vp, op: Op)
    requires Sane(s) && Enabled(s, op)
    requires op.DoTryLock? || op.DoNewCond? || op.DoNewMutex? || op.DoCreate? || op.DoNoThread?
    ensures Do(s, op).0.runQ == if op.DoCreate? then s.runQ + [op.t] else s.runQ
  {
    hide Sane, Enabled, StackNew, StackFree;
  }

  lemma Behind(q: seq<Thread>, back: seq<Thread>)
    ensures Grown(q, q + back, false)
  {
    assert [] + q + back == q + back;
    Ends(q, q + back, false, [], back);
  }

  lemma TurnGrown(s: Vp, op: Op)
    requires Sane(s) && Enabled(s, op) && (op.DoIdle? || op.DoYield?)
    ensures Grown(s.runQ, Do(s, op).0.runQ, false)
  {
    hide Idle, Yield, Grown, ExpiryOrder, Dispatch, Fires;
    match op {
      case DoIdle(ready, now, expired) => Behind(s.runQ, []); IdleGrown(s, ready, now, expired);
      case DoYield(now, expired) => YieldGrown(s, now, expired);
    }
    assert s.runQ + [] == s.runQ;
  }

  lemma LeaveGrown(s: Vp, retval: int)
    requires Sane(s) && Enabled(s, DoExit(retval))
    ensures Grown(s.runQ, Do(s, DoExit(retval)).0.runQ, false)
  {
    hide Exit, Grown;
    ExitGrown(s, retval);
  }

  lemma PickGrown(s: Vp)
    requires Sane(s) && Enabled(s, DoSchedule)
    ensures Grown(s.runQ, Do(s, DoSchedule).0.runQ, true)
  {
    hide Schedule, Grown;
    SaneNext(s);
    ScheduleGrown(s);
  }

  lemma EndGrown(s: Vp, op: Op)
    requires Sane(s) && Enabled(s, op) && (op.DoJoin? || op.DoInterrupt?)
    ensures Grown(s.runQ, Do(s, op).0.runQ, false)
  {
    hide JoinRound, Interrupt, Grown;
    Behind(s.runQ, []);
    assert s.runQ + [] == s.runQ;
    match op {
      case DoJoin(t) => if s.threads[t].term != null { JoinGrown(s, t, s.threads[t].term); }
      case DoInterrupt(t) => InterruptGrown(s, t);
    }
  }

  /** Every step takes at most the head off the run queue and adds threads only at its two ends. */
  lemma StepGrown(s: Vp, op: Op)
    requires Sane(s) && Enabled(s, op)
    ensures Grown(s.runQ, Do(s, op).0.runQ, op.DoSchedule?)
  {
    hide Do, Grown, Sane, Enabled;
    match op {
      case DoSchedule => PickGrown(s);
      case DoIdle(_, _, _) => TurnGrown(s, op);
      case DoYield(_, _) => TurnGrown(s, op);
      case DoJoin(_) => EndGrown(s, op);
      case DoExit(retval) => LeaveGrown(s, retval);
      case DoInterrupt(t) => EndGrown(s, op);
      case DoSignal(_) => WakeGrown(s, op);
      case DoBroadcast(_) => WakeGrown(s, op);
      case DoUnlock(_) => WakeGrown(s, op);
      case _ => CallGrown(s, op);
    }
  }

  lemma AheadRest(q: seq<Thread>, popped: bool, u: Thread, v: Thread)
    requires u in Ahead(q, v) && v in q && (popped ==> q[0] != u)
    ensures v in Rest(q, popped) && u in Ahead(Rest(q, popped), v)
  {
  }

  lemma {:induction false} AheadPrepend(front: seq<Thread>, r: seq<Thread>, v: Thread)
    requires v !in front
    ensures Ahead(r, v) <= Ahead(front + r, v)
  {
    if front == [] {
      assert front + r == r;
    } else {
      assert (front + r)[1..] == front[1..] + r;
      AheadPrepend(front[1..], r, v);
    }
  }

  lemma NotInFront(front: seq<Thread>, r: seq<Thread>, v: Thread)
    requires NoDup(front + r) && v in r
    ensures v !in front
  {
    var j :| 0 <= j < |r| && r[j] == v;
    forall i | 0 <= i < |front| ensures front[i] != v {
      assert (front + r)[i] == front[i] && (front + r)[|front| + j] == v;
    }
  }

  lemma AheadWindow(front: seq<Thread>, r: seq<Thread>, back: seq<Thread>, u: Thread, v: Thread)
    requires NoDup(front + (r + back)) && u in Ahead(r, v) && v in r
    ensures u in Ahead(front + (r + back), v) && v in front + (r + back)
  {
    assert v in r + back;
    AheadBack(r, back, v);
    NotInFront(front, r + back, v);
    AheadPrepend(front, r + back, v);
  }

  /** In a queue that only grows at its ends, whoever was ahead stays ahead until taken. */
  lemma AheadGrown(q: seq<Thread>, q': seq<Thread>, popped: bool, u: Thread, v: Thread)
    requires Grown(q, q', popped) && NoDup(q') && u in Ahead(q, v) && v in q && (popped ==> q[0] != u)
    ensures v in q' && u in Ahead(q', v)
  {
    hide Ahead, Rest, NoDup;
    var k :| 0 <= k <= |q'| && GrownAt(q, q', popped, k);
    var r := Rest(q, popped);
    AheadRest(q, popped, u, v);
    AheadWindow(q'[..k], r, q'[k + |r|..], u, v);
  }

  lemma RunQueueStep(states: seq<Vp>, ops: seq<Op>, i: nat)
    requires IsRun(states, ops) && i < |ops|
    ensures NoDup(states[i + 1].runQ) && Grown(states[i].runQ, states[i + 1].runQ, ops[i].DoSchedule?)
  {
    RunInv(states, ops, i);
    RunInv(states, ops, i + 1);
    assert Follows(states[i], ops[i], states[i + 1]);
    StepGrown(states[i], ops[i]);
  }

  lemma FairStep(states: seq<Vp>, ops: seq<Op>, k: nat, u: Thread, v: Thread)
    requires IsRun(states, ops) && k < |ops| && v in states[k].runQ && u in Ahead(states[k].runQ, v)
    requires ops[k] == DoSchedule ==> Next(states[k]) != u
    ensures v in states[k + 1].runQ && u in Ahead(states[k + 1].runQ, v)
  {
    RunQueueStep(states, ops, k);
    AheadGrown(states[k].runQ, states[k + 1].runQ, ops[k].DoSchedule?, u, v);
  }

  /** The run queue is fair: in every run, a thread behind another is not picked before it. */
  lemma {:induction false} RunQueueFair(states: seq<Vp>, ops: seq<Op>, i: nat, j: nat, u: Thread, v: Thread)
    requires IsRun(states, ops) && i <= j < |states| && v in states[i].runQ && u in Ahead(states[i].runQ, v)
    requires forall k | i <= k < j :: ops[k] == DoSchedule ==> Next(states[k]) != u
    ensures v in states[j].runQ && u in Ahead(states[j].runQ, v)
    decreases j
  {
    hide Enabled, Sane, Do;
    if i < j {
      RunQueueFair(states, ops, i, j - 1, u, v);
      FairStep(states, ops, j - 1, u, v);
    }
  }

  lemma SaneNext(s: Vp)
    requires Sane(s)
    ensures Next(s) in s.threads && PointKnown(s, s.threads[Next(s)].at)
  {
  }
}
