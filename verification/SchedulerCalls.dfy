/**
 The calls on the processor, one by one, as runs of the transition system: whatever is called,
 in any order that the interface allows, the processor's value goes through a run.
 */
module SchedulerCalls {
  import opened Threads
  import opened Scheduler
  import I = SchedulerInvariant
  import L = SchedulerLoops
  import M = SchedulerModel
  import R = SchedulerRuns
  import S = SchedulerSteps

  /** A call of user code, a resumption, or a turn of the idle thread, with what the outside world contributes. */
  datatype Call =
    | CallPoll(npds: nat, timeout: Timeout, added: bool)
    | CallSleep(timeout: Timeout)
    | CallWait(c: Cond, timeout: Timeout)
    | CallSignal(c: Cond)
    | CallBroadcast(c: Cond)
    | CallLock(m: Mutex)
    | CallUnlock(m: Mutex)
    | CallTryLock(m: Mutex)
    | CallYield(now: nat)
    | CallInterrupt(t: Thread)
    | CallCreate(joinable: bool, size: nat, mapped: Option<Stack>, allocates: bool)
    | CallExit(retval: int)
    | CallJoin(t: Thread)
    | CallNewCond
    | CallNewMutex
    | Reschedule
    | RunIdle(ready: map<Thread, nat>, now: nat)

  /** The interface's demands on the caller and on the outside world. */
  ghost predicate Allowed(s: M.Vp, call: Call) {
    match call
    case CallWait(c, _) => I.AtCall(s) && I.UserCond(s, c)
    case CallSignal(c) => I.AtCall(s) && I.UserCond(s, c)
    case CallBroadcast(c) => I.AtCall(s) && I.UserCond(s, c)
    case CallLock(m) => I.AtCall(s) && m in s.owners
    case CallUnlock(m) => I.AtCall(s) && m in s.owners
    case CallTryLock(m) => I.AtCall(s) && m in s.owners
    case CallInterrupt(t) => I.AtCall(s) && t in s.threads && !s.threads[t].at.Gone?
    case CallCreate(_, size, mapped, _) => I.AtCall(s) && I.Mapped(s, size, mapped)
    case CallJoin(t) => I.AtCall(s) && t in s.threads && !s.threads[t].at.Gone? && !I.Joined(s.threads[t])
    case Reschedule => s.current == null
    case RunIdle(ready, _) => s.current == s.idle && I.Fires(s, ready)
    case _ => I.AtCall(s)
  }

  /** The step that a call comes to; what it leaves open is a new object or the order of expiry. */
  ghost predicate Performs(call: Call, op: I.Op) {
    match call
    case CallPoll(npds, timeout, added) => op == I.DoPoll(npds, timeout, added)
    case CallSleep(timeout) => op == I.DoSleep(timeout)
    case CallWait(c, timeout) => op == I.DoWait(c, timeout)
    case CallSignal(c) => op == I.DoSignal(c)
    case CallBroadcast(c) => op == I.DoBroadcast(c)
    case CallLock(m) => op == I.DoLock(m)
    case CallUnlock(m) => op == I.DoUnlock(m)
    case CallTryLock(m) => op == I.DoTryLock(m)
    case CallYield(now) => op.DoYield? && op.now == now
    case CallInterrupt(t) => op == I.DoInterrupt(t)
    case CallCreate(joinable, size, mapped, allocates) =>
      if op.DoNoThread? then op == I.DoNoThread(joinable && !allocates, size, mapped)
      else
        && op.DoCreate? && op.size == size && op.mapped == mapped
        && (joinable ==> allocates) && (joinable <==> op.term != null)
    case CallExit(retval) => op == I.DoExit(retval)
    case CallJoin(t) => op == I.DoJoin(t)
    case CallNewCond => op.DoNewCond?
    case CallNewMutex => op.DoNewMutex?
    case Reschedule => op == I.DoSchedule
    case RunIdle(ready, now) => op.DoIdle? && op.ready == ready && op.now == now
  }

  /** From `s` the step `op` is possible, comes to `out` and leaves `s'`. */
  ghost predicate Stepped(s: M.Vp, op: I.Op, s': M.Vp, out: M.Outcome) {
    I.Sane(s) && I.Enabled(s, op) && (s', out) == I.Do(s, op)
  }

  /** What the invariant says of the running thread and the queues. */
  lemma Ready(s: M.Vp)
    requires I.Inv(s)
    ensures I.Sane(s) && I.Members(s.ioQ, s) && forall c | c in s.conds :: I.Members(s.conds[c], s)
    ensures s.current != null ==> s.current in s.threads && !s.threads[s.current].onSleepQ
    ensures s.current == null ==>
              M.Next(s) in s.threads && M.PointKnown(s, s.threads[M.Next(s)].at) && !s.threads[M.Next(s)].onSleepQ
  {
    I.InvSane(s);
    L.ValueReady(s);
  }

  lemma MutexStep(s: M.Vp, m: Mutex)
    requires I.Sane(s) && I.AtCall(s) && m !in s.owners
    ensures I.Enabled(s, I.DoNewMutex(m))
    ensures I.Do(s, I.DoNewMutex(m)) ==
            (s.(owners := s.owners[m := null], lockQ := s.lockQ[m := []]), M.Returned(M.Ok(0)))
  {
    assert m !in s.lockQ.Keys;
  }

  lemma ExitStep(s: M.Vp, retval: int)
    requires I.Sane(s) && I.AtCall(s)
    ensures s.current in s.threads && (var c := s.threads[s.current].term; c != null ==> c in s.conds)
    ensures forall c, t | c in s.conds && t in s.conds[c] :: t in s.threads
    ensures I.Enabled(s, I.DoExit(retval)) && I.Do(s, I.DoExit(retval)) == (M.Exit(s, retval), M.Parked)
  {
  }

  lemma IdleKnown(s: M.Vp, ready: map<Thread, nat>)
    requires I.Sane(s) && I.Fires(s, ready)
    ensures s.idle in s.threads && forall t | t in ready :: t in s.ioQ && t in s.threads && s.threads[t].at.InPoll?
  {
  }

  lemma IdleStep(s: M.Vp, ready: map<Thread, nat>, now: nat, expired: seq<Thread>)
    requires I.Sane(s) && s.current == s.idle && I.Fires(s, ready)
    requires s.active > 0 ==> M.ExpiryOrder(M.Dispatch(s, ready), now, expired)
    ensures s.idle in s.threads && I.Enabled(s, I.DoIdle(ready, now, expired))
    ensures I.Do(s, I.DoIdle(ready, now, expired)) == M.IdleTurn(s, ready, now, expired)
  {
  }

  lemma PickStep(s: M.Vp)
    requires I.Sane(s) && s.current == null
    ensures M.Next(s) in s.threads && M.PointKnown(s, s.threads[M.Next(s)].at)
    ensures I.Enabled(s, I.DoSchedule) && I.Do(s, I.DoSchedule) == M.Schedule(s)
  {
  }

  /** The calls after which the thread may block. */
  method Block(vp: VirtualProcessor, call: Call) returns (out: M.Outcome, ghost op: I.Op)
    requires vp.Valid() && vp.CanRun() && I.Sane(vp.View()) && Allowed(vp.View(), call)
    requires call.CallPoll? || call.CallSleep? || call.CallWait? || call.CallLock?
    modifies vp, vp.recs.Keys, vp.sleepQ, vp.condQ.Keys, vp.owners.Keys
    ensures vp.Valid() && Performs(call, op) && Stepped(old(vp.View()), op, vp.View(), out)
  {
    hide M.Poll, M.Sleep, M.WaitAt, M.Lock, I.Sane, VirtualProcessor.Valid;
    match call
    case CallPoll(npds, timeout, added) =>
      op := I.DoPoll(npds, timeout, added);
      out := vp.Poll(npds, timeout, added);
    case CallSleep(timeout) =>
      op := I.DoSleep(timeout);
      out := vp.Usleep(timeout);
    case CallWait(c, timeout) =>
      op := I.DoWait(c, timeout);
      out := vp.WaitAt(c, timeout, InWait(c));
    case CallLock(m) =>
      op := I.DoLock(m);
      out := vp.Lock(m);
  }

  method Rouse(vp: VirtualProcessor, c: Cond) returns (out: M.Outcome, ghost op: I.Op)
    requires vp.Valid() && I.Sane(vp.View()) && Allowed(vp.View(), CallSignal(c))
    modifies vp, vp.recs.Keys, vp.sleepQ
    ensures vp.Valid() && Performs(CallSignal(c), op) && Stepped(old(vp.View()), op, vp.View(), out)
  {
    hide M.Signal, M.PointKnown, VirtualProcessor.Valid;
    op := I.DoSignal(c);
    vp.Signal(c);
    out := M.Returned(M.Ok(0));
  }

  method Interrupt(vp: VirtualProcessor, t: Thread) returns (out: M.Outcome, ghost op: I.Op)
    requires vp.Valid() && I.Sane(vp.View()) && Allowed(vp.View(), CallInterrupt(t))
    modifies vp, vp.recs.Keys, vp.sleepQ
    ensures vp.Valid() && Performs(CallInterrupt(t), op) && Stepped(old(vp.View()), op, vp.View(), out)
  {
    hide M.Interrupt, M.PointKnown, VirtualProcessor.Valid;
    op := I.DoInterrupt(t);
    vp.InterruptThread(t);
    out := M.Returned(M.Ok(0));
  }

  method Unlock(vp: VirtualProcessor, m: Mutex) returns (out: M.Outcome, ghost op: I.Op)
    requires vp.Valid() && I.Sane(vp.View()) && Allowed(vp.View(), CallUnlock(m))
    modifies vp, vp.recs.Keys, vp.sleepQ, vp.owners.Keys
    ensures vp.Valid() && Performs(CallUnlock(m), op) && Stepped(old(vp.View()), op, vp.View(), out)
  {
    hide M.Unlock, M.PointKnown, VirtualProcessor.Valid;
    op := I.DoUnlock(m);
    out := vp.Unlock(m);
  }

  method TryLock(vp: VirtualProcessor, m: Mutex) returns (out: M.Outcome, ghost op: I.Op)
    requires vp.Valid() && I.Sane(vp.View()) && Allowed(vp.View(), CallTryLock(m))
    modifies vp, vp.owners.Keys
    ensures vp.Valid() && Performs(CallTryLock(m), op) && Stepped(old(vp.View()), op, vp.View(), out)
  {
    hide M.TryLock, M.PointKnown, VirtualProcessor.Valid;
    op := I.DoTryLock(m);
    out := vp.TryLock(m);
  }

  method RouseAll(vp: VirtualProcessor, c: Cond) returns (out: M.Outcome, ghost op: I.Op)
    requires vp.Valid() && I.Sane(vp.View()) && Allowed(vp.View(), CallBroadcast(c))
    requires forall d | d in vp.condQ :: I.Members(vp.condQ[d], vp.View())
    modifies vp, vp.recs.Keys, vp.sleepQ
    ensures vp.Valid() && Performs(CallBroadcast(c), op) && Stepped(old(vp.View()), op, vp.View(), out)
  {
    hide M.Broadcast, M.PointKnown, I.Members, VirtualProcessor.Valid;
    op := I.DoBroadcast(c);
    vp.Broadcast(c);
    out := M.Returned(M.Ok(0));
  }

  method AddThread(vp: VirtualProcessor, call: Call) returns (out: M.Outcome, ghost op: I.Op)
    requires vp.Valid() && I.Sane(vp.View()) && Allowed(vp.View(), call) && call.CallCreate?
    modifies vp
    ensures vp.Valid() && Performs(call, op) && Stepped(old(vp.View()), op, vp.View(), out)
  {
    hide M.Create, M.CreateFails, M.StackNew, I.Sane, I.Mapped, VirtualProcessor.Valid;
    var t, term := vp.Create(call.joinable, call.size, call.mapped, call.allocates);
    if t == null {
      out := M.Returned(M.Err(M.ENOMEM));
      op := I.DoNoThread(call.joinable && !call.allocates, call.size, call.mapped);
    } else {
      out := M.Returned(M.Ok(0));
      op := I.DoCreate(t, term, call.size, call.mapped);
    }
  }

  method AddCond(vp: VirtualProcessor) returns (out: M.Outcome, ghost op: I.Op)
    requires vp.Valid() && I.Sane(vp.View()) && I.AtCall(vp.View())
    modifies vp
    ensures vp.Valid() && Performs(CallNewCond, op) && Stepped(old(vp.View()), op, vp.View(), out)
  {
    hide I.Sane, VirtualProcessor.Valid;
    var c := vp.NewCond();
    out, op := M.Returned(M.Ok(0)), I.DoNewCond(c);
  }

  method AddMutex(vp: VirtualProcessor) returns (out: M.Outcome, ghost op: I.Op)
    requires vp.Valid() && I.Sane(vp.View()) && I.AtCall(vp.View())
    modifies vp
    ensures vp.Valid() && Performs(CallNewMutex, op) && Stepped(old(vp.View()), op, vp.View(), out)
  {
    hide VirtualProcessor.Valid, I.Sane, I.Enabled, I.Do;
    ghost var s := vp.View();
    var m := vp.NewMutex();
    out, op := M.Returned(M.Ok(0)), I.DoNewMutex(m);
    MutexStep(s, m);
  }

  method Exit(vp: VirtualProcessor, retval: int) returns (out: M.Outcome, ghost op: I.Op)
    requires vp.Valid() && I.Sane(vp.View()) && Allowed(vp.View(), CallExit(retval))
    modifies vp, vp.recs.Keys, vp.sleepQ
    ensures vp.Valid() && Performs(CallExit(retval), op) && Stepped(old(vp.View()), op, vp.View(), out)
  {
    hide M.Exit, I.Sane, I.Enabled, I.Do, VirtualProcessor.Valid;
    ExitStep(vp.View(), retval);
    op := I.DoExit(retval);
    vp.Exit(retval);
    out := M.Parked;
  }

  method Join(vp: VirtualProcessor, t: Thread) returns (out: M.Outcome, ghost op: I.Op)
    requires vp.Valid() && vp.CanRun() && I.Sane(vp.View()) && Allowed(vp.View(), CallJoin(t))
    modifies vp, vp.recs.Keys, vp.sleepQ, vp.condQ.Keys
    ensures vp.Valid() && Performs(CallJoin(t), op) && Stepped(old(vp.View()), op, vp.View(), out)
  {
    hide M.Join, M.PointKnown, VirtualProcessor.Valid;
    op := I.DoJoin(t);
    out := vp.Join(t);
  }

  method Yield(vp: VirtualProcessor, now: nat) returns (out: M.Outcome, ghost op: I.Op)
    requires vp.Valid() && vp.CanRun() && I.Sane(vp.View()) && Allowed(vp.View(), CallYield(now))
    modifies vp, vp.recs.Keys, vp.sleepQ
    ensures vp.Valid() && Performs(CallYield(now), op) && Stepped(old(vp.View()), op, vp.View(), out)
  {
    hide M.Yield, M.PointKnown, M.ExpiryOrder, VirtualProcessor.Valid;
    ghost var expired;
    out, expired := vp.Yield(now);
    op := I.DoYield(now, expired);
  }

  method Reschedules(vp: VirtualProcessor) returns (out: M.Outcome, ghost op: I.Op)
    requires vp.Valid() && I.Sane(vp.View()) && vp.current == null && M.Next(vp.View()) in vp.recs
    requires !vp.recs[M.Next(vp.View())].onSleepQ && M.PointKnown(vp.View(), vp.recs[M.Next(vp.View())].at)
    modifies vp, vp.recs.Keys, vp.sleepQ, vp.condQ.Keys, vp.owners.Keys
    ensures vp.Valid() && Performs(Reschedule, op) && Stepped(old(vp.View()), op, vp.View(), out)
  {
    hide M.Schedule, M.PointKnown, I.Sane, I.Enabled, I.Do, VirtualProcessor.Valid;
    PickStep(vp.View());
    op := I.DoSchedule;
    out := vp.Schedule();
  }

  method TurnIdle(vp: VirtualProcessor, ready: map<Thread, nat>, now: nat) returns (out: M.Outcome, ghost op: I.Op)
    requires vp.Valid() && I.Sane(vp.View()) && Allowed(vp.View(), RunIdle(ready, now)) && I.Members(vp.ioQ, vp.View())
    modifies vp, vp.recs.Keys, vp.sleepQ
    ensures vp.Valid() && Performs(RunIdle(ready, now), op) && Stepped(old(vp.View()), op, vp.View(), out)
  {
    hide M.Dispatch, M.Idle, M.ExpiryOrder, I.Sane, I.Enabled, I.Do, I.Members, VirtualProcessor.Valid;
    ghost var s, expired := vp.View(), [];
    IdleKnown(s, ready);
    out, expired := vp.IdleTurn(ready, now);
    op := I.DoIdle(ready, now, expired);
    IdleStep(s, ready, now, expired);
  }

  /** The calls on condition variables and mutexes, and an interrupt. */
  method Synchronize(vp: VirtualProcessor, call: Call) returns (out: M.Outcome, ghost op: I.Op)
    requires vp.Valid() && I.Inv(vp.View()) && Allowed(vp.View(), call)
    modifies vp, vp.recs.Keys, vp.sleepQ, vp.condQ.Keys, vp.owners.Keys
    ensures vp.Valid() && Performs(call, op) && Stepped(old(vp.View()), op, vp.View(), out)
    requires call.CallSignal? || call.CallBroadcast? || call.CallUnlock? || call.CallTryLock? || call.CallInterrupt?
  {
    hide I.Inv, I.Sane, I.Members, I.Fires, I.UserCond, I.Mapped, I.Joined, Stepped, Performs, VirtualProcessor.Valid;
    Ready(vp.View());
    match call
    case CallSignal(c) => out, op := Rouse(vp, c);
    case CallBroadcast(c) => out, op := RouseAll(vp, c);
    case CallUnlock(m) => out, op := Unlock(vp, m);
    case CallTryLock(m) => out, op := TryLock(vp, m);
    case CallInterrupt(t) => out, op := Interrupt(vp, t);
  }

  /** The calls that bring threads and objects into the world, and those that end or await threads. */
  method Arrange(vp: VirtualProcessor, call: Call) returns (out: M.Outcome, ghost op: I.Op)
    requires vp.Valid() && I.Inv(vp.View()) && Allowed(vp.View(), call)
    modifies vp, vp.recs.Keys, vp.sleepQ, vp.condQ.Keys, vp.owners.Keys
    ensures vp.Valid() && Performs(call, op) && Stepped(old(vp.View()), op, vp.View(), out)
    requires call.CallCreate? || call.CallNewCond? || call.CallNewMutex? || call.CallExit? || call.CallJoin?
  {
    hide I.Inv, I.Sane, I.Members, I.Fires, I.UserCond, I.Mapped, I.Joined, Stepped, Performs, VirtualProcessor.Valid;
    Ready(vp.View());
    match call
    case CallCreate(_, _, _, _) => out, op := AddThread(vp, call);
    case CallNewCond => out, op := AddCond(vp);
    case CallNewMutex => out, op := AddMutex(vp);
    case CallExit(retval) => out, op := Exit(vp, retval);
    case CallJoin(t) => out, op := Join(vp, t);
  }

  /** Any call does what its step does, and keeps the invariant. */
  method Perform(vp: VirtualProcessor, call: Call) returns (out: M.Outcome, ghost op: I.Op)
    requires vp.Valid() && I.Inv(vp.View()) && Allowed(vp.View(), call)
    modifies vp, vp.recs.Keys, vp.sleepQ, vp.condQ.Keys, vp.owners.Keys
    ensures vp.Valid() && Performs(call, op) && Stepped(old(vp.View()), op, vp.View(), out)
    ensures I.Inv(vp.View())
  {
    hide I.Inv, I.Sane, I.Members, I.Fires, I.UserCond, I.Mapped, I.Joined, Stepped, Performs, VirtualProcessor.Valid;
    ghost var s := vp.View();
    Ready(s);
    match call {
      case CallPoll(_, _, _) => out, op := Block(vp, call);
      case CallSleep(_) => out, op := Block(vp, call);
      case CallWait(_, _) => out, op := Block(vp, call);
      case CallLock(_) => out, op := Block(vp, call);
      case CallYield(now) => out, op := Yield(vp, now);
      case Reschedule => out, op := Reschedules(vp);
      case RunIdle(ready, now) => out, op := TurnIdle(vp, ready, now);
      case CallSignal(_) => out, op := Synchronize(vp, call);
      case CallBroadcast(_) => out, op := Synchronize(vp, call);
      case CallUnlock(_) => out, op := Synchronize(vp, call);
      case CallTryLock(_) => out, op := Synchronize(vp, call);
      case CallInterrupt(_) => out, op := Synchronize(vp, call);
      case CallCreate(_, _, _, _) => out, op := Arrange(vp, call);
      case CallNewCond => out, op := Arrange(vp, call);
      case CallNewMutex => out, op := Arrange(vp, call);
      case CallExit(_) => out, op := Arrange(vp, call);
      case CallJoin(_) => out, op := Arrange(vp, call);
    }
    SteppedKeeps(s, op, vp.View(), out);
  }

  lemma SteppedKeeps(s: M.Vp, op: I.Op, s': M.Vp, out: M.Outcome)
    requires I.Inv(s) && Stepped(s, op, s', out)
    ensures I.Inv(s')
  {
    hide I.Inv, I.Sane, I.Enabled, I.Do;
    S.StepKeeps(s, op);
  }

  /** A run stays one with a step more. */
  lemma RunExtends(states: seq<M.Vp>, ops: seq<I.Op>, op: I.Op, s': M.Vp, out: M.Outcome)
    requires |states| == |ops| + 1 && R.IsRun(states, ops) && Stepped(states[|ops|], op, s', out)
    ensures R.IsRun(states + [s'], ops + [op])
  {
    hide I.Sane, I.Enabled, I.Do, R.IsInitial;
    var ss, os := states + [s'], ops + [op];
    forall i | 0 <= i < |os| ensures R.Follows(ss[i], os[i], ss[i + 1]) {
      if i < |ops| { assert R.Follows(states[i], ops[i], states[i + 1]); }
    }
  }

  /** The values that the processor has gone through, with the steps between them. */
  class History {
    ghost var states: seq<M.Vp>
    ghost var ops: seq<I.Op>
    const vp: VirtualProcessor

    ghost predicate Valid()
      reads this, vp, vp.recs.Keys, vp.condQ.Keys, vp.owners.Keys, vp.sleepQ, vp.sleepQ.nodes
    {
      vp.Valid() && |states| == |ops| + 1 && R.IsRun(states, ops) && states[|ops|] == vp.View()
    }

    constructor (stack: Stack, now: nat)
      ensures Valid() && ops == [] && vp.ioQ == []
    {
      var v := new VirtualProcessor(stack, now);
      vp := v;
      states, ops := [v.View()], [];
    }

    lemma Known()
      requires Valid()
      ensures I.Inv(vp.View()) && I.Sane(vp.View())
    {
      R.RunInv(states, ops, |ops|);
    }

    /** Whether the running thread has an interrupt pending. */
    method Interrupted() returns (interrupted: bool)
      requires Valid() && I.AtCall(vp.View())
      ensures vp.current in vp.recs && interrupted == vp.recs[vp.current].interrupt
    {
      Known();
      interrupted := vp.current.control.interrupt;
    }

    /** The next thread, and whether it leaves a poll that is still queued. */
    method NextLeaves() returns (t: Thread, leaves: bool)
      requires Valid() && vp.current == null
      ensures t == M.Next(vp.View()) && t in vp.recs && (leaves <==> vp.recs[t].at.InPoll? && vp.recs[t].at.onIoq)
    {
      Known();
      t := if vp.runQ != [] then vp.runQ[0] else vp.idle;
      leaves := t.control.at.InPoll? && t.control.at.onIoq;
    }

    /** From initialization on, whatever calls are made, the processor has gone through a run. */
    method Next(call: Call) returns (out: M.Outcome, ghost op: I.Op)
      requires Valid() && Allowed(vp.View(), call)
      modifies this, vp, vp.recs.Keys, vp.sleepQ, vp.condQ.Keys, vp.owners.Keys
      ensures Valid() && states == old(states) + [vp.View()] && ops == old(ops) + [op]
      ensures Performs(call, op) && Stepped(old(vp.View()), op, vp.View(), out) && I.Inv(old(vp.View()))
    {
      hide I.Inv, I.Sane, R.IsRun, Stepped, Performs, Allowed, VirtualProcessor.Valid;
      Known();
      out, op := Perform(vp, call);
      RunExtends(states, ops, op, vp.View(), out);
      states, ops := states + [vp.View()], ops + [op];
    }
  }
}
