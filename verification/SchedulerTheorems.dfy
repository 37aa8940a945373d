/** What callers of the scheduler can rely on: mutexes, condition variables, polls, timers, joins. */
module SchedulerTheorems {
  import opened Threads
  import opened SchedulerModel
  import opened SchedulerInvariant
  import opened SchedulerSteps
  import opened SchedulerRuns

  // ---------- mutexes ----------

  /** The step returns from a lock call on `m`, at once or after waiting. */
  ghost predicate LockReturns(s: Vp, op: Op, m: Mutex, ret: Ret)
    requires Sane(s) && Enabled(s, op)
  {
    && Do(s, op).1 == Returned(ret)
    && (op == DoLock(m) || (op == DoSchedule && Next(s) in s.threads && s.threads[Next(s)].at == InLock(m)))
  }

  /** A lock call that returns 0 has made its caller the owner; one that fails has not, unless it already was. */
  lemma LockReturnsOwner(s: Vp, op: Op, m: Mutex, ret: Ret)
    requires Inv(s) && Sane(s) && Enabled(s, op) && LockReturns(s, op, m, ret)
    ensures var s' := Do(s, op).0;
            && s'.current != null && m in s'.owners
            && (ret == Ok(0) ==> s'.owners[m] == s'.current)
            && (ret == Err(EINTR) || ret == Err(EDEADLK) ==> s'.owners == s.owners)
            && (ret == Err(EDEADLK) <==> op == DoLock(m) && s.owners[m] == s.current && !s.threads[s.current].interrupt)
  {
    hide Inv, Sane, Do, LockReturns;
    if op == DoSchedule { LateLockReturns(s, m, ret); } else { PromptLockReturns(s, op, m, ret); }
  }

  lemma LateLockReturns(s: Vp, m: Mutex, ret: Ret)
    requires Inv(s) && Sane(s) && Enabled(s, DoSchedule) && LockReturns(s, DoSchedule, m, ret)
    ensures var s' := Do(s, DoSchedule).0;
            && s'.current != null && m in s'.owners && s'.owners == s.owners && ret != Err(EDEADLK)
            && (ret == Ok(0) ==> s'.owners[m] == s'.current)
  {
    hide ThreadsOk, QueuesOk, LocksOk, RestOk, Sane, Schedule;
    LockResumes(s, m);
  }

  lemma PromptLockReturns(s: Vp, op: Op, m: Mutex, ret: Ret)
    requires Sane(s) && Enabled(s, op) && LockReturns(s, op, m, ret) && op != DoSchedule
    ensures op == DoLock(m) && s.current in s.threads && m in s.owners
    ensures var s' := Do(s, op).0;
            && s'.current != null && m in s'.owners
            && (ret == Ok(0) ==> s'.owners[m] == s'.current)
            && (ret == Err(EINTR) || ret == Err(EDEADLK) ==> s'.owners == s.owners)
            && (ret == Err(EDEADLK) <==> s.owners[m] == s.current && !s.threads[s.current].interrupt)
  {
  }

  lemma LockResumes(s: Vp, m: Mutex)
    requires ThreadsOk(s) && QueuesOk(s) && LocksOk(s) && s.current == null
    requires Next(s) in s.threads && s.threads[Next(s)].at == InLock(m)
    ensures PointKnown(s, InLock(m)) && m in s.owners && m in s.lockQ
    ensures var (s', out) := Schedule(s);
            s'.owners == s.owners && s'.current == Next(s) &&
            out == Returned(if s.owners[m] == Next(s) then Ok(0) else Err(EINTR))
  {
    var t := Next(s);
    NextRunnable(s);
    assert LockOk(s.threads[t], s.owners[m] == null, s.owners[m] == t);
  }

  /** A thread waits for a mutex only while another thread owns it: a handoff is never lost. */
  lemma WaitersHaveOwner(states: seq<Vp>, ops: seq<Op>, i: nat, t: Thread, m: Mutex)
    requires IsRun(states, ops) && i < |states| && t in states[i].threads
    requires states[i].threads[t].state.LockWait? && states[i].threads[t].at == InLock(m)
    ensures m in states[i].owners && states[i].owners[m] != null && states[i].owners[m] != t
  {
    RunInv(states, ops, i);
    var s := states[i];
    assert ThreadOk(s, t);
    assert LockOk(s.threads[t], s.owners[m] == null, s.owners[m] == t);
  }

  /** The threads before `t` in `q`. */
  function Ahead(q: seq<Thread>, t: Thread): (r: set<Thread>)
    ensures forall x | x in r :: x in q
  {
    if q == [] || q[0] == t then {} else {q[0]} + Ahead(q[1..], t)
  }

  lemma {:induction false} AheadBack(q: seq<Thread>, back: seq<Thread>, t: Thread)
    requires t in q
    ensures Ahead(q + back, t) == Ahead(q, t)
  {
    assert q != [];
    assert (q + back)[0] == q[0];
    if q[0] != t {
      assert (q + back)[1..] == q[1..] + back;
      AheadBack(q[1..], back, t);
    }
  }

  lemma {:induction false} AheadWithout(q: seq<Thread>, x: Thread, t: Thread)
    requires x != t
    ensures Ahead(Without(q, x), t) <= Ahead(q, t)
  {
    if q != [] {
      AheadWithout(q[1..], x, t);
      if q[0] != x { assert ([q[0]] + Without(q[1..], x))[1..] == Without(q[1..], x); }
    }
  }

  lemma {:induction false} AheadIndex(q: seq<Thread>, k: nat, j: nat)
    requires k < j < |q| && forall i | 0 <= i < j :: q[i] != q[j]
    ensures q[k] in Ahead(q, q[j])
  {
    if k > 0 {
      AheadIndex(q[1..], k - 1, j - 1);
    }
  }

  ghost predicate StillWaits(s: Vp, t: Thread, m: Mutex) {
    t in s.threads && s.threads[t].state.LockWait? && s.threads[t].at == InLock(m) && m in s.owners && m in s.lockQ
  }

  /** The mutex passed at most to a thread ahead of `t`, and nobody got ahead of `t`. */
  ghost predicate Passes(s: Vp, s': Vp, t: Thread, m: Mutex) {
    && m in s.owners && m in s.lockQ && m in s'.owners && m in s'.lockQ
    && Ahead(s'.lockQ[m], t) <= Ahead(s.lockQ[m], t)
    && (s'.owners[m] == s.owners[m] || (s'.owners[m] != null && s'.owners[m] in Ahead(s.lockQ[m], t)))
  }

  lemma LockPasses(s: Vp, k: Mutex, t: Thread, m: Mutex)
    requires s.current in s.threads && k in s.owners && k in s.lockQ && StillWaits(s, t, m) && t in s.lockQ[m]
    requires s.owners[m] != null
    ensures Passes(s, Lock(s, k).0, t, m)
  {
    AheadBack(s.lockQ[m], [s.current], t);
  }

  lemma UnlockPasses(s: Vp, k: Mutex, t: Thread, m: Mutex)
    requires QueuesOk(s) && StillWaits(s, t, m) && t in s.lockQ[m] && k in s.owners && k in s.lockQ
    requires StillWaits(Unlock(s, k).0, t, m)
    ensures Passes(s, Unlock(s, k).0, t, m)
  {
    if k == m {
      var q := s.lockQ[m];
      var j :| 0 <= j < |q| && q[j] == t;
      var f := First(s, q, LockWait);
      if f < j { AheadIndex(q, f, j); }
    }
  }

  lemma SchedulePasses(s: Vp, t: Thread, m: Mutex)
    requires ThreadsOk(s) && QueuesOk(s) && s.current == null && StillWaits(s, t, m)
    requires Next(s) in s.threads && PointKnown(s, s.threads[Next(s)].at)
    ensures Passes(s, Schedule(s).0, t, m)
  {
    hide QueuesOk;
    NextRunnable(s);
    AheadWithout(s.lockQ[m], Next(s), t);
  }

  lemma WaitsPass(s: Vp, npds: nat, timeout: Timeout, added: bool, c: Cond, t: Thread, m: Mutex)
    requires s.current in s.threads && m in s.owners && m in s.lockQ
    ensures Passes(s, Poll(s, npds, timeout, added).0, t, m) && Passes(s, Sleep(s, timeout).0, t, m)
    ensures c in s.conds ==> Passes(s, WaitAt(s, c, timeout, InWait(c)).0, t, m)
  {
  }

  lemma WakesPass(s: Vp, c: Cond, t: Thread, m: Mutex)
    requires c in s.conds && (forall u | u in s.conds[c] :: u in s.threads) && m in s.owners && m in s.lockQ
    ensures Passes(s, Signal(s, c), t, m) && Passes(s, Broadcast(s, c), t, m)
  {
  }

  lemma ExitPasses(s: Vp, retval: int, t: Thread, m: Mutex)
    requires ExitReady(s) && m in s.owners && m in s.lockQ
    ensures Passes(s, Exit(s, retval), t, m)
  {
    ExitForm(s, retval);
  }

  /** While `t` waits for `m`, one step neither lets `m` pass to a thread behind it nor lets one get ahead of it. */
  lemma NoOvertakingStep(s: Vp, op: Op, t: Thread, m: Mutex)
    requires Inv(s) && Sane(s) && Enabled(s, op) && StillWaits(s, t, m) && StillWaits(Do(s, op).0, t, m)
    ensures Passes(s, Do(s, op).0, t, m)
  {
    hide Inv, Sane, Enabled, Do, Passes;
    WaitsFor(s, t, m);
    if op.DoSchedule? {
      PickPasses(s, t, m);
    } else if op.DoWait? || op.DoSignal? || op.DoBroadcast? || op.DoLock? || op.DoUnlock? || op.DoExit? {
      CallPasses(s, op, t, m);
    } else {
      OtherPasses(s, op, t, m);
    }
  }

  /** A thread that waits for a mutex is linked to it, and another thread owns it. */
  lemma WaitsFor(s: Vp, t: Thread, m: Mutex)
    requires Inv(s) && StillWaits(s, t, m)
    ensures ThreadsOk(s) && QueuesOk(s) && t in s.lockQ[m] && s.owners[m] != null
  {
    hide TermsOk, StacksOk;
    assert ThreadOk(s, t);
    assert LockOk(s.threads[t], s.owners[m] == null, s.owners[m] == t);
  }

  lemma PickPasses(s: Vp, t: Thread, m: Mutex)
    requires ThreadsOk(s) && QueuesOk(s) && Sane(s) && Enabled(s, DoSchedule) && StillWaits(s, t, m)
    ensures Passes(s, Do(s, DoSchedule).0, t, m)
  {
    hide ThreadsOk, QueuesOk, Schedule, StillWaits, Passes;
    NextRunnable(s);
    SchedulePasses(s, t, m);
  }

  lemma OtherPasses(s: Vp, op: Op, t: Thread, m: Mutex)
    requires Sane(s) && Enabled(s, op) && m in s.owners && m in s.lockQ && s.owners[m] != null
    requires !(op.DoSchedule? || op.DoWait? || op.DoSignal? || op.DoBroadcast? || op.DoLock? || op.DoUnlock? ||
             op.DoExit?)
    ensures Passes(s, Do(s, op).0, t, m)
  {
    hide Do, Sane, Enabled;
    if op.DoPoll? || op.DoSleep? || op.DoJoin? {
      ParkKeepsLocks(s, op);
    } else if op.DoYield? || op.DoIdle? {
      TurnKeepsLocks(s, op);
    } else {
      OtherKeepsLocks(s, op, m);
    }
  }

  ghost predicate KeepsLocks(s: Vp, s': Vp) {
    s'.owners == s.owners && s'.lockQ == s.lockQ
  }

  lemma ParkKeepsLocks(s: Vp, op: Op)
    requires Sane(s) && Enabled(s, op) && (op.DoPoll? || op.DoSleep? || op.DoJoin?)
    ensures KeepsLocks(s, Do(s, op).0)
  {
    hide KeepsLocks, Poll, Sleep, Join;
    match op {
      case DoPoll(npds, timeout, added) => PollKeepsLocks(s, npds, timeout, added);
      case DoSleep(timeout) => SleepKeepsLocks(s, timeout);
      case DoJoin(target) => JoinKeepsLocks(s, target);
    }
  }

  lemma PollKeepsLocks(s: Vp, npds: nat, timeout: Timeout, added: bool)
    requires s.current in s.threads
    ensures KeepsLocks(s, Poll(s, npds, timeout, added).0)
  {
  }

  lemma SleepKeepsLocks(s: Vp, timeout: Timeout)
    requires s.current in s.threads
    ensures KeepsLocks(s, Sleep(s, timeout).0)
  {
  }

  lemma JoinKeepsLocks(s: Vp, target: Thread)
    requires s.current in s.threads && target in s.threads
    requires var c := s.threads[target].term; c != null ==> c in s.conds
    ensures KeepsLocks(s, Join(s, target).0)
  {
    hide Without;
  }

  lemma TurnKeepsLocks(s: Vp, op: Op)
    requires Sane(s) && Enabled(s, op) && (op.DoYield? || op.DoIdle?)
    ensures KeepsLocks(s, Do(s, op).0)
  {
    hide KeepsLocks, Yield, IdleTurn, ExpiryOrder, Dispatch, Fires;
    match op {
      case DoYield(now, expired) => YieldKeepsLocks(s, now, expired);
      case DoIdle(ready, now, expired) => IdleKeepsLocks(s, ready, now, expired);
    }
  }

  lemma YieldKeepsLocks(s: Vp, now: nat, expired: seq<Thread>)
    requires s.current in s.threads
    ensures KeepsLocks(s, Yield(s, now, expired).0)
  {
  }

  lemma IdleKeepsLocks(s: Vp, ready: map<Thread, nat>, now: nat, expired: seq<Thread>)
    requires s.idle in s.threads
    ensures KeepsLocks(s, IdleTurn(s, ready, now, expired).0)
  {
    hide Dispatch, Expire;
    DispatchShape(s, ready);
    ExpireKeepsLocks(Dispatch(s, ready), now, expired);
  }

  lemma ExpireKeepsLocks(s: Vp, now: nat, expired: seq<Thread>)
    ensures var s' := Expire(s, now, expired);
            KeepsLocks(s, s') && s'.idle == s.idle && s'.threads.Keys == s.threads.Keys
  {
  }

  lemma OtherKeepsLocks(s: Vp, op: Op, m: Mutex)
    requires Sane(s) && Enabled(s, op) && m in s.owners && m in s.lockQ && s.owners[m] != null
    requires op.DoInterrupt? || op.DoTryLock? || op.DoCreate? || op.DoNoThread? || op.DoNewCond? || op.DoNewMutex?
    ensures var s' := Do(s, op).0;
            m in s'.owners && m in s'.lockQ && s'.owners[m] == s.owners[m] && s'.lockQ[m] == s.lockQ[m]
  {
    hide Sane, Do;
    match op {
      case DoTryLock(_) => MutexKeepsLock(s, op, m);
      case DoNewMutex(_) => MutexKeepsLock(s, op, m);
      case _ => NewKeepsLocks(s, op);
    }
  }

  lemma MutexKeepsLock(s: Vp, op: Op, m: Mutex)
    requires Sane(s) && Enabled(s, op) && m in s.owners && m in s.lockQ && s.owners[m] != null
    requires op.DoTryLock? || op.DoNewMutex?
    ensures var s' := Do(s, op).0;
            m in s'.owners && m in s'.lockQ && s'.owners[m] == s.owners[m] && s'.lockQ[m] == s.lockQ[m]
  {
    hide Sane;
  }

  lemma NewKeepsLocks(s: Vp, op: Op)
    requires Sane(s) && Enabled(s, op)
    requires op.DoInterrupt? || op.DoCreate? || op.DoNoThread? || op.DoNewCond?
    ensures KeepsLocks(s, Do(s, op).0)
  {
    hide Sane, Interrupt, Create, CreateFails, Mapped, Creatable;
    match op {
      case DoInterrupt(t) => InterruptKeepsLocks(s, t);
      case DoCreate(t, term, size, mapped) => CreateKeepsLocks(s, t, term, size, mapped);
      case DoNoThread(_, size, mapped) => FailKeepsLocks(s, size, mapped);
      case _ =>
    }
  }

  lemma InterruptKeepsLocks(s: Vp, t: Thread)
    requires t in s.threads
    ensures KeepsLocks(s, Interrupt(s, t))
  {
  }

  lemma CreateKeepsLocks(s: Vp, t: Thread, term: Cond?, size: nat, mapped: Option<Stack>)
    ensures KeepsLocks(s, Create(s, t, term, size, mapped))
  {
    hide StackNew;
  }

  lemma FailKeepsLocks(s: Vp, size: nat, mapped: Option<Stack>)
    ensures KeepsLocks(s, CreateFails(s, size, mapped))
  {
  }

  lemma CallPasses(s: Vp, op: Op, t: Thread, m: Mutex)
    requires Sane(s) && QueuesOk(s) && Enabled(s, op) && StillWaits(s, t, m) && StillWaits(Do(s, op).0, t, m)
    requires t in s.lockQ[m] && s.owners[m] != null
    requires op.DoWait? || op.DoSignal? || op.DoBroadcast? || op.DoLock? || op.DoUnlock? || op.DoExit?
    ensures Passes(s, Do(s, op).0, t, m)
  {
    match op {
      case DoWait(c, timeout) => WaitsPass(s, 0, timeout, true, c, t, m);
      case DoSignal(c) => WakesPass(s, c, t, m);
      case DoBroadcast(c) => WakesPass(s, c, t, m);
      case DoLock(k) => LockPasses(s, k, t, m);
      case DoUnlock(k) => UnlockPasses(s, k, t, m);
      case DoExit(retval) => ExitPasses(s, retval, t, m);
    }
  }

  lemma RunPasses(states: seq<Vp>, ops: seq<Op>, k: nat, t: Thread, m: Mutex)
    requires IsRun(states, ops) && k + 1 < |states| && StillWaits(states[k], t, m) && StillWaits(states[k + 1], t, m)
    ensures Passes(states[k], states[k + 1], t, m)
  {
    RunInv(states, ops, k);
    assert Follows(states[k], ops[k], states[k + 1]);
    NoOvertakingStep(states[k], ops[k], t, m);
  }

  /** First come, first served: as long as `t` waits for `m`, only threads that were ahead of it ever get the mutex. */
  lemma {:induction false} NoOvertaking(states: seq<Vp>, ops: seq<Op>, i: nat, j: nat, t: Thread, m: Mutex)
    requires IsRun(states, ops) && i <= j < |states|
    requires forall k | i <= k <= j :: StillWaits(states[k], t, m)
    ensures StillWaits(states[i], t, m) && StillWaits(states[j], t, m)
    ensures Ahead(states[j].lockQ[m], t) <= Ahead(states[i].lockQ[m], t)
    ensures states[j].owners[m] == states[i].owners[m] ||
            (states[j].owners[m] != null && states[j].owners[m] in Ahead(states[i].lockQ[m], t))
    decreases j
  {
    hide *;
    if i < j {
      NoOvertaking(states, ops, i, j - 1, t, m);
      RunPasses(states, ops, j - 1, t, m);
    }
  }

  // ---------- condition variables ----------

  /** The threads a signal can wake, longest waiting first. */
  function Waiting(s: Vp, c: Cond): seq<Thread>
    requires c in s.conds
  {
    Only(s.conds[c], WaitersOf(s, c))
  }

  function Signals(s: Vp, c: Cond, k: nat): (r: Vp)
    requires c in s.conds && forall t | t in s.conds[c] :: t in s.threads
    ensures r.conds == s.conds
    decreases k
  {
    if k == 0 then s else Signals(Signal(s, c), c, k - 1)
  }

  lemma {:induction false} OnlyFrom<T>(q: seq<T>, keep: set<T>, k: nat)
    requires k <= |q| && forall i | 0 <= i < k :: q[i] !in keep
    ensures Only(q, keep) == Only(q[k..], keep)
  {
    if k > 0 {
      OnlyFrom(q[1..], keep, k - 1);
      assert q[1..][k - 1..] == q[k..];
    } else {
      assert q[0..] == q;
    }
  }

  lemma {:induction false} OnlySame<T>(q: seq<T>, keep: set<T>, keep': set<T>)
    requires forall x | x in q :: x in keep <==> x in keep'
    ensures Only(q, keep) == Only(q, keep')
  {
    if q != [] {
      assert q[0] in q;
      OnlySame(q[1..], keep, keep');
    }
  }

  /** A signal wakes the first waiter still in the wait, skipping those already woken; without one it does nothing. */
  lemma SignalWakesFirst(s: Vp, c: Cond)
    requires c in s.conds && Members(s.conds[c], s)
    ensures if Waiting(s, c) == [] then Signal(s, c) == s
            else Signal(s, c) == Wake(s, Waiting(s, c)[0], Signalled) && Waiting(Signal(s, c), c) == Waiting(s, c)[1..]
  {
    hide Signal, Only, Wake, WaitersOf;
    var q := s.conds[c];
    var k := First(s, q, CondWait);
    OnlyFirst(s, c, k);
    SignalIs(s, c);
    if k < |q| { OnlyRest(s, c, k); }
  }

  lemma SignalIs(s: Vp, c: Cond)
    requires c in s.conds && Members(s.conds[c], s)
    ensures var k := First(s, s.conds[c], CondWait);
            && Signal(s, c) == (if k < |s.conds[c]| then Wake(s, s.conds[c][k], Signalled) else s)
            && Signal(s, c).conds == s.conds
  {
  }

  /** The first thread of the queue in COND_WAIT is the first of those that a signal can wake. */
  lemma OnlyFirst(s: Vp, c: Cond, k: nat)
    requires c in s.conds && Members(s.conds[c], s) && k == First(s, s.conds[c], CondWait)
    ensures if k == |s.conds[c]| then Waiting(s, c) == []
            else Waiting(s, c) == [s.conds[c][k]] + Only(s.conds[c][k + 1..], WaitersOf(s, c))
  {
    var q, w := s.conds[c], WaitersOf(s, c);
    OnlyFrom(q, w, k);
    if k < |q| {
      assert q[k] in q && q[k] in w;
      assert q[k..][1..] == q[k + 1..];
    }
  }

  /** Once it is awake, the others are those that a signal can wake. */
  lemma OnlyRest(s: Vp, c: Cond, k: nat)
    requires c in s.conds && Members(s.conds[c], s) && k == First(s, s.conds[c], CondWait) < |s.conds[c]|
    ensures Waiting(Wake(s, s.conds[c][k], Signalled), c) == Only(s.conds[c][k + 1..], WaitersOf(s, c))
  {
    hide Only;
    var q, s' := s.conds[c], Wake(s, s.conds[c][k], Signalled);
    forall i | 0 <= i <= k ensures q[i] !in WaitersOf(s', c) { }
    OnlyFrom(q, WaitersOf(s', c), k + 1);
    OnlySame(q[k + 1..], WaitersOf(s, c), WaitersOf(s', c));
  }

  /** Waking the members of `w`, in order. */
  function WakeSeq(s: Vp, w: seq<Thread>): Vp
    requires forall t | t in w :: t in s.threads
    decreases |w|
  {
    if w == [] then s else WakeSeq(Wake(s, w[0], Signalled), w[1..])
  }

  /** k signals in a row wake the first min(k, n) of n waiters, in waiting order. */
  lemma {:induction false} SignalsWake(s: Vp, c: Cond, k: nat)
    requires c in s.conds && Members(s.conds[c], s)
    ensures Signals(s, c, k) == WakeSeq(s, FirstFew(Waiting(s, c), k))
    decreases k
  {
    if k > 0 {
      var s1 := Signal(s, c);
      SignalWakesFirst(s, c);
      SignalMembers(s, c);
      SignalsWake(s1, c, k - 1);
      if Waiting(s, c) != [] {
        WakeSeqStep(s, Waiting(s, c), k);
      }
    }
  }

  function FirstFew(w: seq<Thread>, k: nat): seq<Thread> {
    if k <= |w| then w[..k] else w
  }

  lemma SignalMembers(s: Vp, c: Cond)
    requires c in s.conds && Members(s.conds[c], s)
    ensures Members(Signal(s, c).conds[c], Signal(s, c))
  {
  }

  lemma WakeSeqStep(s: Vp, w: seq<Thread>, n: nat)
    requires n >= 1 && w != [] && forall t | t in w :: t in s.threads
    ensures WakeSeq(s, FirstFew(w, n)) == WakeSeq(Wake(s, w[0], Signalled), FirstFew(w[1..], n - 1))
  {
    assert FirstFew(w, n)[1..] == FirstFew(w[1..], n - 1);
  }

  /** What waking a sequence of distinct threads comes to. */
  lemma {:induction false} WakeSeqEffect(s: Vp, w: seq<Thread>)
    requires NoDup(w) && forall t | t in w :: t in s.threads
    ensures var s' := WakeSeq(s, w);
            && s'.runQ == s.runQ + w
            && s'.threads == (map t | t in s.threads ::
                 if t in w then s.threads[t].(state := Runnable, onSleepQ := false, cause := Signalled)
                     else s.threads[t])
            && s'.sleepers == s.sleepers - (set t | t in w)
            && s' == s.(threads := s'.threads, runQ := s'.runQ, sleepers := s'.sleepers)
    decreases |w|
  {
    if w != [] {
      assert w == [w[0]] + w[1..];
      assert w[0] !in w[1..];
      WakeSeqEffect(Wake(s, w[0], Signalled), w[1..]);
    }
  }

  lemma BroadcastIsWakeSeq(s: Vp, c: Cond)
    requires c in s.conds && Members(s.conds[c], s)
    ensures Broadcast(s, c) == WakeSeq(s, Waiting(s, c))
  {
    hide WakeSeq;
    var w := Waiting(s, c);
    OnlyNoDup(s.conds[c], WaitersOf(s, c));
    WakeSeqEffect(s, w);
    assert (set t | t in w) == WaitersOf(s, c);
  }

  /** A broadcast is as many signals as there are waiters. */
  lemma BroadcastIsSignals(s: Vp, c: Cond)
    requires c in s.conds && Members(s.conds[c], s)
    ensures Broadcast(s, c) == Signals(s, c, |Waiting(s, c)|)
  {
    var w := Waiting(s, c);
    BroadcastIsWakeSeq(s, c);
    SignalsWake(s, c, |w|);
    assert FirstFew(w, |w|) == w;
  }

  /**
   A condition wait that blocked returns 0 when a signal ended it, ETIME when its timer
   did, and EINTR when an interrupt is pending as it resumes; its flags are used up.
   */
  lemma WaitReturns(s: Vp, c: Cond)
    requires Inv(s) && Sane(s) && s.current == null && s.threads[Next(s)].at == InWait(c)
    ensures var (s', out) := Schedule(s);
            var t, r := Next(s), s.threads[Next(s)];
            && s'.current == t && !s'.threads[t].timedOut && !s'.threads[t].interrupt && t !in s'.conds[c]
            && (out == Returned(Err(EINTR)) <==> r.interrupt)
            && (out == Returned(Ok(0)) <==> r.cause == Signalled && !r.interrupt)
            && (out == Returned(Err(ETIME)) <==> r.cause == TimerFired && !r.interrupt)
  {
    hide Sane, TermsOk;
    NextRunnable(s);
  }

  // ---------- polls, sleeps and the clock ----------

  /** While the idle thread runs, the run queue is empty and every queued poll is still waiting, in every run. */
  lemma DispatchFindsWaiters(states: seq<Vp>, ops: seq<Op>, i: nat, t: Thread)
    requires IsRun(states, ops) && i < |states| && states[i].current == states[i].idle && t in states[i].ioQ
    ensures states[i].runQ == [] && t in states[i].threads && states[i].threads[t].state == IoWait
  {
    RunInv(states, ops, i);
    IdlePolls(states[i], t);
  }

  /**
   An uninterrupted poll of some descriptors returns 0 exactly when its timer ended it, and
   else a count of ready ones.
   */
  lemma PollReturns(s: Vp)
    requires Inv(s) && Sane(s) && s.current == null && s.threads[Next(s)].at.InPoll?
    ensures var (s', out) := Schedule(s);
            var t, r := Next(s), s.threads[Next(s)];
            && s'.current == t && t !in s'.ioQ && !s'.threads[t].interrupt
            && (out == Returned(Err(EINTR)) <==> r.interrupt)
            && (out == Returned(Ok(0)) <==> r.cause == TimerFired && !r.interrupt)
            && (!r.interrupt && r.cause != TimerFired ==>
                  r.cause == IoReady && out == Returned(Ok(r.at.ready)) && 1 <= r.at.ready <= r.at.npds)
  {
    hide Without, Sane, LocksOk, RestOk;
    NextRunnable(s);
  }

  /** A sleep that is not interrupted returns 0, and its timer has ended it; an interrupt overrides. */
  lemma SleepReturns(s: Vp)
    requires Inv(s) && Sane(s) && s.current == null && s.threads[Next(s)].at.InSleep?
    ensures var (s', out) := Schedule(s);
            var r := s.threads[Next(s)];
            out == Returned(if r.interrupt then Err(EINTR) else Ok(0)) && (!r.interrupt ==> r.cause == TimerFired)
  {
    NextRunnable(s);
  }

  /**
   What a clock check amounts to, in whatever order the heap yields the threads that are due:
   who goes, who stays, and how the expired threads stand before the old run queue.  That the
   loop over the heap takes exactly the threads due, in such an order, is the contract of
   VirtualProcessor.CheckClock.
   */
  lemma ClockCheck(s: Vp, now: nat, expired: seq<Thread>)
    requires Core(s) && ExpiryOrder(s, now, expired)
    ensures var s' := Expire(s, now, expired);
            && (forall t | t in s.sleepers :: t in s'.sleepers <==> s.threads[t].due > now)
            && s'.sleepers <= s.sleepers
            && (forall t | t in s'.sleepers :: s'.threads[t] == s.threads[t])
            && |s'.runQ| == |expired| + |s.runQ| && s'.runQ[|expired|..] == s.runQ
            && (forall t | t in s.threads :: t in s'.runQ[..|expired|] <==> t in s.sleepers && s.threads[t].due <= now)
            && (forall i, j | 0 <= i < j < |expired| :: s'.threads[s'.runQ[i]].due >= s'.threads[s'.runQ[j]].due)
  {
    hide PointOk, TermsOk, Reverse;
    var s' := Expire(s, now, expired);
    assert s'.runQ[|expired|..] == s.runQ && s'.runQ[..|expired|] == Reverse(expired);
    forall i, j | 0 <= i < j < |expired| ensures s'.threads[s'.runQ[i]].due >= s'.threads[s'.runQ[j]].due {
      ReverseAt(expired, i);
      ReverseAt(expired, j);
    }
  }
}
