/** Every step of the scheduler keeps its invariant. */
module SchedulerSteps {
  import opened Threads
  import opened SchedulerModel
  import opened SchedulerInvariant

  // ---------- waking one thread: signal, unlock, interrupt ----------

  predicate Blocked(r: Rec) {
    r.state.IoWait? || r.state.CondWait? || r.state.LockWait? || r.state.Sleeping? || r.state.Suspended?
  }

  predicate GoodCause(r: Rec, cause: Cause) {
    (cause.Signalled? && r.state.CondWait?) || (cause.Interrupted? && r.interrupt) ||
      (cause.LockGranted? && r.state.LockWait?)
  }

  /** Waking a blocked thread for a reason its resume point accepts. */
  lemma WakeThreads(s: Vp, t: Thread, cause: Cause)
    requires ThreadsOk(s) && t in s.threads && Blocked(s.threads[t]) && GoodCause(s.threads[t], cause)
    ensures ThreadsOk(Wake(s, t, cause))
  {
    assert ThreadOk(s, t);
    WakePlaces(s, t, cause);
    Replaced(s, Wake(s, t, cause), t);
  }

  lemma WakePlaces(s: Vp, t: Thread, cause: Cause)
    requires t in s.threads && ThreadOk(s, t) && Blocked(s.threads[t]) && GoodCause(s.threads[t], cause)
    requires s.current != null ==> s.current in s.threads
    ensures Replaces(s, Wake(s, t, cause), t)
  {
  }

  /** `s'` differs from `s` in `t` alone, and `t` is in order. */
  ghost predicate Replaces(s: Vp, s': Vp, t: Thread) {
    t in s'.threads && Elsewhere(s, s', t) && ThreadOk(s', t) && (s'.current != null ==> s'.current in s'.threads)
  }

  lemma Replaced(s: Vp, s': Vp, t: Thread)
    requires ThreadsOk(s) && Replaces(s, s', t)
    ensures ThreadsOk(s')
  {
    hide ThreadsOk, ThreadOk, Elsewhere;
    ElsewhereKeeps(s, s', t);
  }

  lemma WakeQueues(s: Vp, t: Thread, cause: Cause)
    requires QueuesOk(s) && t in s.threads && t !in s.runQ
    ensures QueuesOk(Wake(s, t, cause))
  {
  }

  lemma WakeLocks(s: Vp, t: Thread, cause: Cause)
    requires LocksOk(s) && t in s.threads && Blocked(s.threads[t]) && GoodCause(s.threads[t], cause)
    requires !cause.LockGranted?
    requires QueuesOk(s) && ThreadOk(s, t)
    ensures LocksOk(Wake(s, t, cause))
  {
    forall m | m in s.lockQ && t in s.lockQ[m] ensures s.threads[t].state.LockWait? && s.owners[m] != t {
      assert LockOk(s.threads[t], s.owners[m] == null, s.owners[m] == t);
    }
  }

  lemma WakeSteady(s: Vp, t: Thread, cause: Cause)
    requires t in s.threads && Blocked(s.threads[t]) && !s.threads[t].at.InExit?
    ensures Steady(s, Wake(s, t, cause))
  {
  }

  lemma WakeKeeps(s: Vp, t: Thread, cause: Cause)
    requires Core(s) && t in s.threads && Blocked(s.threads[t]) && GoodCause(s.threads[t], cause)
    requires !cause.LockGranted?
    ensures Core(Wake(s, t, cause))
  {
    assert ThreadOk(s, t);
    WakeThreads(s, t, cause);
    WakeQueues(s, t, cause);
    WakeLocks(s, t, cause);
    WakeSteady(s, t, cause);
    SteadyKeeps(s, Wake(s, t, cause));
  }

  lemma SignalKeeps(s: Vp, c: Cond)
    requires Inv(s) && s.current != s.idle && c in s.conds
    ensures Inv(Signal(s, c))
  {
    var k := First(s, s.conds[c], CondWait);
    if k < |s.conds[c]| {
      WakeKeeps(s, s.conds[c][k], Signalled);
    }
  }

  lemma InterruptKeeps(s: Vp, t: Thread)
    requires Inv(s) && s.current != s.idle && t in s.threads && !s.threads[t].at.Gone?
    ensures Inv(Interrupt(s, t))
  {
    hide QueuesOk;
    var r := s.threads[t];
    if r.state != Zombie {
      var s1 := Set(s, t, r.(interrupt := true));
      FlagKeeps(s, t, true);
      if Blocked(r) {
        WakeKeeps(s1, t, Interrupted);
      }
    }
  }

  // ---------- setting or taking the interrupt flag ----------

  lemma FlagThreads(s: Vp, t: Thread, flag: bool)
    requires ThreadsOk(s) && t in s.threads && (flag || t == s.current)
    ensures ThreadsOk(Set(s, t, s.threads[t].(interrupt := flag)))
  {
    assert ThreadOk(s, t);
    FlagPlaces(s, t, flag);
    Replaced(s, Set(s, t, s.threads[t].(interrupt := flag)), t);
  }

  lemma FlagPlaces(s: Vp, t: Thread, flag: bool)
    requires t in s.threads && ThreadOk(s, t) && (flag || t == s.current)
    requires s.current != null ==> s.current in s.threads
    ensures Replaces(s, Set(s, t, s.threads[t].(interrupt := flag)), t)
  {
    hide Elsewhere, PointOk;
    FlagElsewhere(s, t, flag);
    FlagThread(s, t, flag);
  }

  lemma FlagElsewhere(s: Vp, t: Thread, flag: bool)
    requires t in s.threads
    ensures Elsewhere(s, Set(s, t, s.threads[t].(interrupt := flag)), t)
  {
  }

  lemma FlagThread(s: Vp, t: Thread, flag: bool)
    requires t in s.threads && ThreadOk(s, t) && (flag || t == s.current)
    ensures ThreadOk(Set(s, t, s.threads[t].(interrupt := flag)), t)
  {
  }

  /** The record keeps all that its thread's place depends on. */
  predicate Quiet(r: Rec, r': Rec) {
    r'.state == r.state && r'.at == r.at && r'.term == r.term && r'.stack == r.stack && r'.cause == r.cause
  }

  lemma QuietQueues(s: Vp, t: Thread, r: Rec)
    requires t in s.threads && Quiet(s.threads[t], r) && QueuesOk(s)
    ensures QueuesOk(Set(s, t, r))
  {
    hide NoDup;
    var s' := Set(s, t, r);
    forall d | d in s'.conds ensures Members(s'.conds[d], s') { assert Members(s.conds[d], s); }
    forall k | k in s'.lockQ ensures Members(s'.lockQ[k], s') { assert Members(s.lockQ[k], s); }
  }

  lemma QuietLocks(s: Vp, t: Thread, r: Rec)
    requires t in s.threads && Quiet(s.threads[t], r) && LocksOk(s)
    ensures LocksOk(Set(s, t, r))
  {
  }

  lemma QuietSteady(s: Vp, t: Thread, r: Rec)
    requires t in s.threads && Quiet(s.threads[t], r)
    ensures Steady(s, Set(s, t, r))
  {
  }

  lemma QuietKeeps(s: Vp, t: Thread, r: Rec)
    requires Inv(s) && t in s.threads && Quiet(s.threads[t], r) && ThreadsOk(Set(s, t, r))
    ensures Inv(Set(s, t, r))
  {
    hide ThreadsOk, QueuesOk, LocksOk, RestOk, Steady, Quiet;
    QuietQueues(s, t, r);
    QuietLocks(s, t, r);
    QuietSteady(s, t, r);
    SteadyKeeps(s, Set(s, t, r));
  }

  lemma FlagKeeps(s: Vp, t: Thread, flag: bool)
    requires Inv(s) && t in s.threads && (flag || t == s.current)
    ensures Inv(Set(s, t, s.threads[t].(interrupt := flag)))
  {
    FlagThreads(s, t, flag);
    QuietKeeps(s, t, s.threads[t].(interrupt := flag));
  }

  // ---------- parking the caller ----------

  lemma PollThreads(s: Vp, npds: nat, timeout: Timeout)
    requires ThreadsOk(s) && AtCall(s) && !s.threads[s.current].interrupt
    ensures ThreadsOk(Poll(s, npds, timeout, true).0)
  {
    CurrentOk(s);
    PollPlaces(s, npds, timeout);
    Replaced(s, Poll(s, npds, timeout, true).0, s.current);
  }

  lemma PollPlaces(s: Vp, npds: nat, timeout: Timeout)
    requires s.current in s.threads && ThreadOk(s, s.current) && AtCall(s) && !s.threads[s.current].interrupt
    ensures Replaces(s, Poll(s, npds, timeout, true).0, s.current)
  {
    hide Elsewhere, PointOk;
    PollElsewhere(s, npds, timeout);
    PollThread(s, npds, timeout);
  }

  lemma PollElsewhere(s: Vp, npds: nat, timeout: Timeout)
    requires s.current in s.threads && !s.threads[s.current].interrupt
    ensures Elsewhere(s, Poll(s, npds, timeout, true).0, s.current)
  {
  }

  lemma PollThread(s: Vp, npds: nat, timeout: Timeout)
    requires s.current in s.threads && ThreadOk(s, s.current) && AtCall(s) && !s.threads[s.current].interrupt
    ensures s.current in Poll(s, npds, timeout, true).0.threads
    ensures ThreadOk(Poll(s, npds, timeout, true).0, s.current)
  {
  }

  lemma PollQueues(s: Vp, npds: nat, timeout: Timeout)
    requires s.current in s.threads && ThreadOk(s, s.current) && !s.threads[s.current].interrupt && AtCall(s)
    requires QueuesOk(s)
    ensures QueuesOk(Poll(s, npds, timeout, true).0)
  {
    hide PointOk;
  }

  lemma PollLocks(s: Vp, npds: nat, timeout: Timeout)
    requires s.current in s.threads && ThreadOk(s, s.current) && !s.threads[s.current].interrupt && AtCall(s)
    requires QueuesOk(s) && LocksOk(s)
    ensures LocksOk(Poll(s, npds, timeout, true).0)
  {
  }

  lemma PollSteady(s: Vp, npds: nat, timeout: Timeout)
    requires s.current in s.threads && ThreadOk(s, s.current) && !s.threads[s.current].interrupt && AtCall(s)
    ensures Steady(s, Poll(s, npds, timeout, true).0)
  {
    hide PointOk;
  }

  lemma PollKeeps(s: Vp, npds: nat, timeout: Timeout, added: bool)
    requires Inv(s) && AtCall(s)
    ensures Inv(Poll(s, npds, timeout, added).0)
  {
    if s.threads[s.current].interrupt {
      FlagKeeps(s, s.current, false);
    } else if added {
      PollThreads(s, npds, timeout);
      PollQueues(s, npds, timeout);
      PollLocks(s, npds, timeout);
      PollSteady(s, npds, timeout);
      SteadyKeeps(s, Poll(s, npds, timeout, added).0);
    }
  }

  lemma SleepThreads(s: Vp, timeout: Timeout)
    requires ThreadsOk(s) && AtCall(s) && !s.threads[s.current].interrupt
    ensures ThreadsOk(Sleep(s, timeout).0)
  {
    CurrentOk(s);
    SleepPlaces(s, timeout);
    Replaced(s, Sleep(s, timeout).0, s.current);
  }

  lemma SleepPlaces(s: Vp, timeout: Timeout)
    requires s.current in s.threads && ThreadOk(s, s.current) && AtCall(s) && !s.threads[s.current].interrupt
    ensures Replaces(s, Sleep(s, timeout).0, s.current)
  {
    hide Elsewhere, PointOk;
    SleepElsewhere(s, timeout);
    SleepThread(s, timeout);
  }

  lemma SleepElsewhere(s: Vp, timeout: Timeout)
    requires s.current in s.threads && !s.threads[s.current].interrupt
    ensures Elsewhere(s, Sleep(s, timeout).0, s.current)
  {
  }

  lemma SleepThread(s: Vp, timeout: Timeout)
    requires s.current in s.threads && ThreadOk(s, s.current) && AtCall(s) && !s.threads[s.current].interrupt
    ensures s.current in Sleep(s, timeout).0.threads && ThreadOk(Sleep(s, timeout).0, s.current)
  {
  }

  lemma SleepQueues(s: Vp, timeout: Timeout)
    requires s.current in s.threads && ThreadOk(s, s.current) && !s.threads[s.current].interrupt && AtCall(s)
    requires QueuesOk(s)
    ensures QueuesOk(Sleep(s, timeout).0)
  {
    hide NoDup;
  }

  lemma SleepLocks(s: Vp, timeout: Timeout)
    requires s.current in s.threads && ThreadOk(s, s.current) && !s.threads[s.current].interrupt && AtCall(s)
    requires QueuesOk(s) && LocksOk(s)
    ensures LocksOk(Sleep(s, timeout).0)
  {
  }

  lemma SleepSteady(s: Vp, timeout: Timeout)
    requires s.current in s.threads && ThreadOk(s, s.current) && !s.threads[s.current].interrupt && AtCall(s)
    ensures Steady(s, Sleep(s, timeout).0)
  {
    hide PointOk;
  }

  lemma SleepKeeps(s: Vp, timeout: Timeout)
    requires Inv(s) && AtCall(s)
    ensures Inv(Sleep(s, timeout).0)
  {
    if s.threads[s.current].interrupt {
      FlagKeeps(s, s.current, false);
    } else {
      SleepThreads(s, timeout);
      SleepQueues(s, timeout);
      SleepLocks(s, timeout);
      SleepSteady(s, timeout);
      SteadyKeeps(s, Sleep(s, timeout).0);
    }
  }

  lemma WaitThreads(s: Vp, c: Cond, timeout: Timeout)
    requires ThreadsOk(s) && AtCall(s) && !s.threads[s.current].interrupt && c in s.conds
    ensures ThreadsOk(WaitAt(s, c, timeout, InWait(c)).0)
  {
    CurrentOk(s);
    WaitPlaces(s, c, timeout);
    Replaced(s, WaitAt(s, c, timeout, InWait(c)).0, s.current);
  }

  lemma WaitPlaces(s: Vp, c: Cond, timeout: Timeout)
    requires s.current in s.threads && ThreadOk(s, s.current) && AtCall(s) && !s.threads[s.current].interrupt
    requires c in s.conds
    ensures Replaces(s, WaitAt(s, c, timeout, InWait(c)).0, s.current)
  {
    hide Elsewhere, PointOk;
    WaitElsewhere(s, c, timeout);
    WaitThread(s, c, timeout);
  }

  lemma WaitElsewhere(s: Vp, c: Cond, timeout: Timeout)
    requires s.current in s.threads && !s.threads[s.current].interrupt && c in s.conds
    ensures Elsewhere(s, WaitAt(s, c, timeout, InWait(c)).0, s.current)
  {
  }

  lemma WaitThread(s: Vp, c: Cond, timeout: Timeout)
    requires s.current in s.threads && ThreadOk(s, s.current) && AtCall(s) && !s.threads[s.current].interrupt
    requires c in s.conds
    ensures s.current in WaitAt(s, c, timeout, InWait(c)).0.threads
    ensures ThreadOk(WaitAt(s, c, timeout, InWait(c)).0, s.current)
  {
  }

  lemma WaitQueues(s: Vp, c: Cond, timeout: Timeout)
    requires s.current in s.threads && ThreadOk(s, s.current) && !s.threads[s.current].interrupt && AtCall(s)
    requires c in s.conds && QueuesOk(s)
    ensures QueuesOk(WaitAt(s, c, timeout, InWait(c)).0)
  {
    hide NoDup, Members;
    var s' := WaitAt(s, c, timeout, InWait(c)).0;
    SameMembers(s, s', s.runQ);
    SameMembers(s, s', s.zombieQ);
    SameMembers(s, s', s.ioQ);
    MembersMore(s, s', s.conds[c], s.current);
    forall d | d in s'.conds ensures Members(s'.conds[d], s') { if d != c { SameMembers(s, s', s.conds[d]); } }
    forall k | k in s'.lockQ ensures Members(s'.lockQ[k], s') { SameMembers(s, s', s.lockQ[k]); }
  }

  lemma SameMembers(s: Vp, s': Vp, q: seq<Thread>)
    requires Members(q, s) && s'.threads.Keys == s.threads.Keys
    ensures Members(q, s')
  {
  }

  lemma MembersMore(s: Vp, s': Vp, q: seq<Thread>, t: Thread)
    requires Members(q, s) && s'.threads.Keys == s.threads.Keys && t in s.threads && t !in q
    ensures Members(q + [t], s')
  {
  }

  lemma WaitLocks(s: Vp, c: Cond, timeout: Timeout)
    requires s.current in s.threads && ThreadOk(s, s.current) && !s.threads[s.current].interrupt && AtCall(s)
    requires UserCond(s, c)
    requires QueuesOk(s) && LocksOk(s)
    ensures LocksOk(WaitAt(s, c, timeout, InWait(c)).0)
  {
    hide NoDup, PointOk, LockOk;
    var s' := WaitAt(s, c, timeout, InWait(c)).0;
    forall m, t | m in s'.lockQ && t in s'.lockQ[m]
      ensures t in s'.threads && LockOk(s'.threads[t], s'.owners[m] == null, s'.owners[m] == t)
    {
      assert s.threads[t].at == InLock(m);
    }
  }

  lemma WaitSteady(s: Vp, c: Cond, timeout: Timeout)
    requires s.current in s.threads && ThreadOk(s, s.current) && !s.threads[s.current].interrupt && AtCall(s)
    requires UserCond(s, c)
    ensures Steady(s, WaitAt(s, c, timeout, InWait(c)).0)
  {
    hide PointOk, Lives;
    WaitLives(s, c, timeout);
  }

  lemma WaitLives(s: Vp, c: Cond, timeout: Timeout)
    requires s.current in s.threads && ThreadOk(s, s.current) && !s.threads[s.current].interrupt && AtCall(s)
    requires c in s.conds
    ensures Lives(s, WaitAt(s, c, timeout, InWait(c)).0)
  {
    hide PointOk;
  }

  lemma WaitKeeps(s: Vp, c: Cond, timeout: Timeout)
    requires Inv(s) && AtCall(s) && UserCond(s, c)
    ensures Inv(WaitAt(s, c, timeout, InWait(c)).0)
  {
    if s.threads[s.current].interrupt {
      FlagKeeps(s, s.current, false);
    } else {
      WaitThreads(s, c, timeout);
      WaitQueues(s, c, timeout);
      WaitLocks(s, c, timeout);
      WaitSteady(s, c, timeout);
      SteadyKeeps(s, WaitAt(s, c, timeout, InWait(c)).0);
    }
  }

  lemma LockThreads(s: Vp, m: Mutex)
    requires ThreadsOk(s) && AtCall(s) && m in s.owners && m in s.lockQ
    requires !s.threads[s.current].interrupt && s.owners[m] != null && s.owners[m] != s.current
    ensures ThreadsOk(Lock(s, m).0)
  {
    assert ThreadOk(s, s.current);
    ElsewhereKeeps(s, Lock(s, m).0, s.current);
  }

  lemma LockQueues(s: Vp, m: Mutex)
    requires s.current in s.threads && ThreadOk(s, s.current) && AtCall(s) && m in s.owners && m in s.lockQ
    requires !s.threads[s.current].interrupt && s.owners[m] != null && s.owners[m] != s.current
    requires QueuesOk(s)
    ensures QueuesOk(Lock(s, m).0)
  {
  }

  lemma LockLocks(s: Vp, m: Mutex)
    requires s.current in s.threads && ThreadOk(s, s.current) && AtCall(s) && m in s.owners && m in s.lockQ
    requires !s.threads[s.current].interrupt && s.owners[m] != null && s.owners[m] != s.current
    requires QueuesOk(s) && LocksOk(s)
    ensures LocksOk(Lock(s, m).0)
  {
  }

  lemma LockSteady(s: Vp, m: Mutex)
    requires s.current in s.threads && ThreadOk(s, s.current) && AtCall(s) && m in s.owners && m in s.lockQ
    requires !s.threads[s.current].interrupt && s.owners[m] != null && s.owners[m] != s.current
    ensures Steady(s, Lock(s, m).0)
  {
  }

  /** The mutex becomes `who`'s when the threads waiting on it allow that. */
  lemma OwnerLocks(s: Vp, m: Mutex, who: Thread?)
    requires LocksOk(s) && m in s.owners && (who != null ==> who in s.threads)
    requires forall t | t in s.lockQ[m] :: t in s.threads && LockOk(s.threads[t], who == null, who == t)
    ensures LocksOk(s.(owners := s.owners[m := who]))
  {
  }

  lemma OwnerKeeps(s: Vp, m: Mutex, who: Thread?)
    requires Inv(s) && m in s.owners && (who != null ==> who in s.threads)
    requires forall t | t in s.lockQ[m] :: t in s.threads && LockOk(s.threads[t], who == null, who == t)
    ensures Inv(s.(owners := s.owners[m := who]))
  {
    hide ThreadsOk, QueuesOk, LocksOk, RestOk;
    OwnerThreads(s, m, who);
    OwnerLocks(s, m, who);
    OwnersQueues(s, s.owners[m := who]);
    OwnerRest(s, m, who);
  }

  lemma OwnerThreads(s: Vp, m: Mutex, who: Thread?)
    requires ThreadsOk(s) && m in s.owners
    ensures ThreadsOk(s.(owners := s.owners[m := who]))
  {
    var s' := s.(owners := s.owners[m := who]);
    forall t | t in s'.threads ensures ThreadOk(s', t) { assert ThreadOk(s, t); }
  }

  lemma OwnerRest(s: Vp, m: Mutex, who: Thread?)
    requires RestOk(s)
    ensures RestOk(s.(owners := s.owners[m := who]))
  {
    SteadyKeeps(s, s.(owners := s.owners[m := who]));
  }

  lemma LockKeeps(s: Vp, m: Mutex)
    requires Inv(s) && AtCall(s) && m in s.owners
    ensures Inv(Lock(s, m).0)
  {
    var me: Thread := s.current;
    if s.threads[me].interrupt {
      FlagKeeps(s, me, false);
    } else if s.owners[m] == null {
      assert ThreadOk(s, me);
      OwnerKeeps(s, m, me);
    } else if s.owners[m] != me {
      LockThreads(s, m);
      LockQueues(s, m);
      LockLocks(s, m);
      LockSteady(s, m);
      SteadyKeeps(s, Lock(s, m).0);
    }
  }

  lemma TryLockKeeps(s: Vp, m: Mutex)
    requires Inv(s) && AtCall(s) && m in s.owners
    ensures Inv(TryLock(s, m).0)
  {
    if s.owners[m] == null {
      assert ThreadOk(s, s.current);
      OwnerKeeps(s, m, s.current);
    }
  }

  // ---------- unlock ----------

  lemma GrantLocks(s: Vp, m: Mutex, t: Thread)
    requires LocksOk(s) && QueuesOk(s) && s.current in s.threads && ThreadOk(s, s.current)
    requires m in s.owners && s.owners[m] == s.current && t in s.lockQ[m] && s.threads[t].state.LockWait?
    ensures LocksOk(Wake(s, t, LockGranted).(owners := s.owners[m := t]))
  {
    var s' := Wake(s, t, LockGranted).(owners := s.owners[m := t]);
    forall k, u | k in s'.lockQ && u in s'.lockQ[k]
      ensures u in s'.threads && LockOk(s'.threads[u], s'.owners[k] == null, s'.owners[k] == u)
    {
      assert LockOk(s.threads[u], s.owners[k] == null, s.owners[k] == u);
      assert s.threads[t].at == InLock(m) && s.threads[u].at == InLock(k);
    }
  }

  lemma GrantThreads(s: Vp, m: Mutex, t: Thread)
    requires ThreadsOk(s) && AtCall(s) && m in s.owners && t in s.threads && s.threads[t].state.LockWait?
    ensures ThreadsOk(Wake(s, t, LockGranted).(owners := s.owners[m := t]))
  {
    var s1 := Wake(s, t, LockGranted);
    WakeThreads(s, t, LockGranted);
    forall u | u in s1.threads ensures ThreadOk(s1.(owners := s.owners[m := t]), u) { assert ThreadOk(s1, u); }
  }

  lemma OwnersQueues(s: Vp, owners: map<Mutex, Thread?>)
    requires QueuesOk(s)
    ensures QueuesOk(s.(owners := owners))
  {
    var s' := s.(owners := owners);
    forall c | c in s'.conds ensures Members(s'.conds[c], s') { assert Members(s.conds[c], s); }
    forall k | k in s'.lockQ ensures Members(s'.lockQ[k], s') { assert Members(s.lockQ[k], s); }
  }

  lemma GrantSteady(s: Vp, m: Mutex, t: Thread)
    requires t in s.threads && Blocked(s.threads[t]) && !s.threads[t].at.InExit?
    ensures Steady(s, Wake(s, t, LockGranted).(owners := s.owners[m := t]))
  {
  }

  lemma GrantKeeps(s: Vp, m: Mutex, t: Thread)
    requires Inv(s) && AtCall(s) && m in s.owners && s.owners[m] == s.current && t in s.lockQ[m]
    requires s.threads[t].state.LockWait?
    ensures Inv(Wake(s, t, LockGranted).(owners := s.owners[m := t]))
  {
    assert ThreadOk(s, s.current) && ThreadOk(s, t);
    GrantThreads(s, m, t);
    GrantLocks(s, m, t);
    WakeQueues(s, t, LockGranted);
    OwnersQueues(Wake(s, t, LockGranted), s.owners[m := t]);
    GrantSteady(s, m, t);
    SteadyKeeps(s, Wake(s, t, LockGranted).(owners := s.owners[m := t]));
  }

  lemma UnlockKeeps(s: Vp, m: Mutex)
    requires Inv(s) && AtCall(s) && m in s.owners
    ensures Inv(Unlock(s, m).0)
  {
    hide PointOk, TermsOk;
    if s.owners[m] == s.current {
      assert ThreadOk(s, s.current);
      var k := First(s, s.lockQ[m], LockWait);
      if k < |s.lockQ[m]| {
        GrantKeeps(s, m, s.lockQ[m][k]);
      } else {
        assert forall t | t in s.lockQ[m] :: LockOk(s.threads[t], s.owners[m] == null, s.owners[m] == t);
        OwnerKeeps(s, m, null);
      }
    }
  }

  // ---------- waking many threads: broadcast, expiry, dispatch ----------

  lemma BroadcastThread(s: Vp, c: Cond, u: Thread)
    requires c in s.conds && u in s.threads && ThreadOk(s, u)
    ensures ThreadOk(Broadcast(s, c), u)
  {
  }

  lemma WakeAllQueues(s: Vp, q: seq<Thread>, woken: set<Thread>, cause: Cause)
    requires QueuesOk(s) && Members(q, s) && forall t | t in woken :: t !in s.runQ
    ensures QueuesOk(WakeAll(s, q, woken, cause))
  {
    hide Only;
    OnlyNoDup(q, woken);
    ConcatNoDup(s.runQ, Only(q, woken));
  }

  lemma BroadcastLocks(s: Vp, c: Cond)
    requires LocksOk(s) && QueuesOk(s) && c in s.conds
    ensures LocksOk(Broadcast(s, c))
  {
    var s' := Broadcast(s, c);
    forall m, t | m in s'.lockQ && t in s'.lockQ[m]
      ensures t in s'.threads && LockOk(s'.threads[t], s'.owners[m] == null, s'.owners[m] == t)
    {
      assert LockOk(s.threads[t], s.owners[m] == null, s.owners[m] == t);
      assert s.threads[t].at == InLock(m);
    }
  }

  lemma BroadcastSteady(s: Vp, c: Cond)
    requires c in s.conds && forall u | u in s.threads :: ThreadOk(s, u)
    ensures Steady(s, Broadcast(s, c))
  {
    var s' := Broadcast(s, c);
    forall u | u in s.threads
      ensures SteadyRec(s.threads[u], s'.threads[u]) && LivesRec(s.threads[u], s'.threads[u])
    {
      assert ThreadOk(s, u);
    }
  }

  lemma BroadcastKeeps(s: Vp, c: Cond)
    requires Inv(s) && AtCall(s) && c in s.conds
    ensures Inv(Broadcast(s, c))
  {
    var s' := Broadcast(s, c);
    forall u | u in s'.threads ensures ThreadOk(s', u) {
      assert ThreadOk(s, u);
      BroadcastThread(s, c, u);
    }
    forall t | t in WaitersOf(s, c) ensures t !in s.runQ { assert ThreadOk(s, t); }
    WakeAllQueues(s, s.conds[c], WaitersOf(s, c), Signalled);
    BroadcastLocks(s, c);
    BroadcastSteady(s, c);
    SteadyKeeps(s, s');
  }

  lemma ExpireThread(s: Vp, now: nat, expired: seq<Thread>, u: Thread)
    requires u in s.threads && ThreadOk(s, u) && ExpiryOrder(s, now, expired)
    ensures ThreadOk(Expire(s, now, expired), u)
  {
  }

  lemma ExpireQueues(s: Vp, now: nat, expired: seq<Thread>)
    requires QueuesOk(s) && ExpiryOrder(s, now, expired) && forall t | t in expired :: t !in s.runQ
    ensures QueuesOk(Expire(s, now, expired))
  {
    ReverseNoDup(expired);
    ConcatNoDup(Reverse(expired), s.runQ);
  }

  lemma ExpireLocks(s: Vp, now: nat, expired: seq<Thread>)
    requires LocksOk(s) && forall t | t in expired && t in s.threads :: !s.threads[t].at.InLock?
    requires QueuesOk(s)
    ensures LocksOk(Expire(s, now, expired))
  {
    var s' := Expire(s, now, expired);
    forall m, t | m in s'.lockQ && t in s'.lockQ[m]
      ensures t in s'.threads && LockOk(s'.threads[t], s'.owners[m] == null, s'.owners[m] == t)
    {
      assert LockOk(s.threads[t], s.owners[m] == null, s.owners[m] == t);
      assert s.threads[t].at == InLock(m);
    }
  }

  lemma ExpireSteady(s: Vp, now: nat, expired: seq<Thread>)
    requires ExpiryOrder(s, now, expired) && forall u | u in s.threads :: ThreadOk(s, u)
    ensures Steady(s, Expire(s, now, expired))
  {
    var s' := Expire(s, now, expired);
    forall u | u in s.threads
      ensures SteadyRec(s.threads[u], s'.threads[u]) && LivesRec(s.threads[u], s'.threads[u])
    {
      assert ThreadOk(s, u);
    }
  }

  lemma ExpireKeeps(s: Vp, now: nat, expired: seq<Thread>)
    requires Core(s) && ExpiryOrder(s, now, expired)
    ensures Core(Expire(s, now, expired))
  {
    hide QueuesOk, TermsOk, StacksOk, Reverse;
    var s' := Expire(s, now, expired);
    forall u | u in s'.threads ensures ThreadOk(s', u) {
      assert ThreadOk(s, u);
      ExpireThread(s, now, expired, u);
    }
    forall t | t in expired ensures t !in s.runQ && !s.threads[t].at.InLock? { assert ThreadOk(s, t); }
    ExpireQueues(s, now, expired);
    ExpireLocks(s, now, expired);
    ExpireSteady(s, now, expired);
    SteadyKeeps(s, s');
  }

  lemma RequeueThreads(s: Vp)
    requires ThreadsOk(s) && AtCall(s)
    ensures ThreadsOk(Park(s, s.current, Runnable, AtUser).(runQ := s.runQ + [s.current]))
  {
    assert ThreadOk(s, s.current);
    ElsewhereKeeps(s, Park(s, s.current, Runnable, AtUser).(runQ := s.runQ + [s.current]), s.current);
  }

  lemma RequeueRest(s: Vp)
    requires AtCall(s) && s.current in s.threads && ThreadOk(s, s.current)
    ensures var s' := Park(s, s.current, Runnable, AtUser).(runQ := s.runQ + [s.current]);
            (QueuesOk(s) ==> QueuesOk(s')) && (QueuesOk(s) && LocksOk(s) ==> LocksOk(s')) && Steady(s, s')
  {
    hide LockOk;
  }

  lemma RequeueKeeps(s: Vp)
    requires Core(s) && AtCall(s)
    ensures Inv(Park(s, s.current, Runnable, AtUser).(runQ := s.runQ + [s.current]))
  {
    hide QueuesOk;
    RequeueThreads(s);
    RequeueRest(s);
    SteadyKeeps(s, Park(s, s.current, Runnable, AtUser).(runQ := s.runQ + [s.current]));
  }

  lemma YieldKeeps(s: Vp, now: nat, expired: seq<Thread>)
    requires Inv(s) && AtCall(s) && ExpiryOrder(s, now, expired)
    ensures Inv(Yield(s, now, expired).0)
  {
    var s1 := Expire(s, now, expired);
    ExpireKeeps(s, now, expired);
    if s1.runQ != [] {
      RequeueKeeps(s1);
    }
  }

  // ---------- the idle thread ----------

  /** While the idle thread runs, every queued poll belongs to a thread still waiting for I/O. */
  lemma IdlePolls(s: Vp, t: Thread)
    requires ThreadsOk(s) && s.runQ == [] && t in s.ioQ && t in s.threads
    ensures s.threads[t].state.IoWait? && t !in s.runQ && t != s.idle
  {
    assert ThreadOk(s, t);
  }

  lemma DispatchThread(s: Vp, ready: map<Thread, nat>, u: Thread)
    requires u in s.threads && ThreadOk(s, u) && Fires(s, ready) && s.runQ == []
    ensures ThreadOk(Dispatch(s, ready), u)
  {
  }

  lemma DispatchQueues(s: Vp, ready: map<Thread, nat>)
    requires QueuesOk(s) && Fires(s, ready) && s.runQ == []
    ensures QueuesOk(Dispatch(s, ready))
  {
    WakeAllQueues(s, s.ioQ, ready.Keys, IoReady);
    OnlyNoDup(s.ioQ, (set t | t in s.ioQ && t !in ready));
    DispatchLinks(s, ready);
  }

  lemma DispatchLinks(s: Vp, ready: map<Thread, nat>)
    requires QueuesOk(s) && Fires(s, ready)
    requires QueuesOk(WakeAll(s, s.ioQ, ready.Keys, IoReady)) && NoDup(Dispatch(s, ready).ioQ)
    ensures QueuesOk(Dispatch(s, ready))
  {
    hide Fires, Only, WakeAll, Dispatch;
    var s1 := WakeAll(s, s.ioQ, ready.Keys, IoReady);
    var s' := Dispatch(s, ready);
    DispatchShape(s, ready);
    DispatchPoints(s, ready);
    SameMembers(s1, s', s1.runQ);
    SameMembers(s1, s', s1.zombieQ);
    forall c | c in s'.conds ensures Members(s'.conds[c], s') { SameMembers(s1, s', s1.conds[c]); }
    forall k | k in s'.lockQ ensures Members(s'.lockQ[k], s') { SameMembers(s1, s', s1.lockQ[k]); }
  }

  /** A dispatch changes only where polls resume. */
  lemma DispatchPoints(s: Vp, ready: map<Thread, nat>)
    ensures forall t | t in s.threads && !s.threads[t].at.InPoll? ::
              t in Dispatch(s, ready).threads && Dispatch(s, ready).threads[t].at == s.threads[t].at
  {
  }

  lemma DispatchLocks(s: Vp, ready: map<Thread, nat>)
    requires LocksOk(s) && QueuesOk(s) && Fires(s, ready)
    ensures LocksOk(Dispatch(s, ready))
  {
    hide Dispatch, LockOk, Fires, QueuesOk;
    var s' := Dispatch(s, ready);
    DispatchShape(s, ready);
    forall m, t | m in s'.lockQ && t in s'.lockQ[m]
      ensures t in s'.threads && LockOk(s'.threads[t], s'.owners[m] == null, s'.owners[m] == t)
    {
      LockedNotReady(s, ready, m, t);
      DispatchSpares(s, ready, t);
    }
  }

  lemma LockedNotReady(s: Vp, ready: map<Thread, nat>, m: Mutex, t: Thread)
    requires QueuesOk(s) && Fires(s, ready) && m in s.lockQ && t in s.lockQ[m]
    ensures t in s.threads && t !in ready
  {
  }

  lemma DispatchShape(s: Vp, ready: map<Thread, nat>)
    ensures var s1, s' := WakeAll(s, s.ioQ, ready.Keys, IoReady), Dispatch(s, ready);
            && s' == s1.(ioQ := s'.ioQ, threads := s'.threads) && (forall t | t in s'.ioQ :: t in s.ioQ)
            && s'.threads.Keys == s1.threads.Keys == s.threads.Keys && s1.conds == s.conds
            && s1.owners == s.owners && s1.lockQ == s.lockQ
  {
  }

  lemma DispatchSpares(s: Vp, ready: map<Thread, nat>, t: Thread)
    requires t in s.threads && t !in ready
    ensures t in Dispatch(s, ready).threads && Dispatch(s, ready).threads[t] == s.threads[t]
  {
  }

  lemma DispatchSteady(s: Vp, ready: map<Thread, nat>)
    requires Fires(s, ready)
    requires forall u | u in s.threads :: ThreadOk(s, u)
    ensures Steady(s, Dispatch(s, ready))
  {
    var s' := Dispatch(s, ready);
    forall u | u in s.threads
      ensures SteadyRec(s.threads[u], s'.threads[u]) && LivesRec(s.threads[u], s'.threads[u])
    {
      assert ThreadOk(s, u);
    }
  }

  lemma DispatchKeeps(s: Vp, ready: map<Thread, nat>)
    requires Inv(s) && s.current == s.idle && Fires(s, ready)
    ensures Core(Dispatch(s, ready))
  {
    var s' := Dispatch(s, ready);
    forall u | u in s'.threads ensures ThreadOk(s', u) {
      assert ThreadOk(s, u);
      DispatchThread(s, ready, u);
    }
    DispatchQueues(s, ready);
    DispatchLocks(s, ready);
    DispatchSteady(s, ready);
    SteadyKeeps(s, s');
  }

  lemma SettleThreads(s: Vp)
    requires ThreadsOk(s) && s.current == s.idle
    ensures ThreadsOk(Park(s, s.idle, Runnable, AtIdle))
  {
    assert ThreadOk(s, s.idle);
    ElsewhereKeeps(s, Park(s, s.idle, Runnable, AtIdle), s.idle);
  }

  lemma SettleRest(s: Vp)
    requires s.idle in s.threads && ThreadOk(s, s.idle) && s.current == s.idle
    ensures var s' := Park(s, s.idle, Runnable, AtIdle);
            (QueuesOk(s) ==> QueuesOk(s')) && (QueuesOk(s) && LocksOk(s) ==> LocksOk(s')) && Steady(s, s')
  {
    hide PointOk, LockOk;
  }

  lemma IdleKeeps(s: Vp, ready: map<Thread, nat>, now: nat, expired: seq<Thread>)
    requires Inv(s) && s.current == s.idle && Fires(s, ready) && ExpiryOrder(Dispatch(s, ready), now, expired)
    ensures Inv(Idle(s, ready, now, expired))
  {
    var s1 := Dispatch(s, ready);
    var s2 := Expire(s1, now, expired);
    DispatchKeeps(s, ready);
    ExpireKeeps(s1, now, expired);
    SettleThreads(s2);
    SettleRest(s2);
    SteadyKeeps(s2, Park(s2, s.idle, Runnable, AtIdle));
  }

  // ---------- new objects ----------

  lemma NewCondQueues(s: Vp, c: Cond)
    requires QueuesOk(s) && c !in s.conds
    ensures QueuesOk(s.(conds := s.conds[c := []]))
  {
    var s' := s.(conds := s.conds[c := []]);
    forall d | d in s'.conds ensures Members(s'.conds[d], s') { assert d != c ==> Members(s.conds[d], s); }
    forall k | k in s'.lockQ ensures Members(s'.lockQ[k], s') { assert Members(s.lockQ[k], s); }
  }

  lemma NewCondKeeps(s: Vp, c: Cond)
    requires Inv(s) && c !in s.conds
    ensures Inv(s.(conds := s.conds[c := []]))
  {
    var s' := s.(conds := s.conds[c := []]);
    forall u | u in s'.threads ensures ThreadOk(s', u) { assert ThreadOk(s, u); }
    NewCondQueues(s, c);
    NewCondSteady(s, c);
    SteadyKeeps(s, s');
  }

  lemma NewCondSteady(s: Vp, c: Cond)
    requires c !in s.conds
    ensures Steady(s, s.(conds := s.conds[c := []])) && (LocksOk(s) ==> LocksOk(s.(conds := s.conds[c := []])))
  {
  }

  lemma NewMutexLocks(s: Vp, m: Mutex)
    requires LocksOk(s) && m !in s.owners
    ensures var s' := s.(owners := s.owners[m := null], lockQ := s.lockQ[m := []]);
            LocksOk(s') && Steady(s, s')
  {
  }

  lemma NewMutexQueues(s: Vp, m: Mutex)
    requires QueuesOk(s)
    ensures QueuesOk(s.(owners := s.owners[m := null], lockQ := s.lockQ[m := []]))
  {
    var s' := s.(owners := s.owners[m := null], lockQ := s.lockQ[m := []]);
    forall d | d in s'.conds ensures Members(s'.conds[d], s') { assert Members(s.conds[d], s); }
    forall k | k in s'.lockQ ensures Members(s'.lockQ[k], s') { assert k != m ==> Members(s.lockQ[k], s); }
  }

  lemma NewMutexKeeps(s: Vp, m: Mutex)
    requires Inv(s) && m !in s.owners
    ensures Inv(s.(owners := s.owners[m := null], lockQ := s.lockQ[m := []]))
  {
    hide ThreadsOk, QueuesOk, LocksOk, RestOk, Steady;
    NewMutexThreads(s, m);
    NewMutexQueues(s, m);
    NewMutexLocks(s, m);
    SteadyKeeps(s, s.(owners := s.owners[m := null], lockQ := s.lockQ[m := []]));
  }

  lemma NewMutexThreads(s: Vp, m: Mutex)
    requires ThreadsOk(s) && m !in s.owners
    ensures ThreadsOk(s.(owners := s.owners[m := null], lockQ := s.lockQ[m := []]))
  {
    hide NoDup;
    var s' := s.(owners := s.owners[m := null], lockQ := s.lockQ[m := []]);
    forall u | u in s'.threads ensures ThreadOk(s', u) { assert ThreadOk(s, u); }
  }

  // ---------- thread creation ----------

  lemma CreateThreads(s: Vp, t: Thread, term: Cond?, size: nat, mapped: Option<Stack>)
    requires ThreadsOk(s) && QueuesOk(s) && AtCall(s) && Creatable(s, t, term, size, mapped)
    ensures ThreadsOk(Create(s, t, term, size, mapped))
  {
    var s' := Create(s, t, term, size, mapped);
    forall u | u in s'.threads ensures ThreadOk(s', u) { assert u != t ==> ThreadOk(s, u); }
  }

  lemma CreateQueues(s: Vp, t: Thread, term: Cond?, size: nat, mapped: Option<Stack>)
    requires QueuesOk(s) && Creatable(s, t, term, size, mapped)
    ensures QueuesOk(Create(s, t, term, size, mapped)) && (LocksOk(s) ==> LocksOk(Create(s, t, term, size, mapped)))
  {
    var s' := Create(s, t, term, size, mapped);
    forall d | d in s'.conds ensures Members(s'.conds[d], s') { assert d != term ==> Members(s.conds[d], s); }
    forall k | k in s'.lockQ ensures Members(s'.lockQ[k], s') { assert Members(s.lockQ[k], s); }
  }

  lemma CreateTerms(s: Vp, t: Thread, term: Cond?, size: nat, mapped: Option<Stack>)
    requires TermsOk(s) && QueuesOk(s) && Creatable(s, t, term, size, mapped)
    ensures TermsOk(Create(s, t, term, size, mapped))
  {
    hide FirstFit, StackNew, Creatable, QueuesOk, TermsOk, Start;
    CreatedNew(s, t, term, size, mapped);
    FreeKeeps(s, StackNew(s.freeStacks, size, mapped).1);
    StartTerms(s.(freeStacks := StackNew(s.freeStacks, size, mapped).1), t, term,
      StackNew(s.freeStacks, size, mapped).0);
  }

  lemma StartTerms(s: Vp, t: Thread, term: Cond?, st: Option<Stack>)
    requires TermsOk(s) && t !in s.threads && (term != null ==> term !in s.conds)
    requires forall c | c in s.conds :: t !in s.conds[c]
    ensures TermsOk(Start(s, t, term, st))
  {
    var s' := Start(s, t, term, st);
    forall u | u in s'.threads && s'.threads[u].term != null ensures TermOk(s', u, s'.threads[u].term) {
      assert u != t ==> TermOk(s, u, s.threads[u].term);
    }
  }

  lemma CreatedNew(s: Vp, t: Thread, term: Cond?, size: nat, mapped: Option<Stack>)
    requires Creatable(s, t, term, size, mapped) && QueuesOk(s)
    ensures t !in s.threads && (term != null ==> term !in s.conds) && forall c | c in s.conds :: t !in s.conds[c]
  {
  }

  lemma CreateStacks(s: Vp, t: Thread, term: Cond?, size: nat, mapped: Option<Stack>)
    requires StacksOk(s) && Creatable(s, t, term, size, mapped)
    ensures StacksOk(Create(s, t, term, size, mapped))
  {
    StackNewTakes(s.freeStacks, size, mapped);
  }

  lemma CreateKeeps(s: Vp, t: Thread, term: Cond?, size: nat, mapped: Option<Stack>)
    requires Inv(s) && AtCall(s) && Creatable(s, t, term, size, mapped)
    ensures Inv(Create(s, t, term, size, mapped))
  {
    hide QueuesOk, PointOk, TermsOk, StacksOk;
    var s' := Create(s, t, term, size, mapped);
    CreateThreads(s, t, term, size, mapped);
    CreateQueues(s, t, term, size, mapped);
    CreateTerms(s, t, term, size, mapped);
    CreateStacks(s, t, term, size, mapped);
    assert Active(s') == Active(s) + {t} by {
      assert t != s.idle;
    }
  }

  lemma NoThreadStacks(s: Vp, size: nat, mapped: Option<Stack>)
    requires StacksOk(s) && Mapped(s, size, mapped)
    ensures StacksOk(CreateFails(s, size, mapped))
  {
    var (st, free) := StackNew(s.freeStacks, size, mapped);
    StackNewTakes(s.freeStacks, size, mapped);
    if st.Some? { StackFreeAdds(free, st.value); }
  }

  lemma NoThreadKeeps(s: Vp, size: nat, mapped: Option<Stack>)
    requires Inv(s) && Mapped(s, size, mapped)
    ensures Inv(CreateFails(s, size, mapped))
  {
    var s' := CreateFails(s, size, mapped);
    forall u | u in s'.threads ensures ThreadOk(s', u) { assert ThreadOk(s, u); }
    NoThreadStacks(s, size, mapped);
    FreeKeeps(s, s'.freeStacks);
  }

  lemma FreeKeeps(s: Vp, free: seq<Stack>)
    ensures var s' := s.(freeStacks := free);
            && (QueuesOk(s) ==> QueuesOk(s')) && (LocksOk(s) ==> LocksOk(s')) && (TermsOk(s) ==> TermsOk(s')) &&
                 Active(s') == Active(s)
  {
    var s' := s.(freeStacks := free);
    if TermsOk(s) {
      forall u | u in s'.threads && s'.threads[u].term != null ensures TermOk(s', u, s'.threads[u].term) {
        assert TermOk(s, u, s.threads[u].term);
      }
    }
  }

  // ---------- thread exit ----------

  lemma RetvalKeeps(s: Vp, retval: int)
    requires Inv(s) && AtCall(s)
    ensures Inv(Set(s, s.current, s.threads[s.current].(retval := retval)))
  {
    var r := s.threads[s.current].(retval := retval);
    CurrentOk(s);
    RetvalPlaces(s, retval);
    Replaced(s, Set(s, s.current, r), s.current);
    QuietKeeps(s, s.current, r);
  }

  lemma RetvalPlaces(s: Vp, retval: int)
    requires AtCall(s) && s.current in s.threads && ThreadOk(s, s.current)
    ensures Replaces(s, Set(s, s.current, s.threads[s.current].(retval := retval)), s.current)
  {
  }

  /** The state after an exit that nobody has been signalled about. */
  function Zombified(s: Vp): Vp
    requires s.current in s.threads
  {
    Zombify(s, s.current).(active := s.active - 1)
  }

  lemma ZombifyThreads(s: Vp)
    requires ThreadsOk(s) && AtCall(s) && s.threads[s.current].term != null
    ensures ThreadsOk(Zombified(s))
  {
    assert ThreadOk(s, s.current);
    ElsewhereKeeps(s, Zombified(s), s.current);
  }

  lemma ZombifyQueues(s: Vp)
    requires QueuesOk(s) && AtCall(s) && s.current in s.threads && ThreadOk(s, s.current)
    ensures QueuesOk(Zombified(s)) && (LocksOk(s) ==> LocksOk(Zombified(s)))
  {
    hide PointOk;
  }

  lemma ZombifyTerms(s: Vp)
    requires TermsOk(s) && AtCall(s) && s.current in s.threads && ThreadOk(s, s.current)
    requires var c := s.threads[s.current].term;
             c != null && forall u | u in s.conds[c] :: !s.threads[u].state.CondWait?
    ensures TermsOk(Zombified(s))
  {
    var s' := Zombified(s);
    forall u | u in s'.threads && s'.threads[u].term != null ensures TermOk(s', u, s'.threads[u].term) {
      assert TermOk(s, u, s.threads[u].term);
    }
  }

  lemma ZombifyKeeps(s: Vp)
    requires Inv(s) && AtCall(s)
    requires var c := s.threads[s.current].term;
             c != null && forall u | u in s.conds[c] :: !s.threads[u].state.CondWait?
    ensures Inv(Zombified(s))
  {
    hide QueuesOk, TermsOk;
    var s' := Zombified(s);
    assert ThreadOk(s, s.current);
    ZombifyThreads(s);
    ZombifyQueues(s);
    ZombifyTerms(s);
    ZombifyStacks(s);
    assert Active(s') == Active(s) - {s.current};
  }

  lemma ZombifyStacks(s: Vp)
    requires StacksOk(s) && s.current in s.threads && ThreadOk(s, s.current) && AtCall(s)
    ensures StacksOk(Zombified(s))
  {
  }

  lemma FirstOfOne(s: Vp, q: seq<Thread>, state: State)
    requires |q| == 1 && q[0] in s.threads
    ensures First(s, q, state) == if s.threads[q[0]].state == state then 0 else 1
  {
    assert First(s, q[1..], state) == 0;
  }

  /** Putting the thread on the zombie queue first and signalling its joiner after is the same as the other order. */
  lemma ZombifySignal(s: Vp, c: Cond)
    requires s.current in s.threads && c in s.conds && |s.conds[c]| <= 1
    requires forall u | u in s.conds[c] :: u in s.threads && u != s.current
    ensures Signal(Zombified(s), c) == Zombified(Signal(s, c))
  {
    hide Wake, Zombified;
    var q := s.conds[c];
    ZombifiedShape(s);
    if |q| == 1 {
      assert q[0] in q;
      FirstOfOne(s, q, CondWait);
      FirstOfOne(Zombified(s), q, CondWait);
      WakeZombified(s, q[0]);
    }
  }

  lemma ZombifiedShape(s: Vp)
    requires s.current in s.threads
    ensures var s' := Zombified(s);
            && s'.conds == s.conds && s'.threads.Keys == s.threads.Keys
            && forall u | u in s.threads && u != s.current :: s'.threads[u] == s.threads[u]
  {
  }

  lemma WakeZombified(s: Vp, t: Thread)
    requires s.current in s.threads && t in s.threads && t != s.current
    ensures t in Zombified(s).threads && s.current in Wake(s, t, Signalled).threads
    ensures Wake(Zombified(s), t, Signalled) == Zombified(Wake(s, t, Signalled))
  {
    assert Wake(Zombified(s), t, Signalled).threads == Zombified(Wake(s, t, Signalled)).threads;
  }

  lemma BuryThreads(s: Vp)
    requires ThreadsOk(s) && AtCall(s) && s.threads[s.current].term == null
    ensures ThreadsOk(Bury(s, s.current))
  {
    assert ThreadOk(s, s.current);
    ElsewhereKeeps(s, Bury(s, s.current), s.current);
  }

  lemma BuryQueues(s: Vp)
    requires AtCall(s) && s.current in s.threads && ThreadOk(s, s.current) && QueuesOk(s)
    ensures QueuesOk(Bury(s, s.current))
  {
    hide NoDup, AtCall;
    var s' := Bury(s, s.current);
    forall d | d in s'.conds ensures Members(s'.conds[d], s') { assert Members(s.conds[d], s); }
    forall k | k in s'.lockQ ensures Members(s'.lockQ[k], s') { assert Members(s.lockQ[k], s); }
  }

  lemma BuryLocks(s: Vp)
    requires AtCall(s) && s.current in s.threads && ThreadOk(s, s.current) && QueuesOk(s) && LocksOk(s)
    ensures LocksOk(Bury(s, s.current))
  {
  }

  lemma BuryTerms(s: Vp)
    requires s.current in s.threads && s.threads[s.current].term == null && TermsOk(s)
    requires ThreadOk(s, s.current) && AtCall(s)
    ensures TermsOk(Bury(s, s.current))
  {
    var s' := Bury(s, s.current);
    forall u | u in s'.threads && s'.threads[u].term != null ensures TermOk(s', u, s'.threads[u].term) {
      assert TermOk(s, u, s.threads[u].term);
    }
  }

  lemma BuryStacks(s: Vp, t: Thread)
    requires StacksOk(s) && t in s.threads && !s.threads[t].at.Gone?
    ensures StacksOk(Bury(s, t))
  {
    var s' := Bury(s, t);
    var st := s.threads[t].stack;
    if st.Some? {
      StackFreeAdds(s.freeStacks, st.value);
      forall u | u in s'.threads && !s'.threads[u].at.Gone? && s'.threads[u].stack.Some?
        ensures s'.threads[u].stack.value !in s'.freeStacks
      {
        assert u != t && s.threads[u].stack != st;
      }
    }
  }

  lemma ExitForm(s0: Vp, retval: int)
    requires ExitReady(s0)
    ensures var s := Set(s0, s0.current, s0.threads[s0.current].(retval := retval));
            var c := s0.threads[s0.current].term;
            Exit(s0, retval) == if c != null then Signal(Zombified(s), c)
              else Bury(s, s.current).(active := s.active - 1)
  {
  }

  lemma ExitKeeps(s0: Vp, retval: int)
    requires Inv(s0) && AtCall(s0)
    ensures ExitReady(s0) && Inv(Exit(s0, retval))
  {
    hide ThreadsOk, QueuesOk, LocksOk, TermsOk, StacksOk;
    ReadyToExit(s0);
    ExitForm(s0, retval);
    RetvalKeeps(s0, retval);
    RetiredKeeps(s0, Set(s0, s0.current, s0.threads[s0.current].(retval := retval)), retval);
  }

  lemma ReadyToExit(s: Vp)
    requires ThreadsOk(s) && QueuesOk(s) && TermsOk(s) && AtCall(s)
    ensures ExitReady(s)
  {
  }

  lemma RetiredKeeps(s0: Vp, s: Vp, retval: int)
    requires ExitReady(s0) && AtCall(s0) && Inv(s)
    requires s == Set(s0, s0.current, s0.threads[s0.current].(retval := retval))
    requires var c := s0.threads[s0.current].term;
             Exit(s0, retval) ==
             if c != null then Signal(Zombified(s), c) else Bury(s, s.current).(active := s.active - 1)
    ensures Inv(Exit(s0, retval))
  {
    hide Inv, Exit, Signal, Zombified, Bury;
    if s.threads[s.current].term != null {
      ExitJoinable(s);
    } else {
      BuryKeeps(s);
    }
  }

  lemma ExitJoinable(s: Vp)
    requires Inv(s) && AtCall(s) && s.threads[s.current].term != null && s.threads[s.current].term in s.conds
    ensures Inv(Signal(Zombified(s), s.threads[s.current].term))
  {
    hide StacksOk;
    var me: Thread := s.current;
    var c: Cond := s.threads[me].term;
    assert ThreadOk(s, me) && TermOk(s, me, c);
    ZombifySignal(s, c);
    SignalKeeps(s, c);
    SignalledOne(s, me, c);
    ZombifyKeeps(Signal(s, c));
  }

  ghost predicate ExitReady(s: Vp) {
    && s.current in s.threads && (var c := s.threads[s.current].term; c != null ==> c in s.conds)
    && forall c, t | c in s.conds && t in s.conds[c] :: t in s.threads
  }

  lemma SignalledOne(s: Vp, me: Thread, c: Cond)
    requires c in s.conds && |s.conds[c]| <= 1 && forall u | u in s.conds[c] :: u in s.threads && u != me
    ensures forall u | u in s.conds[c] :: !Signal(s, c).threads[u].state.CondWait?
  {
    if |s.conds[c]| == 1 {
      FirstOfOne(s, s.conds[c], CondWait);
    }
  }

  lemma BuryKeeps(s: Vp)
    requires Inv(s) && AtCall(s) && s.threads[s.current].term == null
    ensures Inv(Bury(s, s.current).(active := s.active - 1))
  {
    var s1 := Bury(s, s.current);
    assert ThreadOk(s, s.current);
    BuryThreads(s);
    BuryQueues(s);
    BuryLocks(s);
    BuryTerms(s);
    BuryStacks(s, s.current);
    BuryActive(s);
    CountKeeps(s1, s.active - 1);
  }

  lemma BuryActive(s: Vp)
    requires AtCall(s) && s.current in s.threads && s.threads[s.current].at.AtUser?
    ensures s.current in Active(s) && Active(Bury(s, s.current)) == Active(s) - {s.current}
  {
  }

  lemma CountKeeps(s: Vp, n: int)
    requires ThreadsOk(s) && QueuesOk(s) && LocksOk(s) && TermsOk(s) && StacksOk(s) && n == |Active(s)|
    ensures Core(s.(active := n))
  {
    hide ThreadsOk, QueuesOk, LocksOk, TermsOk, StacksOk, Active;
    CountThreads(s, n);
    CountQueues(s, n);
    CountTerms(s, n);
    CountRest(s, n);
  }

  lemma CountThreads(s: Vp, n: int)
    requires ThreadsOk(s)
    ensures ThreadsOk(s.(active := n))
  {
    var s' := s.(active := n);
    forall u | u in s'.threads ensures ThreadOk(s', u) { assert ThreadOk(s, u); }
  }

  lemma CountQueues(s: Vp, n: int)
    requires QueuesOk(s) && LocksOk(s)
    ensures QueuesOk(s.(active := n)) && LocksOk(s.(active := n))
  {
    hide NoDup;
    var s' := s.(active := n);
    forall d | d in s'.conds ensures Members(s'.conds[d], s') { assert Members(s.conds[d], s); }
    forall k | k in s'.lockQ ensures Members(s'.lockQ[k], s') { assert Members(s.lockQ[k], s); }
  }

  lemma CountTerms(s: Vp, n: int)
    requires TermsOk(s)
    ensures TermsOk(s.(active := n))
  {
    var s' := s.(active := n);
    forall u | u in s'.threads && s'.threads[u].term != null ensures TermOk(s', u, s'.threads[u].term) {
      assert TermOk(s, u, s.threads[u].term);
    }
  }

  lemma CountRest(s: Vp, n: int)
    requires StacksOk(s)
    ensures StacksOk(s.(active := n)) && Active(s.(active := n)) == Active(s)
  {
  }

  // ---------- join ----------

  /** `target` is alive or a zombie nobody has joined or is joining. */
  ghost predicate Joinable(s: Vp, target: Thread, c: Cond) {
    && s.current in s.threads && target in s.threads && target != s.current
    && s.threads[target].term == c && c in s.conds && s.conds[c] == [] && !Joined(s.threads[target])
  }

  lemma JoinParkThreads(s: Vp, target: Thread, c: Cond)
    requires ThreadsOk(s) && AtCall(s) && Joinable(s, target, c) && !s.threads[s.current].interrupt
    ensures ThreadsOk(WaitAt(s, c, Forever, InJoin(target, c)).0)
  {
    CurrentOk(s);
    JoinParkPlaces(s, target, c);
    Replaced(s, WaitAt(s, c, Forever, InJoin(target, c)).0, s.current);
  }

  lemma JoinParkPlaces(s: Vp, target: Thread, c: Cond)
    requires s.current in s.threads && ThreadOk(s, s.current) && AtCall(s) && !s.threads[s.current].interrupt
    requires Joinable(s, target, c)
    ensures Replaces(s, WaitAt(s, c, Forever, InJoin(target, c)).0, s.current)
  {
  }

  lemma JoinParkQueues(s: Vp, target: Thread, c: Cond)
    requires QueuesOk(s) && AtCall(s) && Joinable(s, target, c) && !s.threads[s.current].interrupt
    requires ThreadOk(s, s.current)
    ensures QueuesOk(WaitAt(s, c, Forever, InJoin(target, c)).0)
  {
    var s' := WaitAt(s, c, Forever, InJoin(target, c)).0;
    forall d | d in s'.conds ensures Members(s'.conds[d], s') { assert Members(s.conds[d], s); }
    forall k | k in s'.lockQ ensures Members(s'.lockQ[k], s') { assert Members(s.lockQ[k], s); }
  }

  lemma JoinParkTerms(s: Vp, target: Thread, c: Cond)
    requires TermsOk(s) && AtCall(s) && Joinable(s, target, c) && !s.threads[s.current].interrupt
    requires ThreadOk(s, s.current)
    requires !s.threads[target].state.Zombie?
    ensures TermsOk(WaitAt(s, c, Forever, InJoin(target, c)).0)
  {
    var s' := WaitAt(s, c, Forever, InJoin(target, c)).0;
    forall u | u in s'.threads && s'.threads[u].term != null ensures TermOk(s', u, s'.threads[u].term) {
      assert TermOk(s, u, s.threads[u].term);
    }
  }

  lemma JoinParkRest(s: Vp, target: Thread, c: Cond)
    requires AtCall(s) && Joinable(s, target, c) && !s.threads[s.current].interrupt && ThreadOk(s, s.current)
    ensures var s' := WaitAt(s, c, Forever, InJoin(target, c)).0;
            (QueuesOk(s) && LocksOk(s) ==> LocksOk(s')) && Lives(s, s')
  {
  }

  lemma ReapThreads(s: Vp, target: Thread, c: Cond)
    requires ThreadsOk(s) && QueuesOk(s) && Joinable(s, target, c) && s.threads[target].state.Zombie?
    requires target != s.idle
    ensures ThreadsOk(JoinRound(s, target, c).0)
  {
    assert ThreadOk(s, target);
    ReapPlaces(s, target, c);
    Replaced(s, JoinRound(s, target, c).0, target);
  }

  lemma ReapPlaces(s: Vp, target: Thread, c: Cond)
    requires Joinable(s, target, c) && ThreadOk(s, target) && s.threads[target].state.Zombie? && target != s.idle
    requires QueuesOk(s) && s.current in s.threads
    ensures Replaces(s, JoinRound(s, target, c).0, target)
  {
  }

  lemma ReapQueues(s: Vp, target: Thread, c: Cond)
    requires QueuesOk(s) && Joinable(s, target, c) && s.threads[target].state.Zombie? && ThreadOk(s, target)
    ensures QueuesOk(JoinRound(s, target, c).0)
  {
    hide Doze;
    WithoutNoDup(s.zombieQ, target);
    var s' := JoinRound(s, target, c).0;
    forall d | d in s'.conds ensures Members(s'.conds[d], s') { assert Members(s.conds[d], s); }
    forall k | k in s'.lockQ ensures Members(s'.lockQ[k], s') { assert Members(s.lockQ[k], s); }
  }

  lemma ReapLocks(s: Vp, target: Thread, c: Cond)
    requires QueuesOk(s) && LocksOk(s) && Joinable(s, target, c) && s.threads[target].state.Zombie?
    requires ThreadOk(s, target)
    ensures LocksOk(JoinRound(s, target, c).0)
  {
  }

  lemma ReapLives(s: Vp, target: Thread, c: Cond)
    requires Joinable(s, target, c) && s.threads[target].state.Zombie? && ThreadOk(s, target)
    ensures Lives(s, JoinRound(s, target, c).0)
  {
  }

  lemma ReapTerms(s: Vp, target: Thread, c: Cond)
    requires TermsOk(s) && Joinable(s, target, c) && s.threads[target].state.Zombie? && ThreadOk(s, target)
    ensures TermsOk(JoinRound(s, target, c).0)
  {
    var s' := JoinRound(s, target, c).0;
    forall u | u in s'.threads && s'.threads[u].term != null ensures TermOk(s', u, s'.threads[u].term) {
      assert TermOk(s, u, s.threads[u].term);
    }
  }

  lemma JoinRoundKeeps(s: Vp, target: Thread, c: Cond)
    requires Inv(s) && AtCall(s) && Joinable(s, target, c)
    ensures Inv(JoinRound(s, target, c).0)
  {
    assert ThreadOk(s, s.current) && ThreadOk(s, target);
    if s.threads[target].state == Zombie {
      ReapThreads(s, target, c);
      ReapQueues(s, target, c);
      ReapLocks(s, target, c);
      ReapLives(s, target, c);
      ReapTerms(s, target, c);
      LivesKeeps(s, JoinRound(s, target, c).0);
    } else if s.threads[s.current].interrupt {
      FlagKeeps(s, s.current, false);
    } else {
      JoinParkThreads(s, target, c);
      JoinParkQueues(s, target, c);
      JoinParkTerms(s, target, c);
      JoinParkRest(s, target, c);
      LivesKeeps(s, JoinRound(s, target, c).0);
    }
  }

  lemma JoinKeeps(s: Vp, target: Thread)
    requires Inv(s) && AtCall(s) && target in s.threads && !Joined(s.threads[target])
    ensures Inv(Join(s, target).0)
  {
    var c := s.threads[target].term;
    if c != null && s.current != target && s.conds[c] == [] {
      JoinRoundKeeps(s, target, c);
    }
  }

  // ---------- resuming a thread ----------

  lemma NextRunnable(s: Vp)
    requires ThreadsOk(s) && QueuesOk(s) && s.current == null
    ensures Next(s) in s.threads && ThreadOk(s, Next(s)) && s.threads[Next(s)].state.Runnable?
    ensures PointKnown(s, s.threads[Next(s)].at)
  {
    assert ThreadOk(s, Next(s));
  }

  lemma PickElsewhere(s: Vp)
    requires QueuesOk(s) && s.current == null && Next(s) in s.threads
    ensures Elsewhere(s, Pick(s), Next(s))
  {
  }

  lemma ElsewhereTrans(s: Vp, s1: Vp, s2: Vp, t: Thread)
    requires Elsewhere(s, s1, t) && Elsewhere(s1, s2, t)
    ensures Elsewhere(s, s2, t)
  {
    forall u | u in s.threads && u != t ensures SameLinks(s, s2, u) {
      assert SameLinks(s, s1, u) && SameLinks(s1, s2, u);
    }
  }

  lemma PickQueues(s: Vp)
    requires QueuesOk(s) && s.current == null && Next(s) in s.threads && s.threads[Next(s)].state.Runnable?
    ensures QueuesOk(Pick(s)) && (LocksOk(s) ==> LocksOk(Pick(s)))
  {
    var s' := Pick(s);
    forall d | d in s'.conds ensures Members(s'.conds[d], s') { assert Members(s.conds[d], s); }
    forall k | k in s'.lockQ ensures Members(s'.lockQ[k], s') { assert Members(s.lockQ[k], s); }
  }

  lemma PickSteady(s: Vp)
    requires Next(s) in s.threads && s.threads[Next(s)].state.Runnable? && !s.threads[Next(s)].at.InExit?
    ensures Steady(s, Pick(s))
  {
  }

  /** What is known of the thread just picked. */
  ghost predicate Picked(s: Vp, t: Thread) {
    t in s.threads && s.current == t && s.threads[t].state.Running? && PointKnown(s, s.threads[t].at)
  }

  /** Back from a poll or a sleep. */
  lemma PollBackElsewhere(s: Vp, t: Thread)
    requires Picked(s, t) && (s.threads[t].at.InPoll? || s.threads[t].at.InSleep?)
    ensures Elsewhere(s, Resume(s, t).0, t) && Resume(s, t).0.current == t
  {
    hide Elsewhere;
    BackElsewhere(s, t, s.ioQ);
    BackElsewhere(s, t, Without(s.ioQ, t));
  }

  lemma BackElsewhere(s: Vp, t: Thread, ioQ: seq<Thread>)
    requires t in s.threads && forall u | u != t :: u in ioQ <==> u in s.ioQ
    ensures Elsewhere(s, Back(s, t).(ioQ := ioQ), t)
  {
  }

  lemma PollBackSteady(s: Vp, t: Thread)
    requires Picked(s, t) && (s.threads[t].at.InPoll? || s.threads[t].at.InSleep?)
    ensures Steady(s, Resume(s, t).0)
  {
    BackSteady(s, t, s.ioQ);
    BackSteady(s, t, Without(s.ioQ, t));
  }

  lemma BackSteady(s: Vp, t: Thread, ioQ: seq<Thread>)
    requires Picked(s, t) && (s.threads[t].at.InPoll? || s.threads[t].at.InSleep?)
    ensures Steady(s, Back(s, t).(ioQ := ioQ))
  {
  }

  lemma PollBackQueues(s: Vp, t: Thread)
    requires QueuesOk(s) && Picked(s, t) && (s.threads[t].at.InPoll? || s.threads[t].at.InSleep?)
    ensures QueuesOk(Resume(s, t).0)
  {
    hide Without;
    var s' := Resume(s, t).0;
    WithoutNoDup(s.ioQ, t);
    forall d | d in s'.conds ensures Members(s'.conds[d], s') { assert Members(s.conds[d], s); }
    forall k | k in s'.lockQ ensures Members(s'.lockQ[k], s') { assert Members(s.lockQ[k], s); }
  }

  lemma PollBackLocks(s: Vp, t: Thread)
    requires LocksOk(s) && QueuesOk(s) && Picked(s, t) && (s.threads[t].at.InPoll? || s.threads[t].at.InSleep?)
    ensures LocksOk(Resume(s, t).0)
  {
    hide Without;
    var s' := Resume(s, t).0;
    forall m, u | m in s'.lockQ && u in s'.lockQ[m]
      ensures u in s'.threads && LockOk(s'.threads[u], s'.owners[m] == null, s'.owners[m] == u)
    {
      assert LockOk(s.threads[u], s.owners[m] == null, s.owners[m] == u) && s.threads[u].at == InLock(m);
    }
  }

  /** Back from a condition variable's wait queue. */
  lemma AwakeElsewhere(s: Vp, t: Thread, c: Cond)
    requires Picked(s, t) && c in s.conds
    requires s.threads[t].at == InWait(c) || (s.threads[t].at.InJoin? && s.threads[t].at.cond == c)
    ensures Elsewhere(s, Awake(s, t, c), t) && Lives(s, Awake(s, t, c))
  {
  }

  lemma AwakeQueues(s: Vp, t: Thread, c: Cond)
    requires QueuesOk(s) && Picked(s, t) && c in s.conds
    requires s.threads[t].at == InWait(c) || (s.threads[t].at.InJoin? && s.threads[t].at.cond == c)
    ensures QueuesOk(Awake(s, t, c))
  {
    hide Without;
    var s' := Awake(s, t, c);
    WithoutNoDup(s.conds[c], t);
    forall d | d in s'.conds ensures Members(s'.conds[d], s') { assert Members(s.conds[d], s); }
    forall k | k in s'.lockQ ensures Members(s'.lockQ[k], s') { assert Members(s.lockQ[k], s); }
  }

  lemma AwakeLocks(s: Vp, t: Thread, c: Cond)
    requires LocksOk(s) && QueuesOk(s) && Picked(s, t) && c in s.conds && !s.threads[t].at.InLock?
    ensures LocksOk(Awake(s, t, c))
  {
    var s' := Awake(s, t, c);
    forall m, u | m in s'.lockQ && u in s'.lockQ[m]
      ensures u in s'.threads && LockOk(s'.threads[u], s'.owners[m] == null, s'.owners[m] == u)
    {
      assert LockOk(s.threads[u], s.owners[m] == null, s.owners[m] == u) && s.threads[u].at == InLock(m);
    }
  }

  lemma AwakeTerms(s: Vp, t: Thread, c: Cond)
    requires TermsOk(s) && Picked(s, t) && c in s.conds && t in s.conds[c]
    requires s.threads[t].at == InWait(c) || (s.threads[t].at.InJoin? && s.threads[t].at.cond == c)
    ensures TermsOk(Awake(s, t, c))
  {
    var s' := Awake(s, t, c);
    forall u | u in s'.threads && s'.threads[u].term != null ensures TermOk(s', u, s'.threads[u].term) {
      assert TermOk(s, u, s.threads[u].term);
      if s.threads[u].term == c { WithoutNoDup(s.conds[c], t); }
    }
  }

  /** Back from a mutex's wait queue. */
  lemma LockBackElsewhere(s: Vp, t: Thread)
    requires Picked(s, t) && s.threads[t].at.InLock?
    ensures Elsewhere(s, Resume(s, t).0, t)
  {
  }

  lemma LockBackSteady(s: Vp, t: Thread)
    requires Picked(s, t) && s.threads[t].at.InLock?
    ensures Steady(s, Resume(s, t).0)
  {
  }

  lemma LockBackQueues(s: Vp, t: Thread)
    requires QueuesOk(s) && Picked(s, t) && s.threads[t].at.InLock?
    ensures QueuesOk(Resume(s, t).0)
  {
    var s' := Resume(s, t).0;
    WithoutNoDup(s.lockQ[s.threads[t].at.lock], t);
    forall d | d in s'.conds ensures Members(s'.conds[d], s') { assert Members(s.conds[d], s); }
    forall k | k in s'.lockQ ensures Members(s'.lockQ[k], s') { assert Members(s.lockQ[k], s); }
  }

  lemma LockBackLocks(s: Vp, t: Thread)
    requires LocksOk(s) && QueuesOk(s) && Picked(s, t) && s.threads[t].at.InLock?
    ensures LocksOk(Resume(s, t).0)
  {
    var s' := Resume(s, t).0;
    forall m, u | m in s'.lockQ && u in s'.lockQ[m]
      ensures u in s'.threads && LockOk(s'.threads[u], s'.owners[m] == null, s'.owners[m] == u)
    {
      assert LockOk(s.threads[u], s.owners[m] == null, s.owners[m] == u) && s.threads[u].at == InLock(m);
    }
  }

  lemma ResumeThread(s: Vp)
    requires ThreadsOk(s) && QueuesOk(s) && s.current == null && Next(s) in s.threads
    requires PointKnown(s, s.threads[Next(s)].at)
    requires ThreadOk(s, Next(s)) && !s.threads[Next(s)].at.InExit? && !s.threads[Next(s)].at.InJoin?
    ensures ThreadOk(Resume(Pick(s), Next(s)).0, Next(s))
  {
  }

  lemma AwakeThread(s: Vp, c: Cond)
    requires ThreadsOk(s) && QueuesOk(s) && s.current == null && Next(s) in s.threads && c in s.conds
    requires ThreadOk(s, Next(s)) && s.threads[Next(s)].at.InJoin? && s.threads[Next(s)].at.cond == c
    ensures ThreadOk(Awake(Pick(s), Next(s), c), Next(s))
  {
  }

  lemma ResumeKeepsThreads(s: Vp, s': Vp, t: Thread)
    requires ThreadsOk(s) && QueuesOk(s) && s.current == null && t == Next(s) && t in s.threads
    requires Elsewhere(Pick(s), s', t) && ThreadOk(s', t) && (s'.current == t || s'.current == null)
    ensures ThreadsOk(s')
  {
    PickElsewhere(s);
    ElsewhereTrans(s, Pick(s), s', t);
    ElsewhereKeeps(s, s', t);
  }

  /** Resuming a poll, a sleep, user code or the idle loop. */
  lemma SchedulePoll(s: Vp)
    requires Inv(s) && s.current == null && Next(s) in s.threads && PointKnown(s, s.threads[Next(s)].at)
    requires var at := s.threads[Next(s)].at; at.InPoll? || at.InSleep?
    ensures Core(Schedule(s).0)
  {
    hide ThreadsOk, QueuesOk, LocksOk, RestOk, Steady, Elsewhere, Resume;
    var t, p := Next(s), Pick(s);
    PickKeeps(s);
    ResumeThread(s);
    PollBackElsewhere(p, t);
    ResumeKeepsThreads(s, Schedule(s).0, t);
    PollBackQueues(p, t);
    PollBackLocks(p, t);
    PollBackSteady(p, t);
    SteadyKeeps(p, Schedule(s).0);
  }

  /** What a resumption starts from. */
  lemma PickKeeps(s: Vp)
    requires Inv(s) && s.current == null && Next(s) in s.threads && !s.threads[Next(s)].at.InExit?
    ensures ThreadOk(s, Next(s)) && s.threads[Next(s)].state.Runnable?
    ensures var p := Pick(s); QueuesOk(p) && LocksOk(p) && RestOk(p)
  {
    hide ThreadsOk, QueuesOk, LocksOk, RestOk, Steady;
    NextRunnable(s);
    PickQueues(s);
    PickSteady(s);
    SteadyKeeps(s, Pick(s));
  }

  lemma ScheduleUser(s: Vp)
    requires Inv(s) && s.current == null && Next(s) in s.threads && PointKnown(s, s.threads[Next(s)].at)
    requires var at := s.threads[Next(s)].at; at.AtUser? || at.AtIdle?
    ensures Core(Schedule(s).0)
  {
    NextRunnable(s);
    PickQueues(s);
    PickSteady(s);
    SteadyKeeps(s, Pick(s));
    PickElsewhere(s);
    ResumeThread(s);
    ElsewhereKeeps(s, Pick(s), Next(s));
  }

  lemma ScheduleLock(s: Vp)
    requires Inv(s) && s.current == null && Next(s) in s.threads && PointKnown(s, s.threads[Next(s)].at)
    requires s.threads[Next(s)].at.InLock?
    ensures Core(Schedule(s).0)
  {
    var t, p := Next(s), Pick(s);
    NextRunnable(s);
    PickQueues(s);
    PickSteady(s);
    SteadyKeeps(s, p);
    LockBackElsewhere(p, t);
    ResumeThread(s);
    ResumeKeepsThreads(s, Schedule(s).0, t);
    LockBackQueues(p, t);
    LockBackLocks(p, t);
    LockBackSteady(p, t);
    SteadyKeeps(p, Schedule(s).0);
  }

  /** The part of a resumption that both kinds of condition wait share. */
  lemma AwakeKeeps(s: Vp, c: Cond)
    requires Inv(s) && s.current == null && Next(s) in s.threads && c in s.conds
    requires var at := s.threads[Next(s)].at; at == InWait(c) || (at.InJoin? && at.cond == c)
    requires ThreadOk(Awake(Pick(s), Next(s), c), Next(s))
    ensures Core(Awake(Pick(s), Next(s), c))
  {
    var t, p := Next(s), Pick(s);
    NextRunnable(s);
    PickQueues(s);
    PickSteady(s);
    SteadyKeeps(s, p);
    AwakeElsewhere(p, t, c);
    ResumeKeepsThreads(s, Awake(p, t, c), t);
    AwakeQueues(p, t, c);
    AwakeLocks(p, t, c);
    AwakeTerms(p, t, c);
    LivesKeeps(p, Awake(p, t, c));
  }

  lemma ScheduleWait(s: Vp)
    requires Inv(s) && s.current == null && Next(s) in s.threads && PointKnown(s, s.threads[Next(s)].at)
    requires s.threads[Next(s)].at.InWait?
    ensures Core(Schedule(s).0)
  {
    NextRunnable(s);
    ResumeThread(s);
    AwakeKeeps(s, s.threads[Next(s)].at.cond);
  }

  lemma AwakeJoinable(s: Vp, target: Thread, c: Cond)
    requires TermsOk(s) && QueuesOk(s) && s.current == null && Next(s) in s.threads && ThreadOk(s, Next(s))
    requires s.threads[Next(s)].at == InJoin(target, c)
    ensures c in s.conds && target in s.threads && Joinable(Awake(Pick(s), Next(s), c), target, c)
  {
    assert TermOk(s, target, c);
    WithoutNoDup(s.conds[c], Next(s));
  }

  lemma ScheduleJoin(s: Vp)
    requires Inv(s) && s.current == null && Next(s) in s.threads && PointKnown(s, s.threads[Next(s)].at)
    requires s.threads[Next(s)].at.InJoin?
    ensures Inv(Schedule(s).0)
  {
    var t := Next(s);
    var c, target := s.threads[t].at.cond, s.threads[t].at.target;
    NextRunnable(s);
    AwakeThread(s, c);
    AwakeKeeps(s, c);
    AwakeJoinable(s, target, c);
    JoinAgain(s, Awake(Pick(s), t, c), target, c);
  }

  lemma JoinAgain(s: Vp, s1: Vp, target: Thread, c: Cond)
    requires s.current == null && Next(s) in s.threads && s.threads[Next(s)].at == InJoin(target, c) && c in s.conds
    requires target in s.threads
    requires s1 == Awake(Pick(s), Next(s), c) && Core(s1) && Joinable(s1, target, c) && Next(s) != s.idle
    ensures Inv(Schedule(s).0)
  {
    JoinRoundKeeps(s1, target, c);
  }

  /** The second half of a thread exit. */
  function Finished(s: Vp): Vp
    requires Next(s) in s.threads
  {
    Bury(DestroyTerm(Pick(s), Next(s)), Next(s))
  }

  ghost predicate Finishing(s: Vp, c: Cond) {
    && s.current == null && Next(s) in s.threads && ThreadOk(s, Next(s)) && s.threads[Next(s)].state.Runnable?
    && s.threads[Next(s)].at.InExit? && s.threads[Next(s)].term == c && c in s.conds && s.conds[c] == []
  }

  lemma FinishThread(s: Vp, c: Cond, u: Thread)
    requires QueuesOk(s) && Finishing(s, c) && u in s.threads && ThreadOk(s, u)
    ensures ThreadOk(Finished(s), u)
  {
  }

  lemma FinishQueues(s: Vp, c: Cond)
    requires QueuesOk(s) && Finishing(s, c)
    ensures QueuesOk(Finished(s))
  {
    hide ThreadOk;
    var s' := Finished(s);
    forall d | d in s'.conds ensures Members(s'.conds[d], s') { assert Members(s.conds[d], s); }
    forall k | k in s'.lockQ ensures Members(s'.lockQ[k], s') { assert Members(s.lockQ[k], s); }
  }

  lemma FinishLocks(s: Vp, c: Cond)
    requires QueuesOk(s) && LocksOk(s) && Finishing(s, c)
    ensures LocksOk(Finished(s))
  {
    hide ThreadOk, LockOk, NoDup;
    var s' := Finished(s);
    forall m, u | m in s'.lockQ && u in s'.lockQ[m]
      ensures u in s'.threads && LockOk(s'.threads[u], s'.owners[m] == null, s'.owners[m] == u)
    {
      assert LockOk(s.threads[u], s.owners[m] == null, s.owners[m] == u) && s.threads[u].at == InLock(m);
    }
  }

  lemma FinishTerms(s: Vp, c: Cond)
    requires TermsOk(s) && Finishing(s, c)
    ensures TermsOk(Finished(s))
  {
    var s' := Finished(s);
    forall u | u in s'.threads && s'.threads[u].term != null
      ensures s'.threads[u].term in s'.conds && TermOk(s', u, s'.threads[u].term)
    {
      assert u != Next(s);
      assert TermOk(s, u, s.threads[u].term);
    }
  }

  lemma FinishStacks(s: Vp, c: Cond)
    requires StacksOk(s) && Finishing(s, c)
    ensures StacksOk(Finished(s))
  {
    var s1 := DestroyTerm(Pick(s), Next(s));
    assert StacksOk(s1);
    BuryStacks(s1, Next(s));
  }

  lemma ScheduleExit(s: Vp)
    requires Inv(s) && s.current == null && Next(s) in s.threads && PointKnown(s, s.threads[Next(s)].at)
    requires s.threads[Next(s)].at.InExit?
    ensures Inv(Schedule(s).0)
  {
    NextRunnable(s);
    var c: Cond := s.threads[Next(s)].term;
    assert TermOk(s, Next(s), c);
    FinishAll(s, c);
  }

  lemma FinishAll(s: Vp, c: Cond)
    requires Inv(s) && Finishing(s, c)
    ensures Inv(Finished(s))
  {
    hide ThreadsOk, QueuesOk, LocksOk, TermsOk, StacksOk, Finishing, Active;
    FinishThreads(s, c);
    FinishQueues(s, c);
    FinishLocks(s, c);
    FinishTerms(s, c);
    FinishStacks(s, c);
    FinishActive(s, c);
  }

  lemma FinishThreads(s: Vp, c: Cond)
    requires ThreadsOk(s) && QueuesOk(s) && Finishing(s, c)
    ensures ThreadsOk(Finished(s))
  {
    var s' := Finished(s);
    forall u | u in s'.threads ensures ThreadOk(s', u) {
      assert ThreadOk(s, u);
      FinishThread(s, c, u);
    }
  }

  lemma FinishActive(s: Vp, c: Cond)
    requires Finishing(s, c)
    ensures Active(Finished(s)) == Active(s) && Finished(s).active == s.active && Finished(s).current == null
  {
  }

  lemma ScheduleKeeps(s: Vp)
    requires Inv(s) && s.current == null
    ensures Next(s) in s.threads && PointKnown(s, s.threads[Next(s)].at) && Inv(Schedule(s).0)
  {
    NextRunnable(s);
    match s.threads[Next(s)].at {
      case AtUser => ScheduleUser(s);
      case AtIdle => ScheduleUser(s);
      case InPoll(_, _, _) => SchedulePoll(s);
      case InSleep => SchedulePoll(s);
      case InWait(_) => ScheduleWait(s);
      case InJoin(_, _) => ScheduleJoin(s);
      case InLock(_) => ScheduleLock(s);
      case InExit => ScheduleExit(s);
      case Gone =>
    }
    IdleOnlyWhenEmpty(s);
  }

  lemma IdleOnlyWhenEmpty(s: Vp)
    requires ThreadsOk(s) && QueuesOk(s) && s.current == null && Next(s) in s.threads
    requires PointKnown(s, s.threads[Next(s)].at)
    ensures var s' := Schedule(s).0; s'.current == s'.idle ==> s'.runQ == []
  {
    assert s.runQ != [] ==> ThreadOk(s, s.runQ[0]);
  }

  // ---------- every step, every run ----------

  predicate MayPark(op: Op) {
    op.DoPoll? || op.DoSleep? || op.DoWait? || op.DoLock? || op.DoYield? || op.DoJoin? || op.DoSchedule? || op.DoIdle?
  }

  predicate MayBlock(op: Op) {
    op.DoPoll? || op.DoSleep? || op.DoWait? || op.DoLock?
  }

  lemma BlockingStepKeeps(s: Vp, op: Op)
    requires Inv(s) && Sane(s) && Enabled(s, op) && MayBlock(op)
    ensures Inv(Do(s, op).0)
  {
    hide Inv, Sane, Poll, Sleep, WaitAt, Lock;
    match op {
      case DoPoll(npds, timeout, added) => PollKeeps(s, npds, timeout, added);
      case DoSleep(timeout) => SleepKeeps(s, timeout);
      case DoWait(c, timeout) => WaitKeeps(s, c, timeout);
      case DoLock(m) => LockKeeps(s, m);
    }
  }

  lemma WaitingStepKeeps(s: Vp, op: Op)
    requires Inv(s) && Sane(s) && Enabled(s, op) && MayPark(op) && !MayBlock(op)
    ensures Inv(Do(s, op).0)
  {
    hide Inv, Sane, Yield, Join, Schedule, Idle, ExpiryOrder, Dispatch, Fires;
    match op {
      case DoYield(now, expired) => YieldKeeps(s, now, expired);
      case DoJoin(t) => JoinKeeps(s, t);
      case DoSchedule => ScheduleKeeps(s);
      case DoIdle(ready, now, expired) => if s.active > 0 { IdleKeeps(s, ready, now, expired); }
    }
  }

  lemma StepKeeps(s: Vp, op: Op)
    requires Inv(s) && Sane(s) && Enabled(s, op)
    ensures Inv(Do(s, op).0)
  {
    hide Inv, Sane, Enabled, Do;
    if MayBlock(op) {
      BlockingStepKeeps(s, op);
    } else if MayPark(op) {
      WaitingStepKeeps(s, op);
    } else if op.DoCreate? || op.DoNoThread? || op.DoNewCond? || op.DoNewMutex? {
      NewStepKeeps(s, op);
    } else {
      WakingStepKeeps(s, op);
    }
  }

  lemma NewStepKeeps(s: Vp, op: Op)
    requires Inv(s) && Sane(s) && Enabled(s, op)
    requires op.DoCreate? || op.DoNoThread? || op.DoNewCond? || op.DoNewMutex?
    ensures Inv(Do(s, op).0)
  {
    hide Inv, Sane, Create, CreateFails, Mapped;
    match op {
      case DoCreate(t, term, size, mapped) => CreateKeeps(s, t, term, size, mapped);
      case DoNoThread(_, size, mapped) => NoThreadKeeps(s, size, mapped);
      case DoNewCond(c) => NewCondKeeps(s, c);
      case DoNewMutex(m) => NewMutexKeeps(s, m);
    }
  }

  lemma WakingStepKeeps(s: Vp, op: Op)
    requires Inv(s) && Sane(s) && Enabled(s, op)
    requires op.DoSignal? || op.DoBroadcast? || op.DoUnlock? || op.DoTryLock? || op.DoInterrupt? || op.DoExit?
    ensures Inv(Do(s, op).0)
  {
    hide Inv, Sane, Signal, Broadcast, Unlock, TryLock, Interrupt, Exit;
    match op {
      case DoSignal(c) => SignalKeeps(s, c);
      case DoBroadcast(c) => BroadcastKeeps(s, c);
      case DoUnlock(m) => UnlockKeeps(s, m);
      case DoTryLock(m) => TryLockKeeps(s, m);
      case DoInterrupt(t) => InterruptKeeps(s, t);
      case DoExit(retval) => ExitKeeps(s, retval);
    }
  }
}
