/**
 What every step of the scheduler keeps: each thread is linked exactly where its state and
 its resume point say, and why a thread was made runnable is recorded in its flags.
 */
module SchedulerInvariant {
  import opened Threads
  import opened SchedulerModel

  ghost predicate ThreadOk(s: Vp, t: Thread)
    requires t in s.threads
  {
    var r := s.threads[t];
    && (t in s.runQ <==> r.state.Runnable? && t != s.idle)
    && (t in s.zombieQ <==> r.state.Zombie?)
    && (t in s.ioQ <==> r.at.InPoll? && r.at.onIoq)
    && (t in s.sleepers <==> r.onSleepQ)
    && (r.onSleepQ ==> r.state.IoWait? || r.state.CondWait? || r.state.Sleeping?)
    && (t == s.current ==> r.state.Running? && (r.at.AtUser? || r.at.AtIdle?))
    && (r.at.AtIdle? <==> t == s.idle)
    && (r.timedOut ==> r.at.InWait?)
    && PointOk(s, t, r)
  }

  /** What a resume point says about the thread parked there. */
  ghost predicate PointOk(s: Vp, t: Thread, r: Rec) {
    match r.at
    case AtUser => r.state.Runnable? || (r.state.Running? && t == s.current)
    case AtIdle => r.term == null && (r.state.Running? <==> t == s.current) && (r.state.Runnable? <==> t != s.current)
    case InPoll(npds, onIoq, ready) =>
      if onIoq then
        r.state.IoWait? || (r.state.Runnable? && WokenEarly(r))
      else r.state.Runnable? && r.cause.IoReady? && 1 <= ready <= npds
    case InSleep =>
      || (r.state.Sleeping? && r.onSleepQ)
      || (r.state.Suspended? && !r.onSleepQ)
      || (r.state.Runnable? && WokenEarly(r))
    case InWait(c) =>
      && c in s.conds && t in s.conds[c]
      && (if r.state.CondWait? then !r.timedOut
          else r.state.Runnable? && (r.cause.Signalled? || WokenEarly(r)) && (r.timedOut <==> r.cause.TimerFired?))
    case InJoin(target, c) =>
      && c in s.conds && t in s.conds[c] && target in s.threads && target != t && s.threads[target].term == c
      && if r.state.CondWait? then !r.onSleepQ
         else r.state.Runnable? && (r.cause.Signalled? || (r.cause.Interrupted? && r.interrupt))
    case InLock(m) =>
      && m in s.owners && m in s.lockQ && t in s.lockQ[m]
      && (r.state.LockWait? || (r.state.Runnable? && (r.cause.LockGranted? || (r.cause.Interrupted? && r.interrupt))))
    case InExit => r.term != null && (r.state.Zombie? || r.state.Runnable?)
    case Gone => r.state.Running? && t != s.current && r.term == null
  }

  ghost predicate WokenEarly(r: Rec) {
    r.cause.TimerFired? || (r.cause.Interrupted? && r.interrupt)
  }

  ghost predicate ThreadsOk(s: Vp) {
    && s.idle in s.threads && (s.current != null ==> s.current in s.threads)
    && forall t | t in s.threads :: ThreadOk(s, t)
  }

  ghost predicate Members(q: seq<Thread>, s: Vp) {
    NoDup(q) && forall t | t in q :: t in s.threads
  }

  ghost predicate QueuesOk(s: Vp) {
    && Members(s.runQ, s) && Members(s.zombieQ, s) && Members(s.ioQ, s)
    && (forall t | t in s.sleepers :: t in s.threads)
    && (forall c | c in s.conds :: Members(s.conds[c], s))
    && (forall c, t | c in s.conds && t in s.conds[c] ::
         s.threads[t].at == InWait(c) || (s.threads[t].at.InJoin? && s.threads[t].at.cond == c))
    && (forall m | m in s.lockQ :: Members(s.lockQ[m], s))
    && (forall m, t | m in s.lockQ && t in s.lockQ[m] :: s.threads[t].at == InLock(m))
  }

  /**
   A thread waits for a mutex only while another thread owns it, and is made runnable only as
   its owner or interrupted.
   */
  ghost predicate LocksOk(s: Vp) {
    && s.owners.Keys == s.lockQ.Keys
    && (forall m | m in s.owners :: s.owners[m] != null ==> s.owners[m] in s.threads)
    && (forall m, t | m in s.lockQ && t in s.lockQ[m] ::
         t in s.threads && LockOk(s.threads[t], s.owners[m] == null, s.owners[m] == t))
  }

  predicate LockOk(r: Rec, free: bool, mine: bool) {
    if r.state.LockWait? then !free && !mine else r.cause.LockGranted? <==> mine
  }

  /** A termination condition variable belongs to one thread and has at most one waiter, its joiner. */
  ghost predicate TermsOk(s: Vp) {
    && (forall t | t in s.threads :: s.threads[t].term != null ==> s.threads[t].term in s.conds)
    && (forall t, u | t in s.threads && u in s.threads && t != u :: s.threads[t].term != null ==>
         s.threads[t].term != s.threads[u].term)
    && (forall t | t in s.threads && s.threads[t].term != null :: TermOk(s, t, s.threads[t].term))
  }

  ghost predicate TermOk(s: Vp, t: Thread, c: Cond)
    requires t in s.threads && c in s.conds
  {
    && |s.conds[c]| <= 1
    && (forall u | u in s.conds[c] :: u in s.threads && s.threads[u].at == InJoin(t, c))
    && (s.threads[t].state.Zombie? ==> forall u | u in s.conds[c] :: !s.threads[u].state.CondWait?)
    && (s.threads[t].at.InExit? && s.threads[t].state.Runnable? ==> s.conds[c] == [])
  }

  /** The threads counted by `_st_active_count`: neither the idle thread nor exiting. */
  ghost function Active(s: Vp): set<Thread> {
    set t | t in s.threads && t != s.idle && !s.threads[t].at.InExit? && !s.threads[t].at.Gone?
  }

  /** A free stack belongs to no thread that can run again, and no two such threads share one. */
  ghost predicate StacksOk(s: Vp) {
    && NoDup(s.freeStacks)
    && (forall t | t in s.threads && !s.threads[t].at.Gone? && s.threads[t].stack.Some? ::
         s.threads[t].stack.value !in s.freeStacks)
    && (forall t, u |
          && t in s.threads && u in s.threads && t != u && s.threads[t].stack.Some?
          && !s.threads[t].at.Gone? && !s.threads[u].at.Gone? ::
          s.threads[t].stack != s.threads[u].stack)
  }

  ghost predicate RestOk(s: Vp) {
    TermsOk(s) && s.active == |Active(s)| && StacksOk(s)
  }

  ghost predicate Core(s: Vp) {
    ThreadsOk(s) && QueuesOk(s) && LocksOk(s) && RestOk(s)
  }

  ghost predicate Inv(s: Vp) {
    Core(s) && (s.current == s.idle ==> s.runQ == [])
  }

  // ---------- the steps ----------

  datatype Op =
    | DoPoll(npds: nat, timeout: Timeout, added: bool)
    | DoSleep(timeout: Timeout)
    | DoWait(c: Cond, timeout: Timeout)
    | DoSignal(c: Cond)
    | DoBroadcast(c: Cond)
    | DoLock(m: Mutex)
    | DoUnlock(m: Mutex)
    | DoTryLock(m: Mutex)
    | DoYield(now: nat, expired: seq<Thread>)
    | DoInterrupt(t: Thread)
    | DoCreate(t: Thread, term: Cond?, size: nat, mapped: Option<Stack>)
    | DoNoThread(joinable: bool, size: nat, mapped: Option<Stack>)
    | DoExit(retval: int)
    | DoJoin(t: Thread)
    | DoNewCond(c: Cond)
    | DoNewMutex(m: Mutex)
    | DoSchedule
    | DoIdle(ready: map<Thread, nat>, now: nat, expired: seq<Thread>)

  /** User code runs. */
  ghost predicate AtCall(s: Vp) {
    s.current != null && s.current != s.idle
  }

  ghost predicate UserCond(s: Vp, c: Cond) {
    c in s.conds && forall t | t in s.threads :: s.threads[t].term != c
  }

  /** A mapping of a stack, of the size asked for, or a failed one. */
  ghost predicate Mapped(s: Vp, size: nat, st: Option<Stack>) {
    st.Some? ==>
      && st.value.size == size && st.value !in s.freeStacks
      && forall t | t in s.threads :: s.threads[t].stack != st
  }

  /** A possible answer of the kernel: queued polls that fire, with the number of their descriptors that are ready. */
  ghost predicate Fires(s: Vp, ready: map<Thread, nat>) {
    forall t | t in ready ::
      t in s.ioQ && t in s.threads && s.threads[t].at.InPoll? && 1 <= ready[t] <= s.threads[t].at.npds
  }

  ghost predicate Creatable(s: Vp, t: Thread, term: Cond?, size: nat, mapped: Option<Stack>) {
    && t !in s.threads && (term != null ==> term !in s.conds)
    && Mapped(s, size, mapped) && StackNew(s.freeStacks, size, mapped).0.Some?
  }

  /** The callers' side of the interface: live handles, one join a thread, valid kernel answers. */
  ghost predicate Enabled(s: Vp, op: Op) {
    match op
    case DoPoll(_, _, _) => AtCall(s)
    case DoSleep(_) => AtCall(s)
    case DoWait(c, _) => AtCall(s) && UserCond(s, c)
    case DoSignal(c) => AtCall(s) && UserCond(s, c)
    case DoBroadcast(c) => AtCall(s) && UserCond(s, c)
    case DoLock(m) => AtCall(s) && m in s.owners
    case DoUnlock(m) => AtCall(s) && m in s.owners
    case DoTryLock(m) => AtCall(s) && m in s.owners
    case DoYield(now, expired) => AtCall(s) && ExpiryOrder(s, now, expired)
    case DoInterrupt(t) => AtCall(s) && t in s.threads && !s.threads[t].at.Gone?
    case DoCreate(t, term, size, mapped) =>
      AtCall(s) && Creatable(s, t, term, size, mapped)
    case DoNoThread(joinable, size, mapped) =>
      AtCall(s) && Mapped(s, size, mapped) && (joinable || StackNew(s.freeStacks, size, mapped).0.None?)
    case DoExit(_) => AtCall(s)
    case DoJoin(t) => AtCall(s) && t in s.threads && !s.threads[t].at.Gone? && !Joined(s.threads[t])
    case DoNewCond(c) => AtCall(s) && c !in s.conds
    case DoNewMutex(m) => AtCall(s) && m !in s.owners && m !in s.lockQ
    case DoSchedule => s.current == null
    case DoIdle(ready, now, expired) =>
      && s.current == s.idle && Fires(s, ready)
      && (s.active > 0 ==> ExpiryOrder(Dispatch(s, ready), now, expired))
  }

  /** A zombie that has been joined and waits to clean up after itself. */
  predicate Joined(r: Rec) {
    r.at.InExit? && r.state.Runnable?
  }

  /** The names in the state that the code dereferences are known. */
  ghost predicate Sane(s: Vp) {
    && s.idle in s.threads && (s.current != null ==> s.current in s.threads)
    && (forall t | t in s.runQ :: t in s.threads)
    && (forall c, t | c in s.conds && t in s.conds[c] :: t in s.threads)
    && s.owners.Keys == s.lockQ.Keys && (forall m, t | m in s.lockQ && t in s.lockQ[m] :: t in s.threads)
    && (forall t | t in s.threads :: PointKnown(s, s.threads[t].at) &&
         (s.threads[t].term != null ==> s.threads[t].term in s.conds))
  }

  lemma InvSane(s: Vp)
    requires Core(s)
    ensures Sane(s)
  {
    forall t | t in s.threads ensures PointKnown(s, s.threads[t].at) { assert ThreadOk(s, t); }
  }

  /** The state after a step and, for a call that returns, what it returns to the thread then running. */
  ghost function Do(s: Vp, op: Op): (Vp, Outcome)
    requires Sane(s) && Enabled(s, op)
  {
    match op
    case DoPoll(npds, timeout, added) => Poll(s, npds, timeout, added)
    case DoSleep(timeout) => Sleep(s, timeout)
    case DoWait(c, timeout) => WaitAt(s, c, timeout, InWait(c))
    case DoSignal(c) => (Signal(s, c), Returned(Ok(0)))
    case DoBroadcast(c) => (Broadcast(s, c), Returned(Ok(0)))
    case DoLock(m) => Lock(s, m)
    case DoUnlock(m) => Unlock(s, m)
    case DoTryLock(m) => TryLock(s, m)
    case DoYield(now, expired) => Yield(s, now, expired)
    case DoInterrupt(t) => (Interrupt(s, t), Returned(Ok(0)))
    case DoCreate(t, term, size, mapped) => (Create(s, t, term, size, mapped), Returned(Ok(0)))
    case DoNoThread(_, size, mapped) => (CreateFails(s, size, mapped), Returned(Err(ENOMEM)))
    case DoExit(retval) => (Exit(s, retval), Parked)
    case DoJoin(t) => Join(s, t)
    case DoNewCond(c) => (s.(conds := s.conds[c := []]), Returned(Ok(0)))
    case DoNewMutex(m) => (s.(owners := s.owners[m := null], lockQ := s.lockQ[m := []]), Returned(Ok(0)))
    case DoSchedule => Schedule(s)
    case DoIdle(ready, now, expired) => IdleTurn(s, ready, now, expired)
  }

  // ---------- what most steps leave alone ----------

  /** Stacks and the stages of life stay as they are. */
  ghost predicate Lives(s: Vp, s': Vp) {
    && s'.threads.Keys == s.threads.Keys && s'.idle == s.idle
    && s'.active == s.active && s'.freeStacks == s.freeStacks
    && (forall t | t in s.threads :: LivesRec(s.threads[t], s'.threads[t]))
  }

  predicate LivesRec(r: Rec, r': Rec) {
    r'.stack == r.stack && (r'.at.Gone? <==> r.at.Gone?) && (r'.at.InExit? <==> r.at.InExit?)
  }

  /** So do the termination condition variables and their waiters. */
  ghost predicate Steady(s: Vp, s': Vp) {
    && Lives(s, s')
    && s.conds.Keys <= s'.conds.Keys
    && (forall t | t in s.threads :: SteadyRec(s.threads[t], s'.threads[t]))
    && (forall t | t in s.threads :: s.threads[t].term in s.conds ==>
         s'.conds[s.threads[t].term] == s.conds[s.threads[t].term])
  }

  predicate SteadyRec(r: Rec, r': Rec) {
    && r'.term == r.term && (r'.at.InExit? <==> r.at.InExit?)
    && (r.at.InExit? ==> r'.state == r.state) && (r.state.Zombie? <==> r'.state.Zombie?)
    && (r.at.InJoin? ==> r'.at == r.at && (r'.state.CondWait? ==> r.state.CondWait?))
  }

  lemma LivesKeeps(s: Vp, s': Vp)
    requires StacksOk(s) && s.active == |Active(s)| && Lives(s, s')
    ensures StacksOk(s') && s'.active == |Active(s')|
  {
    forall t | t in s.threads ensures LivesRec(s.threads[t], s'.threads[t]) { }
    assert Active(s') == Active(s);
  }

  lemma SteadyKeeps(s: Vp, s': Vp)
    requires RestOk(s) && Steady(s, s')
    ensures RestOk(s')
  {
    LivesKeeps(s, s');
    SteadyTerms(s, s');
  }

  lemma SteadyTerms(s: Vp, s': Vp)
    requires TermsOk(s) && Steady(s, s')
    ensures TermsOk(s')
  {
    forall t | t in s.threads ensures SteadyRec(s.threads[t], s'.threads[t]) { }
    forall t | t in s'.threads && s'.threads[t].term != null ensures TermOk(s', t, s'.threads[t].term) {
      assert SteadyRec(s.threads[t], s'.threads[t]);
      assert TermOk(s, t, s.threads[t].term);
    }
  }

  /** Only `t` changes its record or its membership in the queues. */
  ghost predicate Elsewhere(s: Vp, s': Vp, t: Thread) {
    && s'.threads.Keys == s.threads.Keys && s'.idle == s.idle
    && (forall u | u in s.threads && u != t :: s'.threads[u] == s.threads[u])
    && (t in s.threads ==> s'.threads[t].term == s.threads[t].term)
    && (forall u | u in s.threads && u != t :: SameLinks(s, s', u))
    && s.conds.Keys <= s'.conds.Keys && s'.owners.Keys == s.owners.Keys && s'.lockQ.Keys == s.lockQ.Keys
    && (forall c, u | c in s.conds && u in s.conds[c] && u != t :: u in s'.conds[c])
    && (forall m, u | m in s.lockQ && u in s.lockQ[m] && u != t :: u in s'.lockQ[m])
  }

  predicate SameLinks(s: Vp, s': Vp, u: Thread) {
    && (u in s'.runQ <==> u in s.runQ) && (u in s'.zombieQ <==> u in s.zombieQ) && (u in s'.ioQ <==> u in s.ioQ)
    && (u in s'.sleepers <==> u in s.sleepers) && (u == s'.current <==> u == s.current)
  }

  lemma ElsewhereKeeps(s: Vp, s': Vp, t: Thread)
    requires ThreadsOk(s) && Elsewhere(s, s', t) && (s'.current != null ==> s'.current in s'.threads)
    requires t in s'.threads ==> ThreadOk(s', t)
    ensures ThreadsOk(s')
  {
    forall u | u in s'.threads ensures ThreadOk(s', u) {
      if u != t { ThreadStays(s, s', t, u); }
    }
  }

  lemma ThreadStays(s: Vp, s': Vp, t: Thread, u: Thread)
    requires Elsewhere(s, s', t) && u in s.threads && u != t && ThreadOk(s, u)
    ensures u in s'.threads && ThreadOk(s', u)
  {
    assert SameLinks(s, s', u);
  }

  /** The running thread is known and in order. */
  lemma CurrentOk(s: Vp)
    requires ThreadsOk(s)
    ensures s.idle in s.threads && ThreadOk(s, s.idle)
    ensures s.current != null ==> s.current in s.threads && ThreadOk(s, s.current)
  {
  }
}
