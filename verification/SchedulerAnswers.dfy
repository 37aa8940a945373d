/**
 What the other calls answer and leave: locks, unlocks and tries, thread creation and its failures,
 both halves of an exit, joins; and which stacks each of them takes and gives back.
 */
module SchedulerAnswers {
  import opened Threads
  import opened SchedulerModel
  import opened SchedulerInvariant
  import opened SchedulerSteps
  import opened SchedulerRuns

  /** The records of the threads other than `t` stay. */
  ghost predicate OthersStay(s: Vp, s': Vp, t: Thread) {
    forall u | u in s.threads && u != t :: u in s'.threads && s'.threads[u] == s.threads[u]
  }

  // ---------- mutexes ----------

  /** A lock of a free mutex makes its caller the owner at once; one held by another thread is waited for. */
  lemma LockEffect(s: Vp, m: Mutex)
    requires Inv(s) && Sane(s) && Enabled(s, DoLock(m))
    ensures s.current in s.threads && m in s.owners && m in s.lockQ
    ensures var (s', out) := Do(s, DoLock(m));
            var me: Thread, r := s.current, s.threads[s.current];
            if r.interrupt then
              out == Returned(Err(EINTR)) && s' == s.(threads := s.threads[me := r.(interrupt := false)])
            else if s.owners[m] == null then out == Returned(Ok(0)) && s' == s.(owners := s.owners[m := me])
            else if s.owners[m] == me then out == Returned(Err(EDEADLK)) && s' == s
            else
              && out == Parked && s'.current == null && OthersStay(s, s', me) && me in s'.threads
              && s'.threads[me].state == LockWait && s'.threads[me].at == InLock(m)
              && s' == s.(threads := s'.threads, current := null, lockQ := s.lockQ[m := s.lockQ[m] + [me]])
  {
    hide Inv;
  }

  /** A try takes a free mutex, and answers EBUSY otherwise, even to the owner. */
  lemma TryLockEffect(s: Vp, m: Mutex)
    requires Inv(s) && Sane(s) && Enabled(s, DoTryLock(m))
    ensures var (s', out) := Do(s, DoTryLock(m));
            if s.owners[m] == null then out == Returned(Ok(0)) && s' == s.(owners := s.owners[m := s.current])
            else out == Returned(Err(EBUSY)) && s' == s
  {
    hide Inv, Sane;
  }

  /** `k` is the position of the first thread still waiting for `m`, or the length of its queue. */
  ghost predicate FirstWaiter(s: Vp, m: Mutex, k: nat)
    requires m in s.lockQ
  {
    && k <= |s.lockQ[m]| && (forall u | u in s.lockQ[m] :: u in s.threads)
    && (forall i | 0 <= i < k :: s.threads[s.lockQ[m][i]].state != LockWait)
    && (k < |s.lockQ[m]| ==> s.threads[s.lockQ[m][k]].state == LockWait)
  }

  /** An unlock by the owner hands the mutex to the first thread still waiting, which can run then, or frees it. */
  lemma UnlockEffect(s: Vp, m: Mutex) returns (k: nat)
    requires Inv(s) && Sane(s) && Enabled(s, DoUnlock(m))
    ensures m in s.owners && m in s.lockQ && FirstWaiter(s, m, k)
    ensures var (s', out) := Do(s, DoUnlock(m));
            if s.owners[m] != s.current then out == Returned(Err(EPERM)) && s' == s
            else
              && out == Returned(Ok(0)) && m in s'.owners
              && if k == |s.lockQ[m]| then s' == s.(owners := s.owners[m := null])
                 else
                   var t := s.lockQ[m][k];
                   && s'.owners[m] == t && t in s'.threads && s'.threads[t].state == Runnable
                   && s'.runQ == s.runQ + [t] && OthersStay(s, s', t)
                   && s' == s.(threads := s'.threads, runQ := s'.runQ, owners := s.owners[m := t])
  {
    hide LocksOk, RestOk, PointOk, QueuesOk;
    k := First(s, s.lockQ[m], LockWait);
    if k < |s.lockQ[m]| { Unlockable(s, m, s.lockQ[m][k]); }
  }

  lemma Unlockable(s: Vp, m: Mutex, t: Thread)
    requires Inv(s) && t in s.threads && s.threads[t].state == LockWait
    ensures t !in s.sleepers && s.sleepers - {t} == s.sleepers
  {
    hide LocksOk, RestOk, QueuesOk, PointOk;
    assert ThreadOk(s, t);
  }

  // ---------- creation ----------

  /** The stack that a creation takes: the first free one that is large enough, or else the one newly mapped. */
  ghost predicate Takes(free: seq<Stack>, size: nat, mapped: Option<Stack>, st: Option<Stack>, rest: seq<Stack>) {
    if forall x | x in free :: x.size < size then st == mapped && rest == free
    else
      exists k | 0 <= k < |free| ::
        && free[k].size >= size && (forall i | 0 <= i < k :: free[i].size < size)
        && st == Some(free[k]) && rest == free[..k] + free[k + 1..]
  }

  lemma StackNewIs(free: seq<Stack>, size: nat, mapped: Option<Stack>)
    ensures var (st, rest) := StackNew(free, size, mapped); Takes(free, size, mapped, st, rest)
  {
    var k := FirstFit(free, size);
    assert k < |free| ==> free[k] in free;
  }

  /** A created thread is runnable behind the run queue, with a stack of its size and its own condition variable. */
  lemma CreateEffect(s: Vp, t: Thread, term: Cond?, size: nat, mapped: Option<Stack>)
    requires Inv(s) && Sane(s) && Enabled(s, DoCreate(t, term, size, mapped))
    ensures var (s', out) := Do(s, DoCreate(t, term, size, mapped));
            && out == Returned(Ok(0)) && t in s'.threads && OthersStay(s, s', t)
            && s'.runQ == s.runQ + [t] && s'.active == s.active + 1
            && (term != null ==> term in s'.conds && s'.conds[term] == [])
            && (forall c | c in s.conds :: c in s'.conds && s'.conds[c] == s.conds[c])
            && Takes(s.freeStacks, size, mapped, s'.threads[t].stack, s'.freeStacks)
            && Fresh(s'.threads[t], term, size)
            && s' == s.(threads := s'.threads, runQ := s'.runQ, active := s'.active, freeStacks := s'.freeStacks,
                        conds := s'.conds)
  {
    hide Inv, Sane, StackNew, Takes, Mapped;
    StackNewIs(s.freeStacks, size, mapped);
    LargeEnough(s, size, mapped);
  }

  /** A thread about to run for the first time. */
  ghost predicate Fresh(r: Rec, term: Cond?, size: nat) {
    && r.state.Runnable? && r.at.AtUser? && !r.interrupt && !r.timedOut && !r.onSleepQ && r.term == term
    && r.stack.Some? && r.stack.value.size >= size
  }

  lemma LargeEnough(s: Vp, size: nat, mapped: Option<Stack>)
    requires Mapped(s, size, mapped)
    ensures var st := StackNew(s.freeStacks, size, mapped).0; st.Some? ==> st.value.size >= size
  {
  }

  /** A creation that fails leaves the threads alone and gives back the stack it took, if any. */
  lemma NoThreadEffect(s: Vp, joinable: bool, size: nat, mapped: Option<Stack>)
    requires Inv(s) && Sane(s) && Enabled(s, DoNoThread(joinable, size, mapped))
    ensures var (s', out) := Do(s, DoNoThread(joinable, size, mapped));
            && out == Returned(Err(ENOMEM)) && s' == s.(freeStacks := s'.freeStacks)
            && multiset(s'.freeStacks) ==
                 if (exists x :: x in s.freeStacks && x.size >= size) || mapped.None? then multiset(s.freeStacks)
                 else multiset(s.freeStacks) + multiset{mapped.value}
  {
    hide Inv, Sane;
    GivenBack(s.freeStacks, size, mapped);
  }

  lemma GivenBack(free: seq<Stack>, size: nat, mapped: Option<Stack>)
    ensures var (st, rest) := StackNew(free, size, mapped);
            multiset(StackFree(rest, st)) ==
              if (exists x :: x in free && x.size >= size) || mapped.None? then multiset(free)
              else multiset(free) + multiset{mapped.value}
  {
    var k := FirstFit(free, size);
    var (st, rest) := StackNew(free, size, mapped);
    if st.Some? { FreeMore(rest, st.value); }
    if k < |free| {
      assert free == free[..k] + [free[k]] + free[k + 1..];
      assert free[k] in free;
    }
  }

  lemma FreeMore(free: seq<Stack>, st: Stack)
    ensures multiset(StackFree(free, Some(st))) == multiset(free) + multiset{st}
  {
    if free != [] {
      var n := |free| - 1;
      assert free == free[..n] + free[n..];
    }
  }

  // ---------- exits and joins ----------

  function StackOf(st: Option<Stack>): multiset<Stack> {
    if st.Some? then multiset{st.value} else multiset{}
  }

  /** The thread is past its last switch, and its stack is free again. */
  ghost predicate IsGone(s: Vp, s': Vp, t: Thread) {
    && t in s.threads && t in s'.threads && s'.threads[t].at.Gone? && s'.current == null && OthersStay(s, s', t)
    && multiset(s'.freeStacks) == multiset(s.freeStacks) + StackOf(s.threads[t].stack)
  }

  /**
   The thread is the last zombie; the joiner that waits on its condition variable, if there is
   one, can run, and the other threads are left alone.
   */
  ghost predicate IsZombie(s: Vp, s': Vp, t: Thread, c: Cond) {
    && t in s.threads && t in s'.threads && s'.threads[t].state.Zombie? && s'.threads[t].at.InExit?
    && s'.current == null && s'.zombieQ == s.zombieQ + [t] && s'.freeStacks == s.freeStacks && c in s.conds
    && (forall u | u in s.threads && u != t && !JoinerOf(s, u, c) :: u in s'.threads && s'.threads[u] == s.threads[u])
    && (forall u | u in s.threads && u != t && JoinerOf(s, u, c) ::
         u in s'.threads && s'.threads[u].state.Runnable? && s'.runQ == s.runQ + [u])
  }

  ghost predicate JoinerOf(s: Vp, t: Thread, c: Cond) {
    c in s.conds && t in s.conds[c] && t in s.threads && s.threads[t].state.CondWait?
  }

  /** An exit records its value; a joinable thread becomes a zombie, a detached one is gone. */
  lemma ExitEffect(s: Vp, retval: int)
    requires Inv(s) && Sane(s) && Enabled(s, DoExit(retval))
    ensures s.current in s.threads
    ensures var (s', out) := Do(s, DoExit(retval));
            var me: Thread, c := s.current, s.threads[s.current].term;
            && out == Parked && s'.active == s.active - 1 && me in s'.threads && s'.threads[me].retval == retval
            && if c == null then IsGone(s, s', me) && s'.runQ == s.runQ else IsZombie(s, s', me, c)
  {
    hide ThreadsOk, QueuesOk, LocksOk, TermsOk, StacksOk, Exit, IsGone, IsZombie, Sane;
    ReadyToExit(s);
    ExitForm(s, retval);
    var c := s.threads[s.current].term;
    if c == null {
      DetachedExit(s, retval);
    } else {
      JoinsHere(s, c);
      JoinableExit(s, retval, c);
    }
  }

  lemma DetachedExit(s: Vp, retval: int)
    requires s.current in s.threads
    ensures var me: Thread := s.current;
            var s' := Bury(Set(s, me, s.threads[me].(retval := retval)), me).(active := s.active - 1);
            IsGone(s, s', me) && s'.runQ == s.runQ && s'.threads[me].retval == retval
  {
    hide StackFree, StackOf;
    FreeAny(s.freeStacks, s.threads[s.current].stack);
  }

  lemma FreeAny(free: seq<Stack>, st: Option<Stack>)
    ensures multiset(StackFree(free, st)) == multiset(free) + StackOf(st)
  {
    if st.Some? { FreeMore(free, st.value); }
  }

  lemma JoinsHere(s: Vp, c: Cond)
    requires Inv(s) && AtCall(s) && s.current in s.threads && s.threads[s.current].term == c
    ensures c in s.conds && |s.conds[c]| <= 1 && forall u | u in s.conds[c] :: u in s.threads && u != s.current
  {
    hide LocksOk, StacksOk;
    assert ThreadOk(s, s.current);
    assert TermOk(s, s.current, c);
  }

  lemma JoinableExit(s: Vp, retval: int, c: Cond)
    requires s.current in s.threads && c in s.conds && |s.conds[c]| <= 1
    requires forall u | u in s.conds[c] :: u in s.threads && u != s.current
    ensures var me: Thread := s.current;
            var z := Zombified(Set(s, me, s.threads[me].(retval := retval)));
            && z.conds == s.conds && (forall u | u in s.conds[c] :: u in z.threads)
            && var s' := Signal(z, c);
               IsZombie(s, s', me, c) && s'.threads[me].retval == retval && s'.active == s.active - 1
  {
    hide Signal, Zombified, IsZombie;
    var me: Thread := s.current;
    var z := Zombified(Set(s, me, s.threads[me].(retval := retval)));
    ZombieStands(s, retval);
    if |s.conds[c]| == 1 {
      assert s.conds[c][0] in s.conds[c];
      OneSignalled(z, c, s.conds[c][0]);
      ZombieWoken(s, z, c, s.conds[c][0], retval);
    } else {
      NoneSignalled(z, c);
      ZombieAlone(s, z, c, retval);
    }
  }

  ghost predicate Stands(s: Vp, z: Vp, retval: int) {
    && s.current in s.threads && z.threads.Keys == s.threads.Keys && OthersStay(s, z, s.current)
    && z.threads[s.current].state.Zombie? && z.threads[s.current].at.InExit?
    && z.threads[s.current].retval == retval && z.current == null && z.active == s.active - 1
    && z.zombieQ == s.zombieQ + [s.current] && z.freeStacks == s.freeStacks && z.conds == s.conds && z.runQ == s.runQ
  }

  lemma ZombieStands(s: Vp, retval: int)
    requires s.current in s.threads
    ensures Stands(s, Zombified(Set(s, s.current, s.threads[s.current].(retval := retval))), retval)
  {
  }

  lemma OneSignalled(z: Vp, c: Cond, w: Thread)
    requires c in z.conds && z.conds[c] == [w] && w in z.threads
    ensures Signal(z, c) == if z.threads[w].state.CondWait? then Wake(z, w, Signalled) else z
  {
    hide Wake;
    FirstOfOne(z, z.conds[c], CondWait);
  }

  lemma NoneSignalled(z: Vp, c: Cond)
    requires c in z.conds && z.conds[c] == []
    ensures Signal(z, c) == z
  {
  }

  lemma ZombieWoken(s: Vp, z: Vp, c: Cond, w: Thread, retval: int)
    requires Stands(s, z, retval) && c in s.conds && s.conds[c] == [w] && w in s.threads && w != s.current
    ensures var s' := if z.threads[w].state.CondWait? then Wake(z, w, Signalled) else z;
            IsZombie(s, s', s.current, c) && s'.threads[s.current].retval == retval && s'.active == s.active - 1
  {
  }

  lemma ZombieAlone(s: Vp, z: Vp, c: Cond, retval: int)
    requires Stands(s, z, retval) && c in s.conds && s.conds[c] == []
    ensures IsZombie(s, z, s.current, c)
  {
  }

  /** When a joined thread runs again its condition variable goes and its stack is free again. */
  lemma FinishEffect(s: Vp, t: Thread)
    requires Inv(s) && Sane(s) && Enabled(s, DoSchedule) && Next(s) == t && t in s.threads && s.threads[t].at.InExit?
    ensures var (s', out) := Do(s, DoSchedule);
            && out == Parked && IsGone(s, s', t) && s'.threads[t].term == null
            && s'.conds == s.conds - {s.threads[t].term} && s'.active == s.active
  {
    hide Inv, Sane, IsGone, Next, Bury;
    NobodyJoins(s, t);
    Finishes(s, t, s.threads[t].term);
  }

  lemma NobodyJoins(s: Vp, t: Thread)
    requires Inv(s) && s.current == null && Next(s) == t && t in s.threads && s.threads[t].at.InExit?
    ensures var c := s.threads[t].term; c != null && c in s.conds && s.conds[c] == []
  {
    hide LocksOk, StacksOk, QueuesOk;
    NextRunnable(s);
    assert TermOk(s, t, s.threads[t].term);
  }

  lemma Finishes(s: Vp, t: Thread, c: Cond)
    requires Next(s) == t && t in s.threads && s.threads[t].at.InExit? && s.threads[t].term == c
    requires c in s.conds && s.conds[c] == []
    ensures var s' := Schedule(s).0;
            IsGone(s, s', t) && s'.threads[t].term == null && s'.conds == s.conds - {c} && s'.active == s.active
  {
    hide DestroyTerm, Bury, IsGone;
    var d := DestroyTerm(Pick(s), t);
    TermDropped(s, t, c);
    BuriedLast(s, d, t);
  }

  /** `d` differs from `s` in the record of `t`, which has forgotten its condition variable, and in the queues. */
  ghost predicate Dropped(s: Vp, d: Vp, t: Thread) {
    && t in s.threads && d.threads.Keys == s.threads.Keys && OthersStay(s, d, t) && d.freeStacks == s.freeStacks
    && d.threads[t].stack == s.threads[t].stack && d.threads[t].term == null && d.active == s.active
  }

  lemma TermDropped(s: Vp, t: Thread, c: Cond)
    requires Next(s) == t && t in s.threads && s.threads[t].term == c && c in s.conds && s.conds[c] == []
    ensures var d := DestroyTerm(Pick(s), t); Dropped(s, d, t) && d.conds == s.conds - {c}
  {
  }

  lemma BuriedLast(s: Vp, d: Vp, t: Thread)
    requires Dropped(s, d, t)
    ensures var s' := Bury(d, t);
            IsGone(s, s', t) && s'.threads[t].term == null && s'.conds == d.conds && s'.active == s.active
  {
    hide StackFree, StackOf;
    FreeAny(d.freeStacks, d.threads[t].stack);
  }

  /** The answers of a join: for a thread that cannot be joined, for a zombie, and for one still running. */
  lemma JoinEffect(s: Vp, target: Thread)
    requires Inv(s) && Sane(s) && Enabled(s, DoJoin(target))
    ensures s.current in s.threads
    ensures var (s', out) := Do(s, DoJoin(target));
            var me: Thread, r, c := s.current, s.threads[target], s.threads[target].term;
            if c == null then out == Returned(Err(EINVAL)) && s' == s
            else if me == target then out == Returned(Err(EDEADLK)) && s' == s
            else if c in s.conds && s.conds[c] != [] then out == Returned(Err(EINVAL)) && s' == s
            else if r.state.Zombie? then out == Returned(Ok(r.retval)) && Released(s, s', target)
            else if s.threads[me].interrupt then
              out == Returned(Err(EINTR)) && s' == s.(threads := s.threads[me := s.threads[me].(interrupt := false)])
            else out == Parked && Awaiting(s, s', me, target, c)
  {
    hide Inv, Sane, JoinRound, Released, Awaiting;
    JoinKnown(s, target);
    var c := s.threads[target].term;
    if c != null { RoundEffect(s, target, c); }
  }

  lemma JoinKnown(s: Vp, target: Thread)
    requires Sane(s) && Enabled(s, DoJoin(target))
    ensures s.current != null && s.current in s.threads && target in s.threads
    ensures var c := s.threads[target].term; c != null ==> c in s.conds
  {
  }

  lemma RoundEffect(s: Vp, target: Thread, c: Cond)
    requires s.current in s.threads && target in s.threads && c in s.conds
    ensures var (s', out) := JoinRound(s, target, c);
            var me: Thread := s.current;
            if s.threads[target].state.Zombie? then
              out == Returned(Ok(s.threads[target].retval)) && Released(s, s', target)
            else if s.threads[me].interrupt then
              out == Returned(Err(EINTR)) && s' == s.(threads := s.threads[me := s.threads[me].(interrupt := false)])
            else out == Parked && Awaiting(s, s', me, target, c)
  {
    hide Without;
  }

  /** The joined zombie can run, behind the run queue. */
  ghost predicate Released(s: Vp, s': Vp, t: Thread) {
    && t in s'.threads && s'.threads[t].state.Runnable? && OthersStay(s, s', t) && s'.runQ == s.runQ + [t]
    && (forall u | u in s'.zombieQ :: u in s.zombieQ && u != t)
    && (forall u | u in s.zombieQ :: u == t || u in s'.zombieQ)
    && s' == s.(threads := s'.threads, runQ := s'.runQ, zombieQ := s'.zombieQ)
  }

  /** The caller waits, without a timer, for the end of `target`. */
  ghost predicate Awaiting(s: Vp, s': Vp, me: Thread, target: Thread, c: Cond) {
    && me in s'.threads && s'.threads[me].state.CondWait? && s'.threads[me].at == InJoin(target, c)
    && OthersStay(s, s', me) && c in s.conds
    && s' == s.(threads := s'.threads, current := null, conds := s.conds[c := s.conds[c] + [me]])
  }
}
