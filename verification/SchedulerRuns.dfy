/** What holds over whole runs of the scheduler, from initialization on. */
module SchedulerRuns {
  import opened Threads
  import opened SchedulerModel
  import opened SchedulerInvariant
  import opened SchedulerSteps

  /** After initialization: the primordial thread runs, the idle thread waits off the run queue. */
  function Initial(idle: Thread, primordial: Thread, stack: Stack, now: nat): Vp {
    var idleRec := Rec(Runnable, AtIdle, false, false, false, 0, null, 0, Some(stack), Nothing);
    var primordialRec := Rec(Running, AtUser, false, false, false, 0, null, 0, None, Nothing);
    Vp(map[idle := idleRec, primordial := primordialRec], primordial, idle,
       [], [], [], {}, map[], map[], map[], now, 1, [])
  }

  lemma InitialOk(idle: Thread, primordial: Thread, stack: Stack, now: nat)
    requires idle != primordial
    ensures Inv(Initial(idle, primordial, stack, now))
  {
    var s := Initial(idle, primordial, stack, now);
    assert ThreadOk(s, idle) && ThreadOk(s, primordial);
    assert Active(s) == {primordial};
  }

  ghost predicate IsInitial(s: Vp) {
    s.current != null && s.current != s.idle && exists st, now :: s == Initial(s.idle, s.current, st, now)
  }

  /** A run: each state follows from the one before by an enabled step. */
  ghost predicate IsRun(states: seq<Vp>, ops: seq<Op>) {
    && |states| == |ops| + 1 && IsInitial(states[0])
    && forall i | 0 <= i < |ops| :: Follows(states[i], ops[i], states[i + 1])
  }

  ghost predicate Follows(s: Vp, op: Op, s': Vp) {
    Enabled(s, op) && (Sane(s) ==> s' == Do(s, op).0)
  }

  /** The invariant holds throughout every run. */
  lemma {:induction false} RunInv(states: seq<Vp>, ops: seq<Op>, i: nat)
    requires IsRun(states, ops) && i < |states|
    ensures Inv(states[i]) && Sane(states[i])
  {
    if i == 0 {
      var s := states[0];
      var st, now :| s == Initial(s.idle, s.current, st, now);
      InitialOk(s.idle, s.current, st, now);
    } else {
      RunInv(states, ops, i - 1);
      assert Follows(states[i - 1], ops[i - 1], states[i]);
      StepKeeps(states[i - 1], ops[i - 1]);
    }
    InvSane(states[i]);
  }

  // ---------- placement ----------

  lemma {:induction false} NoDupOnce<T>(q: seq<T>, t: T)
    requires NoDup(q)
    ensures multiset(q)[t] == if t in q then 1 else 0
  {
    if q != [] {
      NoDupOnce(q[1..], t);
      assert q == [q[0]] + q[1..];
      assert q[0] !in q[1..];
    }
  }

  /**
   How often `t` is linked into the list that its state names; every other list of the same
   links does not hold it.
   */
  ghost predicate Placed(s: Vp, t: Thread)
    requires t in s.threads
  {
    var r := s.threads[t];
    && multiset(s.runQ)[t] == (if r.state.Runnable? && t != s.idle then 1 else 0)
    && multiset(s.zombieQ)[t] == (if r.state.Zombie? then 1 else 0)
    && (r.state.IoWait? ==> multiset(s.ioQ)[t] == 1)
    && multiset(s.ioQ)[t] <= 1
    && (r.state.CondWait? ==> exists c | c in s.conds :: LinkedOnce(s, t, c))
    && (r.state.LockWait? ==> exists m | m in s.lockQ :: QueuedOnce(s, t, m))
    && (r.state.Sleeping? ==> t in s.sleepers)
    && (t in s.sleepers <==> r.onSleepQ)
    && (r.onSleepQ ==> r.state.IoWait? || r.state.CondWait? || r.state.Sleeping?)
    && (r.state.Running? ==> t == s.current || r.at.Gone?)
  }

  /** `t` is on the wait queue of `c` once and on no other wait queue. */
  ghost predicate LinkedOnce(s: Vp, t: Thread, c: Cond)
    requires c in s.conds
  {
    && multiset(s.conds[c])[t] == 1 && (forall d | d in s.conds && d != c :: t !in s.conds[d])
    && (forall m | m in s.lockQ :: t !in s.lockQ[m])
  }

  ghost predicate QueuedOnce(s: Vp, t: Thread, m: Mutex)
    requires m in s.lockQ
  {
    && multiset(s.lockQ[m])[t] == 1 && (forall k | k in s.lockQ && k != m :: t !in s.lockQ[k])
    && (forall d | d in s.conds :: t !in s.conds[d])
  }

  /** Every reachable state links each thread exactly where its state says. */
  lemma Placement(states: seq<Vp>, ops: seq<Op>, i: nat, t: Thread)
    requires IsRun(states, ops) && i < |states| && t in states[i].threads
    ensures Placed(states[i], t)
  {
    RunInv(states, ops, i);
    var s := states[i];
    assert ThreadOk(s, t);
    NoDupOnce(s.runQ, t);
    NoDupOnce(s.zombieQ, t);
    NoDupOnce(s.ioQ, t);
    WaitersLinked(s, t);
  }

  lemma WaitersLinked(s: Vp, t: Thread)
    requires QueuesOk(s) && t in s.threads && ThreadOk(s, t)
    ensures s.threads[t].state.CondWait? ==> exists c | c in s.conds :: LinkedOnce(s, t, c)
    ensures s.threads[t].state.LockWait? ==> exists m | m in s.lockQ :: QueuedOnce(s, t, m)
  {
    var at := s.threads[t].at;
    if s.threads[t].state.CondWait? {
      NoDupOnce(s.conds[at.cond], t);
      assert LinkedOnce(s, t, at.cond);
    } else if s.threads[t].state.LockWait? {
      NoDupOnce(s.lockQ[at.lock], t);
      assert QueuedOnce(s, t, at.lock);
    }
  }
}
