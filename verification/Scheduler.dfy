/**
 The scheduler in the source's own form: thread records, wait queues and the timeout heap
 rewritten in place.  `View()` is the value that SchedulerModel's functions act on; each method
 does to the records what the function of the same call does to that value.
 */
module Scheduler {
  import opened Threads
  import opened SchedulerLoops
  import opened TimeoutHeap
  import I = SchedulerInvariant
  import M = SchedulerModel
  import R = SchedulerRuns

  function ControlOf(r: M.Rec): Control {
    Control(r.state, r.at, r.interrupt, r.timedOut, r.term, r.retval, r.stack)
  }

  /** The fields of a thread that its record repeats. */
  ghost predicate Matches(t: Thread, r: M.Rec)
    reads t`control, t`onSleepQ, t`due
  {
    t.control == ControlOf(r) && t.onSleepQ == r.onSleepQ && t.due == r.due
  }

  ghost predicate AllMatch(recs: map<Thread, M.Rec>)
    reads recs.Keys`control, recs.Keys`onSleepQ, recs.Keys`due
  {
    forall t | t in recs :: Matches(t, recs[t])
  }

  ghost predicate CondsMatch(conds: map<Cond, seq<Thread>>)
    reads conds.Keys`waitQ
  {
    forall c | c in conds :: c.waitQ == conds[c]
  }

  ghost predicate LocksMatch(owners: map<Mutex, Thread?>, lockQ: map<Mutex, seq<Thread>>)
    reads owners.Keys`owner, owners.Keys`waitQ
  {
    owners.Keys == lockQ.Keys && forall m | m in owners :: m.owner == owners[m] && m.waitQ == lockQ[m]
  }

  /** The heap holds the sleepers, which are marked. */
  ghost predicate SleepersMatch(nodes: seq<Thread>, sleepers: set<Thread>, recs: map<Thread, M.Rec>) {
    && (forall t | t in nodes :: t in sleepers) && (forall t | t in sleepers :: t in nodes && t in recs)
    && (forall t | t in recs :: recs[t].onSleepQ <==> t in sleepers)
  }

  /** `_st_this_vp` and the thread-local globals beside it. */
  class VirtualProcessor {
    var current: Thread?
    const idle: Thread
    var runQ: seq<Thread>
    var zombieQ: seq<Thread>
    var ioQ: seq<Thread>          // the threads of the queued polls
    const sleepQ: SleepQueue
    var lastClock: nat
    var activeCount: int
    var freeStacks: seq<Stack>
    // the values of all thread records, the timeout heap, condition variables and mutexes
    ghost var recs: map<Thread, M.Rec>
    ghost var sleepers: set<Thread>
    ghost var condQ: map<Cond, seq<Thread>>
    ghost var owners: map<Mutex, Thread?>
    ghost var lockQ: map<Mutex, seq<Thread>>

    ghost predicate Valid()
      reads `recs, `sleepers, `condQ, `owners, `lockQ, recs.Keys, condQ.Keys, owners.Keys, sleepQ, sleepQ.nodes
    {
      && AllMatch(recs) && CondsMatch(condQ) && LocksMatch(owners, lockQ)
      && sleepQ.Valid() && SleepersMatch(sleepQ.nodes, sleepers, recs)
    }

    lemma Fields(t: Thread)
      requires Valid() && t in recs
      ensures Matches(t, recs[t])
    {
    }

    lemma LockFields(m: Mutex)
      requires Valid() && m in owners
      ensures m in lockQ && m.owner == owners[m] && m.waitQ == lockQ[m]
    {
    }

    ghost function View(): M.Vp
      reads this
    {
      M.Vp(recs, current, idle, runQ, zombieQ, ioQ, sleepers, condQ, owners, lockQ, lastClock, activeCount, freeStacks)
    }

    /**
     Initialization: the idle thread is created and taken off the run queue; the caller becomes
     the primordial thread.
     */
    constructor (stack: Stack, now: nat)
      ensures Valid() && current != null && current != idle && fresh(recs.Keys) && fresh(sleepQ)
      ensures View() == R.Initial(idle, current, stack, now)
    {
      hide SleepQueue.Valid;
      var idleThread := new Thread(Control(Runnable, AtIdle, false, false, null, 0, Some(stack)));
      var primordial := new Thread(Control(Running, AtUser, false, false, null, 0, None));
      idle, current := idleThread, primordial;
      runQ, zombieQ, ioQ, freeStacks := [], [], [], [];
      sleepQ := new SleepQueue();
      lastClock, activeCount := now, 1;
      recs := R.Initial(idleThread, primordial, stack, now).threads;
      sleepers, condQ, owners, lockQ := {}, map[], map[], map[];
    }

    /** Takes `t` off the timeout heap. */
    method LeaveSleepQ(t: Thread)
      requires Valid() && t in recs && t.onSleepQ
      modifies `recs, `sleepers, recs.Keys, sleepQ
      ensures Valid() && recs == old(recs)[t := old(recs)[t].(onSleepQ := false)] && sleepers == old(sleepers) - {t}
      ensures t.control == old(t.control)
    {
      hide SleepersMatch, LocksMatch, CondsMatch, SleepQueue.Valid, AllMatch;
      ghost var nodes, r := sleepQ.nodes, recs[t].(onSleepQ := false);
      Asleep(nodes, sleepers, recs, t);
      sleepQ.DelSleepQ(t);
      LeaveMatches(nodes, sleepQ.nodes, sleepers, recs, t, r);
      OthersMatch(recs, t, r);
      recs := recs[t := r];
      sleepers := sleepers - {t};
    }

    /** Rewrites the record of one thread. */
    method Put(t: Thread, control: Control, ghost r: M.Rec)
      requires Valid() && t in recs
      requires ControlOf(r) == control && r.onSleepQ == recs[t].onSleepQ && r.due == recs[t].due
      modifies `recs, t`control
      ensures Valid() && recs == old(recs)[t := r] && t.control == control
    {
      t.control := control;
      recs := recs[t := r];
    }

    /** Takes `t` off the timeout heap if it is on it. */
    method LeaveIfAsleep(t: Thread)
      requires Valid() && t in recs
      modifies `recs, `sleepers, recs.Keys, sleepQ
      ensures Valid() && recs == old(recs)[t := old(recs)[t].(onSleepQ := false)] && sleepers == old(sleepers) - {t}
      ensures t.control == old(t.control)
    {
      if t.onSleepQ {
        LeaveSleepQ(t);
      } else {
        assert recs[t].onSleepQ == false && recs == recs[t := recs[t].(onSleepQ := false)];
        assert sleepers == sleepers - {t};
      }
    }

    /** Takes `t` off the timeout heap and rewrites its record. */
    method Rouse(t: Thread, control: Control, ghost r: M.Rec)
      requires Valid() && t in recs && ControlOf(r) == control && !r.onSleepQ && r.due == recs[t].due
      modifies `recs, `sleepers, recs.Keys, sleepQ
      ensures Valid() && recs == old(recs)[t := r] && sleepers == old(sleepers) - {t}
    {
      ghost var before := recs;
      LeaveIfAsleep(t);
      UpdateTwice(before, t, recs[t], r);
      Put(t, control, r);
    }

    /** The lines that make a blocked thread runnable wherever one is woken. */
    method MakeRunnable(t: Thread, ghost why: M.Cause)
      requires Valid() && t in recs
      modifies `recs, `sleepers, `runQ, recs.Keys, sleepQ
      ensures Valid() && View() == M.Wake(old(View()), t, why)
    {
      hide VirtualProcessor.Valid;
      Fields(t);
      Rouse(t, t.control.(state := Runnable), recs[t].(state := Runnable, onSleepQ := false, cause := why));
      runQ := runQ + [t];
    }

    /** Puts `t` on the timeout heap. */
    method EnterSleepQ(t: Thread, usecs: nat, ghost r: M.Rec)
      requires Valid() && t in recs && !t.onSleepQ && r == recs[t].(onSleepQ := true, due := lastClock + usecs)
      modifies `recs, `sleepers, recs.Keys, sleepQ
      ensures Valid() && recs == old(recs)[t := r] && sleepers == old(sleepers) + {t}
    {
      hide SleepersMatch, LocksMatch, CondsMatch, SleepQueue.Valid, AllMatch;
      ghost var nodes := sleepQ.nodes;
      Asleep(nodes, sleepers, recs, t);
      sleepQ.AddSleepQ(t, lastClock, usecs);
      EnterMatches(nodes, sleepQ.nodes, sleepers, recs, t, r);
      OthersMatch(recs, t, r);
      recs := recs[t := r];
      sleepers := sleepers + {t};
    }

    /** Puts `t` on the timeout heap, unless it sleeps without a limit. */
    method Doze(t: Thread, timeout: Timeout)
      requires Valid() && t in recs && !t.onSleepQ
      modifies `recs, `sleepers, recs.Keys, sleepQ
      ensures Valid() && View() == M.Doze(old(View()), t, timeout)
    {
      hide SleepersMatch;
      if timeout.After? {
        EnterSleepQ(t, timeout.usecs, recs[t].(onSleepQ := true, due := lastClock + timeout.usecs));
      }
    }

    /** The current thread gives up the processor in `state`, to resume at `at`. */
    method Park(state: State, at: Point)
      requires Valid() && current != null && current in recs
      modifies `recs, `current, current`control
      ensures Valid() && View() == M.Park(old(View()), old(current), state, at)
    {
      hide SleepersMatch;
      Put(current, current.control.(state := state, at := at),
        recs[current].(state := state, at := at, cause := M.Nothing));
      current := null;
    }

    /** Consumes a pending interrupt, if there is one. */
    method TakeInterrupt() returns (taken: bool)
      requires Valid() && current != null && current in recs
      modifies `recs, current`control
      ensures Valid() && taken == old(recs)[current].interrupt
      ensures View() == if taken then M.Clear(old(View()), current) else old(View())
    {
      taken := current.control.interrupt;
      if taken {
        Put(current, current.control.(interrupt := false), recs[current].(interrupt := false));
      }
    }

    /** Rewrites the wait queue of a condition variable. */
    method SetWaitQ(c: Cond, q: seq<Thread>)
      requires Valid() && c in condQ
      modifies `condQ, c`waitQ
      ensures Valid() && condQ == old(condQ)[c := q]
    {
      c.waitQ := q;
      condQ := condQ[c := q];
    }

    method SetOwner(m: Mutex, owner: Thread?)
      requires Valid() && m in owners
      modifies `owners, m`owner
      ensures Valid() && owners == old(owners)[m := owner]
    {
      hide AllMatch, CondsMatch, LocksMatch, SleepersMatch, SleepQueue.Valid;
      OtherLocks(owners, lockQ, m);
      m.owner := owner;
      LockMatches(owners, lockQ, m, owner, m.waitQ);
      owners := owners[m := owner];
    }

    method SetLockQ(m: Mutex, q: seq<Thread>)
      requires Valid() && m in owners
      modifies `lockQ, m`waitQ
      ensures Valid() && lockQ == old(lockQ)[m := q]
    {
      hide AllMatch, CondsMatch, LocksMatch, SleepersMatch, SleepQueue.Valid;
      OtherLocks(owners, lockQ, m);
      m.waitQ := q;
      LockMatches(owners, lockQ, m, m.owner, q);
      lockQ := lockQ[m := q];
    }

    /** The current thread can run: it is known and not on the timeout heap. */
    ghost predicate CanRun()
      reads this
    {
      current != null && current in recs && !recs[current].onSleepQ
    }

    // ---------- sched.c ----------

    /** `added` is whether the event system accepts the descriptors. */
    method Poll(npds: nat, timeout: Timeout, added: bool) returns (out: M.Outcome)
      requires Valid() && CanRun()
      modifies this, recs.Keys, sleepQ
      ensures Valid() && (View(), out) == M.Poll(old(View()), npds, timeout, added)
    {
      var me: Thread := current;
      var interrupted := TakeInterrupt();
      if interrupted {
        return M.Returned(M.Err(M.EINTR));
      }
      if !added {
        return M.Returned(M.Err(M.EADD));
      }
      ParkPoll(me, npds, timeout);
      return M.Parked;
    }

    method ParkPoll(me: Thread, npds: nat, timeout: Timeout)
      requires Valid() && CanRun() && current == me
      modifies `recs, `sleepers, `current, `ioQ, recs.Keys, sleepQ
      ensures Valid()
      ensures var s := old(View());
              View() == M.Doze(M.Park(s, me, IoWait, InPoll(npds, true, 0)).(ioQ := s.ioQ + [me]), me, timeout)
    {
      hide VirtualProcessor.Valid;
      Park(IoWait, InPoll(npds, true, 0));
      ioQ := ioQ + [me];
      Fields(me);
      Doze(me, timeout);
    }

    // ---------- sync.c ----------

    method Usleep(timeout: Timeout) returns (out: M.Outcome)
      requires Valid() && CanRun()
      modifies this, recs.Keys, sleepQ
      ensures Valid() && (View(), out) == M.Sleep(old(View()), timeout)
    {
      var me: Thread := current;
      var interrupted := TakeInterrupt();
      if interrupted {
        return M.Returned(M.Err(M.EINTR));
      }
      Park(if timeout.Forever? then Suspended else Sleeping, InSleep);
      Doze(me, timeout);
      return M.Parked;
    }

    /** The part of a condition wait before its switch; `at` says whose wait it is. */
    method WaitAt(c: Cond, timeout: Timeout, at: Point) returns (out: M.Outcome)
      requires Valid() && CanRun() && c in condQ
      modifies this, recs.Keys, sleepQ, c
      ensures Valid() && (View(), out) == M.WaitAt(old(View()), c, timeout, at)
    {
      var me: Thread := current;
      var interrupted := TakeInterrupt();
      if interrupted {
        return M.Returned(M.Err(M.EINTR));
      }
      Enqueue(c, timeout, at);
      return M.Parked;
    }

    method Enqueue(c: Cond, timeout: Timeout, at: Point)
      requires Valid() && CanRun() && c in condQ
      modifies `recs, `sleepers, `current, `condQ, recs.Keys, sleepQ, c
      ensures Valid()
      ensures var s, me := old(View()), old(current);
              View() == M.Doze(M.Park(s, me, CondWait, at).(conds := s.conds[c := s.conds[c] + [me]]), me, timeout)
    {
      hide SleepersMatch;
      var me: Thread := current;
      Park(CondWait, at);
      SetWaitQ(c, c.waitQ + [me]);
      Doze(me, timeout);
    }

    /** Wakes the first waiting thread of the queue, skipping threads that are linked but awake already. */
    method Signal(c: Cond)
      requires Valid() && c in condQ && forall t | t in condQ[c] :: t in recs
      modifies `recs, `sleepers, `runQ, recs.Keys, sleepQ
      ensures Valid() && View() == M.Signal(old(View()), c)
    {
      var i := 0;
      while i < |c.waitQ| && c.waitQ[i].control.state != CondWait
        invariant 0 <= i <= |c.waitQ|
        invariant forall k | 0 <= k < i :: recs[condQ[c][k]].state != CondWait
      {
        assert condQ[c][i] in condQ[c];
        i := i + 1;
      }
      FirstAt(View(), condQ[c], CondWait, i);
      if i < |c.waitQ| {
        assert condQ[c][i] in condQ[c];
        MakeRunnable(c.waitQ[i], M.Signalled);
      }
    }

    /** Wakes every waiting thread of the queue, in order. */
    method Broadcast(c: Cond)
      requires Valid() && c in condQ && I.Members(condQ[c], View())
      modifies `recs, `sleepers, `runQ, recs.Keys, sleepQ
      ensures Valid() && View() == M.Broadcast(old(View()), c)
    {
      ghost var s := View();
      BroadcastNone(s, c);
      for i := 0 to |c.waitQ|
        invariant Valid() && c.waitQ == condQ[c] == s.conds[c] && recs.Keys == s.threads.Keys
        invariant View() == BroadcastTo(s, c, i)
      {
        BroadcastTurn(c, i, s);
      }
      BroadcastAll(s, c);
    }

    /** One turn of the broadcast: the thread at `i` is woken if it still waits. */
    method BroadcastTurn(c: Cond, i: nat, ghost s: M.Vp)
      requires Valid() && c in condQ && c in s.conds && condQ[c] == s.conds[c] && I.Members(s.conds[c], s)
      requires i < |s.conds[c]| && View() == BroadcastTo(s, c, i)
      modifies `recs, `sleepers, `runQ, recs.Keys, sleepQ
      ensures Valid() && View() == BroadcastTo(s, c, i + 1) && recs.Keys == old(recs.Keys)
    {
      hide SleepersMatch;
      BroadcastStep(s, c, i);
      var t := c.waitQ[i];
      if t.control.state == CondWait {
        MakeRunnable(t, M.Signalled);
      }
    }

    method Lock(m: Mutex) returns (out: M.Outcome)
      requires Valid() && CanRun() && m in owners
      modifies this, recs.Keys, m
      ensures Valid() && (View(), out) == M.Lock(old(View()), m)
    {
      hide VirtualProcessor.Valid;
      var me: Thread := current;
      var interrupted := TakeInterrupt();
      if interrupted {
        return M.Returned(M.Err(M.EINTR));
      }
      LockFields(m);
      if m.owner == null {
        SetOwner(m, me);
        return M.Returned(M.Ok(0));
      }
      if m.owner == me {
        return M.Returned(M.Err(M.EDEADLK));
      }
      Park(LockWait, InLock(m));
      SetLockQ(m, m.waitQ + [me]);
      return M.Parked;
    }

    method TryLock(m: Mutex) returns (out: M.Outcome)
      requires Valid() && m in owners
      modifies `owners, `lockQ, m
      ensures Valid() && (View(), out) == M.TryLock(old(View()), m)
    {
      if m.owner != null {
        return M.Returned(M.Err(M.EBUSY));
      }
      SetOwner(m, current);
      return M.Returned(M.Ok(0));
    }

    /** Hands the mutex to the first thread still waiting for it, if there is one. */
    method Unlock(m: Mutex) returns (out: M.Outcome)
      requires Valid() && m in owners && forall t | t in lockQ[m] :: t in recs
      modifies this, recs.Keys, sleepQ, m
      ensures Valid() && (View(), out) == M.Unlock(old(View()), m)
    {
      if m.owner != current {
        return M.Returned(M.Err(M.EPERM));
      }
      var i := 0;
      while i < |m.waitQ| && m.waitQ[i].control.state != LockWait
        invariant 0 <= i <= |m.waitQ|
        invariant forall k | 0 <= k < i :: recs[lockQ[m][k]].state != LockWait
      {
        assert lockQ[m][i] in lockQ[m];
        i := i + 1;
      }
      FirstAt(View(), lockQ[m], LockWait, i);
      if i < |m.waitQ| {
        var t := m.waitQ[i];
        assert lockQ[m][i] in lockQ[m];
        MakeRunnable(t, M.LockGranted);
        SetOwner(m, t);
      } else {
        SetOwner(m, null);
      }
      return M.Returned(M.Ok(0));
    }

    // ---------- the rest of sched.c ----------

    /** Interrupts `t`: nothing for a zombie, a flag for a thread that can run, a wake-up for one that is blocked. */
    method InterruptThread(t: Thread)
      requires Valid() && t in recs
      modifies `recs, `sleepers, `runQ, recs.Keys, sleepQ
      ensures Valid() && View() == M.Interrupt(old(View()), t)
    {
      if t.control.state == Zombie {
        return;
      }
      ghost var before := recs;
      Put(t, t.control.(interrupt := true), recs[t].(interrupt := true));
      if t.control.state == Running || t.control.state == Runnable {
        return;
      }
      MakeRunnable(t, M.Interrupted);
    }

    /** The sleeper due first, if there is one. */
    method FirstSleeper() returns (t: Thread?)
      requires Valid()
      ensures FirstDue(recs, sleepers, t) && (t != null ==> t.due == recs[t].due)
    {
      t := sleepQ.root;
      if t != null {
        RootDue(sleepQ.nodes);
        assert t == sleepQ.nodes[0];
        forall x | x in sleepers ensures recs[t].due <= recs[x].due {
          assert x in sleepQ.nodes && Matches(x, recs[x]) && Matches(t, recs[t]);
        }
      } else {
        assert sleepQ.nodes == [];
      }
    }

    /** The expired `t` becomes runnable, before all others. */
    method ExpireOne(t: Thread)
      requires Valid() && t in recs
      modifies `recs, `sleepers, `runQ, recs.Keys, sleepQ
      ensures Valid() && View() == WithExpired(old(View()), t)
    {
      hide VirtualProcessor.Valid;
      Fields(t);
      Rouse(t, t.control.(state := Runnable, timedOut := t.control.timedOut || t.control.state == CondWait),
        TimedOutRec(recs[t]));
      runQ := [t] + runQ;
    }

    method SetClock(now: nat)
      requires Valid()
      modifies `lastClock
      ensures Valid() && View() == M.Expire(old(View()), now, [])
    {
      ExpireNone(View(), now);
      lastClock := now;
    }

    /** One turn of the clock check: the sleeper due first expires, if it is due by `now`. */
    method ExpireTurn(now: nat, ghost s: M.Vp, ghost expired: seq<Thread>)
        returns (more: bool, ghost expired': seq<Thread>)
      requires Valid() && View() == M.Expire(s, now, expired) && Expiring(s, now, expired)
      modifies `recs, `sleepers, `runQ, recs.Keys, sleepQ
      ensures Valid() && recs.Keys == old(recs.Keys)
      ensures View() == M.Expire(s, now, expired') && Expiring(s, now, expired')
      ensures if more then sleepers < old(sleepers) else M.ExpiryOrder(s, now, expired')
    {
      expired' := expired;
      var t := FirstSleeper();
      more := t != null && t.due <= now;
      if more {
        var first: Thread := t;
        ExpireFirst(first, now, s, expired);
        expired' := expired + [first];
      } else {
        ExpireEnds(s, now, expired, t);
      }
    }

    method ExpireFirst(t: Thread, now: nat, ghost s: M.Vp, ghost expired: seq<Thread>)
      requires Valid() && Clocked(View(), s, now, expired, t) && recs[t].due <= now
      modifies `recs, `sleepers, `runQ, recs.Keys, sleepQ
      ensures Valid() && View() == M.Expire(s, now, expired + [t]) && Expiring(s, now, expired + [t])
      ensures recs.Keys == old(recs.Keys) && sleepers == old(sleepers) - {t} && t in old(sleepers)
    {
      ExpiringMore(s, now, expired, t);
      ExpireEffect(s, now, expired, t);
      ExpireOne(t);
    }

    /** Expires every sleeper due by `now`, the earliest first. */
    method CheckClock(now: nat) returns (ghost expired: seq<Thread>)
      requires Valid()
      modifies `recs, `sleepers, `runQ, `lastClock, recs.Keys, sleepQ
      ensures Valid() && View() == M.Expire(old(View()), now, expired) && M.ExpiryOrder(old(View()), now, expired)
    {
      ghost var s, all := View(), recs.Keys;
      ExpireNone(s, now);
      SetClock(now);
      var more;
      more, expired := ExpireTurn(now, s, []);
      while more
        invariant Valid() && recs.Keys == all && View() == M.Expire(s, now, expired) && Expiring(s, now, expired)
        invariant !more ==> M.ExpiryOrder(s, now, expired)
        decreases more, sleepers
      {
        more, expired := ExpireTurn(now, s, expired);
      }
    }

    method Yield(now: nat) returns (out: M.Outcome, ghost expired: seq<Thread>)
      requires Valid() && CanRun()
      modifies this, recs.Keys, sleepQ
      ensures Valid() && (View(), out) == M.Yield(old(View()), now, expired) && M.ExpiryOrder(old(View()), now, expired)
    {
      var me: Thread := current;
      expired := CheckClock(now);
      if runQ == [] {
        return M.Returned(M.Ok(0)), expired;
      }
      Requeue(me);
      return M.Parked, expired;
    }

    /** The current thread goes to the end of the run queue. */
    method Requeue(me: Thread)
      requires Valid() && current == me && me in recs
      modifies `recs, `current, `runQ, me`control
      ensures Valid() && View() == M.Park(old(View()), me, Runnable, AtUser).(runQ := old(runQ) + [me])
    {
      hide SleepersMatch;
      Park(Runnable, AtUser);
      runQ := runQ + [me];
    }

    /** First fit from the free stacks, or the one newly mapped, if any. */
    method StackNew(size: nat, mapped: Option<Stack>) returns (st: Option<Stack>)
      requires Valid()
      modifies `freeStacks
      ensures Valid() && (st, freeStacks) == M.StackNew(old(freeStacks), size, mapped)
    {
      var i := 0;
      while i < |freeStacks| && freeStacks[i].size < size
        invariant 0 <= i <= |freeStacks|
        invariant forall k | 0 <= k < i :: freeStacks[k].size < size
      {
        i := i + 1;
      }
      FitAt(freeStacks, size, i);
      if i == |freeStacks| {
        return mapped;
      }
      st := Some(freeStacks[i]);
      freeStacks := freeStacks[..i] + freeStacks[i + 1..];
    }

    /**
     Creates a thread.  It fails when no stack is free or `mapped`, and when a termination
     condition variable is needed and not allocated.
     */
    method Create(joinable: bool, size: nat, mapped: Option<Stack>, allocates: bool) returns (t: Thread?, term: Cond?)
      requires Valid()
      modifies `recs, `condQ, `runQ, `activeCount, `freeStacks
      ensures Valid() && (t == null <==> M.StackNew(old(freeStacks), size, mapped).0.None? || (joinable && !allocates))
      ensures t != null ==> fresh(t) && (term != null ==> fresh(term)) && (joinable <==> term != null)
      ensures View() == if t == null then M.CreateFails(old(View()), size, mapped)
              else M.Create(old(View()), t, term, size, mapped)
    {
      hide VirtualProcessor.Valid, M.StackNew, M.StackFree, M.Start, M.CreateFails;
      FailsIs(View(), size, mapped);
      t, term := null, null;
      var st := StackNew(size, mapped);
      if st.None? {
        return;
      }
      if joinable && !allocates {
        freeStacks := M.StackFree(freeStacks, st);
        return;
      }
      t, term := Begin(joinable, st);
    }

    method Begin(joinable: bool, st: Option<Stack>) returns (t: Thread, term: Cond?)
      requires Valid()
      modifies `recs, `condQ, `runQ, `activeCount
      ensures Valid() && fresh(t) && (term != null ==> fresh(term)) && (joinable <==> term != null)
      ensures View() == M.Start(old(View()), t, term, st)
    {
      hide VirtualProcessor.Valid;
      term := NewTerm(joinable);
      t := Spawn(term, st);
    }

    method NewCond() returns (c: Cond)
      requires Valid()
      modifies `condQ
      ensures Valid() && fresh(c) && condQ == old(condQ)[c := []]
    {
      c := new Cond();
      condQ := condQ[c := []];
    }

    method NewMutex() returns (m: Mutex)
      requires Valid()
      modifies `owners, `lockQ
      ensures Valid() && fresh(m) && owners == old(owners)[m := null] && lockQ == old(lockQ)[m := []]
    {
      m := new Mutex();
      owners, lockQ := owners[m := null], lockQ[m := []];
    }

    method Spawn(term: Cond?, st: Option<Stack>) returns (t: Thread)
      requires Valid()
      modifies `recs, `runQ, `activeCount
      ensures Valid() && fresh(t) && runQ == old(runQ) + [t] && activeCount == old(activeCount) + 1
      ensures recs == old(recs)[t := M.Rec(Runnable, AtUser, false, false, false, 0, term, 0, st, M.Nothing)]
    {
      t := NewThread(Control(Runnable, AtUser, false, false, term, 0, st));
      activeCount := activeCount + 1;
      runQ := runQ + [t];
    }

    /** A joinable thread gets a condition variable for its termination. */
    method NewTerm(joinable: bool) returns (term: Cond?)
      requires Valid()
      modifies `condQ
      ensures Valid() && (joinable <==> term != null) && (term != null ==> fresh(term))
      ensures condQ == if term == null then old(condQ) else old(condQ)[term := []]
    {
      term := null;
      if joinable {
        term := NewCond();
      }
    }

    method NewThread(control: Control) returns (t: Thread)
      requires Valid()
      modifies `recs
      ensures Valid() && fresh(t)
      ensures recs == old(recs)[t := M.Rec(control.state, control.at, control.interrupt, control.timedOut, false, 0,
                                           control.term, control.retval, control.stack, M.Nothing)]
    {
      t := new Thread(control);
      recs := recs[t := M.Rec(control.state, control.at, control.interrupt, control.timedOut, false, 0,
                              control.term, control.retval, control.stack, M.Nothing)];
    }

    /** The end of the current thread: its stack is free again. */
    method Bury()
      requires Valid() && current != null && current in recs
      modifies `recs, `current, `freeStacks, current`control
      ensures Valid() && View() == M.Bury(old(View()), old(current))
    {
      freeStacks := M.StackFree(freeStacks, current.control.stack);
      Park(State.Running, Gone);
    }

    /** Thread exit up to its first switch. */
    method Exit(retval: int)
      requires Valid() && current != null && current in recs && var c := recs[current].term; c != null ==> c in condQ
      requires forall c, t | c in condQ && t in condQ[c] :: t in recs
      modifies `recs, `sleepers, `current, `runQ, `zombieQ, `activeCount, `freeStacks, recs.Keys, sleepQ
      ensures Valid() && View() == M.Exit(old(View()), retval)
    {
      var me: Thread := current;
      ExitIs(View(), me, retval);
      Retire(me, retval);
      if me.control.term != null {
        BecomeZombie(me, me.control.term);
      } else {
        Bury();
      }
    }

    method Retire(me: Thread, retval: int)
      requires Valid() && me in recs
      modifies `recs, `activeCount, me`control
      ensures Valid() && me.control.term == old(me.control.term)
      ensures View() == M.Retire(old(View()), me, retval)
    {
      hide VirtualProcessor.Valid;
      Fields(me);
      Put(me, me.control.(retval := retval), recs[me].(retval := retval));
      activeCount := activeCount - 1;
    }

    method BecomeZombie(me: Thread, c: Cond)
      requires Valid() && current == me && me in recs && c in condQ && forall t | t in condQ[c] :: t in recs
      modifies `recs, `sleepers, `current, `runQ, `zombieQ, recs.Keys, sleepQ
      ensures Valid() && View() == M.Signal(M.Zombify(old(View()), me), c)
    {
      hide VirtualProcessor.Valid, M.Signal;
      Park(Zombie, InExit);
      zombieQ := zombieQ + [me];
      Signal(c);
    }

    /** One round of the join loop. */
    method JoinRound(target: Thread, c: Cond) returns (out: M.Outcome)
      requires Valid() && CanRun() && target in recs && c in condQ
      modifies this, recs.Keys, sleepQ, c
      ensures Valid() && (View(), out) == M.JoinRound(old(View()), target, c)
    {
      if target.control.state != Zombie {
        out := WaitAt(c, Forever, InJoin(target, c));
      } else {
        out := M.Returned(M.Ok(target.control.retval));
        Release(target);
      }
    }

    /** A joined thread leaves the zombie queue to run its own clean-up. */
    method Release(target: Thread)
      requires Valid() && target in recs
      modifies `recs, `zombieQ, `runQ, target`control
      ensures Valid()
      ensures View() == M.Set(old(View()), target, old(recs)[target].(state := Runnable, cause := M.Nothing))
                        .(zombieQ := M.Without(old(zombieQ), target), runQ := old(runQ) + [target])
    {
      hide VirtualProcessor.Valid, M.Without;
      Fields(target);
      zombieQ := M.Without(zombieQ, target);
      runQ := runQ + [target];
      Put(target, target.control.(state := Runnable), recs[target].(state := Runnable, cause := M.Nothing));
    }

    method Join(target: Thread) returns (out: M.Outcome)
      requires Valid() && CanRun() && target in recs && var c := recs[target].term; c != null ==> c in condQ
      modifies this, recs.Keys, sleepQ, condQ.Keys
      ensures Valid() && (View(), out) == M.Join(old(View()), target)
    {
      if target.control.term == null {
        return M.Returned(M.Err(M.EINVAL));
      }
      if current == target {
        return M.Returned(M.Err(M.EDEADLK));
      }
      var c: Cond := target.control.term;
      if c.waitQ != [] {
        return M.Returned(M.Err(M.EINVAL));
      }
      out := JoinRound(target, c);
    }

    method Dequeue() returns (t: Thread)
      requires Valid()
      modifies `runQ
      ensures Valid() && t == M.Next(old(View())) && runQ == if old(runQ) != [] then old(runQ)[1..] else []
    {
      t := idle;
      if runQ != [] {
        t := runQ[0];
        runQ := runQ[1..];
      }
    }

    /** The head of the run queue is next, or the idle thread when the queue is empty. */
    method Pick()
      requires Valid() && M.Next(View()) in recs
      modifies `recs, `runQ, `current, {M.Next(View())}`control
      ensures Valid() && View() == M.Pick(old(View())) && current == M.Next(old(View()))
    {
      var t := Dequeue();
      Run(t);
    }

    method Run(t: Thread)
      requires Valid() && t in recs
      modifies `recs, `current, t`control
      ensures Valid() && View() == M.Set(old(View()), t, old(recs)[t].(state := State.Running)).(current := t)
    {
      hide SleepersMatch, LocksMatch;
      Put(t, t.control.(state := State.Running), recs[t].(state := State.Running));
      current := t;
    }

    /** The current thread is back in user code from a poll or a sleep, with its interrupt consumed. */
    method Back(t: Thread)
      requires Valid() && t in recs
      modifies `recs, t`control
      ensures Valid() && View() == M.Back(old(View()), t)
    {
      Put(t, t.control.(at := AtUser, interrupt := false), recs[t].(at := AtUser, interrupt := false));
    }

    /** The end of a poll: a poll that timed out or was interrupted is still on the I/O queue. */
    method PollResumes(t: Thread) returns (out: M.Outcome)
      requires Valid() && current == t && t in recs && recs[t].at.InPoll?
      modifies `recs, `ioQ, t`control
      ensures Valid() && (View(), out) == M.Resume(old(View()), t)
    {
      hide SleepersMatch, M.Without, LocksMatch;
      var c := t.control;
      Back(t);
      var n := c.at.ready;
      if c.at.onIoq {
        ioQ := M.Without(ioQ, t);
        n := 0;
      }
      out := M.Returned(if c.interrupt then M.Err(M.EINTR) else M.Ok(n));
    }

    method SleepResumes(t: Thread) returns (out: M.Outcome)
      requires Valid() && current == t && t in recs && recs[t].at.InSleep?
      modifies `recs, t`control
      ensures Valid() && (View(), out) == M.Resume(old(View()), t)
    {
      var interrupted := t.control.interrupt;
      Back(t);
      out := M.Returned(if interrupted then M.Err(M.EINTR) else M.Ok(0));
    }

    /** The part of a condition wait after its switch. */
    method WaitEnds(t: Thread, c: Cond) returns (out: M.Outcome)
      requires Valid() && t in recs && c in condQ
      modifies `recs, `condQ, t`control, c`waitQ
      ensures Valid() && View() == M.Awake(old(View()), t, c) && out == M.WaitResult(old(recs)[t])
    {
      hide SleepersMatch;
      SetWaitQ(c, M.Without(c.waitQ, t));
      out := M.Returned(M.Ok(0));
      if t.control.timedOut {
        out := M.Returned(M.Err(M.ETIME));
      }
      if t.control.interrupt {
        out := M.Returned(M.Err(M.EINTR));
      }
      Put(t, t.control.(at := AtUser, interrupt := false, timedOut := false),
          recs[t].(at := AtUser, interrupt := false, timedOut := false));
    }

    /** The join loop goes on after a wait that was not interrupted. */
    method JoinResumes(t: Thread) returns (out: M.Outcome)
      requires Valid() && CanRun() && current == t && recs[t].at.InJoin? && M.PointKnown(View(), recs[t].at)
      modifies this, recs.Keys, sleepQ, recs[t].at.cond
      ensures Valid() && (View(), out) == M.Resume(old(View()), t)
    {
      var target, c := t.control.at.target, t.control.at.cond;
      out := WaitEnds(t, c);
      if out == M.Returned(M.Ok(0)) {
        out := JoinRound(target, c);
      }
    }

    /** The end of a lock: an interrupt counts only if the mutex was not handed over. */
    method LockResumes(t: Thread) returns (out: M.Outcome)
      requires Valid() && current == t && t in recs && recs[t].at.InLock? && M.PointKnown(View(), recs[t].at)
      modifies `recs, `lockQ, t`control, recs[t].at.lock`waitQ
      ensures Valid() && (View(), out) == M.Resume(old(View()), t)
    {
      var m := t.control.at.lock;
      out := LockEnds(t, m);
    }

    method LockEnds(t: Thread, m: Mutex) returns (out: M.Outcome)
      requires Valid() && t in recs && m in owners
      modifies `recs, `lockQ, t`control, m`waitQ
      ensures Valid() && (View(), out) == M.LockEnd(old(View()), t, m)
    {
      hide VirtualProcessor.Valid, M.Without;
      Fields(t);
      LockFields(m);
      SetLockQ(m, M.Without(m.waitQ, t));
      var lost := t.control.interrupt && m.owner != t;
      Put(t, t.control.(at := AtUser, interrupt := t.control.interrupt && !lost),
        recs[t].(at := AtUser, interrupt := recs[t].interrupt && !lost));
      out := M.Returned(if lost then M.Err(M.EINTR) else M.Ok(0));
    }

    /** Thread exit after its first switch: the termination condition variable goes, unless threads are linked to it. */
    method ExitResumes(t: Thread) returns (out: M.Outcome)
      requires Valid() && current == t && t in recs && recs[t].at.InExit?
      modifies `recs, `condQ, `current, `freeStacks, t`control
      ensures Valid() && (View(), out) == M.Resume(old(View()), t)
    {
      hide VirtualProcessor.Valid, M.JoinRound, M.Bury;
      DestroyTerm(t);
      Bury();
      out := M.Parked;
    }

    method DestroyTerm(t: Thread)
      requires Valid() && t in recs
      modifies `recs, `condQ, t`control
      ensures Valid() && View() == M.DestroyTerm(old(View()), t)
    {
      hide SleepersMatch;
      ghost var c := recs[t].term;
      if c != null && c in condQ && condQ[c] == [] {
        condQ := condQ - {c};
      }
      Put(t, t.control.(term := null), recs[t].(term := null));
    }

    /** The thread just picked runs on from its resume point. */
    method Resume(t: Thread) returns (out: M.Outcome)
      requires Valid() && CanRun() && current == t && M.PointKnown(View(), recs[t].at)
      modifies this, recs.Keys, sleepQ, condQ.Keys, owners.Keys
      ensures Valid() && (View(), out) == M.Resume(old(View()), t)
    {
      match t.control.at
      case AtUser => out := M.Returned(M.Ok(0));
      case AtIdle => out := M.Parked;
      case Gone => out := M.Parked;
      case InPoll(_, _, _) => out := PollResumes(t);
      case InSleep => out := SleepResumes(t);
      case InWait(c) => out := WaitEnds(t, c);
      case InJoin(_, _) => out := JoinResumes(t);
      case InLock(_) => out := LockResumes(t);
      case InExit => out := ExitResumes(t);
    }

    /** Picks the next thread and resumes it. */
    method Schedule() returns (out: M.Outcome)
      requires Valid() && M.Next(View()) in recs
      requires var r := recs[M.Next(View())]; M.PointKnown(View(), r.at) && !r.onSleepQ
      modifies this, recs.Keys, sleepQ, condQ.Keys, owners.Keys
      ensures Valid() && (View(), out) == M.Schedule(old(View()))
    {
      Pick();
      out := Resume(current);
    }

    /** The poll of `t` has fired, with `n` ready descriptors: it leaves the I/O queue and its thread is woken. */
    method WakePoll(t: Thread, n: nat)
      requires Valid() && t in recs && recs[t].at.InPoll?
      modifies `recs, `sleepers, `runQ, `ioQ, recs.Keys, sleepQ
      ensures Valid() && View() == WithFired(old(View()), t, n)
    {
      hide VirtualProcessor.Valid, M.Without, ControlOf, FiredRec;
      Fields(t);
      FiredControl(t, recs[t], n);
      ioQ := M.Without(ioQ, t);
      runQ := runQ + [t];
      Rouse(t, t.control.(state := Runnable, at := t.control.at.(onIoq := false, ready := n)), FiredRec(recs[t], n));
    }

    /** What a dispatch of the event system does to the scheduler: `ready` are the threads of the polls that fire. */
    method Dispatch(ready: map<Thread, nat>)
      requires Valid() && I.Members(ioQ, View()) && forall t | t in ready :: t in ioQ && recs[t].at.InPoll?
      modifies `recs, `sleepers, `runQ, `ioQ, recs.Keys, sleepQ
      ensures Valid() && View() == M.Dispatch(old(View()), ready)
    {
      hide SleepersMatch;
      ghost var s := View();
      var queue := ioQ;
      DispatchNone(s, ready);
      for i := 0 to |queue|
        invariant Valid() && recs.Keys == s.threads.Keys && View() == M.Dispatch(s, Upto(ready, queue[..i]))
      {
        DispatchStep(s, ready, i);
        if queue[i] in ready {
          WakePoll(queue[i], ready[queue[i]]);
        }
      }
      DispatchAll(s, ready);
    }

    /** The idle thread's loop from one switch to the next; `ready` are the threads of the polls that fire. */
    method IdleTurn(ready: map<Thread, nat>, now: nat) returns (out: M.Outcome, ghost expired: seq<Thread>)
      requires Valid() && current == idle && idle in recs
      requires I.Members(ioQ, View()) && forall t | t in ready :: t in ioQ && recs[t].at.InPoll?
      modifies this, recs.Keys, sleepQ
      ensures Valid() && (View(), out) == M.IdleTurn(old(View()), ready, now, expired)
      ensures out != M.Exited ==> M.ExpiryOrder(M.Dispatch(old(View()), ready), now, expired)
    {
      if activeCount <= 0 {
        return M.Exited, [];
      }
      Dispatch(ready);
      expired := CheckClock(now);
      Park(Runnable, AtIdle);
      out := M.Parked;
    }
  }

  lemma Asleep(nodes: seq<Thread>, sleepers: set<Thread>, recs: map<Thread, M.Rec>, t: Thread)
    requires AllMatch(recs) && SleepersMatch(nodes, sleepers, recs) && t in recs
    ensures Matches(t, recs[t]) && AllMatch(recs - {t})
    ensures (t in nodes <==> t.onSleepQ) && forall x | x in nodes :: x in recs
  {
  }

  /** The other threads match their records, and still do once `t` has a new one. */
  lemma OthersMatch(recs: map<Thread, M.Rec>, t: Thread, r: M.Rec)
    requires AllMatch(recs - {t}) && Matches(t, r)
    ensures AllMatch(recs[t := r])
  {
    forall x | x in recs && x != t ensures Matches(x, recs[x]) { assert x in recs - {t}; }
  }

  lemma OtherLocks(owners: map<Mutex, Thread?>, lockQ: map<Mutex, seq<Thread>>, m: Mutex)
    requires LocksMatch(owners, lockQ) && m in owners
    ensures LocksMatch(owners - {m}, lockQ - {m})
    ensures owners == owners[m := m.owner] && lockQ == lockQ[m := m.waitQ]
  {
    assert m in owners.Keys;
  }

  lemma LockMatches(owners: map<Mutex, Thread?>, lockQ: map<Mutex, seq<Thread>>, m: Mutex, owner: Thread?,
                    q: seq<Thread>)
    requires LocksMatch(owners - {m}, lockQ - {m}) && m.owner == owner && m.waitQ == q && m in owners && m in lockQ
    ensures LocksMatch(owners[m := owner], lockQ[m := q])
  {
    forall x | x in owners && x != m ensures x in lockQ && x.owner == owners[x] && x.waitQ == lockQ[x] {
      assert x in owners - {m};
      assert x in (owners - {m}).Keys;
    }
    forall x | x in lockQ && x != m ensures x in owners {
      assert x in (lockQ - {m}).Keys;
    }
  }

  lemma FailsIs(s: M.Vp, size: nat, mapped: Option<Stack>)
    ensures var (st, free) := M.StackNew(s.freeStacks, size, mapped);
            && M.CreateFails(s, size, mapped) == s.(freeStacks := M.StackFree(free, st))
            && (st.None? ==> M.StackFree(free, st) == free)
  {
  }

  lemma FiredControl(t: Thread, r: M.Rec, n: nat)
    requires Matches(t, r) && r.at.InPoll?
    ensures t.control.at.InPoll?
    ensures var r' := FiredRec(r, n);
            && ControlOf(r') == t.control.(state := Runnable, at := t.control.at.(onIoq := false, ready := n))
            && !r'.onSleepQ && r'.due == r.due
  {
  }

  lemma LeaveMatches(nodes: seq<Thread>, nodes': seq<Thread>, sleepers: set<Thread>, recs: map<Thread, M.Rec>,
                     t: Thread, r: M.Rec)
    requires SleepersMatch(nodes, sleepers, recs) && t in recs && !r.onSleepQ
    requires t !in nodes' && (forall x | x in nodes' :: x in nodes) && forall x | x in nodes :: x == t || x in nodes'
    ensures SleepersMatch(nodes', sleepers - {t}, recs[t := r])
  {
  }

  lemma EnterMatches(nodes: seq<Thread>, nodes': seq<Thread>, sleepers: set<Thread>, recs: map<Thread, M.Rec>,
                     t: Thread, r: M.Rec)
    requires SleepersMatch(nodes, sleepers, recs) && t in recs && r.onSleepQ
    requires t in nodes' && (forall x | x in nodes' :: x in nodes || x == t) && forall x | x in nodes :: x in nodes'
    ensures SleepersMatch(nodes', sleepers + {t}, recs[t := r])
  {
  }

  lemma RootDue(ns: seq<Thread>)
    requires Ordered(ns) && ns != []
    ensures forall t | t in ns :: ns[0].due <= t.due
  {
    forall i | 0 <= i < |ns| ensures ns[0].due <= ns[i].due {
      RootIsFirst(ns, i);
    }
  }

  lemma UpdateTwice<K, V>(m: map<K, V>, k: K, a: V, b: V)
    ensures m[k := a][k := b] == m[k := b]
  {
  }
}
