/**
 The scheduler as a transition system over values: what one thread's API call does up to
 its next context switch, and what resuming a parked thread does up to its return.
 A context switch stores a resume point instead of a jump buffer.
 */
module SchedulerModel {
  import opened Threads

  /** What a step comes to: a call returns, the thread gives up the processor, or the process exits. */
  datatype Outcome = Returned(ret: Ret) | Parked | Exited

  datatype Ret = Ok(value: int) | Err(errno: Errno)

  datatype Errno = EINTR | ETIME | EBUSY | EPERM | EDEADLK | EINVAL | ENOMEM | EADD

  /** A thread record.  `cause` is a history variable: what last made the thread runnable. */
  datatype Rec = Rec(state: State, at: Point, interrupt: bool, timedOut: bool, onSleepQ: bool, due: nat,
                     term: Cond?, retval: int, stack: Option<Stack>, cause: Cause)

  datatype Cause = Nothing | Signalled | TimerFired | Interrupted | IoReady | LockGranted

  /** The virtual processor.  `current` is null between a context switch and the next pick. */
  datatype Vp = Vp(threads: map<Thread, Rec>, current: Thread?, idle: Thread,
                   runQ: seq<Thread>, zombieQ: seq<Thread>, ioQ: seq<Thread>, sleepers: set<Thread>,
                   conds: map<Cond, seq<Thread>>, owners: map<Mutex, Thread?>, lockQ: map<Mutex, seq<Thread>>,
                   clock: nat, active: int, freeStacks: seq<Stack>)

  // ---------- queues ----------

  ghost predicate NoDup<T>(q: seq<T>) {
    forall i, j :: 0 <= i < j < |q| ==> q[i] != q[j]
  }

  /** The queue without `t`. */
  function Without<T(==)>(q: seq<T>, t: T): (r: seq<T>)
    ensures (forall x | x in r :: x in q && x != t) && forall x | x in q :: x == t || x in r
  {
    if q == [] then []
    else if q[0] == t then Without(q[1..], t)
    else [q[0]] + Without(q[1..], t)
  }

  /** The members of `q` that are in `keep`, in queue order. */
  function Only<T(==)>(q: seq<T>, keep: set<T>): (r: seq<T>)
    ensures (forall x | x in r :: x in q && x in keep) && forall x | x in q && x in keep :: x in r
  {
    if q == [] then []
    else if q[0] in keep then [q[0]] + Only(q[1..], keep)
    else Only(q[1..], keep)
  }

  function Reverse<T>(q: seq<T>): (r: seq<T>)
    ensures |r| == |q| && (forall x | x in r :: x in q) && forall x | x in q :: x in r
  {
    if q == [] then [] else Reverse(q[1..]) + [q[0]]
  }

  lemma {:induction false} OnlyNoDup<T>(q: seq<T>, keep: set<T>)
    requires NoDup(q)
    ensures NoDup(Only(q, keep))
  {
    if q != [] {
      OnlyNoDup(q[1..], keep);
    }
  }

  lemma {:induction false} WithoutNoDup<T>(q: seq<T>, t: T)
    requires NoDup(q)
    ensures NoDup(Without(q, t)) && |Without(q, t)| == (if t in q then |q| - 1 else |q|)
  {
    if q != [] {
      WithoutNoDup(q[1..], t);
      assert q[0] !in q[1..];
      if q[0] != t { ConcatNoDup([q[0]], Without(q[1..], t)); }
    }
  }

  lemma {:induction false} ReverseAt<T>(q: seq<T>, i: nat)
    requires i < |q|
    ensures Reverse(q)[i] == q[|q| - 1 - i]
  {
    if i < |q| - 1 {
      ReverseAt(q[1..], i);
    }
  }

  lemma ReverseNoDup<T>(q: seq<T>)
    requires NoDup(q)
    ensures NoDup(Reverse(q))
  {
    forall i, j | 0 <= i < j < |Reverse(q)| ensures Reverse(q)[i] != Reverse(q)[j] {
      ReverseAt(q, i);
      ReverseAt(q, j);
    }
  }

  lemma ConcatNoDup<T>(a: seq<T>, b: seq<T>)
    requires NoDup(a) && NoDup(b) && forall x | x in a :: x !in b
    ensures NoDup(a + b)
  {
    forall i, j | 0 <= i < j < |a + b| ensures (a + b)[i] != (a + b)[j] {
      if i < |a| <= j { assert a[i] in a && b[j - |a|] in b; }
    }
  }

  // ---------- pieces shared by the calls ----------

  function Set(s: Vp, t: Thread, r: Rec): Vp {
    s.(threads := s.threads[t := r])
  }

  /** `t` becomes runnable: off the timeout heap, on the tail of the run queue. */
  function Wake(s: Vp, t: Thread, cause: Cause): Vp
    requires t in s.threads
  {
    Set(s, t, s.threads[t].(state := Runnable, onSleepQ := false, cause := cause))
      .(runQ := s.runQ + [t], sleepers := s.sleepers - {t})
  }

  function Clear(s: Vp, t: Thread): Vp
    requires t in s.threads
  {
    Set(s, t, s.threads[t].(interrupt := false))
  }

  /** `t` gives up the processor in `state`, to resume at `at`. */
  function Park(s: Vp, t: Thread, state: State, at: Point): Vp
    requires t in s.threads
  {
    Set(s, t, s.threads[t].(state := state, at := at, cause := Nothing)).(current := null)
  }

  function Doze(s: Vp, t: Thread, timeout: Timeout): Vp
    requires t in s.threads
  {
    match timeout
    case Forever => s
    case After(usecs) =>
      Set(s, t, s.threads[t].(onSleepQ := true, due := s.clock + usecs)).(sleepers := s.sleepers + {t})
  }

  // ---------- sched.c and sync.c ----------

  function Poll(s: Vp, npds: nat, timeout: Timeout, added: bool): (Vp, Outcome)
    requires s.current in s.threads
  {
    var me: Thread := s.current;
    if s.threads[me].interrupt then (Clear(s, me), Returned(Err(EINTR)))
    else if !added then (s, Returned(Err(EADD)))
    else (Doze(Park(s, me, IoWait, InPoll(npds, true, 0)).(ioQ := s.ioQ + [me]), me, timeout), Parked)
  }

  function Sleep(s: Vp, timeout: Timeout): (Vp, Outcome)
    requires s.current in s.threads
  {
    var me: Thread := s.current;
    if s.threads[me].interrupt then (Clear(s, me), Returned(Err(EINTR)))
    else (Doze(Park(s, me, if timeout.Forever? then Suspended else Sleeping, InSleep), me, timeout), Parked)
  }

  /** Parks the caller on a condition variable. */
  function WaitAt(s: Vp, c: Cond, timeout: Timeout, at: Point): (Vp, Outcome)
    requires s.current in s.threads && c in s.conds
  {
    var me: Thread := s.current;
    if s.threads[me].interrupt then (Clear(s, me), Returned(Err(EINTR)))
    else (Doze(Park(s, me, CondWait, at).(conds := s.conds[c := s.conds[c] + [me]]), me, timeout), Parked)
  }

  /** The position of the first thread of `q` in `state`, or the length of `q`. */
  function First(s: Vp, q: seq<Thread>, state: State): (k: nat)
    requires forall t | t in q :: t in s.threads
    ensures k <= |q| && (k < |q| ==> s.threads[q[k]].state == state)
    ensures forall i | 0 <= i < k :: s.threads[q[i]].state != state
  {
    if q == [] || s.threads[q[0]].state == state then 0 else 1 + First(s, q[1..], state)
  }

  function Signal(s: Vp, c: Cond): Vp
    requires c in s.conds && forall t | t in s.conds[c] :: t in s.threads
  {
    var k := First(s, s.conds[c], CondWait);
    if k < |s.conds[c]| then Wake(s, s.conds[c][k], Signalled) else s
  }

  function WaitersOf(s: Vp, c: Cond): set<Thread>
    requires c in s.conds
  {
    set t | t in s.conds[c] && t in s.threads && s.threads[t].state == CondWait
  }

  function Broadcast(s: Vp, c: Cond): Vp
    requires c in s.conds
  {
    WakeAll(s, s.conds[c], WaitersOf(s, c), Signalled)
  }

  /** Every member of `woken` becomes runnable, in the order of `q`. */
  function WakeAll(s: Vp, q: seq<Thread>, woken: set<Thread>, cause: Cause): Vp {
    s.(threads := map t | t in s.threads ::
         if t in woken then s.threads[t].(state := Runnable, onSleepQ := false, cause := cause) else s.threads[t],
       runQ := s.runQ + Only(q, woken), sleepers := s.sleepers - woken)
  }

  function Lock(s: Vp, m: Mutex): (Vp, Outcome)
    requires s.current in s.threads && m in s.owners && m in s.lockQ
  {
    var me: Thread := s.current;
    if s.threads[me].interrupt then (Clear(s, me), Returned(Err(EINTR)))
    else if s.owners[m] == null then (s.(owners := s.owners[m := me]), Returned(Ok(0)))
    else if s.owners[m] == me then (s, Returned(Err(EDEADLK)))
    else (Park(s, me, LockWait, InLock(m)).(lockQ := s.lockQ[m := s.lockQ[m] + [me]]), Parked)
  }

  function Unlock(s: Vp, m: Mutex): (Vp, Outcome)
    requires m in s.owners && m in s.lockQ && forall t | t in s.lockQ[m] :: t in s.threads
  {
    if s.owners[m] != s.current then (s, Returned(Err(EPERM)))
    else
      var k := First(s, s.lockQ[m], LockWait);
      if k < |s.lockQ[m]| then
        var t := s.lockQ[m][k];
        (Wake(s, t, LockGranted).(owners := s.owners[m := t]), Returned(Ok(0)))
      else (s.(owners := s.owners[m := null]), Returned(Ok(0)))
  }

  function TryLock(s: Vp, m: Mutex): (Vp, Outcome)
    requires m in s.owners
  {
    if s.owners[m] != null then (s, Returned(Err(EBUSY))) else (s.(owners := s.owners[m := s.current]), Returned(Ok(0)))
  }

  function Interrupt(s: Vp, t: Thread): Vp
    requires t in s.threads
  {
    var r := s.threads[t];
    if r.state == Zombie then s
    else
      var s1 := Set(s, t, r.(interrupt := true));
      if r.state == Running || r.state == Runnable then s1 else Wake(s1, t, Interrupted)
  }

  /** The clock check: the expired sleepers go, last to expire first, before the run queue. */
  function Expire(s: Vp, now: nat, expired: seq<Thread>): Vp {
    s.(threads := map t | t in s.threads ::
         if t in expired then
           s.threads[t].(state := Runnable, onSleepQ := false, cause := TimerFired,
                         timedOut := s.threads[t].timedOut || s.threads[t].state == CondWait)
         else s.threads[t],
       runQ := Reverse(expired) + s.runQ,
       sleepers := (set t | t in s.sleepers && t !in expired),
       clock := now)
  }

  /** `expired` is a possible order in which the heap yields the sleepers due by `now`. */
  ghost predicate ExpiryOrder(s: Vp, now: nat, expired: seq<Thread>) {
    && NoDup(expired)
    && (forall t | t in expired :: t in s.sleepers && t in s.threads && s.threads[t].due <= now)
    && (forall t | t in s.sleepers && t in s.threads :: s.threads[t].due <= now ==> t in expired)
    && (forall i, j :: 0 <= i < j < |expired| ==> s.threads[expired[i]].due <= s.threads[expired[j]].due)
  }

  function Yield(s: Vp, now: nat, expired: seq<Thread>): (Vp, Outcome)
    requires s.current in s.threads
  {
    var s1 := Expire(s, now, expired);
    if s1.runQ == [] then (s1, Returned(Ok(0)))
    else (Park(s1, s.current, Runnable, AtUser).(runQ := s1.runQ + [s.current]), Parked)
  }

  /** First fit: the position of the first free stack of at least `size`, or the list's length. */
  function FirstFit(free: seq<Stack>, size: nat): (k: nat)
    ensures k <= |free| && (k < |free| ==> free[k].size >= size)
    ensures forall i | 0 <= i < k :: free[i].size < size
  {
    if free == [] || free[0].size >= size then 0 else 1 + FirstFit(free[1..], size)
  }

  /** Takes a stack off the free list, or the newly `mapped` one, if any, when none fits. */
  function StackNew(free: seq<Stack>, size: nat, mapped: Option<Stack>): (Option<Stack>, seq<Stack>) {
    var k := FirstFit(free, size);
    if k < |free| then (Some(free[k]), free[..k] + free[k + 1..]) else (mapped, free)
  }

  /** Puts a stack back: before the last one, not after it. */
  function StackFree(free: seq<Stack>, st: Option<Stack>): seq<Stack> {
    if st.None? then free
    else if free == [] then [st.value]
    else free[..|free| - 1] + [st.value] + free[|free| - 1..]
  }

  lemma StackNewTakes(free: seq<Stack>, size: nat, mapped: Option<Stack>)
    requires NoDup(free) && (mapped.Some? ==> mapped.value !in free)
    ensures var (st, rest) := StackNew(free, size, mapped);
            && NoDup(rest) && (forall x | x in rest :: x in free)
            && (st.Some? ==> st.value !in rest && (st == mapped || st.value in free))
  {
    var k := FirstFit(free, size);
    if k < |free| {
      ConcatNoDup(free[..k], free[k + 1..]);
    }
  }

  lemma StackFreeAdds(free: seq<Stack>, st: Stack)
    requires NoDup(free) && st !in free
    ensures NoDup(StackFree(free, Some(st))) && forall x :: x in StackFree(free, Some(st)) <==> x in free || x == st
    ensures var r, n := StackFree(free, Some(st)), |free|;
            if n == 0 then r == [st] else r[..n - 1] == free[..n - 1] && r[n - 1..] == [st, free[n - 1]]
  {
    if free != [] {
      var n := |free| - 1;
      assert free == free[..n] + free[n..];
      ConcatNoDup(free[..n], [st]);
      ConcatNoDup(free[..n] + [st], free[n..]);
    }
  }

  function Create(s: Vp, t: Thread, term: Cond?, size: nat, mapped: Option<Stack>): Vp {
    var (st, free) := StackNew(s.freeStacks, size, mapped);
    Start(s.(freeStacks := free), t, term, st)
  }

  /** The new thread `t` runs on the stack `st`. */
  function Start(s: Vp, t: Thread, term: Cond?, st: Option<Stack>): Vp {
    Set(s, t, Rec(Runnable, AtUser, false, false, false, 0, term, 0, st, Nothing))
      .(runQ := s.runQ + [t], active := s.active + 1, conds := if term == null then s.conds else s.conds[term := []])
  }

  /** A creation that gets no stack, or no termination condition variable and gives its stack back. */
  function CreateFails(s: Vp, size: nat, mapped: Option<Stack>): Vp {
    var (st, free) := StackNew(s.freeStacks, size, mapped);
    s.(freeStacks := StackFree(free, st))
  }

  function Exit(s: Vp, retval: int): Vp
    requires s.current in s.threads && var c := s.threads[s.current].term; c != null ==> c in s.conds
    requires forall c, t | c in s.conds && t in s.conds[c] :: t in s.threads
  {
    var me: Thread := s.current;
    var s1, c := Retire(s, me, retval), s.threads[me].term;
    if c != null then Signal(Zombify(s1, me), c) else Bury(s1, me)
  }

  function Retire(s: Vp, t: Thread, retval: int): Vp
    requires t in s.threads
  {
    Set(s, t, s.threads[t].(retval := retval)).(active := s.active - 1)
  }

  /** `t` waits among the zombies for its joiner. */
  function Zombify(s: Vp, t: Thread): Vp
    requires t in s.threads
  {
    Park(s, t, Zombie, InExit).(zombieQ := s.zombieQ + [t])
  }

  /** The end of a thread: its stack is free again; its record is never scheduled again. */
  function Bury(s: Vp, t: Thread): Vp
    requires t in s.threads
  {
    Park(s, t, Running, Gone).(freeStacks := StackFree(s.freeStacks, s.threads[t].stack))
  }

  /** One round of the join loop. */
  function JoinRound(s: Vp, target: Thread, c: Cond): (Vp, Outcome)
    requires s.current in s.threads && target in s.threads && c in s.conds
  {
    var r := s.threads[target];
    if r.state != Zombie then WaitAt(s, c, Forever, InJoin(target, c))
    else
      (Set(s, target, r.(state := Runnable, cause := Nothing))
         .(zombieQ := Without(s.zombieQ, target), runQ := s.runQ + [target]),
       Returned(Ok(r.retval)))
  }

  function Join(s: Vp, target: Thread): (Vp, Outcome)
    requires s.current in s.threads && target in s.threads
    requires var c := s.threads[target].term; c != null ==> c in s.conds
  {
    var c := s.threads[target].term;
    if c == null then (s, Returned(Err(EINVAL)))
    else if s.current == target then (s, Returned(Err(EDEADLK)))
    else if s.conds[c] != [] then (s, Returned(Err(EINVAL)))
    else JoinRound(s, target, c)
  }

  /** What the condition wait of `t` returns once `t` runs again. */
  function WaitResult(r: Rec): Outcome {
    Returned(if r.interrupt then Err(EINTR) else if r.timedOut then Err(ETIME) else Ok(0))
  }

  /** The next thread to run: the head of the run queue, or the idle thread when it is empty. */
  function Next(s: Vp): Thread {
    if s.runQ != [] then s.runQ[0] else s.idle
  }

  function Pick(s: Vp): Vp
    requires Next(s) in s.threads
  {
    Set(s, Next(s), s.threads[Next(s)].(state := Running))
      .(current := Next(s), runQ := if s.runQ != [] then s.runQ[1..] else [])
  }

  /** `t` is back in user code from a poll or a sleep, with its interrupt consumed. */
  function Back(s: Vp, t: Thread): Vp
    requires t in s.threads
  {
    Set(s, t, s.threads[t].(at := AtUser, interrupt := false))
  }

  /** `t` is back from the wait queue of `c`, with both flags consumed. */
  function Awake(s: Vp, t: Thread, c: Cond): Vp
    requires t in s.threads && c in s.conds
  {
    Unlink(Set(s, t, s.threads[t].(at := AtUser, interrupt := false, timedOut := false)), t, c)
  }

  /** The thread just picked runs on from its resume point to its return to user code or its next switch. */
  function Resume(s: Vp, t: Thread): (Vp, Outcome)
    requires t in s.threads && s.current == t && PointKnown(s, s.threads[t].at)
  {
    var r := s.threads[t];
    match r.at
    case AtUser => (s, Returned(Ok(0)))
    case AtIdle => (s, Parked)
    case Gone => (s, Parked)
    case InPoll(_, onIoq, ready) =>
      (if onIoq then Back(s, t).(ioQ := Without(s.ioQ, t)) else Back(s, t),
       Returned(if r.interrupt then Err(EINTR) else Ok(if onIoq then 0 else ready)))
    case InSleep => (Back(s, t), Returned(if r.interrupt then Err(EINTR) else Ok(0)))
    case InWait(c) => (Awake(s, t, c), WaitResult(r))
    case InJoin(target, c) =>
      if r.interrupt || r.timedOut then (Awake(s, t, c), WaitResult(r))
      else JoinRound(Awake(s, t, c), target, c)
    case InLock(m) => LockEnd(s, t, m)
    case InExit => (Bury(DestroyTerm(s, t), t), Parked)
  }

  /** The end of a lock: an interrupt counts only if the mutex was not handed over. */
  function LockEnd(s: Vp, t: Thread, m: Mutex): (Vp, Outcome)
    requires t in s.threads && m in s.owners && m in s.lockQ
  {
    var r := s.threads[t];
    var lost := r.interrupt && s.owners[m] != t;
    (Set(s.(lockQ := s.lockQ[m := Without(s.lockQ[m], t)]), t, r.(at := AtUser, interrupt := r.interrupt && !lost)),
     Returned(if lost then Err(EINTR) else Ok(0)))
  }

  /** `t` leaves the wait queue of `c`. */
  function Unlink(s: Vp, t: Thread, c: Cond): Vp
    requires c in s.conds
  {
    s.(conds := s.conds[c := Without(s.conds[c], t)])
  }

  /** The termination condition variable is freed, unless threads are linked to it, and forgotten. */
  function DestroyTerm(s: Vp, t: Thread): Vp
    requires t in s.threads
  {
    var c := s.threads[t].term;
    var s1 := Set(s, t, s.threads[t].(term := null));
    if c != null && c in s.conds && s.conds[c] == [] then s1.(conds := s.conds - {c}) else s1
  }

  /** Picks the next thread and resumes it. */
  function Schedule(s: Vp): (Vp, Outcome)
    requires Next(s) in s.threads && PointKnown(s, s.threads[Next(s)].at)
  {
    Resume(Pick(s), Next(s))
  }

  predicate PointKnown(s: Vp, at: Point) {
    match at
    case InWait(c) => c in s.conds
    case InJoin(target, c) => c in s.conds && target in s.threads
    case InLock(m) => m in s.owners && m in s.lockQ
    case _ => true
  }

  /** The idle thread's loop from one switch to the next: the process exits once no thread is active. */
  function IdleTurn(s: Vp, ready: map<Thread, nat>, now: nat, expired: seq<Thread>): (Vp, Outcome)
    requires s.idle in s.threads
  {
    if s.active <= 0 then (s, Exited) else (Idle(s, ready, now, expired), Parked)
  }

  /** One turn of the idle loop: I/O dispatch, the clock check, and a switch. */
  function Idle(s: Vp, ready: map<Thread, nat>, now: nat, expired: seq<Thread>): Vp
    requires s.idle in s.threads
  {
    Park(Expire(Dispatch(s, ready), now, expired), s.idle, Runnable, AtIdle)
  }

  /** The polls in `ready` fire, with that many ready descriptors each. */
  function Dispatch(s: Vp, ready: map<Thread, nat>): Vp {
    var s1 := WakeAll(s, s.ioQ, ready.Keys, IoReady);
    s1.(ioQ := Only(s.ioQ, (set t | t in s.ioQ && t !in ready)),
        threads := (map t | t in s1.threads ::
          if t in ready && s1.threads[t].at.InPoll? then
              s1.threads[t].(at := s1.threads[t].at.(onIoq := false, ready := ready[t]))
          else s1.threads[t]))
  }
}
