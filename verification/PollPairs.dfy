/**
 The queued polls and the threads that wait for them: the scheduler's I/O queue and the event
 system's are one queue, and every step of the scheduler keeps them in step.
 */
module PollPairs {
  import opened Threads
  import opened Polls
  import opened SchedulerModel
  import opened SchedulerInvariant
  import C = SchedulerCauses
  import L = SchedulerLoops
  import S = SchedulerSteps

  /** The threads of `ioQ` wait for the polls of `queue`, one by one. */
  ghost predicate Paired(ioQ: seq<Thread>, queue: seq<PollQ>, polls: map<Thread, PollQ>) {
    |ioQ| == |queue| && forall k | 0 <= k < |ioQ| :: ioQ[k] in polls && polls[ioQ[k]] == queue[k]
  }

  /** Each queued thread is parked with the number of its poll's descriptors. */
  ghost predicate Sized(s: Vp, ioQ: seq<Thread>, polls: map<Thread, PollQ>) {
    forall t | t in ioQ && t in polls ::
      t in s.threads && s.threads[t].at.InPoll? && s.threads[t].at.onIoq && s.threads[t].at.npds == |polls[t].pds|
  }

  ghost predicate InStep(s: Vp, queue: seq<PollQ>, polls: map<Thread, PollQ>) {
    Paired(s.ioQ, queue, polls) && Sized(s, s.ioQ, polls)
  }

  lemma PairedAppend(ioQ: seq<Thread>, queue: seq<PollQ>, polls: map<Thread, PollQ>, t: Thread, q: PollQ)
    requires Paired(ioQ, queue, polls) && t !in ioQ
    ensures Paired(ioQ + [t], queue + [q], polls[t := q])
  {
  }

  lemma {:induction false} WithoutAt(q: seq<Thread>, i: nat)
    requires NoDup(q) && i < |q|
    ensures Without(q, q[i]) == q[..i] + q[i + 1..]
  {
    if i == 0 {
      WithoutNone(q[1..], q[0]);
    } else {
      WithoutAt(q[1..], i - 1);
      assert q[1..][..i - 1] == q[1..i] && q[1..][i..] == q[i + 1..];
      assert q[..i] == [q[0]] + q[1..i];
    }
  }

  lemma {:induction false} WithoutNone(q: seq<Thread>, t: Thread)
    requires t !in q
    ensures Without(q, t) == q
  {
    if q != [] {
      WithoutNone(q[1..], t);
    }
  }

  /** A thread and its poll leave their queues together. */
  lemma PairedRemove(ioQ: seq<Thread>, queue: seq<PollQ>, polls: map<Thread, PollQ>, t: Thread, i: nat)
    requires Paired(ioQ, queue, polls) && NoDup(ioQ) && t in ioQ && i < |queue| && queue[i] == polls[t]
    requires NoDup(queue)
    ensures Paired(Without(ioQ, t), queue[..i] + queue[i + 1..], polls)
  {
    var j :| 0 <= j < |ioQ| && ioQ[j] == t;
    assert queue[j] == queue[i] && j == i;
    WithoutAt(ioQ, i);
  }

  /** The number of nonempty answers: what a poll returns. */
  function ReadyCount(revents: seq<set<Bit>>): (n: nat)
    ensures n <= |revents|
  {
    if revents == [] then 0 else (if revents[0] != {} then 1 else 0) + ReadyCount(revents[1..])
  }

  /** `ReadyCount` is the number of indices with a nonempty answer. */
  lemma {:induction false} ReadyCountIs(revents: seq<set<Bit>>)
    ensures ReadyCount(revents) == |set i | 0 <= i < |revents| && revents[i] != {}|
    decreases |revents|
  {
    var all := set i | 0 <= i < |revents| && revents[i] != {};
    if revents == [] {
      assert all == {};
    } else {
      var n := |revents| - 1;
      var front := revents[..n];
      ReadyCountIs(front);
      CountAppended(front, revents[n]);
      assert revents == front + [revents[n]];
      assert all == (set i | 0 <= i < |front| && front[i] != {}) + if revents[n] != {} then {n} else {};
    }
  }

  lemma {:induction false} CountAppended(revents: seq<set<Bit>>, r: set<Bit>)
    ensures ReadyCount(revents + [r]) == ReadyCount(revents) + if r != {} then 1 else 0
  {
    if revents == [] {
      assert revents + [r] == [r];
    } else {
      CountAppended(revents[1..], r);
      assert (revents + [r])[1..] == revents[1..] + [r];
    }
  }

  /** The number of entries that `v` gives a nonempty answer. */
  function AnswerCount(v: Verdict, pds: seq<Pollfd>): (n: nat)
    requires VerdictOk(v)
    ensures n <= |pds|
  {
    if pds == [] then 0 else (if Answer(v, pds[0]) != {} then 1 else 0) + AnswerCount(v, pds[1..])
  }

  lemma {:induction false} CountPositive(v: Verdict, pds: seq<Pollfd>)
    requires VerdictOk(v)
    ensures AnswerCount(v, pds) > 0 <==> Polls.Fires(v, pds)
  {
    if pds != [] {
      CountPositive(v, pds[1..]);
      assert pds[0] in pds && forall pd :: pd in pds <==> pd == pds[0] || pd in pds[1..];
    }
  }

  lemma {:induction false} CountsAgree(v: Verdict, pds: seq<Pollfd>, revents: seq<set<Bit>>)
    requires VerdictOk(v) && |revents| == |pds| && forall i | 0 <= i < |pds| :: revents[i] == Answer(v, pds[i])
    ensures ReadyCount(revents) == AnswerCount(v, pds)
  {
    if pds != [] {
      CountsAgree(v, pds[1..], revents[1..]);
    }
  }

  /** The answers of a poll that fires are not all empty. */
  lemma FiredCount(q: PollQ, v: Verdict)
    requires VerdictOk(v) && Answered(q, v)
    ensures ReadyCount(q.revents) == AnswerCount(v, q.pds) && (Polls.Fires(v, q.pds) <==> ReadyCount(q.revents) > 0)
  {
    CountsAgree(v, q.pds, q.revents);
    CountPositive(v, q.pds);
  }

  /** `ready` are the threads of the polls that fire, with the numbers of their nonempty answers. */
  ghost predicate AreReady(v: Verdict, ioQ: seq<Thread>, polls: map<Thread, PollQ>, ready: map<Thread, nat>)
    requires VerdictOk(v)
  {
    forall t | t in ioQ && t in polls ::
      (t in ready <==> Polls.Fires(v, polls[t].pds)) && (t in ready ==> ready[t] == AnswerCount(v, polls[t].pds))
  }

  lemma {:induction false} PairedStay(v: Verdict, ioQ: seq<Thread>, queue: seq<PollQ>, polls: map<Thread, PollQ>,
                                      ready: map<Thread, nat>, stay: set<Thread>, n: nat)
    requires VerdictOk(v) && Paired(ioQ, queue, polls) && AreReady(v, ioQ, polls, ready) && n <= |ioQ|
    requires forall t | t in ioQ :: t in stay <==> t !in ready
    ensures Paired(Only(ioQ[..n], stay), Chosen(v, queue, n, false), polls)
  {
    if n > 0 {
      PairedStay(v, ioQ, queue, polls, ready, stay, n - 1);
      assert ioQ[..n] == ioQ[..n - 1] + [ioQ[n - 1]];
      L.OnlyMore(ioQ[..n - 1], ioQ[n - 1], stay);
    }
  }

  /** The I/O queue after a step. */
  ghost function IoQAfter(s: Vp, op: Op): seq<Thread>
    requires Sane(s) && Enabled(s, op)
  {
    match op
    case DoPoll(_, _, added) => if added && !s.threads[s.current].interrupt then s.ioQ + [s.current] else s.ioQ
    case DoSchedule =>
      var at := s.threads[Next(s)].at;
      if at.InPoll? && at.onIoq then Without(s.ioQ, Next(s)) else s.ioQ
    case DoIdle(ready, _, _) => if s.active > 0 then Only(s.ioQ, L.Unready(s.ioQ, ready)) else s.ioQ
    case _ => s.ioQ
  }

  lemma ScheduleIoQ(s: Vp)
    requires Sane(s) && s.current == null
    ensures Do(s, DoSchedule).0.ioQ == IoQAfter(s, DoSchedule)
  {
    ResumeIoQ(Pick(s), Next(s));
  }

  lemma ResumeIoQ(s: Vp, t: Thread)
    requires t in s.threads && s.current == t && PointKnown(s, s.threads[t].at)
    ensures var at := s.threads[t].at;
            Resume(s, t).0.ioQ == if at.InPoll? && at.onIoq then Without(s.ioQ, t) else s.ioQ
  {
    if s.threads[t].at.InJoin? {
      RoundIoQ(Awake(s, t, s.threads[t].at.cond), s.threads[t].at.target, s.threads[t].at.cond);
    }
  }

  lemma RoundIoQ(s: Vp, target: Thread, c: Cond)
    requires s.current in s.threads && target in s.threads && c in s.conds
    ensures JoinRound(s, target, c).0.ioQ == s.ioQ
  {
  }

  lemma ParkIoQ(s: Vp, op: Op)
    requires Sane(s) && Enabled(s, op) && (op.DoPoll? || op.DoSleep?)
    ensures Do(s, op).0.ioQ == IoQAfter(s, op)
  {
  }

  lemma QueueIoQ(s: Vp, op: Op)
    requires Sane(s) && Enabled(s, op) && (op.DoWait? || op.DoLock?)
    ensures Do(s, op).0.ioQ == IoQAfter(s, op)
  {
  }

  lemma WakeIoQ(s: Vp, op: Op)
    requires Sane(s) && Enabled(s, op) && (op.DoSignal? || op.DoBroadcast? || op.DoUnlock? || op.DoInterrupt?)
    ensures Do(s, op).0.ioQ == IoQAfter(s, op)
  {
  }

  lemma EndIoQ(s: Vp, op: Op)
    requires Sane(s) && Enabled(s, op) && (op.DoJoin? || op.DoYield?)
    ensures Do(s, op).0.ioQ == IoQAfter(s, op)
  {
    hide Enabled, Resume;
  }

  lemma ExitIoQ(s: Vp, retval: int)
    requires Sane(s) && Enabled(s, DoExit(retval))
    ensures Do(s, DoExit(retval)).0.ioQ == s.ioQ
  {
    S.ExitForm(s, retval);
  }

  lemma OtherIoQ(s: Vp, op: Op)
    requires Sane(s) && Enabled(s, op)
    requires op.DoTryLock? || op.DoCreate? || op.DoNoThread? || op.DoNewCond? || op.DoNewMutex? || op.DoIdle?
    ensures Do(s, op).0.ioQ == IoQAfter(s, op)
  {
    hide Mapped, ExpiryOrder, StackNew, SchedulerInvariant.Fires, PointKnown;
  }

  /** What each step does to the I/O queue. */
  lemma StepIoQ(s: Vp, op: Op)
    requires Sane(s) && Enabled(s, op)
    ensures Do(s, op).0.ioQ == IoQAfter(s, op)
  {
    hide Sane, Do;
    match op
    case DoSchedule => ScheduleIoQ(s);
    case DoPoll(_, _, _) => ParkIoQ(s, op);
    case DoSleep(_) => ParkIoQ(s, op);
    case DoWait(_, _) => QueueIoQ(s, op);
    case DoLock(_) => QueueIoQ(s, op);
    case DoSignal(_) => WakeIoQ(s, op);
    case DoBroadcast(_) => WakeIoQ(s, op);
    case DoUnlock(_) => WakeIoQ(s, op);
    case DoInterrupt(_) => WakeIoQ(s, op);
    case DoExit(retval) => ExitIoQ(s, retval);
    case DoJoin(_) => EndIoQ(s, op);
    case DoYield(_, _) => EndIoQ(s, op);
    case _ => OtherIoQ(s, op);
  }

  lemma QueuedState(s: Vp, t: Thread)
    requires ThreadsOk(s) && QueuesOk(s) && t in s.ioQ
    ensures t in s.threads && s.threads[t].at.InPoll? && s.threads[t].at.onIoq
    ensures S.Blocked(s.threads[t]) || s.threads[t].state.Runnable?
  {
    assert ThreadOk(s, t);
  }

  /** A thread that stays queued stays parked as it was. */
  lemma QueuedStays(s: Vp, op: Op, t: Thread)
    requires Inv(s) && Sane(s) && Enabled(s, op) && t in s.ioQ && t in IoQAfter(s, op)
    ensures t in s.threads && t in Do(s, op).0.threads && Do(s, op).0.threads[t].at == s.threads[t].at
  {
    QueuedState(s, t);
    StayedParked(s, op, t);
  }

  lemma StayedParked(s: Vp, op: Op, t: Thread)
    requires Inv(s) && Sane(s) && Enabled(s, op) && t in s.ioQ && t in IoQAfter(s, op)
    requires t in s.threads && s.threads[t].at.InPoll? && s.threads[t].at.onIoq
    requires S.Blocked(s.threads[t]) || s.threads[t].state.Runnable?
    ensures t in Do(s, op).0.threads && Do(s, op).0.threads[t].at == s.threads[t].at
  {
    hide Inv, Sane, Enabled, Do, C.Because, IoQAfter;
    if op.DoIdle? && s.active <= 0 {
      IdleStops(s, op);
    } else {
      C.StepExplained(s, op, t);
      StillQueued(s, op, t);
    }
  }

  lemma IdleStops(s: Vp, op: Op)
    requires Sane(s) && Enabled(s, op) && op.DoIdle? && s.active <= 0
    ensures Do(s, op).0 == s
  {
    hide Sane, Enabled;
  }

  /** A poll that fires is off the queue, so the point of one that is still queued stays. */
  lemma StillQueued(s: Vp, op: Op, t: Thread)
    requires Sane(s) && Enabled(s, op) && t in s.ioQ && t in IoQAfter(s, op)
    requires t in s.threads && (S.Blocked(s.threads[t]) || s.threads[t].state.Runnable?)
    requires op.DoIdle? ==> s.active > 0
    requires op.DoSchedule? && Next(s) == t ==> s.threads[t].at.InPoll? && s.threads[t].at.onIoq
    requires C.Explained(s, op, Do(s, op).0, t)
    ensures t in Do(s, op).0.threads && Do(s, op).0.threads[t].at == s.threads[t].at
  {
    hide Sane, Enabled, Do, C.Because, Only;
  }

  /** After a step, the threads that were queued and still are have kept the sizes of their polls. */
  lemma SizedStays(s: Vp, op: Op, queue: seq<PollQ>, polls: map<Thread, PollQ>)
    requires Inv(s) && Sane(s) && Enabled(s, op) && InStep(s, queue, polls)
    ensures forall t | t in s.ioQ && t in IoQAfter(s, op) ::
              && t in polls && Parked(s, t, polls)
              && t in Do(s, op).0.threads && Do(s, op).0.threads[t].at == s.threads[t].at
  {
    hide Inv, Sane, Do, IoQAfter;
    forall t | t in s.ioQ && t in IoQAfter(s, op)
      ensures t in polls && t in Do(s, op).0.threads && Do(s, op).0.threads[t].at == s.threads[t].at
      ensures Parked(s, t, polls)
    {
      QueuedStays(s, op, t);
    }
  }

  ghost predicate Parked(s: Vp, t: Thread, polls: map<Thread, PollQ>) {
    && t in s.threads && t in polls
    && s.threads[t].at.InPoll? && s.threads[t].at.onIoq && s.threads[t].at.npds == |polls[t].pds|
  }

  /** A step that does not queue a poll leaves those it leaves in step, if the queues stay paired. */
  lemma InStepStays(s: Vp, op: Op, queue: seq<PollQ>, queue': seq<PollQ>, polls: map<Thread, PollQ>)
    requires Inv(s) && Sane(s) && Enabled(s, op) && InStep(s, queue, polls)
    requires Paired(IoQAfter(s, op), queue', polls) && forall t | t in IoQAfter(s, op) :: t in s.ioQ
    ensures InStep(Do(s, op).0, queue', polls)
  {
    hide Inv, Sane, Do, IoQAfter;
    StepIoQ(s, op);
    SizedStays(s, op, queue, polls);
  }

  /** A step that is neither a poll nor its end leaves the I/O queue alone. */
  lemma PlainInStep(s: Vp, op: Op, queue: seq<PollQ>, polls: map<Thread, PollQ>)
    requires Inv(s) && Sane(s) && Enabled(s, op) && InStep(s, queue, polls) && IoQAfter(s, op) == s.ioQ
    ensures InStep(Do(s, op).0, queue, polls)
  {
    hide Inv, Sane, Do, IoQAfter;
    InStepStays(s, op, queue, queue, polls);
  }

  /** A poll that is queued joins both queues. */
  lemma PollInStep(s: Vp, timeout: Timeout, queue: seq<PollQ>, polls: map<Thread, PollQ>, q: PollQ)
    requires Inv(s) && Sane(s) && AtCall(s) && InStep(s, queue, polls) && !s.threads[s.current].interrupt
    ensures InStep(Do(s, DoPoll(|q.pds|, timeout, true)).0, queue + [q], polls[s.current := q])
  {
    hide Sane, ExpiryOrder;
    var me: Thread, op := s.current, DoPoll(|q.pds|, timeout, true);
    NotQueued(s);
    PairedAppend(s.ioQ, queue, polls, me, q);
    StepIoQ(s, op);
    SizedStays(s, op, queue, polls);
    PolledAt(s, |q.pds|, timeout);
  }

  lemma NotQueued(s: Vp)
    requires ThreadsOk(s) && AtCall(s)
    ensures s.current !in s.ioQ
  {
    assert ThreadOk(s, s.current);
  }

  lemma PolledAt(s: Vp, npds: nat, timeout: Timeout)
    requires s.current in s.threads && !s.threads[s.current].interrupt
    ensures var s' := Poll(s, npds, timeout, true).0;
            s.current in s'.threads && s'.threads[s.current].at == InPoll(npds, true, 0)
  {
  }

  /** A turn of the idle thread after a dispatch that gave every queued poll its answers. */
  lemma TurnInStep(s: Vp, op: Op, queue: seq<PollQ>, polls: map<Thread, PollQ>, v: Verdict)
    requires Inv(s) && Sane(s) && Enabled(s, op) && op.DoIdle? && s.active > 0 && InStep(s, queue, polls)
    requires VerdictOk(v) && AreReady(v, s.ioQ, polls, op.ready)
    ensures InStep(Do(s, op).0, Chosen(v, queue, |queue|, false), polls)
  {
    hide *;
    TurnIoQ(s, op);
    TurnPaired(s, queue, polls, op.ready, v);
    InStepStays(s, op, queue, Chosen(v, queue, |queue|, false), polls);
  }

  lemma TurnIoQ(s: Vp, op: Op)
    requires Sane(s) && Enabled(s, op) && op.DoIdle? && s.active > 0
    ensures IoQAfter(s, op) == Only(s.ioQ, L.Unready(s.ioQ, op.ready))
  {
    hide Sane, Enabled;
  }

  lemma TurnPaired(s: Vp, queue: seq<PollQ>, polls: map<Thread, PollQ>, ready: map<Thread, nat>, v: Verdict)
    requires InStep(s, queue, polls) && VerdictOk(v) && AreReady(v, s.ioQ, polls, ready)
    ensures Paired(Only(s.ioQ, L.Unready(s.ioQ, ready)), Chosen(v, queue, |queue|, false), polls)
  {
    hide AreReady, Only;
    assert s.ioQ[..|s.ioQ|] == s.ioQ;
    PairedStay(v, s.ioQ, queue, polls, ready, L.Unready(s.ioQ, ready), |queue|);
  }

  /** A turn of the idle thread in which no poll fires. */
  lemma QuietInStep(s: Vp, op: Op, queue: seq<PollQ>, polls: map<Thread, PollQ>)
    requires Inv(s) && Sane(s) && Enabled(s, op) && op.DoIdle? && InStep(s, queue, polls) && op.ready == map[]
    ensures InStep(Do(s, op).0, queue, polls)
  {
    hide *;
    QuietIoQ(s, op);
    PlainInStep(s, op, queue, polls);
  }

  lemma QuietIoQ(s: Vp, op: Op)
    requires Sane(s) && Enabled(s, op) && op.DoIdle? && op.ready == map[]
    ensures IoQAfter(s, op) == s.ioQ
  {
    hide Sane, Enabled;
    L.OnlyAll(s.ioQ, L.Unready(s.ioQ, op.ready));
  }

  /** The resumption of a poll that is still queued takes it off both queues. */
  lemma ResumeInStep(s: Vp, queue: seq<PollQ>, polls: map<Thread, PollQ>, i: nat)
    requires Inv(s) && Sane(s) && Enabled(s, DoSchedule) && InStep(s, queue, polls)
    requires Next(s) in s.ioQ && Next(s) in polls
    requires i < |queue| && queue[i] == polls[Next(s)] && NoDup(queue)
    ensures InStep(Do(s, DoSchedule).0, queue[..i] + queue[i + 1..], polls)
  {
    hide *;
    QueuesDistinct(s, queue, polls);
    QueuedState(s, Next(s));
    PairedRemove(s.ioQ, queue, polls, Next(s), i);
    ResumedIoQ(s);
    InStepStays(s, DoSchedule, queue, queue[..i] + queue[i + 1..], polls);
  }

  lemma QueuesDistinct(s: Vp, queue: seq<PollQ>, polls: map<Thread, PollQ>)
    requires Inv(s) && InStep(s, queue, polls)
    ensures ThreadsOk(s) && QueuesOk(s) && NoDup(s.ioQ) && Paired(s.ioQ, queue, polls)
  {
  }

  lemma ResumedIoQ(s: Vp)
    requires Sane(s) && Enabled(s, DoSchedule) && Next(s) in s.threads
    requires s.threads[Next(s)].at.InPoll? && s.threads[Next(s)].at.onIoq
    ensures IoQAfter(s, DoSchedule) == Without(s.ioQ, Next(s))
  {
  }

  /** The threads of the polls that a dispatch has taken off, with the number of their nonempty answers. */
  method ReadyThreads(ioQ: seq<Thread>, polls: map<Thread, PollQ>) returns (ready: map<Thread, nat>)
    requires forall t | t in ioQ :: t in polls
    ensures forall t | t in ready :: t in ioQ && !polls[t].onIoq && ready[t] == ReadyCount(polls[t].revents)
    ensures forall t | t in ioQ :: t in ready <==> !polls[t].onIoq
  {
    ready := map[];
    for i := 0 to |ioQ|
      invariant forall t | t in ready :: t in ioQ && !polls[t].onIoq && ready[t] == ReadyCount(polls[t].revents)
      invariant forall k | 0 <= k < i :: ioQ[k] in ready <==> !polls[ioQ[k]].onIoq
    {
      var t := ioQ[i];
      if !polls[t].onIoq {
        ready := ready[t := ReadyCount(polls[t].revents)];
      }
    }
  }

  /**
   What the scheduler asks of the ready threads: they are queued, with at least one and at most
   all of their descriptors ready.
   */
  lemma ReadyFires(s: Vp, queue: seq<PollQ>, polls: map<Thread, PollQ>, ready: map<Thread, nat>, v: Verdict)
    requires VerdictOk(v) && InStep(s, queue, polls) && forall q | q in queue :: Answered(q, v)
    requires forall t | t in ready ::
               t in s.ioQ && t in polls && !polls[t].onIoq && ready[t] == ReadyCount(polls[t].revents)
    requires forall t | t in s.ioQ :: t in polls && (t in ready <==> !polls[t].onIoq)
    ensures SchedulerInvariant.Fires(s, ready) && AreReady(v, s.ioQ, polls, ready)
  {
    forall t | t in s.ioQ
      ensures t in ready <==> Polls.Fires(v, polls[t].pds)
      ensures t in ready ==> 1 <= ready[t] == AnswerCount(v, polls[t].pds)
    {
      var k :| 0 <= k < |s.ioQ| && s.ioQ[k] == t;
      assert queue[k] in queue;
      FiredCount(polls[t], v);
    }
  }
}
