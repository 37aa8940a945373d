/**
 What the calls on the scheduler do to the queued polls: the steps of PollPairs, said of calls.
 */
module PollCalls {
  import opened Threads
  import opened Polls
  import opened PollPairs
  import opened Scheduler
  import opened SchedulerCalls
  import I = SchedulerInvariant
  import M = SchedulerModel

  // ---------- what a call does to both queues ----------

  /** The queues stay in step over a call that is neither a poll nor its end. */
  lemma PlainPair(call: Call, s: M.Vp, op: I.Op, s': M.Vp, out: M.Outcome, queue: seq<PollQ>, polls: map<Thread, PollQ>)
    requires I.Inv(s) && Performs(call, op) && Stepped(s, op, s', out) && InStep(s, queue, polls)
    requires !call.CallPoll? && !call.Reschedule? && !call.RunIdle?
    ensures InStep(s', queue, polls)
  {
    hide I.Inv, I.Sane, I.Enabled, I.Do, IoQAfter, InStep;
    PlainIoQ(call, s, op);
    PlainInStep(s, op, queue, polls);
  }

  lemma PlainIoQ(call: Call, s: M.Vp, op: I.Op)
    requires I.Sane(s) && I.Enabled(s, op) && Performs(call, op)
    requires !call.CallPoll? && !call.Reschedule? && !call.RunIdle?
    ensures IoQAfter(s, op) == s.ioQ
  {
    hide I.Sane, I.Enabled;
  }

  lemma PollPair(q: PollQ, timeout: Timeout, s: M.Vp, op: I.Op, s': M.Vp, out: M.Outcome, queue: seq<PollQ>,
                 polls: map<Thread, PollQ>)
    requires I.Inv(s) && Performs(CallPoll(|q.pds|, timeout, true), op) && Stepped(s, op, s', out)
    requires InStep(s, queue, polls)
    requires s.current != null && s.current in s.threads && !s.threads[s.current].interrupt
    ensures InStep(s', queue + [q], polls[s.current := q])
  {
    PollInStep(s, timeout, queue, polls, q);
  }

  /** A poll that is interrupted or not acceptable joins neither queue. */
  lemma NoPollPair(npds: nat, timeout: Timeout, added: bool, s: M.Vp, op: I.Op, s': M.Vp, out: M.Outcome,
                   queue: seq<PollQ>, polls: map<Thread, PollQ>)
    requires I.Inv(s) && Performs(CallPoll(npds, timeout, added), op) && Stepped(s, op, s', out)
    requires InStep(s, queue, polls)
    requires s.current != null && s.current in s.threads && (added ==> s.threads[s.current].interrupt)
    ensures InStep(s', queue, polls)
  {
    PlainInStep(s, op, queue, polls);
  }

  /** The poll of a thread that is still on the I/O queue is on the event system's. */
  lemma LeavingPair(s: M.Vp, t: Thread, queue: seq<PollQ>, polls: map<Thread, PollQ>)
    requires I.Inv(s) && InStep(s, queue, polls) && t in s.threads && s.threads[t].at.InPoll? && s.threads[t].at.onIoq
    ensures t in s.ioQ && t in polls && polls[t] in queue
  {
    assert I.ThreadOk(s, t);
    var k :| 0 <= k < |s.ioQ| && s.ioQ[k] == t;
    assert queue[k] in queue;
  }

  /** If `t` is still queued with a poll, the poll has left `queue`. */
  ghost predicate Left(s: M.Vp, t: Thread, queue: seq<PollQ>, queue': seq<PollQ>, polls: map<Thread, PollQ>)
    requires t in s.threads
  {
    && M.NoDup(queue)
    && if s.threads[t].at.InPoll? && s.threads[t].at.onIoq then
         t in polls && exists i | 0 <= i < |queue| :: queue[i] == polls[t] && queue' == queue[..i] + queue[i + 1..]
       else queue' == queue
  }

  lemma ResumePair(s: M.Vp, op: I.Op, s': M.Vp, out: M.Outcome, queue: seq<PollQ>, queue': seq<PollQ>,
                   polls: map<Thread, PollQ>)
    requires I.Inv(s) && Performs(Reschedule, op) && Stepped(s, op, s', out) && InStep(s, queue, polls)
    requires M.Next(s) in s.threads && Left(s, M.Next(s), queue, queue', polls)
    ensures InStep(s', queue', polls)
  {
    hide I.Inv, I.Sane, I.Do, M.Next, IoQAfter, InStep, M.NoDup;
    var t := M.Next(s);
    if s.threads[t].at.InPoll? && s.threads[t].at.onIoq {
      LeavingPair(s, t, queue, polls);
      var i :| 0 <= i < |queue| && queue[i] == polls[t] && queue' == queue[..i] + queue[i + 1..];
      ResumeInStep(s, queue, polls, i);
    } else {
      OtherIoQ(s);
      PlainInStep(s, op, queue, polls);
    }
  }

  lemma OtherIoQ(s: M.Vp)
    requires I.Sane(s) && I.Enabled(s, I.DoSchedule) && M.Next(s) in s.threads
    requires !(s.threads[M.Next(s)].at.InPoll? && s.threads[M.Next(s)].at.onIoq)
    ensures IoQAfter(s, I.DoSchedule) == s.ioQ
  {
    hide I.Sane, I.Enabled, M.Next;
  }

  lemma TurnPair(ready: map<Thread, nat>, now: nat, v: Verdict, s: M.Vp, op: I.Op, s': M.Vp, out: M.Outcome,
                 queue: seq<PollQ>, polls: map<Thread, PollQ>)
    requires I.Inv(s) && Performs(RunIdle(ready, now), op) && Stepped(s, op, s', out) && InStep(s, queue, polls)
    requires s.active > 0
    requires VerdictOk(v) && AreReady(v, s.ioQ, polls, ready)
    ensures InStep(s', Chosen(v, queue, |queue|, false), polls)
  {
    TurnInStep(s, op, queue, polls, v);
  }

  lemma QuietPair(now: nat, s: M.Vp, op: I.Op, s': M.Vp, out: M.Outcome, queue: seq<PollQ>, polls: map<Thread, PollQ>)
    requires I.Inv(s) && Performs(RunIdle(map[], now), op) && Stepped(s, op, s', out) && InStep(s, queue, polls)
    ensures InStep(s', queue, polls)
  {
    QuietInStep(s, op, queue, polls);
  }

  // ---------- a dispatch ----------

  /**
   The threads that a dispatch readies: with an answer of the kernel about the polls, those
   whose polls fire, unless no thread is left and the process exits.
   */
  ghost predicate Readies(v: Option<Verdict>, active: int, ioQ: seq<Thread>, polls: map<Thread, PollQ>,
                          ready: map<Thread, nat>)
    requires v.Some? ==> VerdictOk(v.value)
  {
    if active > 0 && v.Some? then AreReady(v.value, ioQ, polls, ready) else ready == map[]
  }

  /** The polls that a dispatch leaves queued. */
  ghost function Unfired(v: Option<Verdict>, active: int, queue: seq<PollQ>): seq<PollQ>
    requires v.Some? ==> VerdictOk(v.value)
  {
    if active > 0 && v.Some? then Chosen(v.value, queue, |queue|, false) else queue
  }

  /** The event system has swept its queue. */
  ghost predicate Swept(v: Option<Verdict>, queue: seq<PollQ>, queue': seq<PollQ>)
    requires v.Some? ==> VerdictOk(v.value)
    reads queue
  {
    && queue' == Unfired(v, 1, queue)
    && forall q | q in queue :: if v.Some? then Answered(q, v.value) else q.onIoq
  }

  lemma DispatchPair(v: Option<Verdict>, ready: map<Thread, nat>, now: nat, s: M.Vp, op: I.Op, s': M.Vp, out: M.Outcome,
                     queue: seq<PollQ>, polls: map<Thread, PollQ>)
    requires v.Some? ==> VerdictOk(v.value)
    requires I.Inv(s) && Performs(RunIdle(ready, now), op) && Stepped(s, op, s', out) && InStep(s, queue, polls)
    requires Readies(v, s.active, s.ioQ, polls, ready)
    ensures InStep(s', Unfired(v, s.active, queue), polls)
  {
    hide I.Inv, Performs, Stepped, InStep, AreReady;
    if s.active > 0 && v.Some? {
      TurnPair(ready, now, v.value, s, op, s', out, queue, polls);
    } else {
      QuietPair(now, s, op, s', out, queue, polls);
    }
  }

  /** The threads of the polls that a sweep has taken off. */
  method Collect(ioQ: seq<Thread>, polls: map<Thread, PollQ>, ghost v: Option<Verdict>, ghost s: M.Vp,
                 ghost queue: seq<PollQ>)
      returns (ready: map<Thread, nat>)
    requires (v.Some? ==> VerdictOk(v.value)) && InStep(s, queue, polls) && ioQ == s.ioQ
    requires forall q | q in queue :: if v.Some? then Answered(q, v.value) else q.onIoq
    ensures I.Fires(s, ready) && Readies(v, 1, s.ioQ, polls, ready)
  {
    hide AreReady, Answered, I.Fires, Sized;
    ready := ReadyThreads(ioQ, polls);
    if v.Some? {
      ReadyFires(s, queue, polls, ready, v.value);
    } else {
      NoneReady(s, queue, polls, ready);
    }
  }

  /** No queued poll is off the queue: none fired. */
  lemma NoneReady(s: M.Vp, queue: seq<PollQ>, polls: map<Thread, PollQ>, ready: map<Thread, nat>)
    requires InStep(s, queue, polls) && (forall q | q in queue :: q.onIoq)
    requires forall t | t in ready :: t in s.ioQ && t in polls && !polls[t].onIoq
    ensures ready == map[] && I.Fires(s, ready)
  {
    forall t | t in s.ioQ ensures t in polls && polls[t].onIoq {
      var k :| 0 <= k < |s.ioQ| && s.ioQ[k] == t;
      assert queue[k] in queue;
    }
    assert forall t :: t !in ready;
  }
}
