/**
 The scheduler together with the select event system.  Whatever is called, in any order that
 the interface allows, the scheduler goes through a run, and at every switch point the counts,
 the descriptor sets and their bound are those of the polls that its threads have queued.
 */
module SelectRuns {
  import opened Threads
  import opened Polls
  import opened PollCalls
  import opened PollPairs
  import opened SchedulerCalls
  import opened SelectEvents
  import I = SchedulerInvariant
  import M = SchedulerModel
  import R = SchedulerRuns

  predicate ResultOk(result: SelectResult) {
    result.ReadyFds? ==> |result.ready| == KINDS
  }

  /** What a result of select says about the queued polls, when it says anything. */
  function VerdictOf(result: SelectResult): (v: Option<Verdict>)
    requires ResultOk(result)
    ensures v.Some? ==> VerdictOk(v.value)
  {
    match result
    case ReadyFds(ready) => Some(Selected(ready))
    case BadFd(bad) => Some(Probed(bad))
    case _ => None
  }

  lemma Distinct(ev: SelectData)
    requires ev.Valid()
    ensures M.NoDup(ev.ioQ)
  {
  }

  class SelectProcessor {
    const history: History
    const ev: SelectData
    var polls: map<Thread, PollQ>   // the latest poll of each thread

    ghost predicate Valid()
      reads this, history, history.vp, history.vp.recs.Keys, history.vp.condQ.Keys, history.vp.owners.Keys
      reads history.vp.sleepQ, history.vp.sleepQ.nodes, ev, ev.refs, ev.ioQ
    {
      history.Valid() && ev.Valid() && InStep(history.vp.View(), ev.ioQ, polls)
    }

    constructor (stack: Stack, now: nat)
      ensures Valid() && history.ops == []
    {
      hide History.Valid, SelectData.Valid;
      var h := new History(stack, now);
      var e := new SelectData();
      history, ev, polls := h, e, map[];
    }

    /** A call on the scheduler does not touch the event system. */
    method Call(call: Call) returns (out: M.Outcome, ghost op: I.Op)
      requires history.Valid() && ev.Valid() && Allowed(history.vp.View(), call)
      modifies history, history.vp, history.vp.recs.Keys, history.vp.sleepQ, history.vp.condQ.Keys,
               history.vp.owners.Keys
      ensures history.Valid() && ev.Valid() && ev.ioQ == old(ev.ioQ) && history.ops == old(history.ops) + [op]
      ensures I.Inv(old(history.vp.View())) && Performs(call, op)
      ensures Stepped(old(history.vp.View()), op, history.vp.View(), out)
    {
      hide I.Inv, I.Sane, I.Enabled, I.Do, R.IsRun, Stepped, Performs, InStep, SelectData.Valid, History.Valid;
      out, op := history.Next(call);
    }

    /** A poll: refused when interrupted or not acceptable, and otherwise queued in both places. */
    method Poll(pds: seq<Pollfd>, timeout: Timeout) returns (out: M.Outcome)
      requires Valid() && I.AtCall(history.vp.View())
      modifies `polls, ev, ev.refs
      modifies history, history.vp, history.vp.recs.Keys, history.vp.sleepQ, history.vp.condQ.Keys,
               history.vp.owners.Keys
      ensures Valid()
    {
      hide I.Inv, I.Sane, R.IsRun, InStep, SelectData.Valid, History.Valid;
      ghost var queue := ev.ioQ;
      var added, q := Offer(pds);
      out := Enter(q, timeout, added, queue);
    }

    /** The rest of a poll: the call on the scheduler, after which both queues hold it or neither does. */
    method Enter(q: PollQ, timeout: Timeout, added: bool, ghost queue: seq<PollQ>) returns (out: M.Outcome)
      requires history.Valid() && ev.Valid() && InStep(history.vp.View(), queue, polls)
      requires var s := history.vp.View();
               I.AtCall(s) && s.current in s.threads && (added ==> !s.threads[s.current].interrupt)
      requires ev.ioQ == if added then queue + [q] else queue
      modifies `polls
      modifies history, history.vp, history.vp.recs.Keys, history.vp.sleepQ, history.vp.condQ.Keys,
               history.vp.owners.Keys
      ensures Valid()
    {
      hide I.Inv, I.Sane, I.Enabled, I.Do, R.IsRun, Stepped, Performs, InStep, SelectData.Valid, History.Valid;
      ghost var s, before := history.vp.View(), polls;
      var me: Thread := history.vp.current;
      ghost var op;
      out, op := Call(CallPoll(|q.pds|, timeout, added));
      if added {
        PollPair(q, timeout, s, op, history.vp.View(), out, queue, before);
        polls := polls[me := q];
      } else {
        NoPollPair(|q.pds|, timeout, added, s, op, history.vp.View(), out, queue, before);
      }
    }

    /** The part of a poll that is about the event system. */
    method Offer(pds: seq<Pollfd>) returns (added: bool, q: PollQ)
      requires history.Valid() && ev.Valid() && I.AtCall(history.vp.View())
      modifies ev, ev.refs
      ensures history.Valid() && ev.Valid() && q.pds == pds
      ensures ev.ioQ == if added then old(ev.ioQ) + [q] else old(ev.ioQ)
      ensures var s := history.vp.View();
              s.current in s.threads && (added <==> !s.threads[s.current].interrupt && AllAcceptable(pds, FD_SETSIZE))
    {
      hide I.Inv, I.Sane, I.Enabled, I.Do, R.IsRun, Stepped, Performs, InStep, SelectData.Valid, History.Valid;
      history.Known();
      q := new PollQ(pds);
      var interrupted := history.Interrupted();
      added := false;
      if !interrupted {
        added := ev.AddPoll(q);
      }
    }

    /** The next thread runs on; if it comes back from a poll that did not fire, the poll leaves both queues. */
    method Resume() returns (out: M.Outcome)
      requires Valid() && history.vp.current == null
      modifies ev, ev.refs
      modifies history, history.vp, history.vp.recs.Keys, history.vp.sleepQ, history.vp.condQ.Keys,
               history.vp.owners.Keys
      ensures Valid()
    {
      hide I.Inv, I.Sane, I.Enabled, I.Do, R.IsRun, Stepped, Performs, InStep, SelectData.Valid, History.Valid;
      ghost var s, queue := history.vp.View(), ev.ioQ;
      Leave();
      ghost var op;
      out, op := Call(Reschedule);
      ResumePair(s, op, history.vp.View(), out, queue, ev.ioQ, polls);
    }

    /** The poll of the next thread leaves the event system if it did not fire. */
    method Leave()
      requires Valid() && history.vp.current == null
      modifies ev, ev.refs
      ensures history.Valid() && ev.Valid() && M.Next(history.vp.View()) in history.vp.recs
      ensures Left(history.vp.View(), M.Next(history.vp.View()), old(ev.ioQ), ev.ioQ, polls)
    {
      hide I.Inv, I.Sane, R.IsRun, InStep, History.Valid, SelectData.Valid, M.Next;
      history.Known();
      Distinct(ev);
      var t, leaves := history.NextLeaves();
      if leaves {
        LeavingPair(history.vp.View(), t, ev.ioQ, polls);
        ev.RemovePoll(polls[t]);
      }
    }

    /** Any other call of user code. */
    method Plain(call: Call) returns (out: M.Outcome)
      requires Valid() && Allowed(history.vp.View(), call) && !call.CallPoll? && !call.Reschedule? && !call.RunIdle?
      modifies history, history.vp, history.vp.recs.Keys, history.vp.sleepQ, history.vp.condQ.Keys,
               history.vp.owners.Keys
      ensures Valid()
    {
      hide I.Inv, I.Sane, I.Enabled, I.Do, R.IsRun, Stepped, Performs, InStep, SelectData.Valid, History.Valid;
      ghost var s := history.vp.View();
      ghost var op;
      out, op := Call(call);
      PlainPair(call, s, op, history.vp.View(), out, ev.ioQ, polls);
    }

    /**
     A turn of the idle thread: the dispatch of the event system decides which polls fire, and
     their threads are woken with the numbers of their nonempty answers.
     */
    method Turn(result: SelectResult, now: nat) returns (out: M.Outcome, ready: map<Thread, nat>, ghost op: I.Op)
      requires Valid() && history.vp.current == history.vp.idle && ResultOk(result)
      modifies ev, ev.refs, ev.ioQ
      modifies history, history.vp, history.vp.recs.Keys, history.vp.sleepQ, history.vp.condQ.Keys,
               history.vp.owners.Keys
      ensures Valid() && history.ops == old(history.ops) + [op] && Performs(RunIdle(ready, now), op)
      ensures Readies(VerdictOf(result), old(history.vp.activeCount), old(history.vp.ioQ), polls, ready)
    {
      hide I.Inv, I.Sane, I.Enabled, I.Do, R.IsRun, Stepped, Performs, InStep, SelectData.Valid, History.Valid,
        Readies, Unfired;
      ghost var s, queue := history.vp.View(), ev.ioQ;
      ready := Dispatch(result);
      out, op := Call(RunIdle(ready, now));
      DispatchPair(VerdictOf(result), ready, now, s, op, history.vp.View(), out, queue, polls);
    }

    /** The dispatch itself; a process about to exit does none. */
    method Dispatch(result: SelectResult) returns (ready: map<Thread, nat>)
      requires Valid() && ResultOk(result)
      modifies ev, ev.refs, ev.ioQ
      ensures history.Valid() && ev.Valid() && I.Fires(history.vp.View(), ready)
      ensures Readies(VerdictOf(result), history.vp.activeCount, history.vp.ioQ, polls, ready)
      ensures ev.ioQ == Unfired(VerdictOf(result), history.vp.activeCount, old(ev.ioQ))
    {
      hide I.Inv, I.Sane, R.IsRun, InStep, SelectData.Valid, History.Valid, AreReady, Answered, Chosen;
      ready := map[];
      if history.vp.activeCount > 0 {
        ghost var queue := ev.ioQ;
        Sweep(result);
        ready := Collect(history.vp.ioQ, polls, VerdictOf(result), history.vp.View(), queue);
      }
    }

    /** The part of a dispatch that is about the event system. */
    method Sweep(result: SelectResult)
      requires history.Valid() && ev.Valid() && ResultOk(result)
      modifies ev, ev.refs, ev.ioQ
      ensures history.Valid() && ev.Valid() && Swept(VerdictOf(result), old(ev.ioQ), ev.ioQ)
    {
      hide History.Valid, R.IsRun, Answered, Chosen, SelectData.Tallied, SelectData.BitsMatch;
      var _ := ev.Dispatch(result);
    }
  }
}
