/**
 The scheduler together with the epoll event system.  Whatever is called, in any order that
 the interface allows, the scheduler goes through a run, and at every switch point the counts
 are those of the polls that its threads have queued, and the kernel's interest their masks.
 */
module EpollRuns {
  import opened Threads
  import opened Polls
  import opened PollCalls
  import opened PollPairs
  import opened SchedulerCalls
  import opened EpollEvents
  import I = SchedulerInvariant
  import M = SchedulerModel
  import R = SchedulerRuns

  lemma Distinct(ev: EpollData)
    requires ev.Valid()
    ensures M.NoDup(ev.ioQ)
  {
  }

  class EpollProcessor {
    const history: History
    const ev: EpollData
    var polls: map<Thread, PollQ>   // the latest poll of each thread

    ghost predicate Valid()
      reads this, history, history.vp, history.vp.recs.Keys, history.vp.condQ.Keys, history.vp.owners.Keys
      reads history.vp.sleepQ, history.vp.sleepQ.nodes, ev, ev.ioQ
    {
      history.Valid() && ev.Valid() && InStep(history.vp.View(), ev.ioQ, polls)
    }

    constructor (stack: Stack, now: nat, size: nat)
      requires size > 0
      ensures Valid() && history.ops == []
    {
      hide History.Valid, EpollData.Valid;
      var h := new History(stack, now);
      var e := new EpollData(size);
      history, ev, polls := h, e, map[];
    }

    /** A call on the scheduler does not touch the event system. */
    method Call(call: Call) returns (out: M.Outcome, ghost op: I.Op)
      requires history.Valid() && ev.Valid() && Allowed(history.vp.View(), call)
      modifies history, history.vp, history.vp.recs.Keys, history.vp.sleepQ, history.vp.condQ.Keys,
               history.vp.owners.Keys
      ensures history.Valid() && ev.Valid() && ev.ioQ == old(ev.ioQ) && history.ops == old(history.ops) + [op]
      ensures I.Inv(old(history.vp.View())) && Performs(call, op)
      ensures Stepped(old(history.vp.View()), op, history.vp.View(), out)
    {
      hide I.Inv, I.Sane, I.Enabled, I.Do, R.IsRun, Stepped, Performs, InStep, EpollData.Valid, History.Valid;
      out, op := history.Next(call);
    }

    /** A poll: refused when interrupted or not acceptable, and otherwise queued in both places. */
    method Poll(pds: seq<Pollfd>, timeout: Timeout, allocates: bool, admits: set<int>) returns (out: M.Outcome)
      requires Valid() && I.AtCall(history.vp.View())
      modifies `polls, ev
      modifies history, history.vp, history.vp.recs.Keys, history.vp.sleepQ, history.vp.condQ.Keys,
               history.vp.owners.Keys
      ensures Valid()
    {
      hide I.Inv, I.Sane, R.IsRun, InStep, EpollData.Valid, History.Valid;
      ghost var queue := ev.ioQ;
      var added, q := Offer(pds, allocates, admits);
      out := Enter(q, timeout, added, queue);
    }

    /** The rest of a poll: the call on the scheduler, after which both queues hold it or neither does. */
    method Enter(q: PollQ, timeout: Timeout, added: bool, ghost queue: seq<PollQ>) returns (out: M.Outcome)
      requires history.Valid() && ev.Valid() && InStep(history.vp.View(), queue, polls)
      requires var s := history.vp.View();
               I.AtCall(s) && s.current in s.threads && (added ==> !s.threads[s.current].interrupt)
      requires ev.ioQ == if added then queue + [q] else queue
      modifies `polls
      modifies history, history.vp, history.vp.recs.Keys, history.vp.sleepQ, history.vp.condQ.Keys,
               history.vp.owners.Keys
      ensures Valid()
    {
      hide I.Inv, I.Sane, I.Enabled, I.Do, R.IsRun, Stepped, Performs, InStep, EpollData.Valid, History.Valid;
      ghost var s, before := history.vp.View(), polls;
      var me: Thread := history.vp.current;
      ghost var op;
      out, op := Call(CallPoll(|q.pds|, timeout, added));
      if added {
        PollPair(q, timeout, s, op, history.vp.View(), out, queue, before);
        polls := polls[me := q];
      } else {
        NoPollPair(|q.pds|, timeout, added, s, op, history.vp.View(), out, queue, before);
      }
    }

    /** The part of a poll that is about the event system. */
    method Offer(pds: seq<Pollfd>, allocates: bool, admits: set<int>) returns (added: bool, q: PollQ)
      requires history.Valid() && ev.Valid() && I.AtCall(history.vp.View())
      modifies ev
      ensures history.Valid() && ev.Valid() && q.pds == pds
      ensures ev.ioQ == if added then old(ev.ioQ) + [q] else old(ev.ioQ)
      ensures var s := history.vp.View();
              && s.current in s.threads && (added ==> !s.threads[s.current].interrupt)
              && (added ==> forall pd | pd in pds :: Acceptable(pd))
    {
      hide I.Inv, I.Sane, I.Enabled, I.Do, R.IsRun, Stepped, Performs, InStep, EpollData.Valid, History.Valid;
      history.Known();
      q := new PollQ(pds);
      var interrupted := history.Interrupted();
      added := false;
      if !interrupted {
        added := ev.AddPoll(q, allocates, admits);
      }
    }

    /** The next thread runs on; if it comes back from a poll that did not fire, the poll leaves both queues. */
    method Resume() returns (out: M.Outcome)
      requires Valid() && history.vp.current == null
      modifies ev
      modifies history, history.vp, history.vp.recs.Keys, history.vp.sleepQ, history.vp.condQ.Keys,
               history.vp.owners.Keys
      ensures Valid()
    {
      hide I.Inv, I.Sane, I.Enabled, I.Do, R.IsRun, Stepped, Performs, InStep, EpollData.Valid, History.Valid;
      ghost var s, queue := history.vp.View(), ev.ioQ;
      Leave();
      ghost var op;
      out, op := Call(Reschedule);
      ResumePair(s, op, history.vp.View(), out, queue, ev.ioQ, polls);
    }

    /** The poll of the next thread leaves the event system if it did not fire. */
    method Leave()
      requires Valid() && history.vp.current == null
      modifies ev
      ensures history.Valid() && ev.Valid() && M.Next(history.vp.View()) in history.vp.recs
      ensures Left(history.vp.View(), M.Next(history.vp.View()), old(ev.ioQ), ev.ioQ, polls)
    {
      hide I.Inv, I.Sane, R.IsRun, InStep, History.Valid, EpollData.Valid, M.Next;
      history.Known();
      Distinct(ev);
      var t, leaves := history.NextLeaves();
      if leaves {
        LeavingPair(history.vp.View(), t, ev.ioQ, polls);
        ev.RemovePoll(polls[t]);
      }
    }

    /** Any other call of user code. */
    method Plain(call: Call) returns (out: M.Outcome)
      requires Valid() && Allowed(history.vp.View(), call) && !call.CallPoll? && !call.Reschedule? && !call.RunIdle?
      modifies history, history.vp, history.vp.recs.Keys, history.vp.sleepQ, history.vp.condQ.Keys,
               history.vp.owners.Keys
      ensures Valid()
    {
      hide I.Inv, I.Sane, I.Enabled, I.Do, R.IsRun, Stepped, Performs, InStep, EpollData.Valid, History.Valid;
      ghost var s := history.vp.View();
      ghost var op;
      out, op := Call(call);
      PlainPair(call, s, op, history.vp.View(), out, ev.ioQ, polls);
    }

    /**
     A turn of the idle thread: the dispatch of the event system decides which polls fire, and
     their threads are woken with the numbers of their nonempty answers.
     */
    method Turn(evtlist: seq<int>, reported: map<int, set<Bit>>, now: nat)
        returns (out: M.Outcome, ready: map<Thread, nat>, ghost op: I.Op)
      requires Valid() && history.vp.current == history.vp.idle && Reported(ev.View(), evtlist, reported)
      modifies ev, ev.ioQ
      modifies history, history.vp, history.vp.recs.Keys, history.vp.sleepQ, history.vp.condQ.Keys,
               history.vp.owners.Keys
      ensures Valid() && history.ops == old(history.ops) + [op] && Performs(RunIdle(ready, now), op)
      ensures var v := Some(Polled(Fired(old(ev.View()), reported)));
              Readies(v, old(history.vp.activeCount), old(history.vp.ioQ), polls, ready)
    {
      hide I.Inv, I.Sane, I.Enabled, I.Do, R.IsRun, Stepped, Performs, InStep, EpollData.Valid, History.Valid,
        Readies, Unfired, Reported;
      ghost var s, queue, v := history.vp.View(), ev.ioQ, Some(Polled(Fired(ev.View(), reported)));
      ready := Dispatch(evtlist, reported);
      out, op := Call(RunIdle(ready, now));
      DispatchPair(v, ready, now, s, op, history.vp.View(), out, queue, polls);
    }

    /** The dispatch itself; a process about to exit does none. */
    method Dispatch(evtlist: seq<int>, reported: map<int, set<Bit>>) returns (ready: map<Thread, nat>)
      requires Valid() && Reported(ev.View(), evtlist, reported)
      modifies ev, ev.ioQ
      ensures history.Valid() && ev.Valid() && I.Fires(history.vp.View(), ready)
      ensures var v := Some(Polled(Fired(old(ev.View()), reported)));
              && Readies(v, history.vp.activeCount, history.vp.ioQ, polls, ready)
              && ev.ioQ == Unfired(v, history.vp.activeCount, old(ev.ioQ))
    {
      hide I.Inv, I.Sane, R.IsRun, InStep, EpollData.Valid, History.Valid, AreReady, Answered, Chosen, Reported;
      ready := map[];
      if history.vp.activeCount > 0 {
        ghost var queue, v := ev.ioQ, Some(Polled(Fired(ev.View(), reported)));
        Sweep(evtlist, reported);
        ready := Collect(history.vp.ioQ, polls, v, history.vp.View(), queue);
      }
    }

    /** The part of a dispatch that is about the event system. */
    method Sweep(evtlist: seq<int>, reported: map<int, set<Bit>>)
      requires history.Valid() && ev.Valid() && Reported(ev.View(), evtlist, reported)
      modifies ev, ev.ioQ
      ensures history.Valid() && ev.Valid()
      ensures Swept(Some(Polled(Fired(old(ev.View()), reported))), old(ev.ioQ), ev.ioQ)
    {
      hide History.Valid, R.IsRun, Answered, Chosen, EpollData.Valid, Reported;
      var _ := ev.Dispatch(evtlist, reported);
    }
  }
}
