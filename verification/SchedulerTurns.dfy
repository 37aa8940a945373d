/**
 Threads take turns: when a yield returns at once and when it gives way, that everyone ahead then
 runs before the caller does, and whom a turn of the idle thread lets run.
 */
module SchedulerTurns {
  import opened Threads
  import opened SchedulerModel
  import opened SchedulerInvariant
  import opened SchedulerSteps
  import opened SchedulerRuns
  import opened SchedulerTheorems
  import opened SchedulerCauses
  import L = SchedulerLives

  // ---------- yields ----------

  /** Nobody else can run at time `now`. */
  ghost predicate NobodyElse(s: Vp, now: nat) {
    s.runQ == [] && forall t | t in s.sleepers && t in s.threads :: s.threads[t].due > now
  }

  /**
   The first `n` threads on the run queue are those that were asleep and due, the one due last
   in front.
   */
  ghost predicate DueFirst(s: Vp, s': Vp, now: nat, n: nat) {
    && n <= |s'.runQ|
    && (forall t | t in s.threads :: t in s'.runQ[..n] <==> t in s.sleepers && s.threads[t].due <= now)
    && (forall t | t in s'.runQ[..n] :: t in s.threads)
    && (forall i, j | 0 <= i < j < n :: s.threads[s'.runQ[i]].due >= s.threads[s'.runQ[j]].due)
  }

  /** The caller is runnable, behind everyone else: the threads due, then the old run queue. */
  ghost predicate GivesWay(s: Vp, s': Vp, now: nat) {
    && s.current in s.threads && s'.current == null && s.current in s'.threads
    && s'.threads[s.current].state.Runnable? && s'.threads[s.current].at.AtUser?
    && s'.threads[s.current].interrupt == s.threads[s.current].interrupt
    && |s'.runQ| > |s.runQ|
    && s'.runQ[|s'.runQ| - |s.runQ| - 1..] == s.runQ + [s.current]
    && DueFirst(s, s', now, |s'.runQ| - |s.runQ| - 1)
    && forall t | t in s.threads && t != s.current && !(t in s.sleepers && s.threads[t].due <= now) ::
         t in s'.threads && s'.threads[t] == s.threads[t]
  }

  /** A yield returns at once iff nobody else can run; otherwise it gives way. */
  lemma YieldEffect(s: Vp, now: nat, expired: seq<Thread>)
    requires Inv(s) && Sane(s) && Enabled(s, DoYield(now, expired))
    ensures var (s', out) := Do(s, DoYield(now, expired));
            if NobodyElse(s, now) then out == Returned(Ok(0)) && s' == s.(clock := now)
            else out == Parked && GivesWay(s, s', now)
  {
    hide Inv, Sane, Yield, NobodyElse, GivesWay, ExpiryOrder;
    CallerAwake(s);
    YieldSplits(s, now, expired);
  }

  lemma CallerAwake(s: Vp)
    requires Inv(s) && AtCall(s)
    ensures s.current in s.threads && s.current !in s.sleepers && forall t | t in s.sleepers :: t in s.threads
  {
    hide LocksOk, RestOk;
    assert ThreadOk(s, s.current);
  }

  lemma YieldSplits(s: Vp, now: nat, expired: seq<Thread>)
    requires s.current in s.threads && s.current !in s.sleepers && (forall t | t in s.sleepers :: t in s.threads)
    requires ExpiryOrder(s, now, expired)
    ensures var (s', out) := Yield(s, now, expired);
            if NobodyElse(s, now) then out == Returned(Ok(0)) && s' == s.(clock := now)
            else out == Parked && GivesWay(s, s', now)
  {
    hide Expire, GivesWay, ExpiryOrder;
    if NobodyElse(s, now) {
      NoneExpires(s, now, expired);
    } else {
      SomeoneRuns(s, now, expired);
      QueuesBehind(s, now, expired);
    }
  }

  lemma HeadIn(q: seq<Thread>) returns (t: Thread)
    requires q != []
    ensures t in q
  {
    t := q[0];
  }

  lemma NoneExpires(s: Vp, now: nat, expired: seq<Thread>)
    requires ExpiryOrder(s, now, expired) && NobodyElse(s, now)
    ensures expired == [] && Expire(s, now, expired) == s.(clock := now)
  {
    if expired != [] { var _ := HeadIn(expired); }
    assert Expire(s, now, []).threads == s.threads && Expire(s, now, []).sleepers == s.sleepers;
  }

  lemma SomeoneRuns(s: Vp, now: nat, expired: seq<Thread>)
    requires ExpiryOrder(s, now, expired) && !NobodyElse(s, now)
    ensures Expire(s, now, expired).runQ != []
  {
    if s.runQ == [] {
      var t :| t in s.sleepers && t in s.threads && s.threads[t].due <= now;
      assert t in expired && t in Reverse(expired);
    }
  }

  lemma QueuesBehind(s: Vp, now: nat, expired: seq<Thread>)
    requires s.current in s.threads && s.current !in s.sleepers && (forall t | t in s.sleepers :: t in s.threads)
    requires ExpiryOrder(s, now, expired) && Expire(s, now, expired).runQ != []
    ensures GivesWay(s, Yield(s, now, expired).0, now)
  {
    hide Reverse;
    var s', n := Yield(s, now, expired).0, |expired|;
    assert s'.runQ == Reverse(expired) + s.runQ + [s.current];
    assert s'.runQ[..n] == Reverse(expired) && s'.runQ[n..] == s.runQ + [s.current];
    forall i, j | 0 <= i < j < n ensures s.threads[s'.runQ[i]].due >= s.threads[s'.runQ[j]].due {
      ReverseAt(expired, i);
      ReverseAt(expired, j);
    }
  }

  // ---------- everyone ahead goes first ----------

  lemma {:induction false} AheadOfLast(q: seq<Thread>, t: Thread, u: Thread)
    requires t !in q && u in q
    ensures u in Ahead(q + [t], t)
  {
    assert (q + [t])[0] == q[0] && (q + [t])[1..] == q[1..] + [t];
    if u != q[0] { AheadOfLast(q[1..], t, u); }
  }

  /**
   Over every run: between a yield that gives way and the caller's next turn, every thread that
   stood before it on the run queue is picked.
   */
  lemma YieldTakesTurns(states: seq<Vp>, ops: seq<Op>, i: nat, k: nat, t: Thread, u: Thread)
    requires IsRun(states, ops) && i < k < |ops| && ops[i].DoYield? && states[i].current == t
    requires Sane(states[i]) && Enabled(states[i], ops[i]) && Do(states[i], ops[i]).1 == Parked
    requires Picks(states[k], ops[k], t) && (u in states[i].runQ || u in states[i + 1].runQ) && u != t
    ensures exists j | i < j < k :: Picks(states[j], ops[j], u)
  {
    hide Inv, Sane, Enabled, Do, IsInitial, NobodyElse, Ahead, NoDup;
    RunInv(states, ops, i);
    RunInv(states, ops, i + 1);
    assert Follows(states[i], ops[i], states[i + 1]);
    YieldLast(states[i], ops[i], t);
    AheadInQueue(states[i + 1], t, u);
    if forall j | i < j < k :: !Picks(states[j], ops[j], u) {
      L.RunQueueFair(states, ops, i + 1, k, u, t);
      NobodyAhead(states[k], t);
      assert false;
    }
  }

  lemma YieldLast(s: Vp, op: Op, t: Thread)
    requires Inv(s) && Sane(s) && Enabled(s, op) && op.DoYield? && s.current == t && Do(s, op).1 == Parked
    ensures var q := Do(s, op).0.runQ; q != [] && q[|q| - 1] == t && forall u | u in s.runQ :: u in q
  {
    hide Inv, Sane, Enabled, Do, NobodyElse;
    YieldEffect(s, op.now, op.expired);
    var q := Do(s, op).0.runQ;
    var behind := q[|q| - |s.runQ| - 1..];
    assert behind[|s.runQ|] == t;
    forall u | u in s.runQ ensures u in q { assert u in behind; }
  }

  lemma AheadInQueue(s: Vp, t: Thread, u: Thread)
    requires Inv(s) && s.runQ != [] && s.runQ[|s.runQ| - 1] == t && u in s.runQ && u != t
    ensures u in Ahead(s.runQ, t) && t in s.runQ
  {
    hide ThreadsOk, LocksOk, RestOk;
    var q := s.runQ[..|s.runQ| - 1];
    assert s.runQ == q + [t];
    AheadOfLast(q, t, u);
  }

  lemma NobodyAhead(s: Vp, t: Thread)
    requires t in s.runQ && Next(s) == t
    ensures Ahead(s.runQ, t) == {}
  {
  }

  // ---------- the idle thread ----------

  /** Those whose polls fired resume with their counts, and the others on the I/O queue stay. */
  ghost predicate PollsAnswered(s: Vp, s': Vp, ready: map<Thread, nat>) {
    && s'.ioQ == Only(s.ioQ, set t | t in s.ioQ && t !in ready)
    && forall t | t in ready :: t in s.threads && t in s'.threads && s.threads[t].at.InPoll? &&
         s'.threads[t].at == s.threads[t].at.(onIoq := false, ready := ready[t]) && s'.threads[t].state.Runnable? &&
         s'.threads[t].interrupt == s.threads[t].interrupt
  }

  /** On the run queue are those due, the one due last in front, and then those whose polls fired, as they queued. */
  ghost predicate IdleWakes(s: Vp, s': Vp, ready: map<Thread, nat>, now: nat) {
    var n := |s'.runQ| - |Only(s.ioQ, ready.Keys)|;
    && 0 <= n && s'.runQ[n..] == Only(s.ioQ, ready.Keys)
    && (forall t | t in s.threads ::
         t in s'.runQ[..n] <==> t in s.sleepers && s.threads[t].due <= now && t !in ready)
    && (forall t | t in s'.runQ[..n] :: t in s.threads)
    && forall i, j | 0 <= i < j < n :: s.threads[s'.runQ[i]].due >= s.threads[s'.runQ[j]].due
  }

  /**
   A turn of the idle thread lets run those due and then those whose polls fired, in the order
   in which they were queued, and itself when nobody else can.
   */
  lemma IdleEffect(s: Vp, ready: map<Thread, nat>, now: nat, expired: seq<Thread>)
    requires Inv(s) && Sane(s) && Enabled(s, DoIdle(ready, now, expired))
    ensures var (s', out) := Do(s, DoIdle(ready, now, expired));
            if s.active <= 0 then out == Exited && s' == s
            else
              && out == Parked && s'.current == null && s.idle in s'.threads && s'.threads[s.idle].state.Runnable?
              && PollsAnswered(s, s', ready) && s'.clock == now && IdleWakes(s, s', ready, now)
  {
    hide Inv, IdleWakes, Idle, Dispatch, ExpiryOrder, Fires, PollsAnswered, Only;
    if s.active > 0 {
      FiringKnown(s, ready);
      IdleSplits(s, ready, now, expired);
    }
  }

  lemma FiringKnown(s: Vp, ready: map<Thread, nat>)
    requires Inv(s) && Fires(s, ready) && s.current == s.idle
    ensures s.runQ == [] && s.idle in s.threads && s.idle !in ready && s.idle !in s.sleepers
    ensures forall t | t in ready :: t in s.ioQ && t in s.threads && s.threads[t].at.InPoll?
    ensures forall t | t in s.sleepers :: t in s.threads
  {
    hide LocksOk, RestOk;
    assert ThreadOk(s, s.idle);
  }

  lemma IdleSplits(s: Vp, ready: map<Thread, nat>, now: nat, expired: seq<Thread>)
    requires s.runQ == [] && s.idle in s.threads && s.idle !in ready && s.idle !in s.sleepers
    requires forall t | t in ready :: t in s.ioQ && t in s.threads && s.threads[t].at.InPoll?
    requires (forall t | t in s.sleepers :: t in s.threads) && ExpiryOrder(Dispatch(s, ready), now, expired)
    ensures var s' := Idle(s, ready, now, expired);
            && s'.current == null && s.idle in s'.threads && s'.threads[s.idle].state.Runnable?
            && PollsAnswered(s, s', ready) && s'.clock == now && IdleWakes(s, s', ready, now)
  {
    hide Dispatch, Expire, ExpiryOrder, PollsAnswered, IdleWakes, Only;
    var d := Dispatch(s, ready);
    DispatchEffect(s, ready);
    WakesInOrder(s, d, ready, now, expired);
    AnswersStay(s, d, ready, now, expired);
  }

  lemma WakesInOrder(s: Vp, d: Vp, ready: map<Thread, nat>, now: nat, expired: seq<Thread>)
    requires d.idle in d.threads && d.threads.Keys == s.threads.Keys && d.sleepers == s.sleepers - ready.Keys
    requires d.runQ == Only(s.ioQ, ready.Keys) && ExpiryOrder(d, now, expired)
    requires (forall t | t in s.threads :: d.threads[t].due == s.threads[t].due)
    ensures IdleWakes(s, Park(Expire(d, now, expired), d.idle, Runnable, AtIdle), ready, now)
  {
    hide Reverse, Only, ExpiryOrder;
    var s', n := Park(Expire(d, now, expired), d.idle, Runnable, AtIdle), |expired|;
    assert s'.runQ == Reverse(expired) + Only(s.ioQ, ready.Keys);
    assert s'.runQ[..n] == Reverse(expired) && s'.runQ[n..] == Only(s.ioQ, ready.Keys);
    LastDueFirst(s, d, now, expired);
  }

  lemma LastDueFirst(s: Vp, d: Vp, now: nat, expired: seq<Thread>)
    requires d.threads.Keys == s.threads.Keys && ExpiryOrder(d, now, expired)
    requires forall t | t in s.threads :: d.threads[t].due == s.threads[t].due
    ensures var r := Reverse(expired);
            && (forall t | t in s.threads :: t in r <==> t in d.sleepers && s.threads[t].due <= now)
            && (forall t | t in r :: t in s.threads)
            && forall i, j | 0 <= i < j < |r| :: s.threads[r[i]].due >= s.threads[r[j]].due
  {
    hide Reverse;
    var r := Reverse(expired);
    forall i, j | 0 <= i < j < |r| ensures s.threads[r[i]].due >= s.threads[r[j]].due {
      ReverseAt(expired, i);
      ReverseAt(expired, j);
    }
  }

  lemma AnswersStay(s: Vp, d: Vp, ready: map<Thread, nat>, now: nat, expired: seq<Thread>)
    requires PollsAnswered(s, d, ready) && d.idle in d.threads && d.idle !in ready && ExpiryOrder(d, now, expired)
    requires d.sleepers == s.sleepers - ready.Keys
    ensures var s' := Park(Expire(d, now, expired), d.idle, Runnable, AtIdle);
            && s'.current == null && d.idle in s'.threads && s'.threads[d.idle].state.Runnable?
            && PollsAnswered(s, s', ready) && s'.clock == now
  {
    hide Only, Reverse;
  }

  lemma DispatchEffect(s: Vp, ready: map<Thread, nat>)
    requires s.runQ == [] && forall t | t in ready :: t in s.ioQ && t in s.threads && s.threads[t].at.InPoll?
    ensures var d := Dispatch(s, ready);
            && PollsAnswered(s, d, ready) && d.idle == s.idle && d.threads.Keys == s.threads.Keys
            && d.runQ == Only(s.ioQ, ready.Keys) && d.sleepers == s.sleepers - ready.Keys
            && (forall t | t in s.threads :: d.threads[t].due == s.threads[t].due)
            && (forall t | t in s.threads && t !in ready :: d.threads[t] == s.threads[t])
  {
    hide Only, Dispatch;
    DispatchQueued(s, ready);
    forall t | t in s.threads ensures t in Dispatch(s, ready).threads && Answers(s, Dispatch(s, ready), ready, t) {
      DispatchAnswers(s, ready, t);
    }
  }

  ghost predicate Answers(s: Vp, d: Vp, ready: map<Thread, nat>, t: Thread)
    requires t in s.threads && t in d.threads
  {
    && d.threads[t].due == s.threads[t].due && d.threads[t].interrupt == s.threads[t].interrupt
    && (t !in ready ==> d.threads[t] == s.threads[t])
    && (t in ready ==> d.threads[t].state.Runnable?)
    && (t in ready && s.threads[t].at.InPoll? ==>
         d.threads[t].at == s.threads[t].at.(onIoq := false, ready := ready[t]))
  }

  lemma DispatchAnswers(s: Vp, ready: map<Thread, nat>, t: Thread)
    requires t in s.threads
    ensures t in Dispatch(s, ready).threads && Answers(s, Dispatch(s, ready), ready, t)
  {
  }

  lemma DispatchQueued(s: Vp, ready: map<Thread, nat>)
    requires s.runQ == []
    ensures var d := Dispatch(s, ready);
            && d.idle == s.idle && d.threads.Keys == s.threads.Keys && d.sleepers == s.sleepers - ready.Keys
            && d.ioQ == Only(s.ioQ, set t | t in s.ioQ && t !in ready) && d.runQ == Only(s.ioQ, ready.Keys)
  {
    hide Only;
    assert [] + Only(s.ioQ, ready.Keys) == Only(s.ioQ, ready.Keys);
  }
}
