/**
 The loops of the scheduler part of the way: what a broadcast, a clock check and a dispatch
 have done to the value of the scheduler after some of their turns.
 */
module SchedulerLoops {
  import opened Sequences
  import opened Threads
  import I = SchedulerInvariant
  import M = SchedulerModel
  import R = SchedulerRuns
  import S = SchedulerSteps
  import T = SchedulerTheorems

  lemma FirstAt(s: M.Vp, q: seq<Thread>, state: State, i: nat)
    requires (forall t | t in q :: t in s.threads) && i <= |q| && (i < |q| ==> s.threads[q[i]].state == state)
    requires forall k | 0 <= k < i :: s.threads[q[k]].state != state
    ensures M.First(s, q, state) == i
  {
  }

  /** A broadcast that has come to the `i`-th thread of the queue. */
  ghost function BroadcastTo(s: M.Vp, c: Cond, i: nat): M.Vp
    requires c in s.conds && I.Members(s.conds[c], s) && i <= |s.conds[c]|
  {
    T.WakeSeq(s, M.Only(s.conds[c][..i], M.WaitersOf(s, c)))
  }

  lemma BroadcastNone(s: M.Vp, c: Cond)
    requires c in s.conds && I.Members(s.conds[c], s)
    ensures BroadcastTo(s, c, 0) == s
  {
  }

  lemma {:induction false} OnlyMore<X>(q: seq<X>, x: X, keep: set<X>)
    ensures M.Only(q + [x], keep) == M.Only(q, keep) + if x in keep then [x] else []
  {
    if q == [] {
      assert ([x])[1..] == [];
    } else {
      OnlyMore(q[1..], x, keep);
      assert (q + [x])[1..] == q[1..] + [x];
    }
  }

  lemma {:induction false} WakeSeqMore(s: M.Vp, w: seq<Thread>, t: Thread)
    requires t in s.threads && forall x | x in w :: x in s.threads
    ensures T.WakeSeq(s, w).threads.Keys == s.threads.Keys
    ensures T.WakeSeq(s, w + [t]) == M.Wake(T.WakeSeq(s, w), t, M.Signalled)
    decreases |w|
  {
    if w == [] {
      assert ([t])[1..] == [];
    } else {
      WakeSeqMore(M.Wake(s, w[0], M.Signalled), w[1..], t);
      assert (w + [t])[1..] == w[1..] + [t];
    }
  }

  lemma BroadcastStep(s: M.Vp, c: Cond, i: nat)
    requires c in s.conds && I.Members(s.conds[c], s) && i < |s.conds[c]|
    ensures var t, b := s.conds[c][i], BroadcastTo(s, c, i);
            && t in b.threads && b.threads.Keys == s.threads.Keys && b.threads[t] == s.threads[t] && b.conds == s.conds
            && BroadcastTo(s, c, i + 1) == if s.threads[t].state == CondWait then M.Wake(b, t, M.Signalled) else b
  {
    var q, keep := s.conds[c], M.WaitersOf(s, c);
    var w := M.Only(q[..i], keep);
    assert q[..i + 1] == q[..i] + [q[i]] && q[i] in q;
    OnlyMore(q[..i], q[i], keep);
    M.OnlyNoDup(q[..i], keep);
    T.WakeSeqEffect(s, w);
    WakeSeqMore(s, w, q[i]);
    assert q[i] !in q[..i];
    assert q[i] in keep <==> s.threads[q[i]].state == CondWait;
    assert M.Only(q[..i + 1], keep) == if q[i] in keep then w + [q[i]] else w;
  }

  lemma BroadcastAll(s: M.Vp, c: Cond)
    requires c in s.conds && I.Members(s.conds[c], s)
    ensures BroadcastTo(s, c, |s.conds[c]|) == M.Broadcast(s, c)
  {
    assert s.conds[c][..|s.conds[c]|] == s.conds[c];
    T.BroadcastIsWakeSeq(s, c);
  }

  function TimedOutRec(r: M.Rec): M.Rec {
    r.(state := Runnable, onSleepQ := false, cause := M.TimerFired, timedOut := r.timedOut || r.state == CondWait)
  }

  ghost function WithExpired(s: M.Vp, t: Thread): M.Vp
    requires t in s.threads
  {
    s.(threads := s.threads[t := TimedOutRec(s.threads[t])], runQ := [t] + s.runQ, sleepers := s.sleepers - {t})
  }

  /** `expired` are the first sleepers to expire, in order. */
  ghost predicate Expiring(s: M.Vp, now: nat, expired: seq<Thread>) {
    && M.NoDup(expired)
    && (forall t | t in expired :: t in s.sleepers && t in s.threads && s.threads[t].due <= now)
    && (forall i, j | 0 <= i < j < |expired| :: s.threads[expired[i]].due <= s.threads[expired[j]].due)
    && (forall t, x | t in expired && x in s.sleepers && x in s.threads && x !in expired ::
         s.threads[t].due <= s.threads[x].due)
  }

  lemma ExpireNone(s: M.Vp, now: nat)
    ensures M.Expire(s, now, []) == s.(clock := now) && Expiring(s, now, [])
  {
    assert M.Expire(s, now, []).threads == s.threads && M.Expire(s, now, []).sleepers == s.sleepers;
  }

  lemma {:induction false} ReverseMore<X>(q: seq<X>, x: X)
    ensures M.Reverse(q + [x]) == [x] + M.Reverse(q)
  {
    if q != [] {
      ReverseMore(q[1..], x);
      assert (q + [x])[1..] == q[1..] + [x];
    } else {
      assert ([x])[1..] == [];
    }
  }

  lemma ExpireEffect(s: M.Vp, now: nat, expired: seq<Thread>, t: Thread)
    requires t in s.threads && t !in expired
    ensures M.Expire(s, now, expired + [t]) == WithExpired(M.Expire(s, now, expired), t)
  {
    var e, e' := M.Expire(s, now, expired), M.Expire(s, now, expired + [t]);
    ReverseMore(expired, t);
    assert e'.runQ == [t] + e.runQ;
    assert e'.sleepers == e.sleepers - {t};
    assert e'.threads == e.threads[t := TimedOutRec(e.threads[t])];
  }

  /** `t` is the sleeper due first, or there is none. */
  ghost predicate FirstDue(recs: map<Thread, M.Rec>, sleepers: set<Thread>, t: Thread?) {
    if t == null then sleepers == {}
    else t in sleepers && t in recs && forall x | x in sleepers && x in recs :: recs[t].due <= recs[x].due
  }

  /** Where the clock check stands: `expired` are gone, and `t` is due next. */
  ghost predicate Clocked(v: M.Vp, s: M.Vp, now: nat, expired: seq<Thread>, t: Thread?) {
    v == M.Expire(s, now, expired) && Expiring(s, now, expired) && FirstDue(v.threads, v.sleepers, t)
  }

  lemma ExpiringMore(s: M.Vp, now: nat, expired: seq<Thread>, t: Thread)
    requires Expiring(s, now, expired)
    requires var e := M.Expire(s, now, expired); FirstDue(e.threads, e.sleepers, t) && e.threads[t].due <= now
    ensures t in s.threads && t !in expired && Expiring(s, now, expired + [t])
  {
    var e := M.Expire(s, now, expired);
    assert t in s.sleepers && t !in expired && e.threads[t] == s.threads[t];
    forall x | x in s.sleepers && x in s.threads && x !in expired ensures s.threads[t].due <= s.threads[x].due {
      assert x in e.sleepers && e.threads[x] == s.threads[x];
    }
  }

  lemma ExpireEnds(s: M.Vp, now: nat, expired: seq<Thread>, t: Thread?)
    requires Expiring(s, now, expired)
    requires var e := M.Expire(s, now, expired);
             FirstDue(e.threads, e.sleepers, t) && (t != null ==> e.threads[t].due > now)
    ensures M.ExpiryOrder(s, now, expired)
  {
    var e := M.Expire(s, now, expired);
    forall x | x in s.sleepers && x in s.threads && x !in expired ensures s.threads[x].due > now {
      assert x in e.sleepers && e.threads[x] == s.threads[x];
    }
  }

  lemma FitAt(free: seq<Stack>, size: nat, i: nat)
    requires i <= |free| && (i < |free| ==> free[i].size >= size) && forall k | 0 <= k < i :: free[k].size < size
    ensures M.FirstFit(free, size) == i
  {
  }

  function FiredRec(r: M.Rec, n: nat): M.Rec
    requires r.at.InPoll?
  {
    r.(state := Runnable, onSleepQ := false, cause := M.IoReady, at := r.at.(onIoq := false, ready := n))
  }

  ghost function WithFired(s: M.Vp, t: Thread, n: nat): M.Vp
    requires t in s.threads && s.threads[t].at.InPoll?
  {
    s.(threads := s.threads[t := FiredRec(s.threads[t], n)], sleepers := s.sleepers - {t},
       ioQ := M.Without(s.ioQ, t), runQ := s.runQ + [t])
  }

  /** The part of `ready` that is about the threads of `q`. */
  ghost function Upto(ready: map<Thread, nat>, q: seq<Thread>): map<Thread, nat> {
    map t | t in ready && t in q :: ready[t]
  }

  lemma {:induction false} OnlyNone<X>(q: seq<X>, keep: set<X>)
    requires forall x | x in q :: x !in keep
    ensures M.Only(q, keep) == []
  {
    if q != [] { OnlyNone(q[1..], keep); }
  }

  lemma {:induction false} OnlyAll<X>(q: seq<X>, keep: set<X>)
    requires forall x | x in q :: x in keep
    ensures M.Only(q, keep) == q
  {
    if q != [] { OnlyAll(q[1..], keep); }
  }

  lemma HeadOf<X>(a: seq<X>, b: seq<X>)
    requires a != []
    ensures (a + b)[0] == a[0] && (a + b)[1..] == a[1..] + b
  {
  }

  lemma {:induction false} OnlySplit<X>(a: seq<X>, b: seq<X>, keep: set<X>)
    ensures M.Only(a + b, keep) == M.Only(a, keep) + M.Only(b, keep)
  {
    if a == [] {
      assert a + b == b;
    } else {
      OnlySplit(a[1..], b, keep);
      HeadOf(a, b);
      Associates([a[0]], M.Only(a[1..], keep), M.Only(b, keep));
    }
  }

  lemma {:induction false} OnlyWithout<X>(q: seq<X>, a: set<X>, b: set<X>, t: X)
    requires forall x | x in q :: x in b <==> x in a && x != t
    ensures M.Only(q, b) == M.Without(M.Only(q, a), t)
  {
    if q != [] {
      OnlyWithout(q[1..], a, b, t);
      assert q[0] in a ==> M.Only(q, a)[1..] == M.Only(q[1..], a);
    }
  }

  ghost function Unready(q: seq<Thread>, ready: map<Thread, nat>): set<Thread> {
    set t | t in q && t !in ready
  }

  lemma DispatchNone(s: M.Vp, ready: map<Thread, nat>)
    ensures M.Dispatch(s, Upto(ready, s.ioQ[..0])) == s
  {
    hide M.Only;
    var none := Upto(ready, s.ioQ[..0]);
    assert none == map[];
    OnlyNone(s.ioQ, none.Keys);
    OnlyAll(s.ioQ, Unready(s.ioQ, none));
    var d := M.Dispatch(s, none);
    assert d.threads == s.threads && d.runQ == s.runQ && d.sleepers == s.sleepers;
  }

  lemma DispatchAll(s: M.Vp, ready: map<Thread, nat>)
    requires forall t | t in ready :: t in s.ioQ
    ensures Upto(ready, s.ioQ[..|s.ioQ|]) == ready
  {
    assert s.ioQ[..|s.ioQ|] == s.ioQ;
  }

  lemma UptoMore(ready: map<Thread, nat>, q: seq<Thread>, i: nat)
    requires i < |q|
    ensures Upto(ready, q[..i + 1]) == if q[i] in ready then Upto(ready, q[..i])[q[i] := ready[q[i]]]
            else Upto(ready, q[..i])
  {
    assert q[..i + 1] == q[..i] + [q[i]];
  }

  lemma DispatchStep(s: M.Vp, ready: map<Thread, nat>, i: nat)
    requires I.Members(s.ioQ, s) && i < |s.ioQ| && forall t | t in ready :: t in s.ioQ && s.threads[t].at.InPoll?
    ensures var t, d := s.ioQ[i], M.Dispatch(s, Upto(ready, s.ioQ[..i]));
            && d.threads.Keys == s.threads.Keys && t in d.threads && d.threads[t] == s.threads[t]
            && M.Dispatch(s, Upto(ready, s.ioQ[..i + 1])) == if t in ready then WithFired(d, t, ready[t]) else d
  {
    var t := s.ioQ[i];
    UptoMore(ready, s.ioQ, i);
    assert t in s.ioQ && t !in s.ioQ[..i];
    var r0 := Upto(ready, s.ioQ[..i]);
    assert t !in r0;
    DispatchParts(s, r0);
    NotFired(s, r0, t);
    if t in ready {
      FiredOne(s, r0, i, ready[t]);
    }
  }

  lemma DispatchParts(s: M.Vp, ready: map<Thread, nat>)
    ensures var d := M.Dispatch(s, ready);
            && d == s.(threads := d.threads, ioQ := d.ioQ, runQ := d.runQ, sleepers := d.sleepers)
            && d.ioQ == M.Only(s.ioQ, Unready(s.ioQ, ready)) && d.runQ == s.runQ + M.Only(s.ioQ, ready.Keys)
            && d.sleepers == s.sleepers - ready.Keys && d.threads.Keys == s.threads.Keys
  {
    T.OnlySame(s.ioQ, Unready(s.ioQ, ready), set t | t in s.ioQ && t !in ready);
  }

  lemma FiredOne(s: M.Vp, r0: map<Thread, nat>, i: nat, n: nat)
    requires I.Members(s.ioQ, s) && i < |s.ioQ| && (forall t | t in r0 :: t in s.ioQ[..i])
    requires s.ioQ[i] in s.threads && s.threads[s.ioQ[i]].at.InPoll? && s.ioQ[i] !in r0
    ensures var t, d := s.ioQ[i], M.Dispatch(s, r0);
            t in d.threads && d.threads[t] == s.threads[t] && M.Dispatch(s, r0[t := n]) == WithFired(d, t, n)
  {
    var t := s.ioQ[i];
    FiredThreads(s, r0, t, n);
    FiredParts(s, r0, i, n);
    DispatchParts(s, r0);
    DispatchParts(s, r0[t := n]);
  }

  lemma FiredParts(s: M.Vp, r0: map<Thread, nat>, i: nat, n: nat)
    requires I.Members(s.ioQ, s) && i < |s.ioQ| && (forall t | t in r0 :: t in s.ioQ[..i])
    ensures var t, d := s.ioQ[i], M.Dispatch(s, r0);
            var d' := M.Dispatch(s, r0[t := n]);
            d'.sleepers == d.sleepers - {t} && d'.runQ == d.runQ + [t] && d'.ioQ == M.Without(d.ioQ, t)
  {
    FiredSums(s.ioQ, s.runQ, s.sleepers, r0, i, n);
    DispatchParts(s, r0);
    DispatchParts(s, r0[s.ioQ[i] := n]);
  }

  lemma FiredSums(q: seq<Thread>, runQ: seq<Thread>, sleepers: set<Thread>, r0: map<Thread, nat>, i: nat, n: nat)
    requires M.NoDup(q) && i < |q| && (forall t | t in r0 :: t in q[..i])
    ensures var t, r1 := q[i], r0[q[i] := n];
            && sleepers - r1.Keys == (sleepers - r0.Keys) - {t}
            && runQ + M.Only(q, r1.Keys) == (runQ + M.Only(q, r0.Keys)) + [t]
            && M.Only(q, Unready(q, r1)) == M.Without(M.Only(q, Unready(q, r0)), t)
  {
    hide M.Only, M.Without, Unready, M.NoDup;
    FiredQueues(q, i, r0, r0[q[i] := n]);
    Associates(runQ, M.Only(q, r0.Keys), [q[i]]);
    LessTwice(sleepers, r0.Keys, q[i]);
  }

  lemma LessTwice<X>(a: set<X>, b: set<X>, x: X)
    ensures a - (b + {x}) == (a - b) - {x}
  {
  }

  lemma NotFired(s: M.Vp, r0: map<Thread, nat>, t: Thread)
    requires t in s.threads && t !in r0
    ensures t in M.Dispatch(s, r0).threads && M.Dispatch(s, r0).threads[t] == s.threads[t]
  {
  }

  lemma FiredThreads(s: M.Vp, r0: map<Thread, nat>, t: Thread, n: nat)
    requires t in s.threads && s.threads[t].at.InPoll? && t !in r0
    ensures var d, d' := M.Dispatch(s, r0), M.Dispatch(s, r0[t := n]);
            t in d.threads && d.threads[t] == s.threads[t] && d'.threads == d.threads[t := FiredRec(s.threads[t], n)]
  {
    forall x | x in s.threads
      ensures M.Dispatch(s, r0).threads[x] == DispatchedRec(s, r0, x)
      ensures M.Dispatch(s, r0[t := n]).threads[x] == DispatchedRec(s, r0[t := n], x)
    {
      DispatchedIs(s, r0, x);
      DispatchedIs(s, r0[t := n], x);
    }
  }

  /** The record of one thread after a dispatch. */
  ghost function DispatchedRec(s: M.Vp, ready: map<Thread, nat>, t: Thread): M.Rec
    requires t in s.threads
  {
    var r := s.threads[t];
    if t !in ready then r
    else if r.at.InPoll? then FiredRec(r, ready[t])
    else r.(state := Runnable, onSleepQ := false, cause := M.IoReady)
  }

  lemma DispatchedIs(s: M.Vp, ready: map<Thread, nat>, t: Thread)
    requires t in s.threads
    ensures t in M.Dispatch(s, ready).threads && M.Dispatch(s, ready).threads[t] == DispatchedRec(s, ready, t)
  {
  }

  /**
   Of two parts and a thread between them, the first part decides what is ready before, and the
   thread is ready after.
   */
  lemma FiredRun(a: seq<Thread>, t: Thread, b: seq<Thread>, k0: set<Thread>, k1: set<Thread>)
    requires (forall x | x in a :: x in k0 <==> x in k1) && (forall x | x in [t] + b :: x !in k0)
    requires t in k1 && forall x | x in b :: x !in k1
    ensures M.Only(a + ([t] + b), k1) == M.Only(a + ([t] + b), k0) + [t]
  {
    OnlySplit(a, [t] + b, k0);
    OnlySplit(a, [t] + b, k1);
    T.OnlySame(a, k0, k1);
    OnlyNone([t] + b, k0);
    OnlyNone(b, k1);
    assert ([t] + b)[1..] == b;
  }

  lemma UnreadyLess(q: seq<Thread>, t: Thread, r0: map<Thread, nat>, r1: map<Thread, nat>)
    requires r1.Keys == r0.Keys + {t}
    ensures M.Only(q, Unready(q, r1)) == M.Without(M.Only(q, Unready(q, r0)), t)
  {
    OnlyWithout(q, Unready(q, r0), Unready(q, r1), t);
  }

  lemma FiredQueues(q: seq<Thread>, i: nat, r0: map<Thread, nat>, r1: map<Thread, nat>)
    requires M.NoDup(q) && i < |q| && r1.Keys == r0.Keys + {q[i]} && forall t | t in r0 :: t in q[..i]
    ensures M.Only(q, r1.Keys) == M.Only(q, r0.Keys) + [q[i]]
    ensures M.Only(q, Unready(q, r1)) == M.Without(M.Only(q, Unready(q, r0)), q[i])
  {
    UnreadyLess(q, q[i], r0, r1);
    AfterFired(q, i, r0, r1);
    FiredRun(q[..i], q[i], q[i + 1..], r0.Keys, r1.Keys);
    SplitAt(q, i);
  }

  lemma SplitAt(q: seq<Thread>, i: nat)
    requires i < |q|
    ensures q == q[..i] + ([q[i]] + q[i + 1..])
  {
  }

  lemma AfterFired(q: seq<Thread>, i: nat, r0: map<Thread, nat>, r1: map<Thread, nat>)
    requires M.NoDup(q) && i < |q| && r1.Keys == r0.Keys + {q[i]} && forall t | t in r0 :: t in q[..i]
    ensures forall t | t in q[..i] :: t in r0.Keys <==> t in r1.Keys
    ensures forall t | t in q[i + 1..] :: t !in r1.Keys
    ensures forall t | t in [q[i]] + q[i + 1..] :: t !in r0.Keys
  {
  }

  // ---------- exiting ----------

  lemma ExitIs(s: M.Vp, me: Thread, retval: int)
    requires s.current == me && me in s.threads && var c := s.threads[me].term; c != null ==> c in s.conds
    requires forall c, t | c in s.conds && t in s.conds[c] :: t in s.threads
    ensures var s1, c := M.Retire(s, me, retval), s.threads[me].term;
            && s1.threads[me].term == c && s1.current == me
            && M.Exit(s, retval) == if c == null then M.Bury(s1, me) else M.Signal(M.Zombify(s1, me), c)
  {
  }

  // ---------- when the methods apply ----------

  /** In every state of a run the preconditions that the scheduler's methods share hold. */
  lemma MethodsApply(states: seq<M.Vp>, ops: seq<I.Op>, i: nat)
    requires R.IsRun(states, ops) && i < |states|
    ensures var s := states[i];
            && (s.current != null ==> s.current in s.threads && !s.threads[s.current].onSleepQ)
            && (s.current == null ==>
                  var t := M.Next(s);
                  t in s.threads && M.PointKnown(s, s.threads[t].at) && !s.threads[t].onSleepQ)
            && I.Members(s.ioQ, s) && (forall c | c in s.conds :: I.Members(s.conds[c], s))
            && (forall m | m in s.owners :: m in s.lockQ && I.Members(s.lockQ[m], s))
            && (forall t | t in s.threads && s.threads[t].term != null :: s.threads[t].term in s.conds)
  {
    R.RunInv(states, ops, i);
    ValueReady(states[i]);
  }

  lemma ValueReady(s: M.Vp)
    requires I.Inv(s)
    ensures s.current != null ==> s.current in s.threads && !s.threads[s.current].onSleepQ
    ensures s.current == null ==>
              var t := M.Next(s); t in s.threads && M.PointKnown(s, s.threads[t].at) && !s.threads[t].onSleepQ
  {
    if s.current == null {
      S.NextRunnable(s);
    } else {
      assert I.ThreadOk(s, s.current);
    }
  }
}
