/**
 Polls on the I/O queue: what they ask for, how often each kind of each descriptor is asked
 for, and what a dispatch answers.
 */
module Polls {

  datatype Bit = In | Out | Pri | Err | Hup | Nval | Other

  /** The part of a pollfd that the caller fills in. */
  datatype Pollfd = Pollfd(fd: int, events: set<Bit>)

  const KINDS: nat := 3

  /** The event bit that the `k`-th count and set are about. */
  function KindBit(k: nat): Bit
    requires k < KINDS
  {
    if k == 0 then In else if k == 1 then Out else Pri
  }

  /** A poll on the I/O queue. */
  class PollQ {
    const pds: seq<Pollfd>
    var revents: seq<set<Bit>>
    var onIoq: bool

    constructor (pds: seq<Pollfd>)
      ensures this.pds == pds && onIoq && revents == seq(|pds|, _ => {})
    {
      this.pds := pds;
      onIoq := true;
      revents := seq(|pds|, _ => {});
    }
  }

  predicate Acceptable(pd: Pollfd) {
    0 <= pd.fd && pd.events != {} && pd.events <= {In, Out, Pri}
  }

  /** The checks made before any count changes; `limit` is one above the largest descriptor allowed. */
  predicate AllAcceptable(pds: seq<Pollfd>, limit: int) {
    forall pd | pd in pds :: Acceptable(pd) && pd.fd < limit
  }

  // ---------- what the queue asks for ----------

  /** How many of `pds` ask for kind `k` on `fd`. */
  ghost function Uses(pds: seq<Pollfd>, fd: int, k: nat): nat
    requires k < KINDS
  {
    if pds == [] then 0 else Uses(pds[..|pds| - 1], fd, k) + Use(pds[|pds| - 1], fd, k)
  }

  ghost function Use(pd: Pollfd, fd: int, k: nat): nat
    requires k < KINDS
  {
    if pd.fd == fd && KindBit(k) in pd.events then 1 else 0
  }

  ghost function Total(queue: seq<PollQ>, fd: int, k: nat): nat
    requires k < KINDS
  {
    if queue == [] then 0 else Uses(queue[0].pds, fd, k) + Total(queue[1..], fd, k)
  }

  /** The uses of the polls of `queue` from the `i`-th on. */
  ghost function TotalFrom(queue: seq<PollQ>, i: nat, fd: int, k: nat): nat
    requires k < KINDS && i <= |queue|
    decreases |queue| - i
  {
    if i == |queue| then 0 else Uses(queue[i].pds, fd, k) + TotalFrom(queue, i + 1, fd, k)
  }

  lemma {:induction false} TotalFromTail(queue: seq<PollQ>, i: nat, fd: int, k: nat)
    requires k < KINDS && i <= |queue|
    ensures TotalFrom(queue, i, fd, k) == Total(queue[i..], fd, k)
    decreases |queue| - i
  {
    if i < |queue| {
      TotalFromTail(queue, i + 1, fd, k);
      assert queue[i..][1..] == queue[i + 1..];
    }
  }

  ghost predicate Bounds(pds: seq<Pollfd>, maxfd: int) {
    forall pd | pd in pds :: pd.fd <= maxfd
  }

  lemma {:induction false} TotalSplit(a: seq<PollQ>, b: seq<PollQ>, fd: int, k: nat)
    requires k < KINDS
    ensures Total(a + b, fd, k) == Total(a, fd, k) + Total(b, fd, k)
  {
    if a == [] {
      assert a + b == b;
    } else {
      TotalSplit(a[1..], b, fd, k);
      assert (a + b)[1..] == a[1..] + b;
    }
  }

  lemma WithoutOne(queue: seq<PollQ>, i: nat, fd: int, k: nat)
    requires k < KINDS && i < |queue|
    ensures Total(queue, fd, k) == Total(queue[..i] + queue[i + 1..], fd, k) + Uses(queue[i].pds, fd, k)
  {
    TotalSplit(queue[..i], queue[i..], fd, k);
    TotalSplit(queue[..i], queue[i + 1..], fd, k);
    assert queue == queue[..i] + queue[i..] && queue[i..][1..] == queue[i + 1..];
  }

  lemma {:induction false} UsesPrefix(pds: seq<Pollfd>, n: nat, fd: int, k: nat)
    requires k < KINDS && n <= |pds|
    ensures Uses(pds[..n], fd, k) <= Uses(pds, fd, k)
    decreases |pds|
  {
    if n < |pds| {
      UsesPrefix(pds[..|pds| - 1], n, fd, k);
      assert pds[..|pds| - 1][..n] == pds[..n];
    } else {
      assert pds[..n] == pds;
    }
  }

  lemma {:induction false} UsesPositive(pds: seq<Pollfd>, fd: int, k: nat)
    requires k < KINDS
    ensures Uses(pds, fd, k) > 0 <==> exists pd :: pd in pds && pd.fd == fd && KindBit(k) in pd.events
  {
    if pds != [] {
      var n := |pds| - 1;
      UsesPositive(pds[..n], fd, k);
      assert pds == pds[..n] + [pds[n]];
    }
  }

  lemma {:induction false} TotalPositive(queue: seq<PollQ>, fd: int, k: nat)
    requires k < KINDS
    ensures Total(queue, fd, k) > 0 <==> exists i :: 0 <= i < |queue| && Uses(queue[i].pds, fd, k) > 0
  {
    if queue != [] {
      TotalPositive(queue[1..], fd, k);
      if Uses(queue[0].pds, fd, k) == 0 && Total(queue, fd, k) > 0 {
        var i :| 0 <= i < |queue[1..]| && Uses(queue[1..][i].pds, fd, k) > 0;
        assert queue[i + 1] == queue[1..][i];
      }
      if i :| 0 <= i < |queue| && Uses(queue[i].pds, fd, k) > 0 {
        if i > 0 { assert queue[1..][i - 1] == queue[i]; }
      }
    }
  }

  /** Some entry of `pds` asks for `bit` on `fd`. */
  ghost predicate AsksFor(pds: seq<Pollfd>, fd: int, bit: Bit) {
    exists pd :: pd in pds && pd.fd == fd && bit in pd.events
  }

  /** Some poll of the queue asks for `bit` on `fd`. */
  ghost predicate Asked(queue: seq<PollQ>, fd: int, bit: Bit) {
    exists i :: 0 <= i < |queue| && AsksFor(queue[i].pds, fd, bit)
  }

  lemma AskedIffUsed(queue: seq<PollQ>, fd: int, k: nat)
    requires k < KINDS
    ensures Asked(queue, fd, KindBit(k)) <==> Total(queue, fd, k) > 0
  {
    TotalPositive(queue, fd, k);
    forall i | 0 <= i < |queue| ensures AsksFor(queue[i].pds, fd, KindBit(k)) <==> Uses(queue[i].pds, fd, k) > 0 {
      UsesPositive(queue[i].pds, fd, k);
    }
  }

  ghost predicate Names(pds: seq<Pollfd>, fd: int) {
    exists pd :: pd in pds && pd.fd == fd
  }

  /** `maxfd` is the largest descriptor of the polls in `queue`, or -1. */
  ghost predicate MaxExact(queue: seq<PollQ>, maxfd: int) {
    && (forall q | q in queue :: Bounds(q.pds, maxfd))
    && (maxfd == -1 || exists i :: 0 <= i < |queue| && Names(queue[i].pds, maxfd))
  }

  lemma KeepMax(queue: seq<PollQ>, q: PollQ, before: int, after: int)
    requires MaxExact(queue, before) && before <= after && Bounds(q.pds, after)
    requires (after == before || Names(q.pds, after))
    ensures MaxExact(queue + [q], after)
  {
    var all := queue + [q];
    if after == before && before != -1 {
      var i :| 0 <= i < |queue| && Names(queue[i].pds, before);
      assert all[i] == queue[i];
    } else if after != before {
      assert all[|queue|] == q;
    }
  }

  lemma StartSweep(queue: seq<PollQ>)
    ensures forall f, j | 0 <= j < KINDS :: Total(queue, f, j) == TotalFrom(queue, 0, f, j)
  {
    forall f, j | 0 <= j < KINDS ensures Total(queue, f, j) == TotalFrom(queue, 0, f, j) {
      TotalFromTail(queue, 0, f, j);
      assert queue[0..] == queue;
    }
  }

  lemma KeepOne(kept: seq<PollQ>, q: PollQ)
    ensures forall f, j | 0 <= j < KINDS :: Total(kept + [q], f, j) == Total(kept, f, j) + Uses(q.pds, f, j)
  {
    forall f, j | 0 <= j < KINDS ensures Total(kept + [q], f, j) == Total(kept, f, j) + Uses(q.pds, f, j) {
      TotalSplit(kept, [q], f, j);
      assert [q][1..] == [];
    }
  }

  /** Some queued poll names `fd` exactly when some count of `fd` is positive. */
  lemma NamedIffUsed(queue: seq<PollQ>, fd: int)
    requires forall q | q in queue :: (forall pd | pd in q.pds :: Acceptable(pd))
    ensures (exists i :: 0 <= i < |queue| && Names(queue[i].pds, fd)) <==>
            (Total(queue, fd, 0) > 0 || Total(queue, fd, 1) > 0 || Total(queue, fd, 2) > 0)
  {
    if i :| 0 <= i < |queue| && Names(queue[i].pds, fd) {
      var pd :| pd in queue[i].pds && pd.fd == fd;
      assert Acceptable(pd);
      var k := if In in pd.events then 0 else if Out in pd.events then 1 else 2;
      assert KindBit(k) in pd.events;
      UsesPositive(queue[i].pds, fd, k);
      TotalPositive(queue, fd, k);
    }
    if Total(queue, fd, 0) > 0 || Total(queue, fd, 1) > 0 || Total(queue, fd, 2) > 0 {
      var k := if Total(queue, fd, 0) > 0 then 0 else if Total(queue, fd, 1) > 0 then 1 else 2;
      TotalPositive(queue, fd, k);
      var i :| 0 <= i < |queue| && Uses(queue[i].pds, fd, k) > 0;
      UsesPositive(queue[i].pds, fd, k);
    }
  }

  // ---------- what a sweep of the queue answers ----------

  /** What decides the answers: the sets of select, which descriptors are bad, or the events of epoll. */
  datatype Verdict = Selected(ready: seq<set<int>>) | Probed(bad: set<int>) | Polled(fired: map<int, set<Bit>>)

  predicate VerdictOk(v: Verdict) {
    v.Selected? ==> |v.ready| == KINDS
  }

  function Answer(v: Verdict, pd: Pollfd): set<Bit>
    requires VerdictOk(v)
  {
    match v
    case Selected(ready) =>
      (if In in pd.events && pd.fd in ready[0] then {In} else {})
      + (if Out in pd.events && pd.fd in ready[1] then {Out} else {})
      + (if Pri in pd.events && pd.fd in ready[2] then {Pri} else {})
    case Probed(bad) => if pd.events != {} && pd.fd in bad then {Nval} else {}
    case Polled(fired) => if pd.fd in fired then fired[pd.fd] * (pd.events * {In, Out, Pri} + {Err, Hup}) else {}
  }

  ghost predicate Fires(v: Verdict, pds: seq<Pollfd>)
    requires VerdictOk(v)
  {
    exists pd :: pd in pds && Answer(v, pd) != {}
  }

  /** The polls among the first `n` of `queue` that fire, or those that do not, in queue order. */
  ghost function Chosen(v: Verdict, queue: seq<PollQ>, n: nat, firing: bool): seq<PollQ>
    requires VerdictOk(v) && n <= |queue|
  {
    if n == 0 then []
    else Chosen(v, queue, n - 1, firing) + if Fires(v, queue[n - 1].pds) == firing then [queue[n - 1]] else []
  }

  lemma {:induction false} ChosenFrom(v: Verdict, queue: seq<PollQ>, n: nat, firing: bool)
    requires VerdictOk(v) && n <= |queue| && forall i, j | 0 <= i < j < |queue| :: queue[i] != queue[j]
    ensures var r := Chosen(v, queue, n, firing);
            && (forall q | q in r :: q in queue[..n] && Fires(v, q.pds) == firing)
            && (forall q | q in queue[..n] && Fires(v, q.pds) == firing :: q in r)
            && forall i, j | 0 <= i < j < |r| :: r[i] != r[j]
  {
    if n > 0 {
      ChosenFrom(v, queue, n - 1, firing);
      assert queue[..n] == queue[..n - 1] + [queue[n - 1]];
      assert queue[n - 1] !in queue[..n - 1];
    }
  }

  /** The polls that stay are distinct members of the queue that do not fire. */
  lemma StaysFrom(v: Verdict, queue: seq<PollQ>)
    requires VerdictOk(v) && forall i, j | 0 <= i < j < |queue| :: queue[i] != queue[j]
    ensures var r := Chosen(v, queue, |queue|, false);
            && (forall q | q in r :: q in queue && !Fires(v, q.pds))
            && forall i, j | 0 <= i < j < |r| :: r[i] != r[j]
  {
    ChosenFrom(v, queue, |queue|, false);
  }

  /** `part` is `queue` with some members left out. */
  ghost predicate InOrderOf(part: seq<PollQ>, queue: seq<PollQ>)
    decreases |queue|
  {
    var n, m := |part| - 1, |queue| - 1;
    part == [] || (queue != [] && InOrderOf(if part[n] == queue[m] then part[..n] else part, queue[..m]))
  }

  lemma {:induction false} ChosenInOrder(v: Verdict, queue: seq<PollQ>, n: nat, firing: bool)
    requires VerdictOk(v) && n <= |queue| && forall i, j | 0 <= i < j < |queue| :: queue[i] != queue[j]
    ensures InOrderOf(Chosen(v, queue, n, firing), queue[..n])
  {
    hide *;
    ChosenIs(v, queue, n, firing);
    if n > 0 {
      ChosenInOrder(v, queue, n - 1, firing);
      LastIsNew(v, queue, n, firing);
      InOrderMore(Chosen(v, queue, n - 1, firing), queue[..n - 1], queue[n - 1]);
      assert queue[..n] == queue[..n - 1] + [queue[n - 1]];
    } else {
      NoneInOrder(queue[..0]);
    }
  }

  lemma ChosenIs(v: Verdict, queue: seq<PollQ>, n: nat, firing: bool)
    requires VerdictOk(v) && n <= |queue|
    ensures var r := Chosen(v, queue, n, firing);
            if n == 0 then r == []
            else
              var before := Chosen(v, queue, n - 1, firing); r == before || r == before + [queue[n - 1]]
  {
    hide Fires;
    assert n > 0 ==> Chosen(v, queue, n - 1, firing) + [] == Chosen(v, queue, n - 1, firing);
  }

  lemma LastIsNew(v: Verdict, queue: seq<PollQ>, n: nat, firing: bool)
    requires VerdictOk(v) && 0 < n <= |queue| && forall i, j | 0 <= i < j < |queue| :: queue[i] != queue[j]
    ensures queue[n - 1] !in Chosen(v, queue, n - 1, firing)
  {
    hide Fires, Chosen;
    ChosenFrom(v, queue, n - 1, firing);
    assert queue[n - 1] !in queue[..n - 1];
  }

  lemma NoneInOrder(queue: seq<PollQ>)
    ensures InOrderOf([], queue)
  {
  }

  lemma InOrderMore(part: seq<PollQ>, queue: seq<PollQ>, q: PollQ)
    requires InOrderOf(part, queue) && q !in part
    ensures InOrderOf(part, queue + [q]) && InOrderOf(part + [q], queue + [q])
  {
    assert (queue + [q])[..|queue|] == queue && (part + [q])[..|part|] == part;
  }

  // ---------- the polls during a sweep ----------

  ghost predicate Queued(q: PollQ, limit: int)
    reads q
  {
    AllAcceptable(q.pds, limit) && q.onIoq && |q.revents| == |q.pds|
  }

  /** The poll has its answers, and is off the queue if it fires. */
  ghost predicate Answered(q: PollQ, v: Verdict)
    requires VerdictOk(v)
    reads q
  {
    && |q.revents| == |q.pds| && (forall i | 0 <= i < |q.pds| :: q.revents[i] == Answer(v, q.pds[i]))
    && (q.onIoq <==> !Fires(v, q.pds))
  }

  /** A sweep has come to the `i`-th poll. */
  ghost predicate SweptPolls(v: Verdict, queue: seq<PollQ>, i: nat, limit: int)
    requires VerdictOk(v) && i <= |queue|
    reads queue
  {
    && (forall n | 0 <= n < i :: Answered(queue[n], v))
    && (forall n | i <= n < |queue| :: Queued(queue[n], limit))
  }

  /** Those that stay, and those that fired. */
  ghost predicate SweptLists(v: Verdict, queue: seq<PollQ>, i: nat, kept: seq<PollQ>, woken: seq<PollQ>)
    requires VerdictOk(v) && i <= |queue|
  {
    kept == Chosen(v, queue, i, false) && woken == Chosen(v, queue, i, true)
  }

  // ---------- what the answers are ----------

  /** Some entry of the poll has a nonempty answer. */
  ghost predicate Notified(q: PollQ)
    reads q
  {
    exists i :: 0 <= i < |q.revents| && q.revents[i] != {}
  }

  /** An entry is answered with just the kinds that it asks for and that the set of the kind has its descriptor for. */
  ghost predicate BySets(pd: Pollfd, revents: set<Bit>, readable: set<int>, writable: set<int>, urgent: set<int>) {
    && revents <= {In, Out, Pri}
    && (In in revents <==> In in pd.events && pd.fd in readable)
    && (Out in revents <==> Out in pd.events && pd.fd in writable)
    && (Pri in revents <==> Pri in pd.events && pd.fd in urgent)
  }

  ghost predicate AnsweredBySets(q: PollQ, ready: seq<set<int>>)
    requires |ready| == KINDS
    reads q
  {
    |q.revents| == |q.pds| &&
    forall i | 0 <= i < |q.pds| :: BySets(q.pds[i], q.revents[i], ready[0], ready[1], ready[2])
  }

  /** The entries with a bad descriptor are answered with POLLNVAL, the others with nothing. */
  ghost predicate AnsweredBad(q: PollQ, bad: set<int>)
    reads q
  {
    |q.revents| == |q.pds| &&
    forall i | 0 <= i < |q.pds| :: q.revents[i] == if q.pds[i].fd in bad then {Nval} else {}
  }

  /**
   An entry is answered with the kinds that it asks for and that are reported, or all that it
   asks for when an error or hang-up is; these two are always answered.
   */
  ghost predicate ByEvents(pd: Pollfd, revents: set<Bit>, on: set<Bit>) {
    && revents <= {In, Out, Pri, Err, Hup}
    && (In in revents <==> In in pd.events && (In in on || Err in on || Hup in on))
    && (Out in revents <==> Out in pd.events && (Out in on || Err in on || Hup in on))
    && (Pri in revents <==> Pri in pd.events && (Pri in on || Err in on || Hup in on))
    && (Err in revents <==> Err in on) && (Hup in revents <==> Hup in on)
  }

  ghost predicate AnsweredByEvents(q: PollQ, reported: map<int, set<Bit>>)
    reads q
  {
    |q.revents| == |q.pds| &&
    forall i | 0 <= i < |q.pds| ::
      ByEvents(q.pds[i], q.revents[i], if q.pds[i].fd in reported then reported[q.pds[i].fd] else {})
  }

  /** The queue falls into the polls with a nonempty answer, which are off it, and the others, each in its order. */
  ghost predicate Parted(queue: seq<PollQ>, woken: seq<PollQ>, kept: seq<PollQ>)
    reads queue
  {
    && (forall q | q in queue ::
         if Notified(q) then q in woken && q !in kept && !q.onIoq else q !in woken && q in kept && q.onIoq)
    && InOrderOf(woken, queue) && InOrderOf(kept, queue)
  }

  lemma SetsAnswer(pd: Pollfd, ready: seq<set<int>>)
    requires |ready| == KINDS
    ensures BySets(pd, Answer(Selected(ready), pd), ready[0], ready[1], ready[2])
  {
  }

  lemma SetsAnswered(q: PollQ, ready: seq<set<int>>)
    requires |ready| == KINDS && |q.revents| == |q.pds|
    requires forall i | 0 <= i < |q.pds| :: q.revents[i] == Answer(Selected(ready), q.pds[i])
    ensures AnsweredBySets(q, ready)
  {
    hide Answer, BySets;
    forall i | 0 <= i < |q.pds| ensures BySets(q.pds[i], q.revents[i], ready[0], ready[1], ready[2]) {
      SetsAnswer(q.pds[i], ready);
    }
  }

  lemma BadAnswered(q: PollQ, bad: set<int>)
    requires |q.revents| == |q.pds| && forall i | 0 <= i < |q.pds| :: q.revents[i] == Answer(Probed(bad), q.pds[i])
    requires forall pd | pd in q.pds :: Acceptable(pd)
    ensures AnsweredBad(q, bad)
  {
    forall i | 0 <= i < |q.pds| ensures q.revents[i] == if q.pds[i].fd in bad then {Nval} else {} {
      assert q.pds[i] in q.pds && Acceptable(q.pds[i]);
    }
  }

  lemma FiresIffNotified(q: PollQ, v: Verdict)
    requires VerdictOk(v) && Answered(q, v)
    ensures Notified(q) <==> Fires(v, q.pds)
  {
    hide Answer;
    if i :| 0 <= i < |q.revents| && q.revents[i] != {} {
      assert q.pds[i] in q.pds && Answer(v, q.pds[i]) != {};
    }
    if pd :| pd in q.pds && Answer(v, pd) != {} {
      var i :| 0 <= i < |q.pds| && q.pds[i] == pd;
      assert q.revents[i] != {};
    }
  }

  lemma SweepParts(v: Verdict, queue: seq<PollQ>)
    requires VerdictOk(v) && forall i, j | 0 <= i < j < |queue| :: queue[i] != queue[j]
    requires forall q | q in queue :: Answered(q, v)
    ensures Parted(queue, Chosen(v, queue, |queue|, true), Chosen(v, queue, |queue|, false))
  {
    hide Answer, Fires, Chosen, InOrderOf, Notified;
    assert queue[..|queue|] == queue;
    ChosenInOrder(v, queue, |queue|, true);
    ChosenInOrder(v, queue, |queue|, false);
    ChosenFrom(v, queue, |queue|, true);
    ChosenFrom(v, queue, |queue|, false);
    forall q | q in queue ensures Notified(q) <==> Fires(v, q.pds) {
      FiresIffNotified(q, v);
    }
  }
}
