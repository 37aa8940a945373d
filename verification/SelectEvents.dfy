/**
 The select event system: reference counts per descriptor and kind, the three descriptor
 sets and their upper bound, kept in step with the polls on the I/O queue.
 */
module SelectEvents {
  import opened Polls

  const FD_SETSIZE: nat := 1024

  // ---------- the event system ----------

  class SelectData {
    const refs: array2<int>         // fd_ref_cnts
    var sets: seq<set<int>>         // the read, write and exception sets
    var maxfd: int
    var ioQ: seq<PollQ>

    constructor ()
      ensures Valid() && fresh(refs) && ioQ == []
    {
      refs := new int[FD_SETSIZE, KINDS]((_, _) => 0);
      sets := seq(KINDS, _ => {});
      maxfd := -1;
      ioQ := [];
    }

    ghost predicate Shape()
      reads this
    {
      refs.Length0 == FD_SETSIZE && refs.Length1 == KINDS && |sets| == KINDS && -1 <= maxfd
    }

    /** The counts are those of the polls in `queue`. */
    ghost predicate Tallied(queue: seq<PollQ>)
      requires Shape()
      reads this, refs
    {
      && (forall fd, k | 0 <= fd < FD_SETSIZE && 0 <= k < KINDS :: refs[fd, k] == Total(queue, fd, k))
    }

    ghost predicate BitsMatch()
      requires Shape()
      reads this, refs
    {
      forall k, fd | 0 <= k < KINDS :: fd in sets[k] <==> 0 <= fd < FD_SETSIZE && refs[fd, k] > 0
    }

    ghost predicate Valid()
      reads this, refs, ioQ
    {
      && Shape() && Tallied(ioQ) && BitsMatch()
      && (forall q | q in ioQ :: Queued(q, FD_SETSIZE) && Bounds(q.pds, maxfd))
      && (forall i, j | 0 <= i < j < |ioQ| :: ioQ[i] != ioQ[j])
    }

    /** The sets given to select are what the queued polls ask for. */
    lemma SetsAsked(fd: int)
      requires Valid()
      ensures fd in sets[0] <==> Asked(ioQ, fd, In)
      ensures fd in sets[1] <==> Asked(ioQ, fd, Out)
      ensures fd in sets[2] <==> Asked(ioQ, fd, Pri)
      ensures (exists k | 0 <= k < KINDS :: fd in sets[k]) ==> 0 <= fd <= maxfd
    {
      SetAsked(fd, 0);
      SetAsked(fd, 1);
      SetAsked(fd, 2);
    }

    lemma SetAsked(fd: int, k: nat)
      requires Valid() && k < KINDS
      ensures fd in sets[k] <==> Asked(ioQ, fd, KindBit(k))
      ensures fd in sets[k] ==> 0 <= fd <= maxfd
    {
      hide KindBit;
      AskedIffUsed(ioQ, fd, k);
      if Asked(ioQ, fd, KindBit(k)) {
        var i :| 0 <= i < |ioQ| && AsksFor(ioQ[i].pds, fd, KindBit(k));
        var pd :| pd in ioQ[i].pds && pd.fd == fd && KindBit(k) in pd.events;
        assert ioQ[i] in ioQ && Queued(ioQ[i], FD_SETSIZE) && Bounds(ioQ[i].pds, maxfd);
        assert Acceptable(pd) && pd.fd < FD_SETSIZE;
      }
    }

    /** One more use of a kind of a descriptor. */
    method Ref(fd: int, k: nat)
      requires Shape() && 0 <= fd < FD_SETSIZE && k < KINDS && BitsMatch() && refs[fd, k] >= 0
      modifies refs, `sets
      ensures Shape() && BitsMatch() && refs[fd, k] == old(refs[fd, k]) + 1
      ensures forall f, j | 0 <= f < FD_SETSIZE && 0 <= j < KINDS && (f != fd || j != k) ::
              refs[f, j] == old(refs[f, j])
    {
      sets := sets[k := sets[k] + {fd}];
      refs[fd, k] := refs[fd, k] + 1;
    }

    /** One use less. */
    method Unref(fd: int, k: nat)
      requires Shape() && 0 <= fd < FD_SETSIZE && k < KINDS && BitsMatch() && refs[fd, k] > 0
      modifies refs, `sets
      ensures Shape() && BitsMatch() && refs[fd, k] == old(refs[fd, k]) - 1
      ensures forall f, j | 0 <= f < FD_SETSIZE && 0 <= j < KINDS && (f != fd || j != k) ::
              refs[f, j] == old(refs[f, j])
    {
      refs[fd, k] := refs[fd, k] - 1;
      if refs[fd, k] == 0 {
        sets := sets[k := sets[k] - {fd}];
      }
    }

    method AddOne(pd: Pollfd)
      requires Shape() && BitsMatch() && Acceptable(pd) && pd.fd < FD_SETSIZE
      requires forall f, j | 0 <= f < FD_SETSIZE && 0 <= j < KINDS :: refs[f, j] >= 0
      modifies refs, `sets, `maxfd
      ensures Shape() && BitsMatch() && maxfd == if old(maxfd) < pd.fd then pd.fd else old(maxfd)
      ensures forall f, j | 0 <= f < FD_SETSIZE && 0 <= j < KINDS :: refs[f, j] == old(refs[f, j]) + Use(pd, f, j)
    {
      if In in pd.events {
        Ref(pd.fd, 0);
      }
      if Out in pd.events {
        Ref(pd.fd, 1);
      }
      if Pri in pd.events {
        Ref(pd.fd, 2);
      }
      if maxfd < pd.fd {
        maxfd := pd.fd;
      }
    }

    method DelOne(pd: Pollfd)
      requires Shape() && BitsMatch() && Acceptable(pd) && pd.fd < FD_SETSIZE
      requires forall f, j | 0 <= f < FD_SETSIZE && 0 <= j < KINDS :: refs[f, j] >= Use(pd, f, j)
      modifies refs, `sets
      ensures Shape() && BitsMatch()
      ensures forall f, j | 0 <= f < FD_SETSIZE && 0 <= j < KINDS :: refs[f, j] == old(refs[f, j]) - Use(pd, f, j)
    {
      if In in pd.events {
        Unref(pd.fd, 0);
      }
      if Out in pd.events {
        Unref(pd.fd, 1);
      }
      if Pri in pd.events {
        Unref(pd.fd, 2);
      }
    }

    /** Adds the uses of a poll, or changes nothing when one of its entries is not acceptable. */
    method PollsetAdd(pds: seq<Pollfd>) returns (ok: bool)
      requires Shape() && BitsMatch()
      requires forall f, j | 0 <= f < FD_SETSIZE && 0 <= j < KINDS :: refs[f, j] >= 0
      modifies refs, `sets, `maxfd
      ensures Shape() && BitsMatch() && (ok <==> AllAcceptable(pds, FD_SETSIZE))
      ensures forall f, j | 0 <= f < FD_SETSIZE && 0 <= j < KINDS ::
                refs[f, j] == old(refs[f, j]) + if ok then Uses(pds, f, j) else 0
      ensures old(maxfd) <= maxfd && (ok ==> Bounds(pds, maxfd)) && (!ok ==> maxfd == old(maxfd) && sets == old(sets))
    {
      for i := 0 to |pds|
        invariant AllAcceptable(pds[..i], FD_SETSIZE)
      {
        if pds[i].fd < 0 || pds[i].fd >= FD_SETSIZE || pds[i].events == {} || !(pds[i].events <= {In, Out, Pri}) {
          assert pds[i] in pds && !(Acceptable(pds[i]) && pds[i].fd < FD_SETSIZE);
          return false;
        }
      }
      for i := 0 to |pds|
        invariant Shape() && BitsMatch() && old(maxfd) <= maxfd && Bounds(pds[..i], maxfd)
        invariant forall f, j | 0 <= f < FD_SETSIZE && 0 <= j < KINDS ::
                  refs[f, j] == old(refs[f, j]) + Uses(pds[..i], f, j)
      {
        assert pds[..i + 1][..i] == pds[..i];
        AddOne(pds[i]);
      }
      assert pds[..|pds|] == pds;
      ok := true;
    }

    /** Takes back the uses of a poll. */
    method PollsetDel(pds: seq<Pollfd>)
      requires Shape() && BitsMatch() && AllAcceptable(pds, FD_SETSIZE)
      requires forall f, j | 0 <= f < FD_SETSIZE && 0 <= j < KINDS :: refs[f, j] >= Uses(pds, f, j)
      modifies refs, `sets
      ensures Shape() && BitsMatch()
      ensures forall f, j | 0 <= f < FD_SETSIZE && 0 <= j < KINDS :: refs[f, j] == old(refs[f, j]) - Uses(pds, f, j)
    {
      for i := 0 to |pds|
        invariant Shape() && BitsMatch()
        invariant forall f, j | 0 <= f < FD_SETSIZE && 0 <= j < KINDS ::
                  refs[f, j] == old(refs[f, j]) - Uses(pds[..i], f, j)
      {
        assert pds[..i + 1][..i] == pds[..i];
        forall f, j | 0 <= f < FD_SETSIZE && 0 <= j < KINDS ensures refs[f, j] >= Use(pds[i], f, j) {
          UsesPrefix(pds, i + 1, f, j);
        }
        DelOne(pds[i]);
      }
      assert pds[..|pds|] == pds;
    }

    /** Puts a poll on the I/O queue, unless one of its entries is not acceptable. */
    method AddPoll(q: PollQ) returns (ok: bool)
      requires Valid() && q !in ioQ && q.onIoq && |q.revents| == |q.pds|
      modifies refs, `sets, `maxfd, `ioQ
      ensures Valid() && (ok <==> forall pd | pd in q.pds ::
                             0 <= pd.fd < FD_SETSIZE && pd.events != {} && pd.events <= {In, Out, Pri})
      ensures ioQ == if ok then old(ioQ) + [q] else old(ioQ)
    {
      ok := PollsetAdd(q.pds);
      if ok {
        KeepOne(ioQ, q);
        ioQ := ioQ + [q];
      }
    }

    /** Takes a poll that is still on the I/O queue off it. */
    method RemovePoll(q: PollQ)
      requires Valid() && q in ioQ
      modifies refs, `sets, `ioQ
      ensures Valid() && q !in ioQ && maxfd == old(maxfd)
      ensures exists i | 0 <= i < |old(ioQ)| :: old(ioQ)[i] == q && ioQ == old(ioQ)[..i] + old(ioQ)[i + 1..]
    {
      var i :| 0 <= i < |ioQ| && ioQ[i] == q;
      forall f, j | 0 <= f < FD_SETSIZE && 0 <= j < KINDS
        ensures refs[f, j] == Total(ioQ[..i] + ioQ[i + 1..], f, j) + Uses(q.pds, f, j)
      {
        WithoutOne(ioQ, i, f, j);
      }
      ioQ := ioQ[..i] + ioQ[i + 1..];
      PollsetDel(q.pds);
    }

    /** Sets the answers of one poll; whether any is nonempty, and its largest descriptor. */
    method Examine(q: PollQ, v: Verdict) returns (notify: bool, largest: int)
      requires VerdictOk(v) && AllAcceptable(q.pds, FD_SETSIZE)
      modifies q`revents
      ensures |q.revents| == |q.pds| && forall i | 0 <= i < |q.pds| :: q.revents[i] == Answer(v, q.pds[i])
      ensures (v.Selected? ==> AnsweredBySets(q, v.ready)) && (v.Probed? ==> AnsweredBad(q, v.bad))
      ensures notify <==> Fires(v, q.pds)
      ensures Bounds(q.pds, largest) && (largest == -1 || Names(q.pds, largest))
    {
      hide AnsweredBySets, AnsweredBad;
      var answers := [];
      notify, largest := false, -1;
      for i := 0 to |q.pds|
        invariant |answers| == i && forall n | 0 <= n < i :: answers[n] == Answer(v, q.pds[n])
        invariant notify <==> Fires(v, q.pds[..i])
        invariant Bounds(q.pds[..i], largest) && (largest == -1 || Names(q.pds[..i], largest))
      {
        var pd := q.pds[i];
        assert q.pds[..i + 1] == q.pds[..i] + [pd];
        answers := answers + [Answer(v, pd)];
        if Answer(v, pd) != {} {
          notify := true;
        }
        if pd.fd > largest {
          largest := pd.fd;
        }
      }
      assert q.pds[..|q.pds|] == q.pds;
      q.revents := answers;
      match v
      case Selected(ready) => SetsAnswered(q, ready);
      case Probed(bad) => BadAnswered(q, bad);
      case Polled(_) =>
    }

    /** Answers one queued poll; if it fires it is off the queue and its uses are taken back. */
    method SweepOne(q: PollQ, v: Verdict) returns (notify: bool)
      requires Shape() && BitsMatch() && VerdictOk(v) && Queued(q, FD_SETSIZE)
      requires forall f, j | 0 <= f < FD_SETSIZE && 0 <= j < KINDS :: refs[f, j] >= Uses(q.pds, f, j)
      modifies refs, `sets, `maxfd, q
      ensures Shape() && BitsMatch() && Answered(q, v) && (notify <==> Fires(v, q.pds))
      ensures forall f, j | 0 <= f < FD_SETSIZE && 0 <= j < KINDS ::
                refs[f, j] == old(refs[f, j]) - if notify then Uses(q.pds, f, j) else 0
      ensures if notify then maxfd == old(maxfd)
              else old(maxfd) <= maxfd && Bounds(q.pds, maxfd) && (maxfd == old(maxfd) || Names(q.pds, maxfd))
    {
      var largest;
      notify, largest := Examine(q, v);
      if notify {
        q.onIoq := false;
        PollsetDel(q.pds);
      } else if maxfd < largest {
        maxfd := largest;
      }
    }

    /** After `i` polls of a sweep the counts are those of the polls kept and of the ones to come. */
    ghost predicate SweptCounts(queue: seq<PollQ>, i: nat, kept: seq<PollQ>)
      requires i <= |queue|
      reads this, refs
    {
      && Shape() && BitsMatch() && MaxExact(kept, maxfd)
      && (forall f, j | 0 <= f < FD_SETSIZE && 0 <= j < KINDS ::
           refs[f, j] == Total(kept, f, j) + TotalFrom(queue, i, f, j))
    }

    method SweepNext(v: Verdict, queue: seq<PollQ>, i: nat, kept: seq<PollQ>, woken: seq<PollQ>)
        returns (kept': seq<PollQ>, woken': seq<PollQ>)
      requires VerdictOk(v) && i < |queue| && SweptCounts(queue, i, kept) && SweptPolls(v, queue, i, FD_SETSIZE)
      requires SweptLists(v, queue, i, kept, woken)
      requires forall n, m | 0 <= n < m < |queue| :: queue[n] != queue[m]
      modifies refs, `sets, `maxfd, queue[i]
      ensures SweptCounts(queue, i + 1, kept')
      ensures SweptPolls(v, queue, i + 1, FD_SETSIZE)
      ensures SweptLists(v, queue, i + 1, kept', woken')
    {
      hide Queued, Answered, Answer, Fires, BitsMatch;
      var q := queue[i];
      ghost var before := maxfd;
      var notify := SweepOne(q, v);
      if notify {
        kept', woken' := kept, woken + [q];
      } else {
        KeepOne(kept, q);
        KeepMax(kept, q, before, maxfd);
        kept', woken' := kept + [q], woken;
      }
    }

    method SweepAll(v: Verdict, queue: seq<PollQ>) returns (kept: seq<PollQ>, woken: seq<PollQ>)
      requires VerdictOk(v) && SweptCounts(queue, 0, []) && SweptPolls(v, queue, 0, FD_SETSIZE)
      requires forall n, m | 0 <= n < m < |queue| :: queue[n] != queue[m]
      modifies refs, `sets, `maxfd, queue
      ensures SweptCounts(queue, |queue|, kept) && SweptPolls(v, queue, |queue|, FD_SETSIZE)
      ensures SweptLists(v, queue, |queue|, kept, woken)
    {
      kept, woken := [], [];
      for i := 0 to |queue|
        invariant SweptCounts(queue, i, kept)
        invariant SweptPolls(v, queue, i, FD_SETSIZE)
        invariant SweptLists(v, queue, i, kept, woken)
      {
        kept, woken := SweepNext(v, queue, i, kept, woken);
      }
    }

    /** Answers every queued poll; those that fire leave the queue with their uses, and `woken` lists them in order. */
    method Sweep(v: Verdict) returns (woken: seq<PollQ>)
      requires Valid() && VerdictOk(v)
      modifies refs, `sets, `maxfd, `ioQ, ioQ
      ensures Valid() && MaxExact(ioQ, maxfd)
      ensures woken == Chosen(v, old(ioQ), |old(ioQ)|, true) && ioQ == Chosen(v, old(ioQ), |old(ioQ)|, false)
      ensures forall q | q in old(ioQ) :: Answered(q, v)
    {
      hide Fires, Answer, Chosen;
      ghost var queue := ioQ;
      StartSweep(queue);
      maxfd := -1;
      ioQ, woken := SweepAll(v, ioQ);
      StaysFrom(v, queue);
      forall q | q in ioQ ensures Queued(q, FD_SETSIZE) && Bounds(q.pds, maxfd) {
        var n :| 0 <= n < |queue| && queue[n] == q;
        assert Answered(queue[n], v);
      }
    }

    /**
     What the idle thread does with the result of select: the polls get the answers of the
     ready sets, or of the descriptors that turn out to be bad, and those with one leave the
     queue.  A timeout or another error changes nothing.
     */
    method Dispatch(result: SelectResult) returns (woken: seq<PollQ>)
      requires Valid() && (result.ReadyFds? ==> |result.ready| == KINDS)
      modifies refs, `sets, `maxfd, `ioQ, ioQ
      ensures Valid()
      ensures match result
              case ReadyFds(ready) =>
                && woken == Chosen(Selected(ready), old(ioQ), |old(ioQ)|, true)
                && ioQ == Chosen(Selected(ready), old(ioQ), |old(ioQ)|, false) && MaxExact(ioQ, maxfd)
                && (forall q | q in old(ioQ) :: Answered(q, Selected(ready)) && AnsweredBySets(q, ready))
                && Parted(old(ioQ), woken, ioQ)
              case BadFd(bad) =>
                && woken == Chosen(Probed(bad), old(ioQ), |old(ioQ)|, true)
                && ioQ == Chosen(Probed(bad), old(ioQ), |old(ioQ)|, false) && MaxExact(ioQ, maxfd)
                && (forall q | q in old(ioQ) :: Answered(q, Probed(bad)) && AnsweredBad(q, bad))
                && Parted(old(ioQ), woken, ioQ)
              case _ =>
                && woken == [] && ioQ == old(ioQ) && sets == old(sets) && maxfd == old(maxfd)
                && (forall q | q in ioQ :: q.revents == old(q.revents) && q.onIoq)
    {
      hide Chosen, Parted, Answer, Fires, MaxExact, AnsweredBySets, AnsweredBad, Tallied, BitsMatch;
      match result
      case ReadyFds(ready) =>
        woken := Sweep(Selected(ready));
        SweepParts(Selected(ready), old(ioQ));
        forall q | q in old(ioQ) ensures AnsweredBySets(q, ready) {
          SetsAnswered(q, ready);
        }
      case BadFd(bad) =>
        woken := Sweep(Probed(bad));
        SweepParts(Probed(bad), old(ioQ));
        forall q | q in old(ioQ) ensures AnsweredBad(q, bad) {
          BadAnswered(q, bad);
        }
      case _ =>
        woken := [];
    }

    /** Whether a descriptor may be closed: exactly when no queued poll names it. */
    method FdClose(fd: int) returns (ok: bool)
      requires Valid() && 0 <= fd < FD_SETSIZE
      ensures ok <==> !exists i :: 0 <= i < |ioQ| && Names(ioQ[i].pds, fd)
    {
      ok := refs[fd, 0] == 0 && refs[fd, 1] == 0 && refs[fd, 2] == 0;
      NamedIffUsed(ioQ, fd);
      assert refs[fd, 0] == Total(ioQ, fd, 0) && refs[fd, 1] == Total(ioQ, fd, 1) && refs[fd, 2] == Total(ioQ, fd, 2);
    }
  }

  /** What select returned: ready sets, a timeout, a bad descriptor among those waited for, or another error. */
  datatype SelectResult = ReadyFds(ready: seq<set<int>>) | TimedOut | BadFd(bad: set<int>) | Failed
}
