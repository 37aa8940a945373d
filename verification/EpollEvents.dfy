/**
 The epoll event system: reference counts per descriptor, and the kernel's interest set kept
 in step with them by one control call per change.
 */
module EpollEvents {
  import opened Polls

  /** The counts of one descriptor, and the events it fired with during a dispatch. */
  datatype FdData = FdData(rd: int, wr: int, ex: int, revents: set<Bit>)

  const ZERO := FdData(0, 0, 0, {})

  function Cnt(d: FdData, k: nat): int
    requires k < KINDS
  {
    if k == 0 then d.rd else if k == 1 then d.wr else d.ex
  }

  /** An event mask: EPOLLIN, EPOLLOUT and EPOLLPRI. */
  datatype Events = Events(rd: bool, wr: bool, ex: bool)

  const NONE := Events(false, false, false)

  function Bits(e: Events): set<Bit> {
    (if e.rd then {In} else {}) + (if e.wr then {Out} else {}) + (if e.ex then {Pri} else {})
  }

  /** The event mask that the counts ask for. */
  function Mask(d: FdData): Events {
    Events(d.rd != 0, d.wr != 0, d.ex != 0)
  }

  function Plus(d: FdData, pd: Pollfd, step: int): FdData {
    d.(rd := d.rd + (if In in pd.events then step else 0),
       wr := d.wr + (if Out in pd.events then step else 0),
       ex := d.ex + if Pri in pd.events then step else 0)
  }

  // ---------- the bookkeeping as a value ----------

  /** The descriptor data, the kernel's interest set, and the count of its members. */
  datatype Book = Book(data: seq<FdData>, interest: map<int, Events>, cnt: int)

  /** A MOD or DEL control call: the kernel refuses it for a descriptor it does not know. */
  ghost function Change(b: Book, fd: int, events: Events): Book {
    if fd !in b.interest then b
    else if events == NONE then b.(interest := b.interest - {fd}, cnt := b.cnt - 1)
    else b.(interest := b.interest[fd := events])
  }

  /** One entry leaves; a descriptor that has fired is left to the end of the dispatch. */
  ghost function DelStep(b: Book, pd: Pollfd): Book
    requires 0 <= pd.fd < |b.data|
  {
    var d := Plus(b.data[pd.fd], pd, -1);
    var b1 := b.(data := b.data[pd.fd := d]);
    if Mask(d) != Mask(b.data[pd.fd]) && d.revents == {} then Change(b1, pd.fd, Mask(d)) else b1
  }

  ghost function DelAll(b: Book, pds: seq<Pollfd>, n: nat): (r: Book)
    requires n <= |pds| && forall pd | pd in pds :: 0 <= pd.fd < |b.data|
    ensures |r.data| == |b.data|
  {
    if n == 0 then b else DelStep(DelAll(b, pds, n - 1), pds[n - 1])
  }

  /** One entry comes; a descriptor new to the kernel is added to its interest set. */
  ghost function AddStep(b: Book, pd: Pollfd): Book
    requires 0 <= pd.fd < |b.data|
  {
    var before := b.data[pd.fd];
    var d := Plus(before, pd, 1);
    var b1 := b.(data := b.data[pd.fd := d]);
    if Mask(d) == Mask(before) then b1
    else if Mask(before) == NONE then b1.(interest := b.interest[pd.fd := Mask(d)], cnt := b.cnt + 1)
    else Change(b1, pd.fd, Mask(d))
  }

  ghost function AddAll(b: Book, pds: seq<Pollfd>, n: nat): (r: Book)
    requires n <= |pds| && forall pd | pd in pds :: 0 <= pd.fd < |b.data|
    ensures |r.data| == |b.data|
  {
    if n == 0 then b else AddStep(AddAll(b, pds, n - 1), pds[n - 1])
  }

  // ---------- what is kept ----------

  /** Every known descriptor that has not fired is known with the mask of its counts, and the members are counted. */
  ghost predicate Loose(b: Book) {
    && (forall fd, k | 0 <= fd < |b.data| && 0 <= k < KINDS :: Cnt(b.data[fd], k) >= 0)
    && (forall fd | fd in b.interest :: 0 <= fd < |b.data|)
    && (forall fd | fd in b.interest && b.data[fd].revents == {} ::
         b.interest[fd] == Mask(b.data[fd]) && b.interest[fd] != NONE)
    && b.cnt == |b.interest|
  }

  /** The kernel has to know `fd`. */
  ghost predicate Needed(d: FdData) {
    d.revents != {} || Mask(d) != NONE
  }

  ghost predicate Good(b: Book) {
    Loose(b) && forall fd | 0 <= fd < |b.data| && Needed(b.data[fd]) :: fd in b.interest
  }

  /**
   From `b` to `r` the kernel forgot exactly the descriptors that are no longer needed, and no
   others came to be needed.
   */
  ghost predicate Trimmed(b: Book, r: Book) {
    && |r.data| == |b.data|
    && (forall fd | 0 <= fd < |b.data| :: fd in r.interest <==> fd in b.interest && Needed(r.data[fd]))
    && (forall fd | 0 <= fd < |b.data| :: Needed(r.data[fd]) ==> Needed(b.data[fd]))
  }

  lemma TrimmedSelf(b: Book)
    requires Loose(b)
    ensures Trimmed(b, b)
  {
  }

  lemma TrimmedMore(a: Book, b: Book, c: Book)
    requires Trimmed(a, b) && Trimmed(b, c)
    ensures Trimmed(a, c)
  {
  }

  lemma PlusCounts(d: FdData, pd: Pollfd, step: int, k: nat)
    requires k < KINDS
    ensures Cnt(Plus(d, pd, step), k) == Cnt(d, k) + step * Use(pd, pd.fd, k)
  {
  }

  /** Taking entries away keeps the kernel in step, and it forgets exactly the descriptors no longer needed. */
  lemma DelStepKeeps(b: Book, pd: Pollfd)
    requires Loose(b) && 0 <= pd.fd < |b.data|
    requires forall k | 0 <= k < KINDS :: Cnt(b.data[pd.fd], k) >= Use(pd, pd.fd, k)
    ensures var r := DelStep(b, pd); Loose(r) && Trimmed(b, r)
  {
    hide Use;
    var d := Plus(b.data[pd.fd], pd, -1);
    forall k | 0 <= k < KINDS ensures Cnt(d, k) == Cnt(b.data[pd.fd], k) - Use(pd, pd.fd, k) {
      PlusCounts(b.data[pd.fd], pd, -1, k);
    }
    var was := b.data[pd.fd];
    assert d.rd == Cnt(d, 0) == Cnt(was, 0) - Use(pd, pd.fd, 0) && was.rd == Cnt(was, 0);
    assert d.wr == Cnt(d, 1) == Cnt(was, 1) - Use(pd, pd.fd, 1) && was.wr == Cnt(was, 1);
    assert d.ex == Cnt(d, 2) == Cnt(was, 2) - Use(pd, pd.fd, 2) && was.ex == Cnt(was, 2);
  }

  lemma AddStepKeeps(b: Book, pd: Pollfd)
    requires Good(b) && 0 <= pd.fd < |b.data| && b.data[pd.fd].revents == {}
    ensures Good(AddStep(b, pd)) && forall fd | fd in b.interest :: fd in AddStep(b, pd).interest
  {
    var d := Plus(b.data[pd.fd], pd, 1);
    forall k | 0 <= k < KINDS ensures Cnt(d, k) == Cnt(b.data[pd.fd], k) + Use(pd, pd.fd, k) {
      PlusCounts(b.data[pd.fd], pd, 1, k);
    }
    var was := b.data[pd.fd];
    assert was.rd == Cnt(was, 0) >= 0 && was.wr == Cnt(was, 1) >= 0 && was.ex == Cnt(was, 2) >= 0;
    assert Mask(was) != NONE ==> Mask(d) != NONE;
  }

  lemma MaskGrows(d: FdData, pd: Pollfd)
    requires Acceptable(pd) && forall k | 0 <= k < KINDS :: Cnt(d, k) >= 0
    ensures Mask(Plus(d, pd, 1)) != NONE
  {
    assert d.rd == Cnt(d, 0) && d.wr == Cnt(d, 1) && d.ex == Cnt(d, 2);
  }

  // ---------- whole polls ----------

  lemma DelStepCounts(b: Book, pd: Pollfd, fd: int, k: nat)
    requires 0 <= pd.fd < |b.data| && 0 <= fd < |b.data| && k < KINDS
    ensures Cnt(DelStep(b, pd).data[fd], k) == Cnt(b.data[fd], k) - Use(pd, fd, k)
    ensures DelStep(b, pd).data[fd].revents == b.data[fd].revents
  {
  }

  lemma AddStepCounts(b: Book, pd: Pollfd, fd: int, k: nat)
    requires 0 <= pd.fd < |b.data| && 0 <= fd < |b.data| && k < KINDS
    ensures Cnt(AddStep(b, pd).data[fd], k) == Cnt(b.data[fd], k) + Use(pd, fd, k)
    ensures AddStep(b, pd).data[fd].revents == b.data[fd].revents
  {
  }

  ghost predicate InRange(b: Book, pds: seq<Pollfd>) {
    forall pd | pd in pds :: 0 <= pd.fd < |b.data|
  }

  lemma {:induction false} DelAllCounts(b: Book, pds: seq<Pollfd>, n: nat, fd: int, k: nat)
    requires InRange(b, pds) && n <= |pds| && 0 <= fd < |b.data| && k < KINDS
    ensures Cnt(DelAll(b, pds, n).data[fd], k) == Cnt(b.data[fd], k) - Uses(pds[..n], fd, k)
    ensures DelAll(b, pds, n).data[fd].revents == b.data[fd].revents
  {
    hide DelStep;
    if n > 0 {
      DelAllCounts(b, pds, n - 1, fd, k);
      DelStepCounts(DelAll(b, pds, n - 1), pds[n - 1], fd, k);
      assert pds[..n][..n - 1] == pds[..n - 1];
    }
  }

  lemma {:induction false} AddAllCounts(b: Book, pds: seq<Pollfd>, n: nat, fd: int, k: nat)
    requires InRange(b, pds) && n <= |pds| && 0 <= fd < |b.data| && k < KINDS
    ensures Cnt(AddAll(b, pds, n).data[fd], k) == Cnt(b.data[fd], k) + Uses(pds[..n], fd, k)
    ensures AddAll(b, pds, n).data[fd].revents == b.data[fd].revents
  {
    hide AddStep;
    if n > 0 {
      AddAllCounts(b, pds, n - 1, fd, k);
      AddStepCounts(AddAll(b, pds, n - 1), pds[n - 1], fd, k);
      assert pds[..n][..n - 1] == pds[..n - 1];
    }
  }

  /** The counts of `b` include those of `pds`. */
  ghost predicate Covers(b: Book, pds: seq<Pollfd>) {
    forall fd, k | 0 <= fd < |b.data| && 0 <= k < KINDS :: Cnt(b.data[fd], k) >= Uses(pds, fd, k)
  }

  lemma NextCovered(b: Book, pds: seq<Pollfd>, n: nat)
    requires InRange(b, pds) && n < |pds| && Covers(b, pds)
    ensures forall k | 0 <= k < KINDS :: Cnt(DelAll(b, pds, n).data[pds[n].fd], k) >= Use(pds[n], pds[n].fd, k)
  {
    forall k | 0 <= k < KINDS ensures Cnt(DelAll(b, pds, n).data[pds[n].fd], k) >= Use(pds[n], pds[n].fd, k) {
      DelAllCounts(b, pds, n, pds[n].fd, k);
      UsesPrefix(pds, n + 1, pds[n].fd, k);
      assert pds[..n + 1][..n] == pds[..n];
    }
  }

  lemma {:induction false} DelAllKeeps(b: Book, pds: seq<Pollfd>, n: nat)
    requires InRange(b, pds) && n <= |pds| && Loose(b) && Covers(b, pds)
    ensures var r := DelAll(b, pds, n); Loose(r) && Trimmed(b, r)
  {
    hide Loose, Trimmed, DelStep, Covers, Uses, Cnt;
    if n > 0 {
      DelAllKeeps(b, pds, n - 1);
      var r := DelAll(b, pds, n - 1);
      NextCovered(b, pds, n - 1);
      DelStepKeeps(r, pds[n - 1]);
      TrimmedMore(b, r, DelStep(r, pds[n - 1]));
    } else {
      TrimmedSelf(b);
    }
  }

  lemma {:induction false} AddAllKeeps(b: Book, pds: seq<Pollfd>, n: nat)
    requires InRange(b, pds) && n <= |pds| && Good(b) && forall fd | 0 <= fd < |b.data| :: b.data[fd].revents == {}
    ensures Good(AddAll(b, pds, n)) && forall fd | 0 <= fd < |b.data| :: AddAll(b, pds, n).data[fd].revents == {}
    ensures forall fd | fd in b.interest :: fd in AddAll(b, pds, n).interest
  {
    if n > 0 {
      AddAllKeeps(b, pds, n - 1);
      AddStepKeeps(AddAll(b, pds, n - 1), pds[n - 1]);
    }
  }

  /** A poll whose `i`-th entry the kernel would not add: that entry is counted, but the kernel does not know it. */
  ghost function Refused(b: Book, pds: seq<Pollfd>, i: nat): Book
    requires InRange(b, pds) && i < |pds|
  {
    var a := AddAll(b, pds, i);
    a.(data := a.data[pds[i].fd := Plus(a.data[pds[i].fd], pds[i], 1)])
  }

  ghost predicate AllIdle(b: Book) {
    forall fd | 0 <= fd < |b.data| :: b.data[fd].revents == {}
  }

  lemma RefusedLoose(b: Book, pds: seq<Pollfd>, i: nat)
    requires Good(b) && AllIdle(b) && InRange(b, pds) && i < |pds| && Mask(AddAll(b, pds, i).data[pds[i].fd]) == NONE
    ensures Loose(Refused(b, pds, i)) && forall fd | fd in b.interest :: fd in Refused(b, pds, i).interest
  {
    AddAllKeeps(b, pds, i);
    var a := AddAll(b, pds, i);
    var fd := pds[i].fd;
    var d := Plus(a.data[fd], pds[i], 1);
    assert a.data[fd].revents == {} && fd !in a.interest;
    forall k | 0 <= k < KINDS ensures Cnt(d, k) >= 0 {
      PlusCounts(a.data[fd], pds[i], 1, k);
    }
  }

  lemma RefusedCounts(b: Book, pds: seq<Pollfd>, i: nat, fd: int, k: nat)
    requires InRange(b, pds) && i < |pds| && 0 <= fd < |b.data| && k < KINDS
    ensures Cnt(Refused(b, pds, i).data[fd], k) == Cnt(b.data[fd], k) + Uses(pds[..i + 1], fd, k)
    ensures Refused(b, pds, i).data[fd].revents == b.data[fd].revents
  {
    AddAllCounts(b, pds, i, fd, k);
    PlusCounts(AddAll(b, pds, i).data[pds[i].fd], pds[i], 1, k);
    assert pds[..i + 1][..i] == pds[..i];
  }

  lemma SameCountsSameData(d: FdData, e: FdData)
    requires d.revents == e.revents && forall k | 0 <= k < KINDS :: Cnt(d, k) == Cnt(e, k)
    ensures d == e
  {
    assert Cnt(d, 0) == Cnt(e, 0) && Cnt(d, 1) == Cnt(e, 1) && Cnt(d, 2) == Cnt(e, 2);
  }

  lemma RollbackCounts(b: Book, pds: seq<Pollfd>, i: nat)
    requires InRange(b, pds) && i < |pds|
    requires forall fd, k | 0 <= fd < |b.data| && 0 <= k < KINDS :: Cnt(b.data[fd], k) >= 0
    ensures Covers(Refused(b, pds, i), pds[..i + 1])
    ensures DelAll(Refused(b, pds, i), pds[..i + 1], i + 1).data == b.data
  {
    var f, p := Refused(b, pds, i), pds[..i + 1];
    forall fd, k | 0 <= fd < |b.data| && 0 <= k < KINDS
        ensures Cnt(f.data[fd], k) == Cnt(b.data[fd], k) + Uses(p, fd, k) {
      RefusedCounts(b, pds, i, fd, k);
    }
    var r := DelAll(f, p, i + 1);
    forall fd | 0 <= fd < |b.data| ensures r.data[fd] == b.data[fd] {
      RollbackOne(b, pds, i, fd);
    }
  }

  lemma RollbackOne(b: Book, pds: seq<Pollfd>, i: nat, fd: int)
    requires InRange(b, pds) && i < |pds| && 0 <= fd < |b.data|
    ensures DelAll(Refused(b, pds, i), pds[..i + 1], i + 1).data[fd] == b.data[fd]
  {
    hide DelAll, AddAll, Uses, Cnt, Mask;
    var f, p := Refused(b, pds, i), pds[..i + 1];
    assert p[..i + 1] == p;
    forall k | 0 <= k < KINDS ensures Cnt(DelAll(f, p, i + 1).data[fd], k) == Cnt(b.data[fd], k) {
      DelAllCounts(f, p, i + 1, fd, k);
      RefusedCounts(b, pds, i, fd, k);
    }
    DelAllCounts(f, p, i + 1, fd, 0);
    RefusedCounts(b, pds, i, fd, 0);
    SameCountsSameData(DelAll(f, p, i + 1).data[fd], b.data[fd]);
  }

  /** Taking back a poll that was added in part restores the counts, the interest set and its size. */
  lemma RollbackRestores(b: Book, pds: seq<Pollfd>, i: nat)
    requires Good(b) && AllIdle(b) && InRange(b, pds) && i < |pds| && Mask(AddAll(b, pds, i).data[pds[i].fd]) == NONE
    ensures DelAll(Refused(b, pds, i), pds[..i + 1], i + 1) == b
  {
    hide Loose, Trimmed, Covers, Refused, DelAll, AddAll, Mask, AllIdle;
    RefusedRange(b, pds, i);
    RefusedLoose(b, pds, i);
    RollbackCounts(b, pds, i);
    DelAllKeeps(Refused(b, pds, i), pds[..i + 1], i + 1);
    SameInterest(b, Refused(b, pds, i), DelAll(Refused(b, pds, i), pds[..i + 1], i + 1));
  }

  lemma RefusedRange(b: Book, pds: seq<Pollfd>, i: nat)
    requires InRange(b, pds) && i < |pds|
    ensures |Refused(b, pds, i).data| == |b.data| && InRange(Refused(b, pds, i), pds[..i + 1])
    ensures Loose(b) ==> forall fd, k | 0 <= fd < |b.data| && 0 <= k < KINDS :: Cnt(b.data[fd], k) >= 0
  {
  }

  lemma SameInterest(b: Book, f: Book, r: Book)
    requires Good(b) && AllIdle(b) && Loose(r) && Trimmed(f, r) && r.data == b.data
    requires forall fd | fd in b.interest :: fd in f.interest
    ensures r == b
  {
    forall fd ensures fd in r.interest <==> fd in b.interest {
      if fd in r.interest { assert 0 <= fd < |b.data| && Needed(b.data[fd]); }
      if fd in b.interest { assert 0 <= fd < |b.data| && Needed(b.data[fd]); }
    }
    forall fd | fd in b.interest ensures r.interest[fd] == b.interest[fd] {
      assert 0 <= fd < |b.data| && b.data[fd].revents == {};
    }
    assert r.interest.Keys == b.interest.Keys;
    assert r.interest == b.interest;
  }

  /** The same bookkeeping over longer descriptor data. */
  ghost function Extended(b: Book, n: nat): Book
    requires n >= |b.data|
  {
    b.(data := b.data + seq(n - |b.data|, _ => ZERO))
  }

  lemma ExtendedGood(b: Book, n: nat)
    requires Good(b) && AllIdle(b) && n >= |b.data|
    ensures Good(Extended(b, n)) && AllIdle(Extended(b, n))
  {
  }

  /** The kernel knows `fd` already, or can poll it. */
  ghost predicate Admissible(b: Book, fd: int, admits: set<int>) {
    (0 <= fd < |b.data| && Mask(b.data[fd]) != NONE) || fd in admits
  }

  lemma ExtendedAdmissible(b: Book, n: nat, fd: int, admits: set<int>)
    requires n >= |b.data|
    ensures Admissible(Extended(b, n), fd, admits) <==> Admissible(b, fd, admits)
  {
  }

  lemma {:induction false} AdmissibleLater(b: Book, pds: seq<Pollfd>, i: nat, fd: int, admits: set<int>)
    requires InRange(b, pds) && i <= |pds| && 0 <= fd < |b.data|
    requires forall f, k | 0 <= f < |b.data| && 0 <= k < KINDS :: Cnt(b.data[f], k) >= 0
    requires forall j | 0 <= j < i :: Acceptable(pds[j]) && Admissible(b, pds[j].fd, admits)
    ensures Admissible(AddAll(b, pds, i), fd, admits) <==> Admissible(b, fd, admits)
  {
    hide Plus;
    if i > 0 {
      AdmissibleLater(b, pds, i - 1, fd, admits);
      var a := AddAll(b, pds, i - 1);
      var d := a.data[pds[i - 1].fd];
      forall k | 0 <= k < KINDS ensures Cnt(d, k) >= 0 {
        AddAllCounts(b, pds, i - 1, pds[i - 1].fd, k);
      }
      MaskGrows(d, pds[i - 1]);
    }
  }

  lemma TrimmedGood(b: Book, r: Book)
    requires Good(b) && Loose(r) && Trimmed(b, r)
    ensures Good(r)
  {
  }

  /** No poll of the queue asks for a descriptor beyond the data. */
  lemma TotalOutside(queue: seq<PollQ>, limit: int, fd: int, k: nat)
    requires k < KINDS && fd >= limit && forall q | q in queue :: AllAcceptable(q.pds, limit)
    ensures Total(queue, fd, k) == 0
  {
    TotalPositive(queue, fd, k);
    if i :| 0 <= i < |queue| && Uses(queue[i].pds, fd, k) > 0 {
      UsesPositive(queue[i].pds, fd, k);
    }
  }

  ghost predicate TalliedBy(b: Book, queue: seq<PollQ>) {
    forall fd, k | 0 <= fd < |b.data| && 0 <= k < KINDS :: Cnt(b.data[fd], k) == Total(queue, fd, k)
  }

  lemma TallyMore(b: Book, queue: seq<PollQ>, q: PollQ)
    requires TalliedBy(b, queue) && InRange(b, q.pds)
    ensures TalliedBy(AddAll(b, q.pds, |q.pds|), queue + [q])
  {
    KeepOne(queue, q);
    assert q.pds[..|q.pds|] == q.pds;
    forall fd, k | 0 <= fd < |b.data| && 0 <= k < KINDS
      ensures Cnt(AddAll(b, q.pds, |q.pds|).data[fd], k) == Total(queue + [q], fd, k)
    {
      AddAllCounts(b, q.pds, |q.pds|, fd, k);
    }
  }

  lemma TallyLess(b: Book, queue: seq<PollQ>, i: nat)
    requires i < |queue| && Good(b) && AllIdle(b) && TalliedBy(b, queue) && InRange(b, queue[i].pds)
    ensures var r := DelAll(b, queue[i].pds, |queue[i].pds|);
            Good(r) && AllIdle(r) && TalliedBy(r, queue[..i] + queue[i + 1..])
  {
    var pds := queue[i].pds;
    var r := DelAll(b, pds, |pds|);
    assert pds[..|pds|] == pds;
    forall fd, k | 0 <= fd < |b.data| && 0 <= k < KINDS
      ensures Cnt(b.data[fd], k) >= Uses(pds, fd, k) && Cnt(r.data[fd], k) == Total(queue[..i] + queue[i + 1..], fd, k)
    {
      WithoutOne(queue, i, fd, k);
      DelAllCounts(b, pds, |pds|, fd, k);
    }
    forall fd | 0 <= fd < |b.data| ensures r.data[fd].revents == {} {
      DelAllCounts(b, pds, |pds|, fd, 0);
    }
    DelAllKeeps(b, pds, |pds|);
    TrimmedGood(b, r);
  }

  /** Some kind of the descriptor is asked for. */
  ghost predicate Wanted(d: FdData) {
    d.rd > 0 || d.wr > 0 || d.ex > 0
  }

  /**
   Outside a dispatch the kernel knows the descriptors with a positive count, each with the
   kinds whose count is positive, and `cnt` is their number.
   */
  lemma InterestIsTheMasks(b: Book)
    requires Good(b) && AllIdle(b)
    ensures forall fd | 0 <= fd < |b.data| :: fd in b.interest <==> Wanted(b.data[fd])
    ensures forall fd | fd in b.interest ::
            && 0 <= fd < |b.data| && (b.interest[fd].rd <==> b.data[fd].rd > 0)
            && (b.interest[fd].wr <==> b.data[fd].wr > 0) && (b.interest[fd].ex <==> b.data[fd].ex > 0)
    ensures b.cnt == |set fd | 0 <= fd < |b.data| && Wanted(b.data[fd])|
  {
    forall fd | 0 <= fd < |b.data| ensures b.data[fd].rd >= 0 && b.data[fd].wr >= 0 && b.data[fd].ex >= 0 {
      assert Cnt(b.data[fd], 0) >= 0 && Cnt(b.data[fd], 1) >= 0 && Cnt(b.data[fd], 2) >= 0;
    }
    assert b.interest.Keys == set fd | 0 <= fd < |b.data| && Wanted(b.data[fd]);
  }

  /** Outside a dispatch the kernel is asked for just what the queued polls ask for. */
  lemma InterestAsked(b: Book, queue: seq<PollQ>, fd: int)
    requires Good(b) && AllIdle(b) && TalliedBy(b, queue) && 0 <= fd < |b.data|
    ensures fd in b.interest <==> Asked(queue, fd, In) || Asked(queue, fd, Out) || Asked(queue, fd, Pri)
    ensures fd in b.interest ==>
            && (b.interest[fd].rd <==> Asked(queue, fd, In)) && (b.interest[fd].wr <==> Asked(queue, fd, Out))
            && (b.interest[fd].ex <==> Asked(queue, fd, Pri))
  {
    hide Good, AllIdle, Asked;
    InterestIsTheMasks(b);
    AskedIffUsed(queue, fd, 0);
    AskedIffUsed(queue, fd, 1);
    AskedIffUsed(queue, fd, 2);
    var d := b.data[fd];
    assert d.rd == Cnt(d, 0) && d.wr == Cnt(d, 1) && d.ex == Cnt(d, 2);
  }

  // ---------- dispatch ----------

  /**
   What is recorded for the descriptors that the kernel reports; an error or hang-up also sets
   the bits waited for.
   */
  ghost function Fired(b: Book, reported: map<int, set<Bit>>): map<int, set<Bit>> {
    map fd | fd in reported && 0 <= fd < |b.data| :: Recorded(b.data[fd], reported[fd])
  }

  function Recorded(d: FdData, events: set<Bit>): set<Bit> {
    if Err in events || Hup in events then events + Bits(Mask(d)) else events
  }

  /** The descriptor data hold the events of `fired`, for the first `n` descriptors of the list. */
  ghost predicate Holds(b: Book, fired: map<int, set<Bit>>) {
    forall fd | 0 <= fd < |b.data| :: b.data[fd].revents == if fd in fired then fired[fd] else {}
  }

  /** A fired descriptor at the end of the dispatch: its events are cleared and the kernel is told its mask. */
  ghost function FinishStep(b: Book, fd: int): Book
    requires 0 <= fd < |b.data|
  {
    Change(b.(data := b.data[fd := b.data[fd].(revents := {})]), fd, Mask(b.data[fd]))
  }

  lemma FinishKeeps(b: Book, fd: int)
    requires Good(b) && 0 <= fd < |b.data| && b.data[fd].revents != {}
    ensures Good(FinishStep(b, fd))
    ensures forall f, k | 0 <= f < |b.data| && 0 <= k < KINDS :: Cnt(FinishStep(b, fd).data[f], k) == Cnt(b.data[f], k)
  {
    FinishCounts(b, fd);
    FinishGood(b, fd, FinishStep(b, fd));
  }

  lemma FinishCounts(b: Book, fd: int)
    requires 0 <= fd < |b.data|
    ensures forall f, k | 0 <= f < |b.data| && 0 <= k < KINDS :: Cnt(FinishStep(b, fd).data[f], k) == Cnt(b.data[f], k)
    ensures FinishStep(b, fd).data == b.data[fd := b.data[fd].(revents := {})]
    ensures Told(b, fd, FinishStep(b, fd))
  {
  }

  /** If the kernel knows `fd`, in `r` it knows just the kinds that `b` counts for it. */
  ghost predicate Told(b: Book, fd: int, r: Book)
    requires 0 <= fd < |b.data|
  {
    var events := Mask(b.data[fd]);
    fd in b.interest ==>
      r.interest == if events == NONE then b.interest - {fd} else b.interest[fd := events]
  }

  lemma FinishGood(b: Book, fd: int, r: Book)
    requires Good(b) && 0 <= fd < |b.data| && b.data[fd].revents != {} && r == FinishStep(b, fd)
    requires forall f, k | 0 <= f < |b.data| && 0 <= k < KINDS :: Cnt(r.data[f], k) == Cnt(b.data[f], k)
    requires r.data == b.data[fd := b.data[fd].(revents := {})]
    requires Told(b, fd, r)
    ensures Good(r)
  {
    hide Cnt;
    assert Needed(b.data[fd]) && fd in b.interest;
    assert Mask(b.data[fd]) == NONE ==> r.interest.Keys == b.interest.Keys - {fd};
    assert Mask(b.data[fd]) != NONE ==> r.interest.Keys == b.interest.Keys;
  }

  lemma MarkKeeps(b: Book, fd: int, events: set<Bit>)
    requires Good(b) && fd in b.interest && events != {}
    ensures Good(b.(data := b.data[fd := b.data[fd].(revents := events)]))
  {
    var d := b.data[fd].(revents := events);
    forall k | 0 <= k < KINDS ensures Cnt(d, k) == Cnt(b.data[fd], k) >= 0 {
    }
  }

  /** The kernel contract of epoll_wait: some members of the interest set, once each, with at least one event. */
  ghost predicate Reported(b: Book, evtlist: seq<int>, reported: map<int, set<Bit>>) {
    && (forall i | 0 <= i < |evtlist| :: evtlist[i] in reported) && (forall fd | fd in reported :: fd in evtlist)
    && (forall i, j | 0 <= i < j < |evtlist| :: evtlist[i] != evtlist[j])
    && (forall fd | fd in reported :: fd in b.interest && reported[fd] != {})
  }

  lemma FiredListed(b: Book, evtlist: seq<int>, reported: map<int, set<Bit>>)
    requires Good(b) && Reported(b, evtlist, reported)
    ensures var fired := Fired(b, reported);
            && (forall fd | fd in fired :: fd in evtlist && fired[fd] != {})
            && (forall i | 0 <= i < |evtlist| :: evtlist[i] in fired && 0 <= evtlist[i] < |b.data|)
  {
    forall fd | fd in reported ensures Recorded(b.data[fd], reported[fd]) != {} {
      var bit :| bit in reported[fd];
      assert bit in Recorded(b.data[fd], reported[fd]);
    }
  }

  ghost predicate SameCounts(b: Book, r: Book) {
    |r.data| == |b.data| && forall fd, k | 0 <= fd < |b.data| && 0 <= k < KINDS ::
      Cnt(r.data[fd], k) == Cnt(b.data[fd], k)
  }

  lemma AnswerBits(fired: map<int, set<Bit>>, pd: Pollfd, on: set<Bit>, revents: set<Bit>)
    requires on == (if pd.fd in fired then fired[pd.fd] else {})
    requires forall bit :: bit in revents <==>
             bit in on && (bit in {Err, Hup} || (bit in pd.events && bit in {In, Out, Pri}))
    ensures revents == Answer(Polled(fired), pd)
  {
  }

  /** A queued entry is counted under each kind that it asks for. */
  lemma EntryCounted(b: Book, queue: seq<PollQ>, q: PollQ, pd: Pollfd, k: nat)
    requires TalliedBy(b, queue) && q in queue && pd in q.pds && 0 <= pd.fd < |b.data| && k < KINDS
    ensures KindBit(k) in pd.events ==> Cnt(b.data[pd.fd], k) > 0
  {
    hide KindBit;
    if KindBit(k) in pd.events {
      AskedIffUsed(queue, pd.fd, k);
      var i :| 0 <= i < |queue| && queue[i] == q;
      assert AsksFor(queue[i].pds, pd.fd, KindBit(k));
    }
  }

  lemma EntryAnswered(d: FdData, pd: Pollfd, on: set<Bit>)
    requires forall k | 0 <= k < KINDS :: KindBit(k) in pd.events ==> Cnt(d, k) > 0
    ensures ByEvents(pd, Recorded(d, on) * (pd.events * {In, Out, Pri} + {Err, Hup}), on)
  {
    assert In in pd.events ==> KindBit(0) in pd.events && Cnt(d, 0) > 0;
    assert Out in pd.events ==> KindBit(1) in pd.events && Cnt(d, 1) > 0;
    assert Pri in pd.events ==> KindBit(2) in pd.events && Cnt(d, 2) > 0;
  }

  lemma EventsAnswered(b: Book, queue: seq<PollQ>, q: PollQ, reported: map<int, set<Bit>>)
    requires TalliedBy(b, queue) && q in queue && AllAcceptable(q.pds, |b.data|)
    requires Answered(q, Polled(Fired(b, reported)))
    ensures AnsweredByEvents(q, reported)
  {
    hide ByEvents, Recorded, TalliedBy, Polls.Fires;
    forall i | 0 <= i < |q.pds|
      ensures ByEvents(q.pds[i], q.revents[i], if q.pds[i].fd in reported then reported[q.pds[i].fd] else {})
    {
      var pd := q.pds[i];
      assert pd in q.pds && Acceptable(pd);
      forall k | 0 <= k < KINDS ensures KindBit(k) in pd.events ==> Cnt(b.data[pd.fd], k) > 0 {
        EntryCounted(b, queue, q, pd, k);
      }
      if pd.fd in reported {
        EntryAnswered(b.data[pd.fd], pd, reported[pd.fd]);
      } else {
        NothingReported(pd);
      }
    }
  }

  lemma NothingReported(pd: Pollfd)
    ensures ByEvents(pd, {}, {})
  {
  }

  lemma DelGood(b: Book, pds: seq<Pollfd>, fired: map<int, set<Bit>>)
    requires Good(b) && Holds(b, fired) && InRange(b, pds) && Covers(b, pds)
    ensures var r := DelAll(b, pds, |pds|);
            && Good(r) && Holds(r, fired)
            && forall fd, k | 0 <= fd < |b.data| && 0 <= k < KINDS ::
                 Cnt(r.data[fd], k) == Cnt(b.data[fd], k) - Uses(pds, fd, k)
  {
    assert pds[..|pds|] == pds;
    var r := DelAll(b, pds, |pds|);
    forall fd, k | 0 <= fd < |b.data| && 0 <= k < KINDS
      ensures Cnt(r.data[fd], k) == Cnt(b.data[fd], k) - Uses(pds, fd, k)
    {
      DelAllCounts(b, pds, |pds|, fd, k);
    }
    forall fd | 0 <= fd < |b.data| ensures r.data[fd].revents == b.data[fd].revents {
      DelAllCounts(b, pds, |pds|, fd, 0);
    }
    DelAllKeeps(b, pds, |pds|);
    TrimmedGood(b, r);
  }

  // ---------- the event system ----------

  datatype Op = Add | Mod | Del

  datatype CtlResult = Done | Exists | Missing | Denied

  class EpollData {
    var fdData: seq<FdData>
    var evtlistSize: nat
    var evtlistCnt: int
    var ioQ: seq<PollQ>
    var interest: map<int, Events>   // the kernel's interest set

    constructor (size: nat)
      requires size > 0
      ensures Valid() && ioQ == []
    {
      fdData := seq(size, _ => ZERO);
      evtlistSize, evtlistCnt := size, 0;
      ioQ, interest := [], map[];
    }

    ghost function View(): Book
      reads this
    {
      Book(fdData, interest, evtlistCnt)
    }

    ghost predicate Valid()
      reads this, ioQ
    {
      && Good(View()) && AllIdle(View()) && TalliedBy(View(), ioQ) && evtlistSize > 0 && |fdData| > 0
      && (forall q | q in ioQ :: Queued(q, |fdData|))
      && (forall i, j | 0 <= i < j < |ioQ| :: ioQ[i] != ioQ[j])
    }

    /**
     epoll_ctl. The kernel adds the new descriptors in `admits`; it carries out every valid
     change of a known one.
     */
    method Ctl(op: Op, fd: int, events: Events, admits: set<int>) returns (r: CtlResult)
      modifies `interest
      ensures r == if op.Add? then (if fd in old(interest) then Exists else if fd !in admits then Denied else Done)
                   else if fd in old(interest) then Done else Missing
      ensures interest == if r != Done then old(interest) else if op.Del? then old(interest) - {fd}
              else old(interest)[fd := events]
    {
      if op.Add? {
        if fd in interest {
          return Exists;
        }
        if fd !in admits {
          return Denied;
        }
      } else if fd !in interest {
        return Missing;
      }
      interest := if op.Del? then interest - {fd} else interest[fd := events];
      return Done;
    }

    method DelOne(pd: Pollfd)
      requires 0 <= pd.fd < |fdData|
      modifies `fdData, `evtlistCnt, `interest
      ensures View() == DelStep(old(View()), pd)
    {
      var fd := pd.fd;
      var before := Mask(fdData[fd]);
      if In in pd.events {
        fdData := fdData[fd := fdData[fd].(rd := fdData[fd].rd - 1)];
      }
      if Out in pd.events {
        fdData := fdData[fd := fdData[fd].(wr := fdData[fd].wr - 1)];
      }
      if Pri in pd.events {
        fdData := fdData[fd := fdData[fd].(ex := fdData[fd].ex - 1)];
      }
      assert fdData == old(fdData)[fd := Plus(old(fdData)[fd], pd, -1)];
      var events := Mask(fdData[fd]);
      if events != before && fdData[fd].revents == {} {
        var op := if events != NONE then Mod else Del;
        var r := Ctl(op, fd, events, {});
        if r == Done && op == Del {
          evtlistCnt := evtlistCnt - 1;
        }
      }
    }

    method PollsetDel(pds: seq<Pollfd>)
      requires InRange(View(), pds)
      modifies `fdData, `evtlistCnt, `interest
      ensures View() == DelAll(old(View()), pds, |pds|)
    {
      for i := 0 to |pds|
        invariant View() == DelAll(old(View()), pds, i)
      {
        DelOne(pds[i]);
      }
    }

    /** Makes the descriptor data long enough for `maxfd`, unless the allocation fails. */
    method FdDataExpand(maxfd: int, allocates: bool) returns (ok: bool)
      requires |fdData| > 0
      modifies `fdData
      ensures ok == allocates && |fdData| >= |old(fdData)|
      ensures fdData[..|old(fdData)|] == old(fdData) && forall fd | |old(fdData)| <= fd < |fdData| :: fdData[fd] == ZERO
      ensures ok ==> maxfd < |fdData|
      ensures !ok ==> fdData == old(fdData)
    {
      var n := |fdData|;
      while maxfd >= n
        invariant n >= |fdData| > 0
      {
        n := 2 * n;
      }
      if !allocates {
        return false;
      }
      fdData := fdData + seq(n - |fdData|, _ => ZERO);
      return true;
    }

    method EvtlistExpand(allocates: bool)
      requires evtlistSize > 0
      modifies `evtlistSize
      ensures evtlistSize >= old(evtlistSize) && (allocates ==> evtlistCnt <= evtlistSize)
    {
      var n := evtlistSize;
      while evtlistCnt > n
        invariant n >= evtlistSize > 0
      {
        n := 2 * n;
      }
      if allocates {
        evtlistSize := n;
      }
    }

    /**
     Counts one entry and tells the kernel; refused exactly when the descriptor is new and the
     kernel does not admit it.
     */
    method AddOne(pd: Pollfd, allocates: bool, admits: set<int>) returns (ok: bool)
      requires Good(View()) && AllIdle(View()) && Acceptable(pd) && pd.fd < |fdData| && evtlistSize > 0
      modifies `fdData, `evtlistCnt, `interest, `evtlistSize
      ensures evtlistSize > 0 && (ok <==> Mask(old(fdData)[pd.fd]) != NONE || pd.fd in admits)
      ensures View() == if ok then AddStep(old(View()), pd)
                        else old(View()).(data := old(fdData)[pd.fd := Plus(old(fdData)[pd.fd], pd, 1)])
    {
      var fd := pd.fd;
      var before := Mask(fdData[fd]);
      if In in pd.events {
        fdData := fdData[fd := fdData[fd].(rd := fdData[fd].rd + 1)];
      }
      if Out in pd.events {
        fdData := fdData[fd := fdData[fd].(wr := fdData[fd].wr + 1)];
      }
      if Pri in pd.events {
        fdData := fdData[fd := fdData[fd].(ex := fdData[fd].ex + 1)];
      }
      assert fdData == old(fdData)[fd := Plus(old(fdData)[fd], pd, 1)];
      MaskGrows(old(fdData)[fd], pd);
      var events := Mask(fdData[fd]);
      if events != before {
        var op := if before != NONE then Mod else Add;
        var r := Ctl(op, fd, events, admits);
        if r != Done && (op != Add || r != Exists) {
          return false;
        }
        if op == Add {
          evtlistCnt := evtlistCnt + 1;
          if evtlistCnt > evtlistSize {
            EvtlistExpand(allocates);
          }
        }
      }
      return true;
    }

    /** The checks up front, which may lengthen the descriptor data. */
    method CheckUpFront(pds: seq<Pollfd>, allocates: bool) returns (ok: bool)
      requires |fdData| > 0
      modifies `fdData
      ensures |fdData| >= |old(fdData)| && View() == Extended(old(View()), |fdData|)
      ensures ok ==> AllAcceptable(pds, |fdData|)
      ensures ok <==> (forall pd | pd in pds :: Acceptable(pd)) && (allocates || AllAcceptable(pds, |old(fdData)|))
    {
      ghost var n := |fdData|;
      for i := 0 to |pds|
        invariant |fdData| >= n && fdData == old(fdData) + seq(|fdData| - n, _ => ZERO)
        invariant AllAcceptable(pds[..i], |fdData|) && (allocates || |fdData| == n)
      {
        var pd := pds[i];
        if pd.fd < 0 || pd.events == {} || !(pd.events <= {In, Out, Pri}) {
          assert pds[i] in pds && !Acceptable(pds[i]);
          return false;
        }
        if pd.fd >= |fdData| {
          var grown := FdDataExpand(pd.fd, allocates);
          if !grown {
            assert pds[i] in pds;
            return false;
          }
        }
      }
      assert pds[..|pds|] == pds;
      return true;
    }

    /** Takes back the first `n` entries after the last of them was refused. */
    method Rollback(pds: seq<Pollfd>, n: nat, ghost b: Book)
      requires 0 < n <= |pds| && Good(b) && AllIdle(b) && InRange(b, pds)
      requires Mask(AddAll(b, pds, n - 1).data[pds[n - 1].fd]) == NONE && View() == Refused(b, pds, n - 1)
      modifies `fdData, `evtlistCnt, `interest
      ensures View() == b
    {
      hide Loose;
      RollbackRestores(b, pds, n - 1);
      PollsetDel(pds[..n]);
    }

    /** Adds one more entry of a poll, or takes the whole poll back. */
    method AddNext(pds: seq<Pollfd>, i: nat, allocates: bool, admits: set<int>, ghost b: Book) returns (ok: bool)
      requires i < |pds| && Good(b) && AllIdle(b) && evtlistSize > 0 && AllAcceptable(pds, |b.data|)
      requires View() == AddAll(b, pds, i)
      modifies `fdData, `evtlistCnt, `interest, `evtlistSize
      ensures evtlistSize > 0 && (ok <==> Admissible(AddAll(b, pds, i), pds[i].fd, admits))
      ensures View() == if ok then AddAll(b, pds, i + 1) else b
    {
      hide Loose;
      AddAllKeeps(b, pds, i);
      ok := AddOne(pds[i], allocates, admits);
      if !ok {
        assert View() == Refused(b, pds, i);
        Rollback(pds, i + 1, b);
      }
    }

    /** The same, said of the state before the first entry. */
    method AddAfter(pds: seq<Pollfd>, i: nat, allocates: bool, admits: set<int>, ghost b: Book) returns (ok: bool)
      requires i < |pds| && Good(b) && AllIdle(b) && evtlistSize > 0 && AllAcceptable(pds, |b.data|)
      requires View() == AddAll(b, pds, i) && forall j | 0 <= j < i :: Admissible(b, pds[j].fd, admits)
      modifies `fdData, `evtlistCnt, `interest, `evtlistSize
      ensures evtlistSize > 0 && (ok <==> Admissible(b, pds[i].fd, admits))
      ensures View() == if ok then AddAll(b, pds, i + 1) else b
    {
      AdmissibleLater(b, pds, i, pds[i].fd, admits);
      ok := AddNext(pds, i, allocates, admits, b);
    }

    method AddEntries(pds: seq<Pollfd>, allocates: bool, admits: set<int>) returns (ok: bool)
      requires Good(View()) && AllIdle(View()) && evtlistSize > 0 && AllAcceptable(pds, |fdData|)
      modifies `fdData, `evtlistCnt, `interest, `evtlistSize
      ensures evtlistSize > 0
      ensures View() == if ok then AddAll(old(View()), pds, |pds|) else old(View())
      ensures ok <==> forall pd | pd in pds :: Admissible(old(View()), pd.fd, admits)
    {
      hide Good, AllIdle, Admissible;
      ghost var b := View();
      for i := 0 to |pds|
        invariant evtlistSize > 0 && View() == AddAll(b, pds, i)
        invariant forall j | 0 <= j < i :: Admissible(b, pds[j].fd, admits)
      {
        ok := AddAfter(pds, i, allocates, admits, b);
        if !ok {
          assert pds[i] in pds;
          return;
        }
      }
      ok := true;
    }

    /**
     Counts a poll and tells the kernel.  On any failure the counts, the interest set and
     its size are what they were.
     */
    method PollsetAdd(pds: seq<Pollfd>, allocates: bool, admits: set<int>) returns (ok: bool)
      requires Good(View()) && AllIdle(View()) && |fdData| > 0 && evtlistSize > 0
      modifies `fdData, `evtlistCnt, `interest, `evtlistSize
      ensures evtlistSize > 0 && |fdData| >= |old(fdData)|
      ensures !ok ==> View() == Extended(old(View()), |fdData|)
      ensures ok ==> AllAcceptable(pds, |fdData|) && View() == AddAll(Extended(old(View()), |fdData|), pds, |pds|)
      ensures ok <==> (forall pd | pd in pds :: Acceptable(pd)) && (allocates || AllAcceptable(pds, |old(fdData)|))
                      && forall pd | pd in pds :: Admissible(old(View()), pd.fd, admits)
    {
      ok := CheckUpFront(pds, allocates);
      if ok {
        ExtendedGood(old(View()), |fdData|);
        forall pd | pd in pds
          ensures Admissible(View(), pd.fd, admits) <==> Admissible(old(View()), pd.fd, admits)
        {
          ExtendedAdmissible(old(View()), |fdData|, pd.fd, admits);
        }
        ok := AddEntries(pds, allocates, admits);
      }
    }

    /** Puts a poll on the I/O queue, or leaves everything but the length of the descriptor data as it was. */
    method AddPoll(q: PollQ, allocates: bool, admits: set<int>) returns (ok: bool)
      requires Valid() && q !in ioQ && q.onIoq && |q.revents| == |q.pds|
      modifies `fdData, `evtlistCnt, `interest, `evtlistSize, `ioQ
      ensures Valid() && ioQ == if ok then old(ioQ) + [q] else old(ioQ)
      ensures !ok ==> interest == old(interest) && evtlistCnt == old(evtlistCnt)
      ensures ok <==> (forall pd | pd in q.pds :: 0 <= pd.fd && pd.events != {} && pd.events <= {In, Out, Pri})
                      && (allocates || AllAcceptable(q.pds, |old(fdData)|))
                      && forall pd | pd in q.pds :: Admissible(old(View()), pd.fd, admits)
    {
      ok := PollsetAdd(q.pds, allocates, admits);
      ghost var b := Extended(old(View()), |fdData|);
      ExtendedGood(old(View()), |fdData|);
      forall fd, k | 0 <= fd < |b.data| && 0 <= k < KINDS ensures Cnt(b.data[fd], k) == Total(ioQ, fd, k) {
        if fd >= |old(fdData)| { TotalOutside(ioQ, |old(fdData)|, fd, k); }
      }
      if ok {
        AddAllKeeps(b, q.pds, |q.pds|);
        TallyMore(b, ioQ, q);
        ioQ := ioQ + [q];
      }
    }

    /** Takes a poll that is still on the I/O queue off it. */
    method RemovePoll(q: PollQ)
      requires Valid() && q in ioQ
      modifies `fdData, `evtlistCnt, `interest, `ioQ
      ensures Valid() && q !in ioQ
      ensures exists i | 0 <= i < |old(ioQ)| :: old(ioQ)[i] == q && ioQ == old(ioQ)[..i] + old(ioQ)[i + 1..]
    {
      var i :| 0 <= i < |ioQ| && ioQ[i] == q;
      ghost var size := |fdData|;
      TallyLess(View(), ioQ, i);
      forall x | x in ioQ[..i] + ioQ[i + 1..]
          ensures x in ioQ && AllAcceptable(x.pds, size) && x.onIoq && |x.revents| == |x.pds| {
        assert x in ioQ;
      }
      ioQ := ioQ[..i] + ioQ[i + 1..];
      PollsetDel(q.pds);
      assert |View().data| == size;
    }

    /** Records the events that the kernel reports. */
    method MarkFired(evtlist: seq<int>, reported: map<int, set<Bit>>)
      requires Good(View()) && AllIdle(View()) && Reported(View(), evtlist, reported)
      modifies `fdData
      ensures Good(View()) && |fdData| == |old(fdData)| && Holds(View(), Fired(old(View()), reported))
      ensures SameCounts(old(View()), View())
    {
      hide Bits;
      ghost var b := View();
      for i := 0 to |evtlist|
        invariant |fdData| == |b.data| && Good(View())
        invariant forall fd | 0 <= fd < |fdData| ::
                    fdData[fd] == b.data[fd].(revents := if fd in evtlist[..i] then Recorded(b.data[fd], reported[fd])
                      else {})
      {
        var fd := evtlist[i];
        assert evtlist[..i + 1] == evtlist[..i] + [fd];
        var events := reported[fd];
        if Err in events || Hup in events {
          events := events + Bits(Mask(fdData[fd]));
        }
        MarkKeeps(View(), fd, events);
        fdData := fdData[fd := fdData[fd].(revents := events)];
      }
      assert evtlist[..|evtlist|] == evtlist;
    }

    /** Sets the answers of one poll; whether any is nonempty. */
    method Examine(q: PollQ, ghost fired: map<int, set<Bit>>) returns (notify: bool)
      requires AllAcceptable(q.pds, |fdData|) && Holds(View(), fired)
      modifies q`revents
      ensures |q.revents| == |q.pds| && forall i | 0 <= i < |q.pds| :: q.revents[i] == Answer(Polled(fired), q.pds[i])
      ensures notify <==> Fires(Polled(fired), q.pds)
    {
      var answers := [];
      notify := false;
      for i := 0 to |q.pds|
        invariant |answers| == i && forall n | 0 <= n < i :: answers[n] == Answer(Polled(fired), q.pds[n])
        invariant notify <==> Fires(Polled(fired), q.pds[..i])
      {
        var pd := q.pds[i];
        assert q.pds[..i + 1] == q.pds[..i] + [pd];
        var on, revents := fdData[pd.fd].revents, {};
        if on != {} {
          if In in pd.events && In in on {
            revents := revents + {In};
          }
          if Out in pd.events && Out in on {
            revents := revents + {Out};
          }
          if Pri in pd.events && Pri in on {
            revents := revents + {Pri};
          }
          if Err in on {
            revents := revents + {Err};
          }
          if Hup in on {
            revents := revents + {Hup};
          }
        }
        AnswerBits(fired, pd, on, revents);
        answers := answers + [revents];
        if revents != {} {
          notify := true;
        }
      }
      assert q.pds[..|q.pds|] == q.pds;
      q.revents := answers;
    }

    /** After `i` polls of a sweep the counts are those of the polls kept and of the ones to come. */
    ghost predicate SweptBooks(queue: seq<PollQ>, i: nat, kept: seq<PollQ>, fired: map<int, set<Bit>>, size: nat)
      requires i <= |queue|
      reads this
    {
      && Good(View()) && Holds(View(), fired) && |fdData| == size
      && (forall fd, k | 0 <= fd < |fdData| && 0 <= k < KINDS ::
           Cnt(fdData[fd], k) == Total(kept, fd, k) + TotalFrom(queue, i, fd, k))
    }

    /** Answers one queued poll; if it fires it is off the queue and its uses are taken back. */
    method SweepOne(q: PollQ, ghost fired: map<int, set<Bit>>) returns (notify: bool)
      requires Good(View()) && Holds(View(), fired) && Queued(q, |fdData|) && Covers(View(), q.pds)
      modifies `fdData, `evtlistCnt, `interest, q
      ensures Good(View()) && Holds(View(), fired) && |fdData| == |old(fdData)|
      ensures Answered(q, Polled(fired)) && (notify <==> Fires(Polled(fired), q.pds))
      ensures forall fd, k | 0 <= fd < |fdData| && 0 <= k < KINDS ::
                Cnt(fdData[fd], k) == Cnt(old(fdData)[fd], k) - if notify then Uses(q.pds, fd, k) else 0
    {
      notify := Examine(q, fired);
      if notify {
        q.onIoq := false;
        DelGood(View(), q.pds, fired);
        PollsetDel(q.pds);
      }
    }

    method SweepNext(queue: seq<PollQ>, i: nat, kept: seq<PollQ>, woken: seq<PollQ>, ghost fired: map<int, set<Bit>>,
                     ghost size: nat)
        returns (kept': seq<PollQ>, woken': seq<PollQ>)
      requires i < |queue| && SweptBooks(queue, i, kept, fired, size) && SweptPolls(Polled(fired), queue, i, size)
      requires SweptLists(Polled(fired), queue, i, kept, woken)
      requires forall n, m | 0 <= n < m < |queue| :: queue[n] != queue[m]
      modifies `fdData, `evtlistCnt, `interest, queue[i]
      ensures SweptBooks(queue, i + 1, kept', fired, size)
      ensures SweptPolls(Polled(fired), queue, i + 1, size)
      ensures SweptLists(Polled(fired), queue, i + 1, kept', woken')
    {
      hide Good, Holds, Answered, Queued, Polls.Fires;
      var q := queue[i];
      assert Queued(q, size);
      var notify := SweepOne(q, fired);
      if notify {
        kept', woken' := kept, woken + [q];
      } else {
        KeepOne(kept, q);
        kept', woken' := kept + [q], woken;
      }
    }

    method SweepAll(queue: seq<PollQ>, ghost fired: map<int, set<Bit>>, ghost size: nat)
        returns (kept: seq<PollQ>, woken: seq<PollQ>)
      requires SweptBooks(queue, 0, [], fired, size) && SweptPolls(Polled(fired), queue, 0, size)
      requires forall n, m | 0 <= n < m < |queue| :: queue[n] != queue[m]
      modifies `fdData, `evtlistCnt, `interest, queue
      ensures SweptBooks(queue, |queue|, kept, fired, size) && SweptPolls(Polled(fired), queue, |queue|, size)
      ensures SweptLists(Polled(fired), queue, |queue|, kept, woken)
    {
      kept, woken := [], [];
      for i := 0 to |queue|
        invariant SweptBooks(queue, i, kept, fired, size)
        invariant SweptPolls(Polled(fired), queue, i, size)
        invariant SweptLists(Polled(fired), queue, i, kept, woken)
      {
        kept, woken := SweepNext(queue, i, kept, woken, fired, size);
      }
    }

    /** Clears the events of the descriptors that fired and tells the kernel their masks. */
    method FinishFired(evtlist: seq<int>, ghost fired: map<int, set<Bit>>)
      requires Good(View()) && Holds(View(), fired)
      requires forall fd | fd in fired :: fd in evtlist && fired[fd] != {}
      requires forall i | 0 <= i < |evtlist| :: evtlist[i] in fired && 0 <= evtlist[i] < |fdData|
      requires forall i, j | 0 <= i < j < |evtlist| :: evtlist[i] != evtlist[j]
      modifies `fdData, `evtlistCnt, `interest
      ensures Good(View()) && AllIdle(View()) && SameCounts(old(View()), View())
    {
      hide Loose;
      ghost var b := View();
      for i := 0 to |evtlist|
        invariant Good(View()) && SameCounts(b, View())
        invariant forall fd | 0 <= fd < |fdData| ::
                  fdData[fd].revents == if fd in fired && fd !in evtlist[..i] then fired[fd] else {}
      {
        var fd := evtlist[i];
        assert evtlist[..i + 1] == evtlist[..i] + [fd] && fd !in evtlist[..i];
        FinishKeeps(View(), fd);
        FinishOne(fd);
      }
      assert evtlist[..|evtlist|] == evtlist;
    }

    method FinishOne(fd: int)
      requires 0 <= fd < |fdData|
      modifies `fdData, `evtlistCnt, `interest
      ensures View() == FinishStep(old(View()), fd)
    {
      fdData := fdData[fd := fdData[fd].(revents := {})];
      var events := Mask(fdData[fd]);
      var op := if events != NONE then Mod else Del;
      var r := Ctl(op, fd, events, {});
      if r == Done && op == Del {
        evtlistCnt := evtlistCnt - 1;
      }
    }

    /**
     What the idle thread does with the events that epoll_wait reports: queued polls get
     their answers, those that fire leave the queue, and the kernel is told the new masks.
     */
    method Dispatch(evtlist: seq<int>, reported: map<int, set<Bit>>) returns (woken: seq<PollQ>)
      requires Valid() && Reported(View(), evtlist, reported)
      modifies `fdData, `evtlistCnt, `interest, `ioQ, ioQ
      ensures Valid()
      ensures var v := Polled(Fired(old(View()), reported));
              && woken == Chosen(v, old(ioQ), |old(ioQ)|, true) && ioQ == Chosen(v, old(ioQ), |old(ioQ)|, false)
              && forall q | q in old(ioQ) :: Answered(q, v)
      ensures Parted(old(ioQ), woken, ioQ) && forall q | q in old(ioQ) :: AnsweredByEvents(q, reported)
    {
      hide Loose, Chosen, Parted, AnsweredByEvents;
      ghost var queue, size, fired := ioQ, |fdData|, Fired(View(), reported);
      FiredListed(View(), evtlist, reported);
      forall n | 0 <= n < |queue| ensures Queued(queue[n], size) {
        assert queue[n] in ioQ;
      }
      MarkFired(evtlist, reported);
      StartSweep(queue);
      ioQ, woken := SweepAll(ioQ, fired, size);
      FinishFired(evtlist, fired);
      StaysFrom(Polled(fired), queue);
      forall q | q in ioQ ensures Queued(q, |fdData|) {
        var n :| 0 <= n < |queue| && queue[n] == q;
        assert Answered(queue[n], Polled(fired));
      }
      SweepParts(Polled(fired), queue);
      forall q | q in queue ensures AnsweredByEvents(q, reported) {
        EventsAnswered(old(View()), queue, q, reported);
      }
    }

    /** Whether a descriptor may be closed: exactly when no queued poll names it. */
    method FdClose(fd: int) returns (ok: bool)
      requires Valid() && 0 <= fd < |fdData|
      ensures ok <==> !exists i :: 0 <= i < |ioQ| && Names(ioQ[i].pds, fd)
    {
      ok := fdData[fd].rd == 0 && fdData[fd].wr == 0 && fdData[fd].ex == 0;
      NamedIffUsed(ioQ, fd);
      assert Cnt(fdData[fd], 0) == Total(ioQ, fd, 0) && Cnt(fdData[fd], 1) == Total(ioQ, fd, 1)
          && Cnt(fdData[fd], 2) == Total(ioQ, fd, 2);
    }
  }
}
