/**
 The packet ring buffer: as an object whose fields the calls update, and as a protocol between
 one producer thread and one consumer coroutine whose loads and stores interleave freely.
 */
module RingBuffer {

  /** A packet pointer. */
  type Ptr = nat

  const NULL: Ptr := 0
  const MAX_RINGBUFFER_SIZE: nat := 1000
  const WRAP: nat := 0x1_0000_0000

  datatype Ret = BufNull | BufFull | BufEmpty | BufOk

  // ---------- positions ----------

  function Clamp(size: nat): (r: nat)
    ensures 0 < r <= MAX_RINGBUFFER_SIZE
  {
    if size == 0 || size >= MAX_RINGBUFFER_SIZE then MAX_RINGBUFFER_SIZE else size
  }

  function Next(i: nat, n: nat): (r: nat)
    requires i < n
    ensures r == if i + 1 == n then 0 else i + 1
  {
    (i + 1) % n
  }

  function Count(write: nat, read: nat, n: nat): (r: nat)
    requires write < n && read < n
    ensures r == if write >= read then write - read else write + n - read
  {
    ModOnce(write + n - read, n);
    (write + n - read) % n
  }

  lemma ModOnce(x: nat, n: nat)
    requires 0 < n && x < 2 * n
    ensures x % n == if x < n then x else x - n
  {
  }

  /** The slot `i` places after `read`. */
  function Pos(read: nat, i: nat, n: nat): (r: nat)
    requires read < n && i < n
    ensures r < n
  {
    if read + i < n then read + i else read + i - n
  }

  /** What the slots from `read` up to `write` hold, oldest first. */
  ghost function Queue(slots: seq<Ptr>, write: nat, read: nat, n: nat): (q: seq<Ptr>)
    requires write < n <= |slots| && read < n
    ensures |q| == Count(write, read, n)
  {
    seq(Count(write, read, n), i requires 0 <= i < Count(write, read, n) => slots[Pos(read, i, n)])
  }

  lemma QueuePush(slots: seq<Ptr>, write: nat, read: nat, n: nat)
    requires write < n <= |slots| && read < n && Next(write, n) != read
    ensures Queue(slots, Next(write, n), read, n) == Queue(slots, write, read, n) + [slots[write]]
  {
  }

  lemma QueuePop(slots: seq<Ptr>, write: nat, read: nat, n: nat)
    requires write < n <= |slots| && read < n && write != read
    ensures Queue(slots, write, read, n) == [slots[read]] + Queue(slots, write, Next(read, n), n)
  {
  }

  /** The free slot at `write` is not part of the queue. */
  lemma QueueStore(slots: seq<Ptr>, write: nat, read: nat, n: nat, p: Ptr)
    requires write < n <= |slots| && read < n
    ensures Queue(slots[write := p], write, read, n) == Queue(slots, write, read, n)
  {
  }

  lemma FullIff(write: nat, read: nat, n: nat)
    requires write < n && read < n
    ensures Next(write, n) == read <==> Count(write, read, n) == n - 1
  {
  }

  /** An unsigned counter plus one. */
  function Inc(x: nat): (r: nat)
    requires x < WRAP
    ensures r == if x + 1 == WRAP then 0 else x + 1
  {
    (x + 1) % WRAP
  }

  /** `len` is the difference of the counters but for their wrapping around. */
  ghost predicate Counted(len: nat, writes: nat, refused: nat, taken: nat) {
    && len < WRAP && writes < WRAP && refused < WRAP && taken < WRAP
    && var d := writes - refused - taken; (len == d || len == d + WRAP || len == d + 2 * WRAP)
  }

  lemma CountedIsModular(len: nat, writes: nat, refused: nat, taken: nat)
    requires len < WRAP && writes < WRAP && refused < WRAP && taken < WRAP
    ensures Counted(len, writes, refused, taken) <==> len == (writes - refused - taken) % WRAP
  {
  }

  lemma CountedSteps(len: nat, writes: nat, refused: nat, taken: nat)
    requires Counted(len, writes, refused, taken)
    ensures len > 0 ==> Counted(len - 1, writes, Inc(refused), taken)
    ensures len + 1 < WRAP ==> Counted(len + 1, Inc(writes), refused, taken)
    ensures len > 0 ==> Counted(len - 1, writes, refused, Inc(taken))
  {
  }

  // ---------- the object ----------

  class SrsRingBuffer {
    const slots: array<Ptr>
    const bufferSize: nat
    var write: nat
    var read: nat
    var writeCount: nat
    var readCount: nat
    var overwriteCnt: nat
    var isWrited: bool

    ghost predicate Valid()
      reads this, slots
    {
      && slots.Length == MAX_RINGBUFFER_SIZE && 0 < bufferSize <= MAX_RINGBUFFER_SIZE
      && write < bufferSize && read < bufferSize
      && NULL !in Contents()
      && Counted(|Contents()|, writeCount, overwriteCnt, readCount)
    }

    ghost function Contents(): seq<Ptr>
      requires slots.Length == MAX_RINGBUFFER_SIZE && write < bufferSize <= MAX_RINGBUFFER_SIZE && read < bufferSize
      reads this, slots
    {
      Queue(slots[..], write, read, bufferSize)
    }

    /** The fields, with neither side inside a call. */
    ghost function Fields(): Spsc
      reads this, slots
    {
      Spsc(slots[..], bufferSize, write, read, writeCount, overwriteCnt, readCount, Outside, Away, [], [])
    }

    constructor (size: nat)
      ensures Valid() && fresh(slots) && Contents() == []
      ensures bufferSize == if 1 <= size < 1000 then size else 1000
    {
      slots := new Ptr[MAX_RINGBUFFER_SIZE](_ => NULL);
      bufferSize := Clamp(size);
      write, read, writeCount, readCount, overwriteCnt, isWrited := 0, 0, 0, 0, 0, false;
    }

    method GetCount() returns (count: nat)
      requires Valid()
      ensures count == |Contents()|
    {
      count := Count(write, read, bufferSize);
    }

    /** Takes the oldest packet. */
    method ReadPacket() returns (ret: Ret, p: Ptr)
      requires Valid()
      modifies this`read, this`readCount
      ensures Valid() && ret in {BufOk, BufEmpty}
      ensures ret == BufEmpty <==> old(Contents()) == []
      ensures ret == BufEmpty ==> Contents() == old(Contents()) && readCount == old(readCount)
      ensures ret == BufOk ==> old(Contents()) == [p] + Contents() && p != NULL && readCount == Inc(old(readCount))
      ensures var (s, e) := ReadAlone(old(Fields()));
              Fields() == s.(taken := []) && e == if ret == BufOk then Pop(p) else Empty
    {
      hide ReadAlone;
      assert read != write ==> Contents()[0] == slots[read];
      ReadAloneIs(Fields());
      if read == write {
        return BufEmpty, NULL;
      }
      QueuePop(slots[..], write, read, bufferSize);
      CountedSteps(|Contents()|, writeCount, overwriteCnt, readCount);
      readCount := Inc(readCount);
      p := slots[read];
      assert p == Contents()[0];
      if p == NULL {
        return BufEmpty, p;
      }
      read := Next(read, bufferSize);
      return BufOk, p;
    }

    /** Looks at the oldest packet. */
    method ReadPacketTop() returns (ret: Ret, p: Ptr)
      requires Valid()
      ensures ret in {BufOk, BufEmpty}
      ensures ret == BufEmpty <==> Contents() == []
      ensures ret == BufOk ==> p == Contents()[0]
    {
      if read == write {
        return BufEmpty, NULL;
      }
      p := slots[read];
      assert p == Contents()[0];
      if p == NULL {
        return BufEmpty, p;
      }
      return BufOk, p;
    }

    /** Adds a packet; a full buffer counts it and changes nothing else. */
    method WritePacket(p: Ptr) returns (ret: Ret)
      requires Valid()
      modifies slots, this`write, this`writeCount, this`overwriteCnt, this`isWrited
      ensures Valid() && ret in {BufNull, BufFull, BufOk}
      ensures ret == BufNull <==> p == NULL
      ensures ret == BufFull <==> p != NULL && |old(Contents())| == bufferSize - 1
      ensures Contents() == if ret == BufOk then old(Contents()) + [p] else old(Contents())
      ensures writeCount == if p == NULL then old(writeCount) else Inc(old(writeCount))
      ensures overwriteCnt == if ret == BufFull then Inc(old(overwriteCnt)) else old(overwriteCnt)
      ensures isWrited <==> old(isWrited) || ret == BufOk
      ensures var (s, e) := WriteAlone(old(Fields()), p);
              Fields() == s.(accepted := []) && e == WriteEvent(ret, p)
    {
      hide WriteAlone, Count;
      WriteAloneIs(Fields(), p);
      if p == NULL {
        return BufNull;
      }
      FullIff(write, read, bufferSize);
      CountedSteps(|Contents()|, writeCount, overwriteCnt, readCount);
      writeCount := Inc(writeCount);
      if Next(write, bufferSize) == read {
        CountedSteps(|Contents()| + 1, writeCount, overwriteCnt, readCount);
        overwriteCnt := Inc(overwriteCnt);
        return BufFull;
      }
      Append(p);
      isWrited := true;
      return BufOk;
    }

    /** The two stores of a write that finds room. */
    method Append(p: Ptr)
      requires slots.Length == MAX_RINGBUFFER_SIZE && write < bufferSize <= MAX_RINGBUFFER_SIZE && read < bufferSize
      requires Next(write, bufferSize) != read
      modifies slots, this`write
      ensures write == Next(old(write), bufferSize) && slots[..] == old(slots[..])[old(write) := p]
      ensures Contents() == old(Contents()) + [p]
    {
      QueueStore(slots[..], write, read, bufferSize, p);
      ghost var before := slots[..];
      slots[write] := p;
      assert slots[..] == before[write := p];
      QueuePush(slots[..], write, read, bufferSize);
      write := Next(write, bufferSize);
    }

    /** Reads until nothing is left. */
    method Destroy()
      requires Valid()
      modifies this`read, this`readCount
      ensures Valid() && Contents() == []
    {
      while true
        invariant Valid()
        decreases |Contents()|
      {
        var ret, _ := ReadPacket();
        if ret != BufOk {
          break;
        }
      }
    }
  }

  // ---------- the condition on top of it ----------

  /** The first `n` packets, or all of them. */
  function FirstOf(q: seq<Ptr>, n: nat): (r: seq<Ptr>)
    ensures |r| == if |q| <= n then |q| else n
  {
    if |q| <= n then q else q[..n]
  }

  lemma FirstOfMore(q: seq<Ptr>, j: nat, n: nat)
    requires j < |q|
    ensures FirstOf(q[..j + 1], n) == var r := FirstOf(q[..j], n); if |r| < n then r + [q[j]] else r
  {
  }

  /** Nap `i` is the first one during which notifications arrive. */
  ghost predicate FirstNap(sleeps: seq<seq<Ptr>>, i: nat) {
    i < |sleeps| && sleeps[i] != [] && forall k | 0 <= k < i :: sleeps[k] == []
  }

  class StCondition {
    const ring: SrsRingBuffer

    ghost predicate Valid()
      reads this, ring, ring.slots
    {
      ring.Valid() && ring.bufferSize > 1
    }

    constructor (size: nat)
      requires size != 1
      ensures Valid() && fresh(ring) && fresh(ring.slots) && ring.Contents() == []
      ensures ring.bufferSize == if 2 <= size < 1000 then size else 1000
    {
      ring := new SrsRingBuffer(size);
    }

    /** Adds a notification; one that finds the buffer full is lost. */
    method Notify(p: Ptr)
      requires Valid() && p != NULL
      modifies ring, ring.slots
      ensures Valid()
      ensures var q := old(ring.Contents()); ring.Contents() == if |q| < ring.bufferSize - 1 then q + [p] else q
    {
      var _ := ring.WritePacket(p);
    }

    /** What is left when `arrived` fill the empty buffer and the oldest of them is taken. */
    ghost function AfterFirst(arrived: seq<Ptr>): seq<Ptr>
      requires arrived != [] && ring.bufferSize > 1
    {
      FirstOf(arrived, ring.bufferSize - 1)[1..]
    }

    /** The notifications of one nap, on an empty buffer. */
    method NotifyAll(arrived: seq<Ptr>)
      requires Valid() && ring.Contents() == [] && NULL !in arrived
      modifies ring, ring.slots
      ensures Valid() && ring.Contents() == FirstOf(arrived, ring.bufferSize - 1)
    {
      for j := 0 to |arrived|
        invariant Valid() && ring.Contents() == FirstOf(arrived[..j], ring.bufferSize - 1)
      {
        assert arrived[j] in arrived;
        FirstOfMore(arrived, j, ring.bufferSize - 1);
        Notify(arrived[j]);
      }
      assert arrived[..|arrived|] == arrived;
    }

    /**
     Polls until there is a notification.  `sleeps` are the notifications that arrive during
     each of the coming naps; the wait is abandoned when they run out.
     */
    method Wait(sleeps: seq<seq<Ptr>>) returns (done: bool, p: Ptr)
      requires Valid() && forall s, q | s in sleeps && q in s :: q != NULL
      modifies ring, ring.slots
      ensures Valid()
      ensures done <==> old(ring.Contents()) != [] || exists i :: 0 <= i < |sleeps| && sleeps[i] != []
      ensures done && old(ring.Contents()) != [] ==> old(ring.Contents()) == [p] + ring.Contents()
      ensures done && old(ring.Contents()) == [] ==>
                exists i :: 0 <= i < |sleeps| && FirstNap(sleeps, i) && p == sleeps[i][0] &&
                    ring.Contents() == AfterFirst(sleeps[i])
      ensures !done ==> ring.Contents() == []
    {
      var ret;
      ret, p := ring.ReadPacket();
      done := ret == BufOk;
      var i := 0;
      while !done && i < |sleeps|
        invariant Valid() && 0 <= i <= |sleeps|
        invariant !done ==> ring.Contents() == [] && old(ring.Contents()) == [] && forall k | 0 <= k < i ::
                  sleeps[k] == []
        invariant done && old(ring.Contents()) != [] ==> old(ring.Contents()) == [p] + ring.Contents()
        invariant done && old(ring.Contents()) == [] ==>
                    0 < i && FirstNap(sleeps, i - 1) && p == sleeps[i - 1][0] &&
                      ring.Contents() == AfterFirst(sleeps[i - 1])
      {
        done, p := Nap(sleeps[i]);
        i := i + 1;
      }
    }

    /** One nap, and a look at the buffer after it. */
    method Nap(arrived: seq<Ptr>) returns (done: bool, p: Ptr)
      requires Valid() && ring.Contents() == [] && NULL !in arrived
      modifies ring, ring.slots
      ensures Valid() && (done <==> arrived != [])
      ensures if done then p == arrived[0] && ring.Contents() == AfterFirst(arrived) else ring.Contents() == []
    {
      NotifyAll(arrived);
      ghost var held := ring.Contents();
      var ret;
      ret, p := ring.ReadPacket();
      done := ret == BufOk;
      assert done ==> held[0] == p && held[1..] == ring.Contents();
    }
  }

  // ---------- two threads ----------

  /** Where the producer is inside a write: past the count, past the room check, past the store. */
  datatype Producer = Outside | Entered(p: Ptr) | Room(p: Ptr) | Stored(p: Ptr)

  /** Where the consumer is inside a read: past the emptiness check, past the count, past the load. */
  datatype Consumer = Away | Saw | Reckoned | Loaded(p: Ptr)

  /** The shared fields, both program points, and what writes accepted and reads returned so far. */
  datatype Spsc = Spsc(slots: seq<Ptr>, n: nat, write: nat, read: nat, writeCount: nat, overwriteCnt: nat,
                       readCount: nat, producer: Producer, consumer: Consumer, accepted: seq<Ptr>, taken: seq<Ptr>)

  /** One atomic load or store of either side. */
  datatype Action = WriteCall(p: Ptr) | WriteCheck | WriteStore | WriteCommit | ReadCheck | ReadReckon | ReadLoad
      | ReadCommit

  datatype Event = Inner | NullRefused | Push(p: Ptr) | Reject(p: Ptr) | Pop(p: Ptr) | Empty

  ghost predicate Enabled(s: Spsc, a: Action) {
    match a
    case WriteCall(_) => s.producer.Outside?
    case WriteCheck => s.producer.Entered?
    case WriteStore => s.producer.Room?
    case WriteCommit => s.producer.Stored?
    case ReadCheck => s.consumer.Away?
    case ReadReckon => s.consumer.Saw?
    case ReadLoad => s.consumer.Reckoned?
    case ReadCommit => s.consumer.Loaded?
  }

  ghost predicate InRange(s: Spsc) {
    && 0 < s.n <= |s.slots| && s.write < s.n && s.read < s.n
    && s.writeCount < WRAP && s.overwriteCnt < WRAP && s.readCount < WRAP
  }

  /** The state after one action, and what the caller sees of it. */
  ghost function Step(s: Spsc, a: Action): (Spsc, Event)
    requires InRange(s) && Enabled(s, a)
  {
    match a
    case WriteCall(p) =>
      if p == NULL then (s, NullRefused) else (s.(producer := Entered(p), writeCount := Inc(s.writeCount)), Inner)
    case WriteCheck =>
      var p := s.producer.p;
      if Next(s.write, s.n) == s.read then (s.(producer := Outside, overwriteCnt := Inc(s.overwriteCnt)), Reject(p))
      else (s.(producer := Room(p)), Inner)
    case WriteStore =>
      var p := s.producer.p;
      (s.(producer := Stored(p), slots := s.slots[s.write := p]), Inner)
    case WriteCommit =>
      var p := s.producer.p;
      (s.(producer := Outside, write := Next(s.write, s.n), accepted := s.accepted + [p]), Push(p))
    case ReadCheck =>
      if s.read == s.write then (s, Empty) else (s.(consumer := Saw), Inner)
    case ReadReckon =>
      (s.(consumer := Reckoned, readCount := Inc(s.readCount)), Inner)
    case ReadLoad =>
      var p := s.slots[s.read];
      if p == NULL then (s.(consumer := Away), Empty) else (s.(consumer := Loaded(p)), Inner)
    case ReadCommit =>
      var p := s.consumer.p;
      (s.(consumer := Away, read := Next(s.read, s.n), taken := s.taken + [p]), Pop(p))
  }

  /** A write whose steps nothing interrupts. */
  ghost function WriteAlone(s: Spsc, p: Ptr): (Spsc, Event)
    requires InRange(s) && s.producer.Outside?
  {
    var (s1, e1) := Step(s, WriteCall(p));
    if e1 != Inner then (s1, e1)
    else
      var (s2, e2) := Step(s1, WriteCheck);
      if e2 != Inner then (s2, e2) else Step(Step(s2, WriteStore).0, WriteCommit)
  }

  /** A read whose steps nothing interrupts. */
  ghost function ReadAlone(s: Spsc): (Spsc, Event)
    requires InRange(s) && s.consumer.Away?
  {
    var (s1, e1) := Step(s, ReadCheck);
    if e1 != Inner then (s1, e1)
    else
      var (s2, e2) := Step(Step(s1, ReadReckon).0, ReadLoad);
      if e2 != Inner then (s2, e2) else Step(s2, ReadCommit)
  }

  lemma WriteAloneIs(s: Spsc, p: Ptr)
    requires InRange(s) && s.producer.Outside?
    ensures WriteAlone(s, p) ==
            if p == NULL then (s, NullRefused)
            else if Next(s.write, s.n) == s.read then
              (s.(writeCount := Inc(s.writeCount), overwriteCnt := Inc(s.overwriteCnt)), Reject(p))
            else
              (s.(writeCount := Inc(s.writeCount), slots := s.slots[s.write := p], write := Next(s.write, s.n),
                  accepted := s.accepted + [p]), Push(p))
  {
  }

  lemma ReadAloneIs(s: Spsc)
    requires InRange(s) && s.consumer.Away? && (s.read != s.write ==> s.slots[s.read] != NULL)
    ensures ReadAlone(s) ==
            if s.read == s.write then (s, Empty)
            else
              var p := s.slots[s.read];
              (s.(readCount := Inc(s.readCount), read := Next(s.read, s.n), taken := s.taken + [p]), Pop(p))
  {
  }

  /** The event that a result of a write means. */
  function WriteEvent(ret: Ret, p: Ptr): Event {
    match ret
    case BufNull => NullRefused
    case BufFull => Reject(p)
    case BufOk => Push(p)
    case BufEmpty => Inner
  }

  ghost function Held(s: Spsc): seq<Ptr>
    requires InRange(s)
  {
    Queue(s.slots, s.write, s.read, s.n)
  }

  /** The counts of calls still under way. */
  ghost function Pending(s: Spsc): int {
    (if s.producer.Outside? then 0 else 1) - if s.consumer.Reckoned? || s.consumer.Loaded? then 1 else 0
  }

  /** Nothing is lost, duplicated or reordered, and what each side has checked still holds. */
  ghost predicate Ordered(s: Spsc) {
    && InRange(s) && s.n <= MAX_RINGBUFFER_SIZE
    && s.accepted == s.taken + Held(s) && NULL !in Held(s)
    && (!s.producer.Outside? ==> s.producer.p != NULL)
    && (s.producer.Room? || s.producer.Stored? ==> Next(s.write, s.n) != s.read)
    && (s.producer.Stored? ==> s.slots[s.write] == s.producer.p)
    && (!s.consumer.Away? ==> s.read != s.write)
    && (s.consumer.Loaded? ==> s.slots[s.read] == s.consumer.p)
  }

  /** The wrapping counters agree with the length. */
  ghost predicate Tallied(s: Spsc)
    requires InRange(s)
  {
    |Held(s)| + Pending(s) >= 0 && Counted(|Held(s)| + Pending(s), s.writeCount, s.overwriteCnt, s.readCount)
  }

  ghost predicate Inv(s: Spsc) {
    Ordered(s) && Tallied(s)
  }

  /** A first-in first-out queue of capacity `n - 1`. */
  ghost predicate FifoStep(q: seq<Ptr>, q': seq<Ptr>, n: nat, e: Event) {
    match e
    case Push(p) => |q| < n - 1 && q' == q + [p]
    case Reject(_) => |q| == n - 1 && q' == q
    case Pop(p) => q == [p] + q'
    case Empty => q == [] && q' == q
    case _ => q' == q
  }

  /** How an event changes the length. */
  ghost function Growth(e: Event): int {
    if e.Push? then 1 else if e.Pop? then -1 else 0
  }

  ghost predicate Grows(s: Spsc, a: Action)
    requires InRange(s) && Enabled(s, a)
  {
    var (t, e) := Step(s, a);
    && InRange(t) && |Held(t)| == |Held(s)| + Growth(e) && (t.consumer.Away? || |Held(t)| > 0)
    && (a.ReadLoad? ==> t.consumer.Loaded?) && |Held(s)| < MAX_RINGBUFFER_SIZE
  }

  predicate ByProducer(a: Action) {
    a.WriteCall? || a.WriteCheck? || a.WriteStore? || a.WriteCommit?
  }

  lemma TallyWrite(s: Spsc, a: Action)
    requires InRange(s) && Tallied(s) && Enabled(s, a) && Grows(s, a) && ByProducer(a)
    ensures Tallied(Step(s, a).0)
  {
    hide Held;
    CountedSteps(|Held(s)| + Pending(s), s.writeCount, s.overwriteCnt, s.readCount);
  }

  lemma TallyRead(s: Spsc, a: Action)
    requires InRange(s) && Tallied(s) && Enabled(s, a) && Grows(s, a) && !ByProducer(a)
    ensures Tallied(Step(s, a).0)
  {
    CountedSteps(|Held(s)| + Pending(s), s.writeCount, s.overwriteCnt, s.readCount);
  }

  lemma CommitWrite(s: Spsc)
    requires Ordered(s) && s.producer.Stored?
    ensures var (t, e) := Step(s, WriteCommit); Ordered(t) && FifoStep(Held(s), Held(t), s.n, e)
  {
    QueuePush(s.slots, s.write, s.read, s.n);
    FullIff(s.write, s.read, s.n);
    assert (s.taken + Held(s)) + [s.producer.p] == s.taken + (Held(s) + [s.producer.p]);
  }

  lemma CommitRead(s: Spsc)
    requires Ordered(s) && s.consumer.Loaded?
    ensures var (t, e) := Step(s, ReadCommit); Ordered(t) && FifoStep(Held(s), Held(t), s.n, e)
  {
    QueuePop(s.slots, s.write, s.read, s.n);
    var (t, e) := Step(s, ReadCommit);
    assert s.taken + ([s.consumer.p] + Held(t)) == (s.taken + [s.consumer.p]) + Held(t);
    assert forall i | 0 <= i < |Held(t)| :: Held(t)[i] == Held(s)[i + 1];
  }

  lemma StoreWrite(s: Spsc)
    requires Ordered(s) && s.producer.Room?
    ensures var (t, e) := Step(s, WriteStore); Ordered(t) && FifoStep(Held(s), Held(t), s.n, e)
  {
    QueueStore(s.slots, s.write, s.read, s.n, s.producer.p);
  }

  lemma LoadRead(s: Spsc)
    requires Ordered(s) && s.consumer.Reckoned?
    ensures var (t, e) := Step(s, ReadLoad); Ordered(t) && FifoStep(Held(s), Held(t), s.n, e) && t.consumer.Loaded?
  {
    assert Held(s)[0] == s.slots[s.read];
  }

  lemma OrderKept(s: Spsc, a: Action)
    requires Ordered(s) && Enabled(s, a)
    ensures var (t, e) := Step(s, a); Ordered(t) && FifoStep(Held(s), Held(t), s.n, e)
  {
    match a
    case WriteStore => StoreWrite(s);
    case WriteCommit => CommitWrite(s);
    case ReadLoad => LoadRead(s);
    case ReadCommit => CommitRead(s);
    case WriteCheck => FullIff(s.write, s.read, s.n);
    case _ =>
  }

  /** Every atomic step keeps the invariant and is a step of the queue, or none. */
  lemma StepRefines(s: Spsc, a: Action)
    requires Inv(s) && Enabled(s, a)
    ensures Inv(Step(s, a).0) && Step(s, a).0.n == s.n
    ensures FifoStep(Held(s), Held(Step(s, a).0), s.n, Step(s, a).1)
  {
    OrderKept(s, a);
    if a.ReadLoad? { LoadRead(s); }
    if ByProducer(a) { TallyWrite(s, a); } else { TallyRead(s, a); }
  }

  // ---------- runs ----------

  ghost predicate Initial(s: Spsc) {
    && InRange(s) && s.n <= MAX_RINGBUFFER_SIZE && s.write == 0 && s.read == 0
    && s.writeCount == 0 && s.overwriteCnt == 0 && s.readCount == 0
    && s.producer == Outside && s.consumer == Away && s.accepted == [] && s.taken == []
  }

  /** A run: any interleaving of both sides' steps, with the event of each. */
  ghost predicate IsRun(ss: seq<Spsc>, actions: seq<Action>, events: seq<Event>) {
    && |ss| == |actions| + 1 == |events| + 1 && Initial(ss[0])
    && forall i | 0 <= i < |actions| :: InRange(ss[i]) && Enabled(ss[i], actions[i]) && (ss[i + 1], events[i]) ==
         Step(ss[i], actions[i])
  }

  /** The packets pushed by a sequence of events, in order. */
  ghost function Pushed(events: seq<Event>): seq<Ptr> {
    if events == [] then []
    else
      var e := events[|events| - 1];
      Pushed(events[..|events| - 1]) + if e.Push? then [e.p] else []
  }

  ghost function Popped(events: seq<Event>): seq<Ptr> {
    if events == [] then []
    else
      var e := events[|events| - 1];
      Popped(events[..|events| - 1]) + if e.Pop? then [e.p] else []
  }

  lemma {:induction false} RunInv(ss: seq<Spsc>, actions: seq<Action>, events: seq<Event>, i: nat)
    requires IsRun(ss, actions, events) && i <= |actions|
    ensures Inv(ss[i]) && ss[i].n == ss[0].n
  {
    if i > 0 {
      RunInv(ss, actions, events, i - 1);
      StepRefines(ss[i - 1], actions[i - 1]);
    }
  }

  /** Every step of a run is a step of the bounded queue: the buffer refines it under the mapping `Held`. */
  lemma RunRefines(ss: seq<Spsc>, actions: seq<Action>, events: seq<Event>, i: nat)
    requires IsRun(ss, actions, events) && i < |actions|
    ensures Inv(ss[i]) && Inv(ss[i + 1]) && Held(ss[0]) == []
    ensures FifoStep(Held(ss[i]), Held(ss[i + 1]), ss[0].n, events[i])
  {
    RunInv(ss, actions, events, i);
    RunInv(ss, actions, events, i + 1);
    StepRefines(ss[i], actions[i]);
  }

  lemma StepHistory(s: Spsc, a: Action)
    requires InRange(s) && Enabled(s, a)
    ensures var (t, e) := Step(s, a);
            && t.accepted == s.accepted + (if e.Push? then [e.p] else [])
            && t.taken == s.taken + (if e.Pop? then [e.p] else [])
  {
  }

  lemma {:induction false} RunHistory(ss: seq<Spsc>, actions: seq<Action>, events: seq<Event>, i: nat)
    requires IsRun(ss, actions, events) && i <= |actions|
    ensures ss[i].accepted == Pushed(events[..i]) && ss[i].taken == Popped(events[..i])
  {
    if i > 0 {
      RunHistory(ss, actions, events, i - 1);
      StepHistory(ss[i - 1], actions[i - 1]);
      assert events[..i][..i - 1] == events[..i - 1];
    }
  }

  /**
   What was accepted is what was returned followed by what is held: nothing is lost,
   duplicated or reordered, and between calls the length is what the counters say.
   */
  lemma RunConserves(ss: seq<Spsc>, actions: seq<Action>, events: seq<Event>)
    requires IsRun(ss, actions, events)
    ensures var s := ss[|actions|];
            && InRange(s) && Pushed(events) == Popped(events) + Held(s) && |Held(s)| <= ss[0].n - 1
            && (s.producer.Outside? && (s.consumer.Away? || s.consumer.Saw?) ==>
                  |Held(s)| == Count(s.write, s.read, s.n) == (s.writeCount - s.overwriteCnt - s.readCount) % WRAP)
  {
    RunInv(ss, actions, events, |actions|);
    RunHistory(ss, actions, events, |actions|);
    assert events[..|actions|] == events;
    var s := ss[|actions|];
    CountedIsModular(|Held(s)|, s.writeCount, s.overwriteCnt, s.readCount);
  }

  /** A completed wait is a pop and an accepted notification a push: the waits never outnumber the notifications. */
  lemma WaitsMatchNotifies(ss: seq<Spsc>, actions: seq<Action>, events: seq<Event>)
    requires IsRun(ss, actions, events)
    ensures Popped(events) <= Pushed(events) && |Pushed(events)| - |Popped(events)| < ss[0].n
  {
    RunConserves(ss, actions, events);
  }
}
