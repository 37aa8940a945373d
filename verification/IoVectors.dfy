/**
 Vectored I/O that goes on until every byte is through, for any fragmentation by the kernel.
 A vector is a stretch of addresses; the kernel's answers to the coming calls are scripts.
 */
module IoVectors {
  import opened Sequences

  datatype Iovec = Iovec(base: nat, len: nat)

  datatype Errno = EINTR | EAGAIN | EOTHER

  /** An error that ends a loop; after EINTR and EAGAIN it goes on. */
  predicate Hard(e: Errno) {
    e != EINTR && e != EAGAIN
  }

  datatype WriteReply = Wrote(n: nat) | WriteFailed(e: Errno)

  datatype ReadReply = Got(data: seq<bv8>) | ReadFailed(e: Errno)

  const LOCAL_MAXIOV: nat := 16

  // ---------- addresses ----------

  /** The addresses of one vector, in order. */
  function Span(v: Iovec): (r: seq<int>)
    ensures |r| == v.len
  {
    seq(v.len, i => v.base + i)
  }

  /** The addresses that `size` vectors from the one at `first` on name, in order. */
  function Spans(vs: seq<Iovec>, first: nat, size: nat): seq<int>
    requires first + size <= |vs|
    decreases size
  {
    if size == 0 then [] else Span(vs[first]) + Spans(vs, first + 1, size - 1)
  }

  lemma {:induction false} SpansSame(vs: seq<Iovec>, ws: seq<Iovec>, first: nat, size: nat)
    requires first + size <= |vs| && first + size <= |ws|
    requires forall k | first <= k < first + size :: vs[k] == ws[k]
    ensures Spans(vs, first, size) == Spans(ws, first, size)
    decreases size
  {
    if size > 0 {
      SpansSame(vs, ws, first + 1, size - 1);
    }
  }

  ghost predicate InMemory(mem: seq<bv8>, addrs: seq<int>) {
    forall i | 0 <= i < |addrs| :: 0 <= addrs[i] < |mem|
  }

  /** The bytes at `addrs`. */
  function Load(mem: seq<bv8>, addrs: seq<int>): (r: seq<bv8>)
    requires InMemory(mem, addrs)
    ensures |r| == |addrs|
  {
    seq(|addrs|, i requires 0 <= i < |addrs| => mem[addrs[i]])
  }

  /** Memory after `data` is stored at `addrs`, one byte after another. */
  function Store(mem: seq<bv8>, addrs: seq<int>, data: seq<bv8>): (r: seq<bv8>)
    requires InMemory(mem, addrs) && |data| == |addrs|
    ensures |r| == |mem|
    decreases |addrs|
  {
    if addrs == [] then mem else Store(mem[addrs[0] := data[0]], addrs[1..], data[1..])
  }

  lemma {:induction false} StoreMore(mem: seq<bv8>, a: seq<int>, d: seq<bv8>, b: seq<int>, e: seq<bv8>)
    requires InMemory(mem, a) && InMemory(mem, b) && |a| == |d| && |b| == |e|
    ensures InMemory(mem, a + b) && Store(mem, a + b, d + e) == Store(Store(mem, a, d), b, e)
    decreases |a|
  {
    if a == [] {
      assert a + b == b && d + e == e;
    } else {
      StoreMore(mem[a[0] := d[0]], a[1..], d[1..], b, e);
      assert (a + b)[1..] == a[1..] + b && (d + e)[1..] == d[1..] + e;
    }
  }

  /** Stored bytes are found again when no address is used twice. */
  lemma {:induction false} StoreLoad(mem: seq<bv8>, addrs: seq<int>, data: seq<bv8>)
    requires InMemory(mem, addrs) && |data| == |addrs|
    requires forall i, j | 0 <= i < j < |addrs| :: addrs[i] != addrs[j]
    ensures Load(Store(mem, addrs, data), addrs) == data
    ensures forall x | 0 <= x < |mem| && x !in addrs :: Store(mem, addrs, data)[x] == mem[x]
    decreases |addrs|
  {
    if addrs != [] {
      var rest := addrs[1..];
      StoreLoad(mem[addrs[0] := data[0]], rest, data[1..]);
      var after := Store(mem, addrs, data);
      assert addrs[0] !in rest;
      assert after[addrs[0]] == data[0];
      forall i | 0 <= i < |addrs| ensures Load(after, addrs)[i] == data[i] {
        if i > 0 { assert Load(after, rest)[i - 1] == data[1..][i - 1]; }
      }
    }
  }

  lemma LoadMore(mem: seq<bv8>, a: seq<int>, b: seq<int>)
    requires InMemory(mem, a) && InMemory(mem, b)
    ensures InMemory(mem, a + b) && Load(mem, a + b) == Load(mem, a) + Load(mem, b)
  {
  }

  // ---------- the kernel ----------

  /** A descriptor, and the process memory that its vectors point into. */
  class Descriptor {
    var mem: seq<bv8>
    var sent: seq<bv8>                 // the bytes the kernel has accepted
    var received: seq<bv8>             // the bytes it has delivered
    ghost var ends: nat                // how many reads have met the end of the stream
    ghost var faults: nat              // how many calls failed for good: other errors than EINTR and EAGAIN, and polls
    ghost var stalls: nat              // how many calls did less than asked for: EAGAIN, or part of the bytes
    ghost var polls: nat               // how often the caller has waited until the descriptor is ready
    var writeReplies: seq<WriteReply>  // its answers to the coming calls; an exhausted script fails
    var readReplies: seq<ReadReply>
    var pollReplies: seq<bool>

    constructor (mem: seq<bv8>, writeReplies: seq<WriteReply>, readReplies: seq<ReadReply>, pollReplies: seq<bool>)
      ensures this.mem == mem && sent == [] && received == []
      ensures this.writeReplies == writeReplies && this.readReplies == readReplies && this.pollReplies == pollReplies
    {
      this.mem, sent, received := mem, [], [];
      ends, faults, stalls, polls := 0, 0, 0, 0;
      this.writeReplies, this.readReplies, this.pollReplies := writeReplies, readReplies, pollReplies;
    }

    /** `write` and `writev`: takes some of the bytes, from the front. */
    method WriteV(addrs: seq<int>) returns (reply: WriteReply)
      requires InMemory(mem, addrs)
      modifies `writeReplies, `sent, `faults, `stalls
      ensures faults == old(faults) + (if reply.WriteFailed? && Hard(reply.e) then 1 else 0)
      ensures stalls == old(stalls) +
                (if reply == WriteFailed(EAGAIN) || (reply.Wrote? && reply.n < |addrs|) then 1 else 0)
      ensures |writeReplies| < |old(writeReplies)| || reply == WriteFailed(EOTHER)
      ensures reply.WriteFailed? ==> sent == old(sent)
      ensures reply.Wrote? ==> reply.n <= |addrs| && sent == old(sent) + Load(mem, addrs[..reply.n])
    {
      if writeReplies == [] {
        faults := faults + 1;
        return WriteFailed(EOTHER);
      }
      reply := writeReplies[0];
      writeReplies := writeReplies[1..];
      if reply.Wrote? {
        if reply.n > |addrs| {
          reply := Wrote(|addrs|);
        }
        sent := sent + Load(mem, addrs[..reply.n]);
      }
      faults := faults + if reply.WriteFailed? && Hard(reply.e) then 1 else 0;
      stalls := stalls + if reply == WriteFailed(EAGAIN) || (reply.Wrote? && reply.n < |addrs|) then 1 else 0;
    }

    /**
     `read` and `readv`: fills the vectors from the front; nothing for a nonempty request is the
     end of the stream.
     */
    method ReadV(addrs: seq<int>) returns (reply: ReadReply)
      requires InMemory(mem, addrs)
      modifies `readReplies, `received, `mem, `ends, `faults, `stalls
      ensures faults == old(faults) + (if reply.ReadFailed? && Hard(reply.e) then 1 else 0)
      ensures stalls == old(stalls) +
                (if reply == ReadFailed(EAGAIN) || (reply.Got? && 0 < |reply.data| < |addrs|) then 1 else 0)
      ensures |readReplies| < |old(readReplies)| || reply == ReadFailed(EOTHER)
      ensures reply.ReadFailed? ==> received == old(received) && mem == old(mem)
      ensures reply.Got? ==> |reply.data| <= |addrs| && received == old(received) + reply.data
      ensures reply.Got? ==> mem == Store(old(mem), addrs[..|reply.data|], reply.data)
      ensures ends == old(ends) + if reply.Got? && reply.data == [] && addrs != [] then 1 else 0
      ensures |mem| == |old(mem)|
    {
      if readReplies == [] {
        faults := faults + 1;
        return ReadFailed(EOTHER);
      }
      reply := readReplies[0];
      readReplies := readReplies[1..];
      if reply.Got? {
        if |reply.data| > |addrs| {
          reply := Got(reply.data[..|addrs|]);
        }
        mem := Store(mem, addrs[..|reply.data|], reply.data);
        received := received + reply.data;
      }
      ends := ends + if reply.Got? && reply.data == [] && addrs != [] then 1 else 0;
      faults := faults + if reply.ReadFailed? && Hard(reply.e) then 1 else 0;
      stalls := stalls + if reply == ReadFailed(EAGAIN) || (reply.Got? && 0 < |reply.data| < |addrs|) then 1 else 0;
    }

    /** Waits until the descriptor is ready; fails on a timeout or an interrupt. */
    method Poll() returns (ok: bool)
      modifies `pollReplies, `faults, `polls
      ensures ok <==> old(pollReplies) != [] && old(pollReplies)[0]
      ensures polls == old(polls) + 1 && faults == old(faults) + if ok then 0 else 1
    {
      polls, ok := polls + 1, false;
      if pollReplies != [] {
        ok, pollReplies := pollReplies[0], pollReplies[1..];
      }
      faults := faults + if ok then 0 else 1;
    }
  }

  // ---------- advancing over the vectors ----------

  /** The vectors before `first` are used up. */
  ghost predicate UsedUp(vs: seq<Iovec>, start: nat, first: nat)
    requires first <= |vs|
  {
    forall k | start <= k < first :: vs[k].len == 0
  }

  lemma SkipInto(all: seq<int>, k: nat, a: seq<int>, b: seq<int>, j: nat)
    requires k <= |all| && all[k..] == a + b && j <= |a|
    ensures all[k + j..] == a[j..] + b
    ensures j == |a| ==> all[k + j..] == b
  {
  }

  lemma {:induction false} SpansSuffix(vs: seq<Iovec>, first: nat, first': nat, size: nat)
    requires first <= first' <= first + size <= |vs|
    ensures var rest := Spans(vs, first', first + size - first');
            |rest| <= |Spans(vs, first, size)| && Spans(vs, first, size)[|Spans(vs, first, size)| - |rest|..] == rest
    decreases size
  {
    if first < first' {
      SpansSuffix(vs, first + 1, first', size - 1);
      SkipInto(Spans(vs, first, size), 0, Span(vs[first]), Spans(vs, first + 1, size - 1), vs[first].len);
    }
  }

  /** The loop over the vectors that the `done` bytes use up; `n` bytes are left for the vector after them. */
  method SkipUsed(iov: array<Iovec>, start: nat, first: nat, size: nat, done: nat)
      returns (first': nat, size': nat, n: nat)
    requires 0 < size && start <= first && first + size <= iov.Length && UsedUp(iov[..], start, first)
    requires done <= |Spans(iov[..], first, size)|
    modifies iov
    ensures first <= first' && first' + size' == first + size && UsedUp(iov[..], start, first')
    ensures forall k | first' <= k < iov.Length :: iov[k] == old(iov[k])
    ensures |Spans(old(iov[..]), first', size')| + done - n == |Spans(old(iov[..]), first, size)|
    ensures if size' > 0 then n <= iov[first'].len else n == 0
    ensures first' == first ==> n == done < iov[first].len
  {
    ghost var vs := iov[..];
    first', size', n := first, size, done;
    while n >= iov[first'].len
      invariant 0 < size' && first <= first' && first' + size' == first + size
      invariant forall k | first' <= k < iov.Length :: iov[k] == vs[k]
      invariant |Spans(vs, first', size')| + done - n == |Spans(vs, first, size)|
      invariant UsedUp(iov[..], start, first')
      invariant first' == first ==> n == done
      decreases size'
    {
      var v := iov[first'];
      n := n - v.len;
      iov[first'] := Iovec(v.base + v.len, 0);
      first', size' := first' + 1, size' - 1;
      if n == 0 {
        break;
      }
    }
  }

  /** Moves `done` bytes on: what is left is the old rest without its first `done` addresses. */
  method Advance(iov: array<Iovec>, start: nat, first: nat, size: nat, done: nat) returns (first': nat, size': nat)
    requires 0 < size && start <= first && first + size <= iov.Length && UsedUp(iov[..], start, first)
    requires done <= |Spans(iov[..], first, size)|
    modifies iov
    ensures first <= first' && first' + size' == first + size && UsedUp(iov[..], start, first')
    ensures Spans(iov[..], first', size') == old(Spans(iov[..], first, size))[done..]
    ensures size' == size ==> done < old(iov[first].len)
  {
    hide Spans, Span;
    ghost var vs := iov[..];
    var n;
    first', size', n := SkipUsed(iov, start, first, size, done);
    SpansSuffix(vs, first, first', size);
    SpansSame(vs, iov[..], first', size');
    if size' > 0 {
      Trim(iov, first', size', n);
    }
    DropTwice(Spans(vs, first, size), done - n, n);
  }

  lemma DropTwice(s: seq<int>, a: nat, b: nat)
    requires a + b <= |s|
    ensures s[a..][b..] == s[a + b..]
  {
  }

  /** Takes `n` bytes off the front of one vector. */
  method Trim(iov: array<Iovec>, first: nat, size: nat, n: nat)
    requires 0 < size && first + size <= iov.Length && n <= iov[first].len
    modifies iov
    ensures Spans(iov[..], first, size) == old(Spans(iov[..], first, size))[n..]
    ensures forall k | 0 <= k < iov.Length && k != first :: iov[k] == old(iov[k])
  {
    var v := iov[first];
    iov[first] := Iovec(v.base + n, v.len - n);
    SpansSame(old(iov[..]), iov[..], first + 1, size - 1);
    assert Span(iov[first]) == Span(v)[n..];
  }

  /** The bytes at `done`, the addresses of `all` before `rest`, went out in order. */
  ghost predicate Delivered(mem: seq<bv8>, sent0: seq<bv8>, sent: seq<bv8>, all: seq<int>, done: seq<int>,
                            rest: seq<int>) {
    all == done + rest && InMemory(mem, done) && InMemory(mem, rest) && sent == sent0 + Load(mem, done)
  }

  lemma DeliveredNone(mem: seq<bv8>, sent: seq<bv8>, all: seq<int>)
    requires InMemory(mem, all)
    ensures Delivered(mem, sent, sent, all, [], all)
  {
  }

  lemma RestInMemory(mem: seq<bv8>, sent0: seq<bv8>, sent: seq<bv8>, all: seq<int>, done: seq<int>, rest: seq<int>)
    requires Delivered(mem, sent0, sent, all, done, rest)
    ensures InMemory(mem, rest)
  {
  }

  lemma DeliveredMore(mem: seq<bv8>, sent0: seq<bv8>, sent1: seq<bv8>, all: seq<int>, done: seq<int>, rest: seq<int>,
                      n: nat)
    requires Delivered(mem, sent0, sent1, all, done, rest) && n <= |rest|
    ensures Delivered(mem, sent0, sent1 + Load(mem, rest[..n]), all, done + rest[..n], rest[n..])
  {
    LoadMore(mem, done, rest[..n]);
    Associates(sent0, Load(mem, done), Load(mem, rest[..n]));
    Associates(done, rest[..n], rest[n..]);
    assert rest == rest[..n] + rest[n..];
  }

  /** Writes until no vector is left; the vectors are moved on over what was written. */
  method WriteVResid(fd: Descriptor, iov: array<Iovec>, first: nat, size: nat)
      returns (ok: bool, first': nat, size': nat, ghost done: seq<int>)
    requires first + size <= iov.Length && InMemory(fd.mem, Spans(iov[..], first, size))
    modifies iov, fd`writeReplies, fd`sent, fd`pollReplies, fd`faults, fd`stalls, fd`polls
    ensures first <= first' && first' + size' == first + size && (ok <==> size' == 0)
    ensures Delivered(fd.mem, old(fd.sent), fd.sent, old(Spans(iov[..], first, size)), done,
            Spans(iov[..], first', size'))
    ensures UsedUp(iov[..], first, first')
    ensures size' == size == 1 && iov[first].len == 0 ==> old(iov[first].len) == 0
    ensures fd.faults >= old(fd.faults) && (!ok <==> fd.faults > old(fd.faults))
    ensures fd.polls - old(fd.polls) >= fd.stalls - old(fd.stalls)
  {
    hide Delivered, Load, Span, InMemory;
    ghost var all := Spans(iov[..], first, size);
    DeliveredNone(fd.mem, fd.sent, all);
    first', size', done := first, size, [];
    while size' > 0
      invariant first <= first' && first' + size' == first + size
      invariant Delivered(fd.mem, old(fd.sent), fd.sent, all, done, Spans(iov[..], first', size'))
      invariant UsedUp(iov[..], first, first')
      invariant size' == size == 1 && iov[first].len == 0 ==> old(iov[first].len) == 0
      invariant fd.faults == old(fd.faults) && fd.polls - old(fd.polls) >= fd.stalls - old(fd.stalls)
      decreases |fd.writeReplies|
    {
      ghost var sent1, rest := fd.sent, Spans(iov[..], first', size');
      RestInMemory(fd.mem, old(fd.sent), sent1, all, done, rest);
      var reply := fd.WriteV(Spans(iov[..], first', size'));
      if reply.WriteFailed? {
        if reply.e == EINTR {
          continue;
        }
        if reply.e != EAGAIN {
          return false, first', size', done;
        }
      } else {
        DeliveredMore(fd.mem, old(fd.sent), sent1, all, done, rest, reply.n);
        done := done + rest[..reply.n];
        first', size' := Advance(iov, first, first', size', reply.n);
        if size' == 0 {
          break;
        }
      }
      var ready := fd.Poll();
      if !ready {
        return false, first', size', done;
      }
    }
    return true, first', size', done;
  }

  lemma OneSpan(vs: seq<Iovec>)
    requires |vs| == 1
    ensures Spans(vs, 0, 1) == Span(vs[0])
  {
    assert Spans(vs, 1, 0) == [];
  }

  lemma OneLeft(vs: seq<Iovec>, first: nat, size: nat)
    requires |vs| == 1 && first + size == 1 && UsedUp(vs, 0, first)
    ensures |Spans(vs, first, size)| == vs[0].len
  {
    OneSpan(vs);
    assert first == 1 ==> vs[0].len == 0;
  }

  /** One buffer; returns how much of it is left. */
  method WriteResid(fd: Descriptor, buf: nat, resid: nat)
      returns (ok: bool, resid': nat, ghost done: seq<int>, ghost rest: seq<int>)
    requires InMemory(fd.mem, Span(Iovec(buf, resid)))
    modifies fd`writeReplies, fd`sent, fd`pollReplies, fd`faults, fd`stalls, fd`polls
    ensures Delivered(fd.mem, old(fd.sent), fd.sent, Span(Iovec(buf, resid)), done, rest) && |rest| == resid'
    ensures (ok ==> resid' == 0) && (!ok && resid' == 0 ==> resid == 0)
    ensures fd.faults >= old(fd.faults) && (!ok <==> fd.faults > old(fd.faults))
    ensures fd.polls - old(fd.polls) >= fd.stalls - old(fd.stalls)
  {
    var iov := new Iovec[1](_ => Iovec(buf, resid));
    OneSpan(iov[..]);
    var first', size';
    ok, first', size', done := WriteVResid(fd, iov, 0, 1);
    OneLeft(iov[..], first', size');
    rest := Spans(iov[..], first', size');
    resid' := iov[0].len;
  }

  /** A prefix of the bytes at `all` went out. */
  ghost predicate SentPrefix(mem: seq<bv8>, sent0: seq<bv8>, sent: seq<bv8>, all: seq<int>)
    requires InMemory(mem, all)
  {
    var k := |sent| - |sent0|;
    0 <= k <= |all| && sent == sent0 + Load(mem, all[..k])
  }

  lemma DeliveredIsPrefix(mem: seq<bv8>, sent0: seq<bv8>, sent: seq<bv8>, all: seq<int>, done: seq<int>, rest: seq<int>)
    requires InMemory(mem, all) && Delivered(mem, sent0, sent, all, done, rest)
    ensures SentPrefix(mem, sent0, sent, all) && |sent| == |sent0| + |all| - |rest|
  {
    assert all[..|done|] == done;
  }

  /** Writes one buffer: all of it and its length, or -1. */
  method Write(fd: Descriptor, buf: nat, nbyte: nat) returns (r: int)
    requires InMemory(fd.mem, Span(Iovec(buf, nbyte)))
    modifies fd`writeReplies, fd`sent, fd`pollReplies, fd`faults, fd`stalls, fd`polls
    ensures r == nbyte || r == -1
    ensures SentPrefix(fd.mem, old(fd.sent), fd.sent, Span(Iovec(buf, nbyte)))
    ensures nbyte > 0 ==> (r == nbyte <==> |fd.sent| == |old(fd.sent)| + nbyte)
    ensures fd.faults >= old(fd.faults) && (r == -1 <==> fd.faults > old(fd.faults))
    ensures fd.polls - old(fd.polls) >= fd.stalls - old(fd.stalls)
  {
    var ok, resid, done, rest := WriteResid(fd, buf, nbyte);
    DeliveredIsPrefix(fd.mem, old(fd.sent), fd.sent, Span(Iovec(buf, nbyte)), done, rest);
    r := if ok then nbyte - resid else -1;
  }

  /** The first vector that is not wholly within the first `n` bytes, and the offset in it. */
  method Locate(iov: array<Iovec>, size: nat, n: nat) returns (index: nat, offset: nat)
    requires size <= iov.Length && n < |Spans(iov[..], 0, size)|
    ensures index < size && offset < iov[index].len
    ensures Spans(iov[..], 0, size)[n..] == Span(iov[index])[offset..] + Spans(iov[..], index + 1, size - index - 1)
  {
    index, offset := 0, n;
    ghost var all := Spans(iov[..], 0, size);
    while offset >= iov[index].len
      invariant index < size && offset <= n && offset < |Spans(iov[..], index, size - index)|
      invariant n - offset <= |all| && all[n - offset..] == Spans(iov[..], index, size - index)
      decreases size - index
    {
      SkipInto(all, n - offset, Span(iov[index]), Spans(iov[..], index + 1, size - index - 1), iov[index].len);
      offset := offset - iov[index].len;
      index := index + 1;
    }
    SkipInto(all, n - offset, Span(iov[index]), Spans(iov[..], index + 1, size - index - 1), offset);
  }

  lemma {:induction false} FewerSpans(vs: seq<Iovec>, i: nat, j: nat, size: nat)
    requires i <= j <= size <= |vs|
    ensures |Spans(vs, j, size - j)| <= |Spans(vs, i, size - i)|
    decreases j - i
  {
    if i < j {
      FewerSpans(vs, i + 1, j, size);
    }
  }

  /** Fills `tmp` with the vectors from `index` on, the first without its first `offset` bytes. */
  method Rebuild(iov: array<Iovec>, size: nat, index: nat, offset: nat, tmp: array<Iovec>) returns (count: nat)
    requires index < size <= iov.Length && offset < iov[index].len && tmp != iov && size - index <= tmp.Length
    modifies tmp
    ensures count == size - index
    ensures Spans(tmp[..], 0, count) == Span(iov[index])[offset..] + Spans(iov[..], index + 1, size - index - 1)
  {
    tmp[0] := Iovec(iov[index].base + offset, iov[index].len - offset);
    var next := index + 1;
    count := 1;
    while next < size
      invariant index < next <= size && count == next - index
      invariant tmp[0] == Iovec(iov[index].base + offset, iov[index].len - offset)
      invariant forall k | 1 <= k < count :: tmp[k] == iov[index + k]
    {
      tmp[count] := iov[next];
      count, next := count + 1, next + 1;
    }
    SpansShifted(tmp[..], 1, iov[..], index, count - 1);
    assert Span(tmp[0]) == Span(iov[index])[offset..];
  }

  lemma {:induction false} SpansShifted(vs: seq<Iovec>, i: nat, ws: seq<Iovec>, d: nat, size: nat)
    requires i + size <= |vs| && d + i + size <= |ws| && forall k | i <= k < i + size :: vs[k] == ws[d + k]
    ensures Spans(vs, i, size) == Spans(ws, d + i, size)
    decreases size
  {
    if size > 0 {
      SpansShifted(vs, i + 1, ws, d, size - 1);
    }
  }

  /**
   The vectors for what is left after `written` bytes.  The first short write makes the copy,
   in the local array or in an allocated one; later ones never need more room than `kept` left.
   */
  method NextVectors(iov: array<Iovec>, size: nat, written: nat, tmp: array<Iovec>, local: array<Iovec>,
                     allocates: bool, ghost kept: nat)
      returns (ok: bool, tmp': array<Iovec>, count: nat, ghost kept': nat)
    requires size <= iov.Length && written < |Spans(iov[..], 0, size)| && local != iov && local.Length == LOCAL_MAXIOV
    requires tmp != iov ==> CopyFits(iov[..], size, tmp.Length, written, kept)
    modifies {tmp, local} - {iov}
    ensures iov[..] == old(iov[..])
    ensures !ok ==> tmp' == tmp == iov && NoRoom(size, allocates)
    ensures ok ==> tmp' != iov && (tmp' == tmp || tmp' == local || fresh(tmp'))
    ensures ok ==> CopyFits(iov[..], size, tmp'.Length, written, kept')
    ensures ok ==> 0 < count <= tmp'.Length && Spans(tmp'[..], 0, count) == Spans(iov[..], 0, size)[written..]
  {
    var index, offset := Locate(iov, size, written);
    tmp', kept', count := tmp, kept, 0;
    if tmp == iov {
      kept' := index;
      if size - index <= LOCAL_MAXIOV {
        tmp' := local;
      } else {
        if !allocates {
          return false, tmp, 0, kept;
        }
        tmp' := new Iovec[size - index](_ => Iovec(0, 0));
      }
    } else if index < kept {
      FewerSpans(iov[..], index + 1, kept, size);
    }
    count := Rebuild(iov, size, index, offset, tmp');
    ok := true;
  }

  /** There is room for the vectors from `kept` on, and the bytes left are all theirs. */
  ghost predicate CopyFits(vs: seq<Iovec>, size: nat, room: nat, written: nat, kept: nat)
    requires size <= |vs|
  {
    && kept <= size && room >= size - kept
    && |Spans(vs, 0, size)| - written <= |Spans(vs, kept, size - kept)|
  }

  /** There are more vectors than the local copy holds, and no other can be allocated. */
  predicate NoRoom(size: nat, allocates: bool) {
    size > LOCAL_MAXIOV && !allocates
  }

  datatype Turn = Again | Finished | Failed

  /** The last vector is written like a single buffer. */
  method WriteLast(fd: Descriptor, last: Iovec, ghost all: seq<int>, ghost sent0: seq<bv8>, ghost done: seq<int>)
      returns (turn: Turn)
    requires last.len > 0 && InMemory(fd.mem, all) && Delivered(fd.mem, sent0, fd.sent, all, done, Span(last))
    modifies fd`writeReplies, fd`sent, fd`pollReplies, fd`faults, fd`stalls, fd`polls
    ensures SentPrefix(fd.mem, sent0, fd.sent, all) && !turn.Again?
    ensures turn.Finished? <==> |fd.sent| == |sent0| + |all|
    ensures fd.faults >= old(fd.faults) && (turn.Failed? <==> fd.faults > old(fd.faults))
    ensures fd.polls - old(fd.polls) >= fd.stalls - old(fd.stalls)
  {
    ghost var sent1 := fd.sent;
    var w := Write(fd, last.base, last.len);
    ghost var n := |fd.sent| - |sent1|;
    DeliveredMore(fd.mem, sent0, sent1, all, done, Span(last), n);
    DeliveredIsPrefix(fd.mem, sent0, fd.sent, all, done + Span(last)[..n], Span(last)[n..]);
    turn := if w != last.len then Failed else Finished;
  }

  /** One turn of the write loop. */
  method WriteTurn(fd: Descriptor, iov: array<Iovec>, size: nat, nbyte: nat, nleft: nat, tmp: array<Iovec>, count: nat,
                   local: array<Iovec>, allocates: bool, ghost sent0: seq<bv8>, ghost kept: nat, ghost done: seq<int>)
      returns (turn: Turn, nleft': nat, tmp': array<Iovec>, count': nat, ghost kept': nat, ghost done': seq<int>)
    requires size <= iov.Length && InMemory(fd.mem, Spans(iov[..], 0, size)) && count <= tmp.Length
    requires local != iov && local.Length == LOCAL_MAXIOV
    requires 0 < nleft == |Spans(tmp[..], 0, count)| <= nbyte == |Spans(iov[..], 0, size)|
    requires Delivered(fd.mem, sent0, fd.sent, Spans(iov[..], 0, size), done, Spans(tmp[..], 0, count))
    requires tmp != iov ==> CopyFits(iov[..], size, tmp.Length, nbyte - nleft, kept)
    modifies {tmp, local} - {iov}, fd`writeReplies, fd`sent, fd`pollReplies, fd`faults, fd`stalls, fd`polls
    ensures iov[..] == old(iov[..])
    ensures turn.Again? ==> |fd.writeReplies| < |old(fd.writeReplies)|
    ensures turn.Again? ==> count' <= tmp'.Length && 0 < nleft' == |Spans(tmp'[..], 0, count')| <= nbyte
    ensures turn.Again? ==>
              Delivered(fd.mem, sent0, fd.sent, Spans(iov[..], 0, size), done', Spans(tmp'[..], 0, count'))
    ensures turn.Again? ==>
              tmp' == iov == tmp || (tmp' != iov && CopyFits(iov[..], size, tmp'.Length, nbyte - nleft', kept'))
    ensures tmp' == tmp || tmp' == local || fresh(tmp')
    ensures !turn.Again? ==> SentPrefix(fd.mem, sent0, fd.sent, Spans(iov[..], 0, size))
    ensures !turn.Again? ==> (turn.Finished? <==> |fd.sent| == |sent0| + nbyte)
    ensures fd.faults >= old(fd.faults) && (fd.faults > old(fd.faults) ==> turn.Failed?)
    ensures turn.Failed? ==> fd.faults > old(fd.faults) || NoRoom(size, allocates)
    ensures !turn.Failed? ==> fd.polls - old(fd.polls) >= fd.stalls - old(fd.stalls)
  {
    hide InMemory, Delivered, Load;
    ghost var all, rest := Spans(iov[..], 0, size), Spans(tmp[..], 0, count);
    nleft', tmp', count', kept' := nleft, tmp, count, kept;
    if count == 1 {
      assert rest == Span(tmp[0]) + Spans(tmp[..], 1, 0) == Span(tmp[0]);
      done' := done;
      turn := WriteLast(fd, tmp[0], all, sent0, done);
      return;
    }
    var reply;
    reply, done', rest := WriteSome(fd, tmp, count, all, done, rest, sent0);
    if reply.WriteFailed? && reply.e != EAGAIN {
      turn := if reply.e == EINTR then Again else Failed;
      return;
    }
    if reply.Wrote? {
      nleft' := nleft - reply.n;
      if nleft' == 0 {
        turn := Finished;
        return;
      }
      assert rest == all[nbyte - nleft'..];
      var ok;
      ok, tmp', count', kept' := NextVectors(iov, size, nbyte - nleft', tmp, local, allocates, kept);
      if !ok {
        turn := Failed;
        return;
      }
    }
    var ready := fd.Poll();
    turn := if ready then Again else Failed;
  }

  /** One `writev` call. */
  method WriteSome(fd: Descriptor, tmp: array<Iovec>, count: nat, ghost all: seq<int>, ghost done: seq<int>,
                   ghost rest: seq<int>,
                   ghost sent0: seq<bv8>)
      returns (reply: WriteReply, ghost done': seq<int>, ghost rest': seq<int>)
    requires count <= tmp.Length && rest == Spans(tmp[..], 0, count) && InMemory(fd.mem, all)
    requires Delivered(fd.mem, sent0, fd.sent, all, done, rest)
    modifies fd`writeReplies, fd`sent, fd`faults, fd`stalls
    ensures |fd.writeReplies| < |old(fd.writeReplies)| || reply == WriteFailed(EOTHER)
    ensures Delivered(fd.mem, sent0, fd.sent, all, done', rest') && SentPrefix(fd.mem, sent0, fd.sent, all)
    ensures |fd.sent| == |sent0| + |all| - |rest'|
    ensures if reply.Wrote? then reply.n <= |rest| && |rest'| == |rest| - reply.n else rest' == rest
    ensures fd.faults == old(fd.faults) + (if reply.WriteFailed? && Hard(reply.e) then 1 else 0)
    ensures fd.stalls == old(fd.stalls) +
              (if reply == WriteFailed(EAGAIN) || (reply.Wrote? && reply.n < |rest|) then 1 else 0)
  {
    ghost var sent1 := fd.sent;
    done', rest' := done, rest;
    reply := fd.WriteV(Spans(tmp[..], 0, count));
    if reply.Wrote? {
      DeliveredMore(fd.mem, sent0, sent1, all, done, rest, reply.n);
      done', rest' := done + rest[..reply.n], rest[reply.n..];
    }
    DeliveredIsPrefix(fd.mem, sent0, fd.sent, all, done', rest');
  }

  method TotalBytes(iov: array<Iovec>, size: nat) returns (nbyte: nat)
    requires size <= iov.Length
    ensures nbyte == |Spans(iov[..], 0, size)|
  {
    nbyte := 0;
    for index := 0 to size
      invariant nbyte == |Spans(iov[..], 0, size)| - |Spans(iov[..], index, size - index)|
    {
      nbyte := nbyte + iov[index].len;
    }
  }

  /**
   Writes every byte of the vectors and returns their number, or -1.  The vectors are not
   modified: short writes go on from a copy.
   */
  method WriteV(fd: Descriptor, iov: array<Iovec>, size: nat, allocates: bool) returns (r: int)
    requires size <= iov.Length && InMemory(fd.mem, Spans(iov[..], 0, size))
    modifies fd`writeReplies, fd`sent, fd`pollReplies, fd`faults, fd`stalls, fd`polls
    ensures SentPrefix(fd.mem, old(fd.sent), fd.sent, Spans(iov[..], 0, size))
    ensures r == |Spans(iov[..], 0, size)| || r == -1
    ensures r >= 0 <==> |fd.sent| == |old(fd.sent)| + |Spans(iov[..], 0, size)|
    ensures fd.faults > old(fd.faults) ==> r == -1
    ensures r == -1 ==> fd.faults > old(fd.faults) || NoRoom(size, allocates)
    ensures r >= 0 ==> fd.polls - old(fd.polls) >= fd.stalls - old(fd.stalls)
  {
    var nbyte := TotalBytes(iov, size);
    var nleft: nat := nbyte;
    var local := new Iovec[LOCAL_MAXIOV](_ => Iovec(0, 0));
    var tmp: array<Iovec>, count: nat := iov, size;
    ghost var kept: nat, all, done := 0, Spans(iov[..], 0, size), [];
    DeliveredNone(fd.mem, fd.sent, all);
    while nleft > 0
      invariant nbyte == |all| && iov[..] == old(iov[..]) && count <= tmp.Length
      invariant nleft == |Spans(tmp[..], 0, count)| <= nbyte
      invariant Delivered(fd.mem, old(fd.sent), fd.sent, all, done, Spans(tmp[..], 0, count))
      invariant tmp == iov || (fresh(tmp) && tmp != iov && CopyFits(iov[..], size, tmp.Length, nbyte - nleft, kept))
      invariant fd.faults == old(fd.faults) && fd.polls - old(fd.polls) >= fd.stalls - old(fd.stalls)
      decreases |fd.writeReplies|
    {
      var turn;
      turn, nleft, tmp, count, kept, done :=
        WriteTurn(fd, iov, size, nbyte, nleft, tmp, count, local, allocates, old(fd.sent), kept, done);
      if !turn.Again? {
        r := if turn.Failed? then -1 else nbyte;
        return;
      }
    }
    DeliveredIsPrefix(fd.mem, old(fd.sent), fd.sent, all, done, Spans(tmp[..], 0, count));
    r := nbyte;
  }

  // ---------- reading ----------

  /** The addresses `done` of `all` before `rest` were filled in order with `data`, the bytes received since. */
  ghost predicate Filled(mem0: seq<bv8>, mem: seq<bv8>, got0: seq<bv8>, got: seq<bv8>,
                         all: seq<int>, done: seq<int>, rest: seq<int>, data: seq<bv8>)
  {
    && all == done + rest && InMemory(mem0, done) && InMemory(mem0, rest)
    && got == got0 + data && |data| == |done| && mem == Store(mem0, done, data)
  }

  lemma FilledNone(mem: seq<bv8>, got: seq<bv8>, all: seq<int>)
    requires InMemory(mem, all)
    ensures Filled(mem, mem, got, got, all, [], all, [])
  {
  }

  lemma RestFillable(mem0: seq<bv8>, mem: seq<bv8>, got0: seq<bv8>, got: seq<bv8>,
                     all: seq<int>, done: seq<int>, rest: seq<int>, data: seq<bv8>)
    requires Filled(mem0, mem, got0, got, all, done, rest, data)
    ensures InMemory(mem, rest) && Store(mem, rest[..0], []) == mem
  {
  }

  lemma FilledMore(mem0: seq<bv8>, mem: seq<bv8>, got0: seq<bv8>, got: seq<bv8>,
                   all: seq<int>, done: seq<int>, rest: seq<int>, data: seq<bv8>, more: seq<bv8>)
    requires Filled(mem0, mem, got0, got, all, done, rest, data) && |more| <= |rest| && InMemory(mem, rest)
    ensures Filled(mem0, Store(mem, rest[..|more|], more), got0, got + more, all, done + rest[..|more|], rest[|more|..],
            data + more)
  {
    var n := |more|;
    StoreMore(mem0, done, data, rest[..n], more);
    Associates(got0, data, more);
    Associates(done, rest[..n], rest[n..]);
    assert rest == rest[..n] + rest[n..];
  }

  /** Reads until no vector is left or the stream ends; the vectors are moved on over what was read. */
  method ReadVResid(fd: Descriptor, iov: array<Iovec>, first: nat, size: nat)
      returns (ok: bool, first': nat, size': nat, ghost done: seq<int>, ghost data: seq<bv8>)
    requires first + size <= iov.Length && InMemory(fd.mem, Spans(iov[..], first, size))
    modifies iov, fd`readReplies, fd`received, fd`mem, fd`ends, fd`pollReplies, fd`faults, fd`stalls, fd`polls
    ensures first <= first' && first' + size' == first + size
    ensures Filled(old(fd.mem), fd.mem, old(fd.received), fd.received, old(Spans(iov[..], first, size)), done,
                   Spans(iov[..], first', size'), data)
    ensures UsedUp(iov[..], first, first')
    ensures ok && Spans(iov[..], first', size') != [] <==> fd.ends > old(fd.ends)
    ensures !ok <==> fd.faults > old(fd.faults)
    ensures fd.polls - old(fd.polls) >= fd.stalls - old(fd.stalls)
  {
    hide Filled, Store, Span, InMemory;
    ghost var all := Spans(iov[..], first, size);
    FilledNone(fd.mem, fd.received, all);
    first', size', done, data := first, size, [], [];
    while size' > 0
      invariant first <= first' && first' + size' == first + size
      invariant Filled(old(fd.mem), fd.mem, old(fd.received), fd.received, all, done, Spans(iov[..], first', size'),
                data)
      invariant UsedUp(iov[..], first, first') && fd.ends == old(fd.ends)
      invariant fd.faults == old(fd.faults) && fd.polls - old(fd.polls) >= fd.stalls - old(fd.stalls)
      decreases |fd.readReplies|
    {
      ghost var mem1, got1, rest := fd.mem, fd.received, Spans(iov[..], first', size');
      RestFillable(old(fd.mem), mem1, old(fd.received), got1, all, done, rest, data);
      var reply := fd.ReadV(Spans(iov[..], first', size'));
      if reply.ReadFailed? {
        if reply.e == EINTR {
          continue;
        }
        if reply.e != EAGAIN {
          return false, first', size', done, data;
        }
      } else {
        FilledMore(old(fd.mem), mem1, old(fd.received), got1, all, done, rest, data, reply.data);
        if reply.data == [] {
          assert got1 + reply.data == got1;
          break;
        }
        done, data := done + rest[..|reply.data|], data + reply.data;
        first', size' := Advance(iov, first, first', size', |reply.data|);
        if size' == 0 {
          break;
        }
      }
      var ready := fd.Poll();
      if !ready {
        return false, first', size', done, data;
      }
    }
    return true, first', size', done, data;
  }

  /** One buffer; returns how much of it is left. */
  method ReadResid(fd: Descriptor, buf: nat, resid: nat)
      returns (ok: bool, resid': nat, ghost done: seq<int>, ghost rest: seq<int>, ghost data: seq<bv8>)
    requires InMemory(fd.mem, Span(Iovec(buf, resid)))
    modifies fd`readReplies, fd`received, fd`mem, fd`ends, fd`pollReplies, fd`faults, fd`stalls, fd`polls
    ensures Filled(old(fd.mem), fd.mem, old(fd.received), fd.received, Span(Iovec(buf, resid)), done, rest, data)
    ensures |rest| == resid'
    ensures ok && resid' > 0 <==> fd.ends > old(fd.ends)
    ensures !ok <==> fd.faults > old(fd.faults)
    ensures fd.polls - old(fd.polls) >= fd.stalls - old(fd.stalls)
  {
    var iov := new Iovec[1](_ => Iovec(buf, resid));
    OneSpan(iov[..]);
    var first', size';
    ok, first', size', done, data := ReadVResid(fd, iov, 0, 1);
    OneLeft(iov[..], first', size');
    rest := Spans(iov[..], first', size');
    resid' := iov[0].len;
  }

  /**
   Reads until the buffer is full or the stream ends.  The result counts exactly the bytes
   that came in; they lie at the start of the buffer, and no other memory changes.
   */
  method ReadFully(fd: Descriptor, buf: nat, nbyte: nat) returns (r: int, ghost data: seq<bv8>)
    requires InMemory(fd.mem, Span(Iovec(buf, nbyte)))
    modifies fd`readReplies, fd`received, fd`mem, fd`ends, fd`pollReplies, fd`faults, fd`stalls, fd`polls
    ensures fd.received == old(fd.received) + data && |data| <= nbyte
    ensures r == |data| || r == -1
    ensures 0 <= r < nbyte <==> fd.ends > old(fd.ends)
    ensures r == -1 <==> fd.faults > old(fd.faults)
    ensures fd.polls - old(fd.polls) >= fd.stalls - old(fd.stalls)
    ensures |fd.mem| == |old(fd.mem)|
    ensures forall x | 0 <= x < |fd.mem| :: fd.mem[x] == if buf <= x < buf + |data| then data[x - buf]
            else old(fd.mem)[x]
  {
    var ok, resid;
    ghost var done, rest;
    ok, resid, done, rest, data := ReadResid(fd, buf, nbyte);
    r := if ok then nbyte - resid else -1;
    BufferFilled(old(fd.mem), fd.mem, buf, nbyte, done, rest, data);
  }

  lemma BufferFilled(mem0: seq<bv8>, mem: seq<bv8>, buf: nat, nbyte: nat, done: seq<int>, rest: seq<int>,
                     data: seq<bv8>)
    requires Span(Iovec(buf, nbyte)) == done + rest && InMemory(mem0, done) && |data| == |done|
    requires mem == Store(mem0, done, data)
    ensures forall x | 0 <= x < |mem| :: mem[x] == if buf <= x < buf + |data| then data[x - buf] else mem0[x]
  {
    forall i | 0 <= i < |done| ensures done[i] == buf + i {
      assert done[i] == Span(Iovec(buf, nbyte))[i];
    }
    StoreLoad(mem0, done, data);
    forall x | buf <= x < buf + |data| ensures x < |mem| && mem[x] == data[x - buf] {
      assert done[x - buf] == x && Load(mem, done)[x - buf] == mem[done[x - buf]];
    }
  }
}
