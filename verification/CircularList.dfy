/** The doubly linked circular lists that the queues are made of; the head is an element too. */
module CircularList {

  class Link {
    var next: Link?
    var prev: Link?

    constructor () {
      next, prev := null, null;
    }
  }

  function Succ(i: nat, n: nat): (j: nat)
    requires i < n
    ensures j < n
  {
    if i + 1 == n then 0 else i + 1
  }

  ghost predicate Paired(a: Link, b: Link)
    reads a, b
  {
    a.next == b && b.prev == a
  }

  ghost predicate PairedAt(ring: seq<Link>, i: nat)
    requires i < |ring|
    reads ring
  {
    Paired(ring[i], ring[Succ(i, |ring|)])
  }

  /** Distinct elements, each linked both ways to the one after it and the last to the first. */
  ghost predicate Ring(ring: seq<Link>)
    reads ring
  {
    && |ring| > 0
    && (forall i, j | 0 <= i < j < |ring| :: ring[i] != ring[j])
    && (forall i | 0 <= i < |ring| :: PairedAt(ring, i))
  }

  function Inserted(ring: seq<Link>, i: nat, e: Link): seq<Link>
    requires i < |ring|
  {
    ring[..i + 1] + [e] + ring[i + 1..]
  }

  function Removed(ring: seq<Link>, i: nat): seq<Link>
    requires i < |ring|
  {
    ring[..i] + ring[i + 1..]
  }

  class List {
    const head: Link
    ghost var ring: seq<Link>

    ghost predicate Valid()
      reads this, ring
    {
      Ring(ring) && ring[0] == head
    }

    /** The elements after the head, in order. */
    ghost function Elems(): seq<Link>
      requires |ring| > 0
      reads this
    {
      ring[1..]
    }

    constructor ()
      ensures Valid() && Elems() == [] && fresh(head)
    {
      var h := new Link();
      head, ring := h, [h];
      new;
      head.next := head;
      head.prev := head;
    }

    method IsEmpty() returns (empty: bool)
      requires Valid()
      ensures empty <==> Elems() == []
    {
      empty := head.next == head;
      assert PairedAt(ring, 0);
    }

    /** Puts `e` before `l`, the element after the `i`-th of the ring. */
    method InsertBefore(e: Link, l: Link, ghost i: nat)
      requires Valid() && e !in ring && i < |ring| && l == ring[Succ(i, |ring|)]
      modifies this`ring, ring, e
      ensures Valid() && ring == Inserted(old(ring), i, e)
    {
      assert PairedAt(ring, i);
      e.next := l;
      e.prev := l.prev;
      l.prev.next := e;
      l.prev := e;
      ring := Inserted(ring, i, e);
      forall k | 0 <= k < |ring| ensures PairedAt(ring, k) {
        var n := |old(ring)|;
        if k < i {
          assert old(PairedAt(ring, k)) && ring[Succ(k, n + 1)] == old(ring)[Succ(k, n)];
        } else if k > i + 1 {
          assert old(PairedAt(ring, k - 1)) && ring[Succ(k, n + 1)] == old(ring)[Succ(k - 1, n)];
        }
      }
    }

    /** Takes the `i`-th element of the ring out; its own links stay, so a walk goes on from it. */
    method Remove(e: Link, ghost i: nat)
      requires Valid() && 0 < i < |ring| && e == ring[i]
      modifies this`ring, ring[i - 1], ring[Succ(i, |ring|)]
      ensures Valid() && ring == Removed(old(ring), i)
      ensures e.next == old(e.next) == old(ring)[Succ(i, |old(ring)|)]
    {
      assert PairedAt(ring, i) && PairedAt(ring, i - 1);
      e.prev.next := e.next;
      e.next.prev := e.prev;
      ring := Removed(ring, i);
      forall k | 0 <= k < |ring| ensures PairedAt(ring, k) {
        var n := |old(ring)|;
        if k < i - 1 {
          assert old(PairedAt(ring, k)) && ring[Succ(k, n - 1)] == old(ring)[Succ(k, n)];
        } else if k > i - 1 {
          assert old(PairedAt(ring, k + 1)) && ring[Succ(k, n - 1)] == old(ring)[Succ(k + 1, n)];
        } else {
          assert ring[k] == old(ring)[i - 1] && ring[Succ(k, n - 1)] == old(ring)[Succ(i, n)];
        }
      }
    }

    /** Puts `e` at the end: ST_APPEND_LINK. */
    method Append(e: Link)
      requires Valid() && e !in ring
      modifies this`ring, ring, e
      ensures Valid() && Elems() == old(Elems()) + [e]
    {
      InsertBefore(e, head, |ring| - 1);
    }

    /** Puts `e` at the front: ST_INSERT_LINK, which inserts after the head. */
    method Push(e: Link)
      requires Valid() && e !in ring
      modifies this`ring, ring, e
      ensures Valid() && Elems() == [e] + old(Elems())
    {
      assert PairedAt(ring, 0);
      InsertBefore(e, head.next, 0);
    }

    /** A walk over `all` stands before its `k`-th element, with `kept` of those before it left. */
    ghost predicate Walking(all: seq<Link>, k: nat, kept: seq<Link>, q: Link)
      requires 1 <= k <= |all|
      reads this, ring
    {
      && Valid() && all[0] == head && ring == [head] + kept + all[k..]
      && q == (if k < |all| then all[k] else head) && (forall x | x in ring :: x in all)
    }

    /** Looks at one element, removes it or not, and moves on. */
    method Visit(q: Link, drop: set<Link>, ghost all: seq<Link>, ghost k: nat, ghost kept: seq<Link>)
        returns (next: Link, ghost kept': seq<Link>)
      requires 1 <= k < |all| && Walking(all, k, kept, q)
      modifies this`ring, all
      ensures kept' == kept + (if q in drop then [] else [q]) && Walking(all, k + 1, kept', next)
    {
      ghost var at := 1 + |kept|;
      ghost var rest := all[k + 1..];
      assert all[k..] == [q] + rest;
      assert ring[at] == q && PairedAt(ring, at) && ring[Succ(at, |ring|)] == if rest == [] then head else rest[0];
      ghost var before, after := ring[at - 1], ring[Succ(at, |ring|)];
      assert before in ring && after in ring;
      assert before in all && after in all;
      if q in drop {
        RemovedAt([head] + kept, q, rest);
        Remove(q, at);
        kept' := kept;
      } else {
        kept' := kept + [q];
        assert ring == [head] + kept' + rest;
      }
      next := q.next;
    }

    /**
     The walk that a dispatch makes: each element in turn is looked at and perhaps removed,
     and the walk goes on from the element just removed.  It looks at every element once, in
     order, and leaves the others in their order.
     */
    method Sweep(drop: set<Link>) returns (visited: seq<Link>)
      requires Valid()
      modifies this`ring, ring
      ensures Valid() && visited == old(Elems()) && Elems() == Kept(old(Elems()), drop)
    {
      visited := [];
      ghost var all := ring;
      ghost var k: nat, kept := 1, [];
      assert PairedAt(ring, 0) && ring == [head] + kept + all[k..];
      var q: Link := head.next;
      while q != head
        invariant 1 <= k <= |all| && Walking(all, k, kept, q)
        invariant visited == all[1..k] && kept == Kept(visited, drop)
        invariant forall i | 0 < i < |all| :: all[i] != head
        decreases |all| - k
      {
        assert all[1..k + 1] == all[1..k] + [q];
        KeptMore(visited, q, drop);
        visited := visited + [q];
        q, kept := Visit(q, drop, all, k, kept);
        k := k + 1;
      }
      assert k == |all|;
    }
  }

  lemma RemovedAt(before: seq<Link>, e: Link, after: seq<Link>)
    ensures Removed(before + ([e] + after), |before|) == before + after
  {
  }

  /** The elements that are not in `drop`, in order. */
  ghost function Kept(elems: seq<Link>, drop: set<Link>): seq<Link> {
    if elems == [] then [] else (if elems[0] in drop then [] else [elems[0]]) + Kept(elems[1..], drop)
  }

  lemma {:induction false} KeptMore(elems: seq<Link>, e: Link, drop: set<Link>)
    ensures Kept(elems + [e], drop) == Kept(elems, drop) + if e in drop then [] else [e]
  {
    if elems == [] {
      assert ([e])[1..] == [];
    } else {
      KeptMore(elems[1..], e, drop);
      assert (elems + [e])[1..] == elems[1..] + [e];
    }
  }
}
