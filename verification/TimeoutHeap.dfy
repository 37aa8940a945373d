/**
 The timeout heap: a pointer-linked complete binary min-heap.  A thread knows its own
 position (`heapIndex`, from 1), and the bits of a position below its leading one spell
 the path from the root.
 */
module TimeoutHeap {
  import opened Threads

  /** `n >> k`. */
  function Shr(n: nat, k: nat): nat {
    if k == 0 then n else Shr(n, k - 1) / 2
  }

  /** `n & (1 << k)` as a truth value. */
  predicate Bit(n: nat, k: nat) {
    Shr(n, k) % 2 == 1
  }

  lemma {:induction false} ShrHalves(n: nat, k: nat)
    requires k >= 1
    ensures Shr(n, k) <= n / 2
  {
    if k >= 2 {
      ShrHalves(n, k - 1);
    }
  }

  ghost function At(ns: seq<Thread>, i: nat): Thread? {
    if i < |ns| then ns[i] else null
  }

  /** The thread at position i + 1 knows its position and its two children. */
  ghost predicate NodeOk(ns: seq<Thread>, i: nat)
    requires i < |ns|
    reads (set t | t in ns)`left, (set t | t in ns)`right, (set t | t in ns)`heapIndex
  {
    ns[i].heapIndex == i + 1 && ChildrenAt(ns[i], ns, i)
  }

  ghost predicate ChildrenAt(t: Thread, ns: seq<Thread>, i: nat)
    reads t`left, t`right
  {
    t.left == At(ns, 2 * i + 1) && t.right == At(ns, 2 * i + 2)
  }

  ghost predicate Linked(ns: seq<Thread>)
    reads (set t | t in ns)`left, (set t | t in ns)`right, (set t | t in ns)`heapIndex
  {
    forall i {:trigger NodeOk(ns, i)} :: 0 <= i < |ns| ==> NodeOk(ns, i)
  }

  /** The thread at position i + 1 is due no earlier than its parent. */
  ghost predicate ParentFirst(ns: seq<Thread>, i: nat)
    requires 1 <= i < |ns|
    reads (set t | t in ns)`due
  {
    ns[(i - 1) / 2].due <= ns[i].due
  }

  ghost predicate Ordered(ns: seq<Thread>)
    reads (set t | t in ns)`due
  {
    forall i {:trigger ParentFirst(ns, i)} :: 1 <= i < |ns| ==> ParentFirst(ns, i)
  }

  /** Ordered everywhere but between position h + 1 and its children, which still follow h's parent. */
  ghost predicate OrderedAround(ns: seq<Thread>, h: nat)
    reads (set t | t in ns)`due
  {
    forall i {:trigger ParentFirst(ns, i)} :: 1 <= i < |ns| ==>
      if (i - 1) / 2 != h then ParentFirst(ns, i)
      else h >= 1 ==> ns[(h - 1) / 2].due <= ns[i].due
  }

  /** The slot of position `index` is the root pointer, or the child pointer of the position's parent. */
  ghost predicate SlotFor(ns: seq<Thread>, index: nat, parent: Thread?, rightSide: bool) {
    if index == 1 then parent == null
    else index >= 2 && index / 2 <= |ns| && parent == ns[index / 2 - 1] && rightSide == (index % 2 == 1)
  }

  /** The thread whose child pointer a slot is; none for the root slot. */
  ghost function Owner(parent: Thread?): set<Thread> {
    if parent == null then {} else {parent}
  }

  /** The root of an ordered heap is due first. */
  lemma {:induction false} RootIsFirst(ns: seq<Thread>, i: nat)
    requires Ordered(ns) && i < |ns|
    ensures ns[0].due <= ns[i].due
  {
    if i > 0 {
      assert ParentFirst(ns, i);
      RootIsFirst(ns, (i - 1) / 2);
    }
  }

  class SleepQueue {
    var root: Thread?
    var size: nat
    ghost var nodes: seq<Thread>  // the threads in position order

    ghost predicate Valid()
      reads `root, `size, `nodes, (set t | t in nodes)`left, (set t | t in nodes)`right, (set t | t in nodes)`heapIndex,
            (set t | t in nodes)`due
    {
      Holds(nodes)
    }

    /** The queue is the complete tree of `ns`, in order. */
    ghost predicate Holds(ns: seq<Thread>)
      reads `root, `size, (set t | t in ns)`left, (set t | t in ns)`right, (set t | t in ns)`heapIndex,
            (set t | t in ns)`due
    {
      root == At(ns, 0) && size == |ns| && Linked(ns) && Ordered(ns)
    }

    constructor ()
      ensures Valid() && nodes == []
    {
      root, size, nodes := null, 0, [];
    }

    /** Puts `thread` to sleep for `timeout` from `now`. */
    method AddSleepQ(thread: Thread, now: nat, timeout: nat)
      requires Valid() && thread !in nodes
      modifies this, thread`due, thread`onSleepQ, thread`left, thread`right, thread`heapIndex
      modifies (set t | t in nodes)`left, (set t | t in nodes)`right, (set t | t in nodes)`heapIndex
      ensures Valid() && multiset(nodes) == multiset(old(nodes)) + multiset{thread}
      ensures (forall t | t in nodes :: t in old(nodes) || t == thread) && thread in nodes
      ensures forall t | t in old(nodes) :: t in nodes
      ensures thread.due == now + timeout && thread.onSleepQ
    {
      hide Linked, Ordered;
      ghost var ns := nodes;
      thread.due := now + timeout;
      thread.onSleepQ := true;
      size := size + 1;
      thread.heapIndex := size;
      SameTree(ns);
      var parent, rightSide;
      parent, rightSide, nodes := HeapInsert(thread, ns);
      InsertedLast(ns, thread, nodes);
      SameElements(nodes, ns + [thread]);
    }

    /** Takes `thread` off the queue. */
    method DelSleepQ(thread: Thread)
      requires Valid() && thread in nodes
      modifies this, thread`onSleepQ
      modifies (set t | t in nodes)`left, (set t | t in nodes)`right, (set t | t in nodes)`heapIndex
      ensures Valid() && multiset(nodes) + multiset{thread} == multiset(old(nodes))
      ensures thread !in nodes && !thread.onSleepQ
      ensures (forall t | t in nodes :: t in old(nodes)) && forall t | t in old(nodes) :: t == thread || t in nodes
    {
      ghost var ns := nodes;
      nodes := HeapDelete(thread, nodes);
      SameElements(nodes + [thread], ns);
      thread.onSleepQ := false;
    }

    /** Writes to other fields leave the tree as it is. */
    twostate lemma SameTree(ns: seq<Thread>)
      requires old(root == At(ns, 0) && Linked(ns) && Ordered(ns)) && root == old(root)
      requires forall t | t in ns :: t.left == old(t.left) && t.right == old(t.right)
      requires forall t | t in ns :: t.heapIndex == old(t.heapIndex) && t.due == old(t.due)
      ensures root == At(ns, 0) && Linked(ns) && Ordered(ns)
    {
      forall i | 0 <= i < |ns| ensures NodeOk(ns, i) { assert old(NodeOk(ns, i)); }
    }

    lemma SameElements(a: seq<Thread>, b: seq<Thread>)
      requires multiset(a) == multiset(b)
      ensures (forall t | t in a :: t in b) && forall t | t in b :: t in a
    {
      forall t | t in a ensures t in b { assert t in multiset(a); }
      forall t | t in b ensures t in a { assert t in multiset(b); }
    }

    lemma InsertedLast(ns: seq<Thread>, thread: Thread, ms: seq<Thread>)
      requires Inserted(ns, thread, |ns|, ms) && size == |ms|
      ensures Holds(ms)
    {
      assert NodeOk(ms, |ns|);
      forall i | 1 <= i < |ms| ensures ParentFirst(ms, i) {
        assert (i - 1) / 2 != |ns|;
      }
    }

    function Load(parent: Thread?, rightSide: bool): Thread?
      reads this, parent
    {
      if parent == null then root else if rightSide then parent.right else parent.left
    }

    method Store(parent: Thread?, rightSide: bool, t: Thread?)
      modifies this`root, Owner(parent)`left, Owner(parent)`right
      ensures parent == null ==> root == t
      ensures parent != null ==> root == old(root)
      ensures parent != null && rightSide ==> parent.right == t && parent.left == old(parent.left)
      ensures parent != null && !rightSide ==> parent.left == t && parent.right == old(parent.right)
    {
      if parent == null {
        root := t;
      } else if rightSide {
        parent.right := t;
      } else {
        parent.left := t;
      }
    }

    lemma LoadAt(ns: seq<Thread>, index: nat, parent: Thread?, rightSide: bool)
      requires root == At(ns, 0) && Linked(ns) && SlotFor(ns, index, parent, rightSide)
      ensures Load(parent, rightSide) == At(ns, index - 1)
    {
      if index >= 2 {
        assert NodeOk(ns, index / 2 - 1);
      }
    }

    /** `thread` takes the place, the children and the position of `t`. */
    method Displace(thread: Thread, t: Thread, index: nat, parent: Thread?, rightSide: bool, ghost cs: seq<Thread>)
      requires root == At(cs, 0) && Linked(cs) && thread !in cs
      requires 1 <= index <= |cs| && SlotFor(cs, index, parent, rightSide) && t == cs[index - 1]
      modifies this`root, Owner(parent)`left, Owner(parent)`right, thread`left, thread`right, thread`heapIndex
      ensures root == At(cs[index - 1 := thread], 0) && Linked(cs[index - 1 := thread])
      ensures t !in cs[index - 1 := thread]
    {
      ghost var ds := cs[index - 1 := thread];
      assert NodeOk(cs, index - 1);
      if index >= 2 { assert NodeOk(cs, index / 2 - 1); }
      forall i | 0 <= i < |ds| ensures ds[i] != t {
        assert i != index - 1 ==> NodeOk(cs, i);
      }
      thread.left := t.left;
      thread.right := t.right;
      Store(parent, rightSide, thread);
      thread.heapIndex := index;
      forall i | 0 <= i < |ds| ensures NodeOk(ds, i) {
        assert old(NodeOk(cs, i));
      }
    }

    /** The number of bits of n. */
    method BitLength(n: nat) returns (bits: nat)
      ensures Shr(n, bits) == 0 && (n > 0 ==> bits >= 1 && Shr(n, bits - 1) == 1)
    {
      var s := n;
      bits := 0;
      while s > 0
        invariant s == Shr(n, bits)
        invariant s == 0 && n > 0 ==> bits >= 1 && Shr(n, bits - 1) == 1
      {
        s := s / 2;
        bits := bits + 1;
      }
    }

    /**
     Midway down an insertion path: the tree `cs` is whole, `x` is carried towards `target`
     and fits below everything above `index`; together they are `ns` and `thread`.
     */
    ghost predicate Carrying(ns: seq<Thread>, thread: Thread, target: nat, cs: seq<Thread>, x: Thread,
                             index: nat, parent: Thread?, rightSide: bool)
      reads this, cs, x
    {
      && root == At(cs, 0) && Linked(cs) && Ordered(cs) && x !in cs
      && Carried(ns, thread, target, cs, x)
      && 1 <= index <= target <= |cs| + 1 && SlotFor(cs, index, parent, rightSide)
      && (index >= 2 ==> cs[index / 2 - 1].due <= x.due)
    }

    /** One level of the descent: place or keep the occupant of `index`, then turn to a child. */
    method Descend(ghost ns: seq<Thread>, ghost thread: Thread, target: nat, ghost cs: seq<Thread>, x: Thread,
                   index: nat, parent: Thread?, rightSide: bool, turn: bool)
      returns (x': Thread, parent': Thread, ghost cs': seq<Thread>)
      requires Carrying(ns, thread, target, cs, x, index, parent, rightSide)
      requires (if turn then 2 * index + 1 else 2 * index) <= target
      modifies this`root, x`left, x`right, x`heapIndex, Owner(parent)`left, Owner(parent)`right
      ensures Carrying(ns, thread, target, cs', x', if turn then 2 * index + 1 else 2 * index, parent', turn)
    {
      hide Carried;
      LoadAt(cs, index, parent, rightSide);
      var t := Load(parent, rightSide);
      cs', parent', x' := cs, t, x;
      if x.due < t.due {
        CarriedFill(ns, thread, target, cs, x, index - 1);
        DisplacedOrder(cs, index, x);
        Displace(x, t, index, parent, rightSide, cs);
        cs', parent', x' := Filled(cs, index - 1, x), x, t;
      }
    }

    /**
     `thread` has gone into `ns` at position h + 1, overwriting an occupant if there was one;
     the occupant now at that position has no children yet.
     */
    ghost predicate Inserted(ns: seq<Thread>, thread: Thread, h: nat, ms: seq<Thread>)
      reads this, ms
    {
      && h < |ms| == (if h < |ns| then |ns| else |ns| + 1)
      && multiset(ms) + (if h < |ns| then multiset{ns[h]} else multiset{}) == multiset(ns) + multiset{thread}
      && (forall i | h < i < |ns| :: ms[i] == ns[i])
      && (h < |ns| ==> ns[h] !in ms)
      && root == At(ms, 0)
      && ms[h].heapIndex == h + 1 && ms[h].left == null && ms[h].right == null
      && (forall i {:trigger NodeOk(ms, i)} :: 0 <= i < |ms| && i != h ==> NodeOk(ms, i))
      && OrderedAround(ms, h)
    }

    /**
     Inserts `thread` at the position its heapIndex names, which is either the first free
     one or one whose occupant is being overwritten.  Returns the slot of that position.
     */
    method HeapInsert(thread: Thread, ghost ns: seq<Thread>)
        returns (parent: Thread?, rightSide: bool, ghost ms: seq<Thread>)
      requires root == At(ns, 0) && Linked(ns) && Ordered(ns) && thread !in ns
      requires 1 <= thread.heapIndex <= |ns| + 1
      modifies this`root, thread`left, thread`right, thread`heapIndex
      modifies (set t | t in ns)`left, (set t | t in ns)`right, (set t | t in ns)`heapIndex
      ensures Inserted(ns, thread, old(thread.heapIndex) - 1, ms)
      ensures SlotFor(ms, old(thread.heapIndex), parent, rightSide)
      ensures old(thread.heapIndex) <= |ns| ==>
                ChildrenAt(ns[old(thread.heapIndex) - 1], ns, old(thread.heapIndex) - 1)
    {
      hide SleepQueue.Inserted;
      var target := thread.heapIndex;
      parent, rightSide := null, false;
      var index := 1;
      var x: Thread := thread;
      var bits: int := BitLength(target);
      var bit: int := bits - 2;
      ghost var cs: seq<Thread> := ns;
      while bit >= 0
        invariant -1 <= bit <= bits - 2 && index == Shr(target, bit + 1)
        invariant Carrying(ns, thread, target, cs, x, index, parent, rightSide)
      {
        var turn := Bit(target, bit);
        if bit >= 1 { ShrHalves(target, bit); }
        x, parent, cs := Descend(ns, thread, target, cs, x, index, parent, rightSide, turn);
        rightSide := turn;
        index := if turn then 2 * index + 1 else 2 * index;
        bit := bit - 1;
      }
      ms := Fill(ns, thread, x, target, parent, rightSide, cs);
    }

    /** The last step of an insertion: `x` takes position `target`, with no children yet. */
    method Fill(ghost ns: seq<Thread>, ghost thread: Thread, x: Thread, target: nat, parent: Thread?, rightSide: bool,
                ghost cs: seq<Thread>)
      returns (ghost ms: seq<Thread>)
      requires Carrying(ns, thread, target, cs, x, target, parent, rightSide)
      modifies this`root, Owner(parent)`left, Owner(parent)`right, x`left, x`right, x`heapIndex
      ensures Inserted(ns, thread, target - 1, ms)
      ensures SlotFor(ms, target, parent, rightSide)
      ensures target <= |ns| ==> ChildrenAt(ns[target - 1], ns, target - 1)
    {
      ghost var h := target - 1;
      ms := Filled(cs, h, x);
      FilledContents(cs, h, x);
      FilledOrder(cs, h, x);
      Attach(x, target, parent, rightSide, cs);
    }

    /** The pointer writes of Fill. */
    method Attach(x: Thread, target: nat, parent: Thread?, rightSide: bool, ghost cs: seq<Thread>)
      requires root == At(cs, 0) && Linked(cs) && x !in cs
      requires 1 <= target <= |cs| + 1 && SlotFor(cs, target, parent, rightSide)
      modifies this`root, Owner(parent)`left, Owner(parent)`right, x`left, x`right, x`heapIndex
      ensures var ms := Filled(cs, target - 1, x);
              && root == At(ms, 0)
              && x.heapIndex == target && x.left == null && x.right == null
              && (forall i {:trigger NodeOk(ms, i)} :: 0 <= i < |ms| && i != target - 1 ==> NodeOk(ms, i))
              && (target <= |cs| ==> cs[target - 1] !in ms && ChildrenAt(cs[target - 1], cs, target - 1))
    {
      ghost var h := target - 1;
      ghost var ms := Filled(cs, h, x);
      if h < |cs| { assert NodeOk(cs, h); }
      if target >= 2 { assert NodeOk(cs, target / 2 - 1); }
      assert h < |cs| ==> cs[h] !in ms by {
        forall i | 0 <= i < |ms| && h < |cs| ensures ms[i] != cs[h] {
          if i != h { assert NodeOk(cs, i) && NodeOk(cs, h); }
        }
      }
      x.heapIndex := target;
      Store(parent, rightSide, x);
      x.left, x.right := null, null;
      forall i | 0 <= i < |ms| && i != h ensures NodeOk(ms, i) {
        assert old(NodeOk(cs, i));
      }
    }

    /** The slot of the last position, reached along the bits of `size`. */
    method LastSlot(ghost ns: seq<Thread>) returns (parent: Thread?, rightSide: bool)
      requires root == At(ns, 0) && Linked(ns) && size == |ns| >= 1
      ensures SlotFor(ns, size, parent, rightSide)
    {
      parent, rightSide := null, false;
      ghost var index := 1;
      var bits: int := BitLength(size);
      var bit: int := bits - 2;
      while bit >= 0
        invariant -1 <= bit <= bits - 2 && index == Shr(size, bit + 1) && 1 <= index <= size
        invariant SlotFor(ns, index, parent, rightSide)
      {
        if bit >= 1 { ShrHalves(size, bit); }
        LoadAt(ns, index, parent, rightSide);
        parent, rightSide := Load(parent, rightSide), Bit(size, bit);
        index := if rightSide then 2 * index + 1 else 2 * index;
        bit := bit - 1;
      }
    }

    /** Takes the last thread off the tree. */
    method UnlinkLast(ghost ns: seq<Thread>) returns (t: Thread)
      requires Holds(ns) && size >= 1
      modifies this, (set x | x in ns)`left, (set x | x in ns)`right
      ensures t == ns[|ns| - 1] && Holds(ns[..|ns| - 1])
      ensures t !in ns[..|ns| - 1] && t.left == null && t.right == null
    {
      ghost var rs := ns[..|ns| - 1];
      var parent, rightSide := LastSlot(ns);
      LoadAt(ns, size, parent, rightSide);
      t := Load(parent, rightSide);
      assert NodeOk(ns, |ns| - 1);
      if size >= 2 { assert NodeOk(ns, size / 2 - 1); }
      forall i | 0 <= i < |rs| ensures rs[i] != t { assert NodeOk(ns, i); }
      Store(parent, rightSide, null);
      size := size - 1;
      forall i | 0 <= i < |rs| ensures NodeOk(rs, i) { assert old(NodeOk(ns, i)); }
      forall i | 1 <= i < |rs| ensures ParentFirst(rs, i) { assert ParentFirst(ns, i); }
    }

    /** The pointer writes that make `t` change places with its child `y`. */
    method Relink(t: Thread, y: Thread, parent: Thread?, rightSide: bool) returns (rightSide': bool)
      requires t != y && parent != t && parent != y
      modifies this`root, Owner(parent)`left, Owner(parent)`right, {t, y}`left, {t, y}`right, {t, y}`heapIndex
      ensures parent == null ==> root == y
      ensures parent != null ==>
                && root == old(root)
                && parent.right == (if rightSide then y else old(parent.right))
                && parent.left == (if rightSide then old(parent.left) else y)
      ensures t.left == old(y.left) && t.right == old(y.right)
      ensures rightSide' == (y != old(t.left))
      ensures y.left == (if rightSide' then old(t.left) else t) && y.right == (if rightSide' then t else old(t.right))
      ensures t.heapIndex == old(y.heapIndex) && y.heapIndex == old(t.heapIndex)
    {
      var tl, tr := y.left, y.right;
      Store(parent, rightSide, y);
      if y == t.left {
        y.left := t;
        y.right := t.right;
        rightSide' := false;
      } else {
        y.left := t.left;
        y.right := t;
        rightSide' := true;
      }
      t.left, t.right := tl, tr;
      t.heapIndex, y.heapIndex := y.heapIndex, t.heapIndex;
    }

    /** `t` changes places with its child `y`. */
    method SwapDown(t: Thread, y: Thread, ghost h: nat, ghost c: nat, parent: Thread?, rightSide: bool,
                    ghost cs: seq<Thread>)
      returns (rightSide': bool)
      requires root == At(cs, 0) && Linked(cs)
      requires h < |cs| && t == cs[h] && SlotFor(cs, h + 1, parent, rightSide)
      requires c < |cs| && (c == 2 * h + 1 || c == 2 * h + 2) && y == cs[c]
      modifies this`root, (set x | x in cs)`left, (set x | x in cs)`right, (set x | x in cs)`heapIndex
      ensures var ds := Swapped(cs, h, c);
              root == At(ds, 0) && Linked(ds) && SlotFor(ds, c + 1, y, rightSide')
    {
      ghost var ds := Swapped(cs, h, c);
      assert NodeOk(cs, h) && NodeOk(cs, c);
      if h >= 1 { assert NodeOk(cs, (h + 1) / 2 - 1); }
      if c == 2 * h + 2 { assert NodeOk(cs, 2 * h + 1); }
      assert y == t.left <==> c == 2 * h + 1;
      rightSide' := Relink(t, y, parent, rightSide);
      assert NodeOk(ds, h);
      assert NodeOk(ds, c);
      forall i | 0 <= i < |ds| && i != h && i != c ensures NodeOk(ds, i) {
        assert old(NodeOk(cs, i));
        assert ds[i] == cs[i];
      }
    }

    /** Midway through sifting: the tree `ms` is whole but for the order below `t`, at position h + 1. */
    ghost predicate Sifting(ns: seq<Thread>, ms: seq<Thread>, h: nat, t: Thread, parent: Thread?, rightSide: bool)
      reads this, ms
    {
      && root == At(ms, 0) && size == |ms| && Linked(ms) && OrderedAround(ms, h)
      && h < |ms| && t == ms[h] && SlotFor(ms, h + 1, parent, rightSide)
      && multiset(ms) == multiset(ns) && (forall x | x in ms :: x in ns)
    }

    method Sink(t: Thread, y: Thread, ghost ns: seq<Thread>, ghost ms: seq<Thread>, ghost h: nat, ghost c: nat,
                parent: Thread?, rightSide: bool)
      returns (rightSide': bool)
      requires Sifting(ns, ms, h, t, parent, rightSide)
      requires (c == 2 * h + 1 || c == 2 * h + 2) && c < |ms| && y == ms[c] && y.due < t.due
      requires forall b :: (b == 2 * h + 1 || b == 2 * h + 2) && b < |ms| ==> y.due <= ms[b].due
      modifies this`root, (set x | x in ns)`left, (set x | x in ns)`right, (set x | x in ns)`heapIndex
      ensures Sifting(ns, Swapped(ms, h, c), c, t, y, rightSide')
    {
      SwappedOrder(ms, h, c);
      rightSide' := SwapDown(t, y, h, c, parent, rightSide, ms);
    }

    /** Restores the heap order below the thread at position h0 + 1. */
    method SiftDown(t: Thread, ghost h0: nat, parent0: Thread?, rightSide0: bool, ghost ns: seq<Thread>)
        returns (ghost ms: seq<Thread>)
      requires Sifting(ns, ns, h0, t, parent0, rightSide0)
      modifies this`root, (set x | x in ns)`left, (set x | x in ns)`right, (set x | x in ns)`heapIndex
      ensures Holds(ms) && multiset(ms) == multiset(ns)
    {
      ms := ns;
      var parent, rightSide := parent0, rightSide0;
      ghost var h: nat := h0;
      while true
        invariant Sifting(ns, ms, h, t, parent, rightSide) && |ms| == |ns|
        decreases |ns| - h
      {
        assert NodeOk(ms, h);
        if t.left == null {
          break;
        }
        var y: Thread := if t.right == null || t.left.due < t.right.due then t.left else t.right;
        if t.due <= y.due {
          break;
        }
        ghost var c: nat := if y == t.left then 2 * h + 1 else 2 * h + 2;
        rightSide := Sink(t, y, ns, ms, h, c, parent, rightSide);
        ms, parent, h := Swapped(ms, h, c), y, c;
      }
      SettledOrder(ms, h);
    }

    /** `t`, at the position of the thread being deleted, takes over its children. */
    method Adopt(t: Thread, thread: Thread, ghost h: nat, ghost ns: seq<Thread>, ghost ms: seq<Thread>)
      requires h < |ns| == |ms| && t == ms[h] && t.heapIndex == h + 1 && thread !in ms
      requires ChildrenAt(thread, ns, h) && forall i | h < i < |ns| :: ms[i] == ns[i]
      requires forall i {:trigger NodeOk(ms, i)} :: 0 <= i < |ms| && i != h ==> NodeOk(ms, i)
      modifies t`left, t`right
      ensures Linked(ms)
    {
      t.left := thread.left;
      t.right := thread.right;
      forall i | 0 <= i < |ms| ensures NodeOk(ms, i) { assert i != h ==> old(NodeOk(ms, i)); }
    }

    /** The last thread `t`, already off the tree, replaces `thread` in it. */
    method Replace(t0: Thread, thread: Thread, ghost rs: seq<Thread>) returns (ghost ms: seq<Thread>)
      requires Holds(rs) && thread in rs && t0 !in rs
      modifies this, t0`left, t0`right, t0`heapIndex
      modifies (set x | x in rs)`left, (set x | x in rs)`right, (set x | x in rs)`heapIndex
      ensures Holds(ms) && multiset(ms) + multiset{thread} == multiset(rs) + multiset{t0}
    {
      hide ParentFirst, Ordered, OrderedAround, SlotFor, ChildrenAt;
      ghost var k :| 0 <= k < |rs| && rs[k] == thread;
      assert NodeOk(rs, k);
      t0.heapIndex := thread.heapIndex;
      var parent, rightSide;
      parent, rightSide, ms := HeapInsert(t0, rs);
      forall x | x in ms ensures x in rs || x == t0 {
        assert x in multiset(ms);
        assert x in multiset(rs) + multiset{t0};
      }
      ms := TakeOver(t0, thread, k, parent, rightSide, rs, ms);
    }

    /** The thread inserted over `thread`, in the slot given, adopts its children and sinks to its place. */
    method TakeOver(t0: Thread, thread: Thread, ghost k: nat, parent: Thread?, rightSide: bool, ghost rs: seq<Thread>,
                    ghost ms0: seq<Thread>)
      returns (ghost ms: seq<Thread>)
      requires k < |rs| && rs[k] == thread && size == |rs| && Inserted(rs, t0, k, ms0)
      requires SlotFor(ms0, k + 1, parent, rightSide) && ChildrenAt(thread, rs, k)
      modifies this, (set x | x in ms0)`left, (set x | x in ms0)`right, (set x | x in ms0)`heapIndex
      ensures Holds(ms) && multiset(ms) == multiset(ms0)
    {
      hide ParentFirst, Ordered;
      if k >= 1 { assert NodeOk(ms0, (k + 1) / 2 - 1); }
      var t: Thread := Load(parent, rightSide);
      Adopt(t, thread, k, rs, ms0);
      ms := SiftDown(t, k, parent, rightSide, ms0);
    }

    /** Deletes `thread` from anywhere in the heap. */
    method HeapDelete(thread: Thread, ghost ns: seq<Thread>) returns (ghost ms: seq<Thread>)
      requires Holds(ns) && thread in ns
      modifies this, (set t | t in ns)`left, (set t | t in ns)`right, (set t | t in ns)`heapIndex
      ensures Holds(ms) && multiset(ms) + multiset{thread} == multiset(ns)
      ensures thread !in ms && thread.left == null && thread.right == null
    {
      HeldOnce(ns, thread);
      ghost var rs := ns[..|ns| - 1];
      var t := UnlinkLast(ns);
      assert ns == rs + [t];
      ms := rs;
      if t != thread {
        ms := Replace(t, thread, rs);
      }
      assert multiset(ms)[thread] == 0;
      thread.left, thread.right := null, null;
      assert forall i {:trigger NodeOk(ms, i)} :: 0 <= i < |ms| ==> ms[i] != thread;
    }

    lemma HeldOnce(ns: seq<Thread>, thread: Thread)
      requires Linked(ns) && thread in ns
      ensures multiset(ns)[thread] == 1
    {
      var k :| 0 <= k < |ns| && ns[k] == thread;
      assert ns == ns[..k] + [thread] + ns[k + 1..];
      forall i | 0 <= i < |ns| && i != k ensures ns[i] != thread {
        assert NodeOk(ns, i) && NodeOk(ns, k);
      }
      assert thread !in ns[..k] && thread !in ns[k + 1..];
    }
  }

  /** `cs` with `x` put at position h + 1, over its occupant or at the end. */
  ghost function Filled(cs: seq<Thread>, h: nat, x: Thread): seq<Thread>
    requires h <= |cs|
  {
    if h < |cs| then cs[h := x] else cs + [x]
  }

  lemma FilledContents(cs: seq<Thread>, h: nat, x: Thread)
    requires h <= |cs|
    ensures multiset(Filled(cs, h, x)) + (if h < |cs| then multiset{cs[h]} else multiset{}) ==
            multiset(cs) + multiset{x}
  {
  }

  /** `cs` and `x` are together `ns` and `thread`, and agree with `ns` from `target` on. */
  ghost predicate Carried(ns: seq<Thread>, thread: Thread, target: nat, cs: seq<Thread>, x: Thread) {
    && |cs| == |ns| && multiset(cs) + multiset{x} == multiset(ns) + multiset{thread}
    && (forall i | 0 <= i < |ns| && target <= i + 1 :: cs[i] == ns[i])
    && (x in ns || x == thread) && (forall t | t in cs :: t in ns || t == thread)
  }

  lemma CarriedFill(ns: seq<Thread>, thread: Thread, target: nat, cs: seq<Thread>, x: Thread, h: nat)
    requires Carried(ns, thread, target, cs, x) && h < |cs| && h + 1 < target
    ensures Carried(ns, thread, target, Filled(cs, h, x), cs[h])
  {
  }

  lemma DisplacedOrder(cs: seq<Thread>, index: nat, x: Thread)
    requires 1 <= index <= |cs| && Ordered(cs) && x.due < cs[index - 1].due
    requires index >= 2 ==> cs[index / 2 - 1].due <= x.due
    ensures Ordered(Filled(cs, index - 1, x))
  {
    var ds := Filled(cs, index - 1, x);
    forall i | 1 <= i < |ds| ensures ParentFirst(ds, i) {
      assert ParentFirst(cs, i);
    }
  }

  lemma FilledOrder(cs: seq<Thread>, h: nat, x: Thread)
    requires h <= |cs| && Ordered(cs)
    requires h >= 1 ==> cs[(h + 1) / 2 - 1].due <= x.due
    ensures OrderedAround(Filled(cs, h, x), h)
  {
    var ms := Filled(cs, h, x);
    forall i | 1 <= i < |ms|
      ensures if (i - 1) / 2 != h then ParentFirst(ms, i) else h >= 1 ==> ms[(h - 1) / 2].due <= ms[i].due
    {
      if i < |cs| { assert ParentFirst(cs, i); }
      if 1 <= h < |cs| { assert ParentFirst(cs, h); }
    }
  }

  ghost function Swapped(cs: seq<Thread>, h: nat, c: nat): (ds: seq<Thread>)
    requires h < |cs| && c < |cs|
    ensures |ds| == |cs| && multiset(ds) == multiset(cs)
  {
    cs[h := cs[c]][c := cs[h]]
  }

  lemma SwappedOrder(cs: seq<Thread>, h: nat, c: nat)
    requires h < c < |cs| && (c == 2 * h + 1 || c == 2 * h + 2) && OrderedAround(cs, h)
    requires cs[c].due < cs[h].due
    requires forall b :: (b == 2 * h + 1 || b == 2 * h + 2) && b < |cs| ==> cs[c].due <= cs[b].due
    ensures OrderedAround(Swapped(cs, h, c), c)
  {
    var ds := Swapped(cs, h, c);
    forall i | 1 <= i < |ds|
      ensures if (i - 1) / 2 != c then ParentFirst(ds, i) else c >= 1 ==> ds[(c - 1) / 2].due <= ds[i].due
    {
      assert ParentFirst(cs, i) || (i - 1) / 2 == h;
      assert ParentFirst(cs, c) || (c - 1) / 2 == h;
    }
  }

  lemma SettledOrder(cs: seq<Thread>, h: nat)
    requires h < |cs| && OrderedAround(cs, h)
    requires forall b :: (b == 2 * h + 1 || b == 2 * h + 2) && b < |cs| ==> cs[h].due <= cs[b].due
    ensures Ordered(cs)
  {
    forall i | 1 <= i < |cs| ensures ParentFirst(cs, i) {
      assert (i - 1) / 2 == h ==> i == 2 * h + 1 || i == 2 * h + 2;
      assert ParentFirst(cs, i) || (i - 1) / 2 == h;
    }
  }
}
