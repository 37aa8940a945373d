/**
 Maximum bipartite matching by augmenting paths, over the arrays that the search rewrites in
 place, and the pairing verdict of the unordered-elements matcher that is built on it.
 */
module BipartiteMatching {
  import opened Sequences

  /** The element-by-matcher boolean matrix. */
  datatype MatchMatrix = MatchMatrix(lhs: nat, rhs: nat, edges: set<(int, int)>) {
    predicate HasEdge(l: int, r: int) {
      0 <= l < lhs && 0 <= r < rhs && (l, r) in edges
    }
  }

  const UNUSED: int := -1

  // ---------- matchings as sets of pairs ----------

  ghost predicate IsMatching(g: MatchMatrix, m: set<(int, int)>) {
    && (forall p | p in m :: g.HasEdge(p.0, p.1))
    && (forall p, q | p in m && q in m && p != q :: p.0 != q.0 && p.1 != q.1)
  }

  ghost predicate Maximum(g: MatchMatrix, m: set<(int, int)>) {
    IsMatching(g, m) && forall other :: IsMatching(g, other) ==> |other| <= |m|
  }

  ghost predicate UsesMatcher(m: set<(int, int)>, r: int) {
    exists p :: p in m && p.1 == r
  }

  ghost predicate UsesElement(m: set<(int, int)>, l: int) {
    exists p :: p in m && p.0 == l
  }

  ghost predicate AllMatchersUsed(g: MatchMatrix, m: set<(int, int)>) {
    forall r | 0 <= r < g.rhs :: UsesMatcher(m, r)
  }

  ghost predicate AllElementsUsed(g: MatchMatrix, m: set<(int, int)>) {
    forall l | 0 <= l < g.lhs :: UsesElement(m, l)
  }

  lemma {:induction false} NoMoreThanMatchers(g: MatchMatrix, m: set<(int, int)>, rs: set<int>)
    requires IsMatching(g, m) && forall p | p in m :: p.1 in rs
    ensures |m| <= |rs|
    decreases m
  {
    if m != {} {
      var p :| p in m;
      NoMoreThanMatchers(g, m - {p}, rs - {p.1});
    }
  }

  lemma {:induction false} NoMoreThanElements(g: MatchMatrix, m: set<(int, int)>, ls: set<int>)
    requires IsMatching(g, m) && forall p | p in m :: p.0 in ls
    ensures |m| <= |ls|
    decreases m
  {
    if m != {} {
      var p :| p in m;
      NoMoreThanElements(g, m - {p}, ls - {p.0});
    }
  }

  lemma {:induction false} AtLeastMatchers(m: set<(int, int)>, rs: set<int>)
    requires forall r | r in rs :: UsesMatcher(m, r)
    ensures |rs| <= |m|
    decreases m
  {
    if rs != {} {
      var r := Member(rs);
      assert UsesMatcher(m, r);
      var p :| p in m && p.1 == r;
      forall x | x in rs - {r} ensures UsesMatcher(m - {p}, x) {
        assert UsesMatcher(m, x);
        var q :| q in m && q.1 == x;
        assert q in m - {p};
      }
      AtLeastMatchers(m - {p}, rs - {r});
    }
  }

  lemma {:induction false} AtLeastElements(m: set<(int, int)>, ls: set<int>)
    requires forall l | l in ls :: UsesElement(m, l)
    ensures |ls| <= |m|
    decreases m
  {
    if ls != {} {
      var l := Member(ls);
      assert UsesElement(m, l);
      var p :| p in m && p.0 == l;
      forall x | x in ls - {l} ensures UsesElement(m - {p}, x) {
        assert UsesElement(m, x);
        var q :| q in m && q.0 == x;
        assert q in m - {p};
      }
      AtLeastElements(m - {p}, ls - {l});
    }
  }

  function Upto(n: nat): (s: set<int>)
    ensures |s| == n && forall i :: i in s <==> 0 <= i < n
  {
    if n == 0 then {} else Upto(n - 1) + {n - 1}
  }

  /** A matching has as many pairs as there are matchers exactly when it uses all of them. */
  lemma MatchersUsedIff(g: MatchMatrix, m: set<(int, int)>)
    requires IsMatching(g, m)
    ensures |m| >= g.rhs <==> AllMatchersUsed(g, m)
  {
    if AllMatchersUsed(g, m) {
      AtLeastMatchers(m, Upto(g.rhs));
    } else {
      var r :| 0 <= r < g.rhs && !UsesMatcher(m, r);
      NoMoreThanMatchers(g, m, Upto(g.rhs) - {r});
    }
  }

  lemma ElementsUsedIff(g: MatchMatrix, m: set<(int, int)>)
    requires IsMatching(g, m)
    ensures |m| >= g.lhs <==> AllElementsUsed(g, m)
  {
    if AllElementsUsed(g, m) {
      AtLeastElements(m, Upto(g.lhs));
    } else {
      var l :| 0 <= l < g.lhs && !UsesElement(m, l);
      NoMoreThanElements(g, m, Upto(g.lhs) - {l});
    }
  }

  // ---------- the two link arrays ----------

  /** Each used entry is mutually referent along an edge, except that `slack` may still name its previous element. */
  ghost predicate Linked(g: MatchMatrix, left: seq<int>, right: seq<int>, slack: int) {
    && |left| == g.lhs && |right| == g.rhs
    && (forall l | 0 <= l < g.lhs :: left[l] == UNUSED || (g.HasEdge(l, left[l]) && right[left[l]] == l))
    && (forall r | 0 <= r < g.rhs :: right[r] == UNUSED ||
         (g.HasEdge(right[r], r) && (r == slack || left[right[r]] == r)))
  }

  /** All of `rs` are matched, and their elements have no edges out of `within`. */
  ghost predicate Dead(g: MatchMatrix, right: seq<int>, rs: set<int>, within: set<int>) {
    forall r | r in rs :: 0 <= r < |right| && right[r] != UNUSED && Confined(g, right[r], within)
  }

  ghost predicate Confined(g: MatchMatrix, l: int, within: set<int>) {
    forall r | 0 <= r < g.rhs && g.HasEdge(l, r) :: r in within
  }

  ghost function Marked(seen: seq<bool>): set<int> {
    set r | 0 <= r < |seen| && seen[r]
  }

  ghost function AsSet(pairs: seq<(int, int)>): set<(int, int)> {
    set p | p in pairs
  }

  /** The pairs that the left links denote. */
  ghost function Pairs(left: seq<int>): set<(int, int)> {
    set l | 0 <= l < |left| && left[l] != UNUSED :: (l, left[l])
  }

  lemma PairsExtend(left: seq<int>, n: nat, result: seq<(int, int)>)
    requires n < |left| && AsSet(result) == Pairs(left[..n])
    ensures AsSet(if left[n] != UNUSED then result + [(n, left[n])] else result) == Pairs(left[..n + 1])
  {
    var now := Pairs(left[..n + 1]);
    forall p | p in Pairs(left[..n]) ensures p in now {
      assert left[..n + 1][p.0] == left[..n][p.0];
    }
    forall p | p in now && p.0 != n ensures p in Pairs(left[..n]) {
      assert left[..n + 1][p.0] == left[..n][p.0];
    }
    assert now == Pairs(left[..n]) + if left[n] != UNUSED then {(n, left[n])} else {};
  }

  /** One unit of flow more: beside `l` and `gained`, the entries in use are those that were. */
  ghost predicate Augmented(left0: seq<int>, right0: seq<int>, left: seq<int>, right: seq<int>, l: int, gained: int) {
    && |left| == |left0| && |right| == |right0| && 0 <= l < |left| && 0 <= gained < |right|
    && left[l] != UNUSED && right0[gained] == UNUSED && right[gained] != UNUSED
    && (forall i | 0 <= i < |left| && i != l :: left0[i] == UNUSED <==> left[i] == UNUSED)
    && (forall r | 0 <= r < |right| && r != gained :: right0[r] == UNUSED <==> right[r] == UNUSED)
  }

  /** A matching whose every pair has a matcher in `rs` or an element in `ls` has at most that many pairs. */
  lemma AtMostTheCover(g: MatchMatrix, m: set<(int, int)>, rs: set<int>, ls: set<int>)
    requires IsMatching(g, m) && forall p | p in m :: p.1 in rs || p.0 in ls
    ensures |m| <= |rs| + |ls|
  {
    var low := set p: (int, int) | p in m && p.1 in rs;
    NoMoreThanMatchers(g, low, rs);
    NoMoreThanElements(g, m - low, ls);
  }

  /** The elements whose matcher is not in `dead`. */
  ghost function Live(left: seq<int>, dead: set<int>): set<int> {
    set l | 0 <= l < |left| && left[l] != UNUSED && left[l] !in dead
  }

  lemma PairsMatch(g: MatchMatrix, left: seq<int>, right: seq<int>)
    requires Linked(g, left, right, UNUSED)
    ensures IsMatching(g, Pairs(left))
  {
    forall p, q | p in Pairs(left) && q in Pairs(left) && p != q ensures p.0 != q.0 && p.1 != q.1 {
      assert right[p.1] == p.0 && right[q.1] == q.0;
    }
  }

  lemma PairsReachTheCover(g: MatchMatrix, left: seq<int>, right: seq<int>, dead: set<int>)
    requires Linked(g, left, right, UNUSED) && forall r | r in dead :: 0 <= r < g.rhs && right[r] != UNUSED
    ensures |Pairs(left)| >= |dead| + |Live(left, dead)|
  {
    var mine := Pairs(left);
    var inner := set p: (int, int) | p in mine && p.1 in dead;
    forall r | r in dead ensures UsesMatcher(inner, r) {
      assert (right[r], r) in inner;
    }
    AtLeastMatchers(inner, dead);
    forall l | l in Live(left, dead) ensures UsesElement(mine - inner, l) {
      assert (l, left[l]) in mine - inner;
    }
    AtLeastElements(mine - inner, Live(left, dead));
  }

  /** Handing matcher `r`, free or given up by its element, to `l` restores the links but for the old matcher of `l`. */
  lemma HandOver(g: MatchMatrix, left: seq<int>, right: seq<int>, l: int, r: int)
    requires g.HasEdge(l, r) && |left| == g.lhs && |right| == g.rhs && left[l] != r
    requires Linked(g, left, right, r) && (right[r] != UNUSED ==> left[right[r]] != r)
    ensures Linked(g, left[l := r], right[r := l], left[l])
  {
  }

  lemma DeadNone(g: MatchMatrix, right: seq<int>, seen: set<int>)
    ensures Dead(g, right, seen - seen, seen)
  {
  }

  /** The failed search of the element of a marked matcher makes that matcher a dead end beside its own. */
  lemma DeadGrows(g: MatchMatrix, right: seq<int>, seen0: set<int>, seen1: set<int>, r: int)
    requires 0 <= r < |right| && right[r] != UNUSED && seen0 <= seen1
    requires Dead(g, right, seen1 - (seen0 + {r}), seen1) && Confined(g, right[r], seen1)
    ensures Dead(g, right, seen1 - seen0, seen1)
  {
    forall q | q in seen1 - seen0 ensures 0 <= q < |right| && right[q] != UNUSED && Confined(g, right[q], seen1) {
      if q != r { assert q in seen1 - (seen0 + {r}); }
    }
  }

  /** Dead ends found before stay dead when more are marked. */
  lemma DeadJoins(g: MatchMatrix, right: seq<int>, seen0: set<int>, seen1: set<int>, seen2: set<int>)
    requires seen0 <= seen1 <= seen2 && Dead(g, right, seen1 - seen0, seen1) && Dead(g, right, seen2 - seen1, seen2)
    ensures Dead(g, right, seen2 - seen0, seen2)
  {
    forall q | q in seen2 - seen0 ensures 0 <= q < |right| && right[q] != UNUSED && Confined(g, right[q], seen2) {
      if q in seen1 {
        assert q in seen1 - seen0;
        assert Confined(g, right[q], seen1);
      } else {
        assert q in seen2 - seen1;
      }
    }
  }

  /**
   Weak duality: when the unmatched elements reach only dead matchers, which are all matched and
   whose elements reach only dead matchers, no matching is larger.
   */
  lemma DeadEndsMeanMaximum(g: MatchMatrix, left: seq<int>, right: seq<int>, dead: set<int>)
    requires Linked(g, left, right, UNUSED) && Dead(g, right, dead, dead)
    requires forall l | 0 <= l < g.lhs && left[l] == UNUSED :: Confined(g, l, dead)
    ensures Maximum(g, Pairs(left))
  {
    PairsMatch(g, left, right);
    PairsReachTheCover(g, left, right, dead);
    forall other: set<(int, int)> | IsMatching(g, other) ensures |other| <= |Pairs(left)| {
      forall p | p in other ensures p.1 in dead || p.0 in Live(left, dead) {
        if left[p.0] != UNUSED && left[p.0] in dead { assert Confined(g, right[left[p.0]], dead); }
      }
      AtMostTheCover(g, other, dead, Live(left, dead));
    }
  }

  // ---------- the search ----------

  class MaxBipartiteMatchState {
    const graph: MatchMatrix
    const left: array<int>
    const right: array<int>

    ghost predicate Valid() {
      left != right && left.Length == graph.lhs && right.Length == graph.rhs
    }

    constructor (g: MatchMatrix)
      ensures Valid() && graph == g && fresh(left) && fresh(right)
      ensures forall l | 0 <= l < g.lhs :: left[l] == UNUSED
      ensures forall r | 0 <= r < g.rhs :: right[r] == UNUSED
    {
      graph := g;
      left := new int[g.lhs](_ => UNUSED);
      right := new int[g.rhs](_ => UNUSED);
    }

    /**
     Depth-first search from element `ilhs`.  On failure nothing moved and every matcher newly
     marked is a dead end.  On success the flow grew by one unit, and neither the matchers
     marked before nor those of any `dead` set changed hands.
     */
    method TryAugment(ilhs: int, seen: array<bool>, ghost dead: set<int>) returns (found: bool, ghost gained: int)
      requires Valid() && 0 <= ilhs < graph.lhs && seen.Length == graph.rhs
      requires Linked(graph, left[..], right[..], UNUSED)
      requires left[ilhs] == UNUSED || seen[left[ilhs]]
      requires Dead(graph, right[..], dead, dead)
      modifies left, right, seen
      ensures forall r | 0 <= r < seen.Length && old(seen[r]) :: seen[r]
      ensures !found ==> left[..] == old(left[..]) && right[..] == old(right[..])
      ensures !found ==> Confined(graph, ilhs, Marked(seen[..]))
      ensures !found ==> Dead(graph, right[..], Marked(seen[..]) - old(Marked(seen[..])), Marked(seen[..]))
      ensures found ==> Linked(graph, left[..], right[..], old(left[ilhs]))
      ensures found ==> Augmented(old(left[..]), old(right[..]), left[..], right[..], ilhs, gained)
      ensures forall r | 0 <= r < graph.rhs && (old(seen[r]) || r in dead) :: right[r] == old(right[r])
      ensures found ==> left[ilhs] != old(left[ilhs]) && old(left[ilhs]) !in dead
      decreases Upto(seen.Length) - Marked(seen[..]), 1
    {
      hide Augmented, Dead;
      DeadNone(graph, right[..], Marked(seen[..]));
      found, gained := false, UNUSED;
      var irhs := 0;
      while irhs < graph.rhs
        invariant 0 <= irhs <= graph.rhs
        invariant left[..] == old(left[..]) && right[..] == old(right[..])
        invariant forall r | 0 <= r < seen.Length && old(seen[r]) :: seen[r]
        invariant forall r | 0 <= r < irhs && graph.HasEdge(ilhs, r) :: seen[r]
        invariant Dead(graph, right[..], Marked(seen[..]) - old(Marked(seen[..])), Marked(seen[..]))
      {
        if !seen[irhs] && graph.HasEdge(ilhs, irhs) {
          ghost var marked := Marked(seen[..]);
          found, gained := TryMatcher(ilhs, irhs, seen, dead);
          if found {
            return;
          }
          DeadJoins(graph, right[..], old(Marked(seen[..])), marked, Marked(seen[..]));
        }
        irhs := irhs + 1;
      }
    }

    /**
     One turn of the search: the matcher `irhs`, not seen before, is marked, and `ilhs` gets it
     if it is free or its element can be matched elsewhere.
     */
    method TryMatcher(ilhs: int, irhs: int, seen: array<bool>, ghost dead: set<int>)
        returns (found: bool, ghost gained: int)
      requires Valid() && graph.HasEdge(ilhs, irhs) && seen.Length == graph.rhs && !seen[irhs]
      requires Linked(graph, left[..], right[..], UNUSED)
      requires left[ilhs] == UNUSED || seen[left[ilhs]]
      requires Dead(graph, right[..], dead, dead)
      modifies left, right, seen
      ensures seen[irhs] && forall r | 0 <= r < seen.Length && old(seen[r]) :: seen[r]
      ensures !found ==> left[..] == old(left[..]) && right[..] == old(right[..])
      ensures !found ==> Dead(graph, right[..], Marked(seen[..]) - old(Marked(seen[..])), Marked(seen[..]))
      ensures found ==> Linked(graph, left[..], right[..], old(left[ilhs]))
      ensures found ==> Augmented(old(left[..]), old(right[..]), left[..], right[..], ilhs, gained)
      ensures forall r | 0 <= r < graph.rhs && (old(seen[r]) || r in dead) :: right[r] == old(right[r])
      ensures found ==> left[ilhs] != old(left[ilhs]) && old(left[ilhs]) !in dead
      decreases Upto(seen.Length) - Marked(seen[..]), 0
    {
      ghost var marked := Marked(seen[..]);
      seen[irhs] := true;
      assert Marked(seen[..]) == marked + {irhs};
      found, gained := right[irhs] == UNUSED, irhs;
      if !found {
        found, gained := TryAugment(right[irhs], seen, dead);
      }
      if found {
        HandOver(graph, left[..], right[..], ilhs, irhs);
        left[ilhs] := irhs;
        right[irhs] := ilhs;
      } else {
        DeadGrows(graph, right[..], marked, Marked(seen[..]), irhs);
      }
    }

    /** From empty links: one search per element, in order, then the pairs in element order. */
    method Compute() returns (result: seq<(int, int)>)
      requires Valid()
      requires forall l | 0 <= l < graph.lhs :: left[l] == UNUSED
      requires forall r | 0 <= r < graph.rhs :: right[r] == UNUSED
      modifies left, right
      ensures Maximum(graph, AsSet(result))
      ensures forall i, j | 0 <= i < j < |result| :: result[i].0 < result[j].0
    {
      ghost var dead := {};
      var ilhs := 0;
      while ilhs < graph.lhs
        invariant 0 <= ilhs <= graph.lhs
        invariant Linked(graph, left[..], right[..], UNUSED)
        invariant forall l | ilhs <= l < graph.lhs :: left[l] == UNUSED
        invariant Dead(graph, right[..], dead, dead)
        invariant forall l | 0 <= l < ilhs && left[l] == UNUSED :: Confined(graph, l, dead)
      {
        assert left[ilhs] == UNUSED;
        var seen := new bool[graph.rhs](_ => false);
        var found, _ := TryAugment(ilhs, seen, dead);
        if !found {
          dead := dead + Marked(seen[..]);
        }
        ilhs := ilhs + 1;
      }
      DeadEndsMeanMaximum(graph, left[..], right[..], dead);
      ghost var links := left[..];
      result := [];
      ilhs := 0;
      while ilhs < graph.lhs
        invariant 0 <= ilhs <= graph.lhs
        invariant left[..] == links
        invariant forall p | p in result :: p.0 < ilhs
        invariant forall i, j | 0 <= i < j < |result| :: result[i].0 < result[j].0
        invariant AsSet(result) == Pairs(left[..ilhs])
      {
        PairsExtend(left[..], ilhs, result);
        assert left[..][..ilhs] == left[..ilhs] && left[..][..ilhs + 1] == left[..ilhs + 1];
        if left[ilhs] != UNUSED {
          result := result + [(ilhs, left[ilhs])];
        }
        ilhs := ilhs + 1;
      }
      assert left[..ilhs] == left[..] && AsSet(result) == Pairs(left[..]);
    }
  }

  method FindMaxBipartiteMatching(g: MatchMatrix) returns (pairs: seq<(int, int)>)
    ensures Maximum(g, AsSet(pairs))
    ensures forall i, j | 0 <= i < j < |pairs| :: pairs[i].0 < pairs[j].0
  {
    var state := new MaxBipartiteMatchState(g);
    pairs := state.Compute();
  }

  // ---------- the matcher's verdict ----------

  /** What the matcher's flags ask of a pairing of elements with matchers. */
  ghost predicate Pairing(g: MatchMatrix, superset: bool, subset: bool, m: set<(int, int)>) {
    IsMatching(g, m) && (superset ==> AllMatchersUsed(g, m)) && (subset ==> AllElementsUsed(g, m))
  }

  ghost predicate Pairable(g: MatchMatrix, superset: bool, subset: bool) {
    exists m :: Pairing(g, superset, subset, m)
  }

  lemma {:induction false} OrderedPairsDistinct(pairs: seq<(int, int)>)
    requires forall i, j | 0 <= i < j < |pairs| :: pairs[i].0 < pairs[j].0
    ensures |AsSet(pairs)| == |pairs|
  {
    if pairs != [] {
      var n := |pairs| - 1;
      OrderedPairsDistinct(pairs[..n]);
      assert AsSet(pairs) == AsSet(pairs[..n]) + {pairs[n]};
    }
  }

  /** Sound and complete: true exactly when some pairing meets the flags. */
  method FindPairing(g: MatchMatrix, superset: bool, subset: bool) returns (ok: bool)
    ensures ok <==> Pairable(g, superset, subset)
  {
    var matches := FindMaxBipartiteMatching(g);
    ghost var best := AsSet(matches);
    OrderedPairsDistinct(matches);
    forall m | IsMatching(g, m)
      ensures |m| >= g.rhs <==> AllMatchersUsed(g, m)
      ensures |m| >= g.lhs <==> AllElementsUsed(g, m)
    {
      MatchersUsedIff(g, m);
      ElementsUsedIff(g, m);
    }
    if superset && |matches| < g.rhs {
      return false;
    }
    if subset && |matches| < g.lhs {
      return false;
    }
    assert Pairing(g, superset, subset, best);
    return true;
  }

  /** Whether each matcher (superset) and each element (subset) has an edge at all. */
  method VerifyMatchMatrix(g: MatchMatrix, superset: bool, subset: bool) returns (result: bool)
    ensures result <==> EdgesEverywhere(g, superset, subset)
  {
    var elementMatched := new bool[g.lhs](_ => false);
    var matcherMatched := new bool[g.rhs](_ => false);
    for ilhs := 0 to g.lhs
      invariant forall l | 0 <= l < g.lhs :: elementMatched[l] <==> l < ilhs && HasMatcher(g, l, g.rhs)
      invariant forall r | 0 <= r < g.rhs :: matcherMatched[r] <==> HasElement(g, r, ilhs)
    {
      for irhs := 0 to g.rhs
        invariant forall l | 0 <= l < g.lhs :: elementMatched[l] <==>
                  HasMatcher(g, l, if l < ilhs then g.rhs else if l == ilhs then irhs else 0)
        invariant forall r | 0 <= r < g.rhs :: matcherMatched[r] <==>
                  HasElement(g, r, if r < irhs then ilhs + 1 else ilhs)
      {
        var matched := g.HasEdge(ilhs, irhs);
        elementMatched[ilhs] := elementMatched[ilhs] || matched;
        matcherMatched[irhs] := matcherMatched[irhs] || matched;
      }
    }
    result := true;
    if superset {
      for mi := 0 to g.rhs
        invariant result <==> forall r | 0 <= r < mi :: HasElement(g, r, g.lhs)
      {
        if !matcherMatched[mi] { result := false; }
      }
    }
    ghost var first := result;
    if subset {
      for ei := 0 to g.lhs
        invariant result <==> first && forall l | 0 <= l < ei :: HasMatcher(g, l, g.rhs)
      {
        if !elementMatched[ei] { result := false; }
      }
    }
  }

  /** Element `l` has an edge to a matcher below `n`. */
  ghost predicate HasMatcher(g: MatchMatrix, l: int, n: int) {
    exists r :: 0 <= r < n && g.HasEdge(l, r)
  }

  ghost predicate HasElement(g: MatchMatrix, r: int, n: int) {
    exists l :: 0 <= l < n && g.HasEdge(l, r)
  }

  ghost predicate EdgesEverywhere(g: MatchMatrix, superset: bool, subset: bool) {
    && (superset ==> forall r | 0 <= r < g.rhs :: HasElement(g, r, g.lhs))
    && (subset ==> forall l | 0 <= l < g.lhs :: HasMatcher(g, l, g.rhs))
  }

  /** The size test and the edge test that come before the search reject nothing that pairs. */
  lemma PairableImpliesFilters(g: MatchMatrix, superset: bool, subset: bool)
    requires Pairable(g, superset, subset)
    ensures superset && subset ==> g.lhs == g.rhs
    ensures EdgesEverywhere(g, superset, subset)
  {
    var m :| Pairing(g, superset, subset, m);
    if superset && subset {
      MatchersUsedIff(g, m);
      ElementsUsedIff(g, m);
      NoMoreThanMatchers(g, m, Upto(g.rhs));
      NoMoreThanElements(g, m, Upto(g.lhs));
    }
    if superset {
      forall r | 0 <= r < g.rhs ensures HasElement(g, r, g.lhs) {
        assert UsesMatcher(m, r);
        var p: (int, int) :| p in m && p.1 == r;
        assert g.HasEdge(p.0, r);
      }
    }
    if subset {
      forall l | 0 <= l < g.lhs ensures HasMatcher(g, l, g.rhs) {
        assert UsesElement(m, l);
        var p: (int, int) :| p in m && p.0 == l;
        assert g.HasEdge(l, p.1);
      }
    }
  }

  /** The whole verdict: empty test, size test, edge test, search. */
  method MatchAndExplain(g: MatchMatrix, superset: bool, subset: bool) returns (ok: bool)
    ensures ok <==> Pairable(g, superset, subset)
  {
    if Pairable(g, superset, subset) {
      PairableImpliesFilters(g, superset, subset);
    }
    if g.lhs == 0 && g.rhs == 0 {
      assert Pairing(g, superset, subset, {});
      return true;
    }
    if superset && subset && g.lhs != g.rhs {
      return false;
    }
    ok := VerifyMatchMatrix(g, superset, subset);
    if ok {
      ok := FindPairing(g, superset, subset);
    }
  }
}
