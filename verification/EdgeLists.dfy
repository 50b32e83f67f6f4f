/** The two edge lists every action keeps, and the graph they stand for. */
module EdgeLists {
  import opened ActionGraph

  ghost predicate Distinct<T>(nodes: seq<T>) {
    forall i, j :: 0 <= i < j < |nodes| ==> nodes[i] != nodes[j]
  }

  ghost predicate Stands<T>(nodes: seq<T>, dees: seq<T>, positions: seq<nat>) {
    && |dees| == |positions|
    && forall k :: 0 <= k < |dees| ==> positions[k] < |nodes| && nodes[positions[k]] == dees[k]
  }

  /** The dependees of each node are exactly the nodes at the positions listed in `g`. */
  ghost predicate Represents<T>(nodes: seq<T>, dees: seq<seq<T>>, g: Graph) {
    && |g| == |nodes| == |dees|
    && forall i {:trigger dees[i]} {:trigger g[i]} :: 0 <= i < |g| ==> Stands(nodes, dees[i], g[i])
  }

  ghost function Count<T>(s: seq<T>, x: T): (c: nat) {
    multiset(s)[x]
  }

  lemma CountIn<T>(s: seq<T>, x: T)
    ensures Count(s, x) > 0 <==> x in s
  {
  }

  /** Every edge is stored at both ends, as often at the one as at the other. */
  ghost predicate Mirrored<T>(nodes: seq<T>, dees: seq<seq<T>>, ders: seq<seq<T>>) {
    && |dees| == |ders| == |nodes|
    && (forall i {:trigger ders[i]} :: 0 <= i < |nodes| ==> forall b :: b in ders[i] ==> b in nodes)
    && (forall i, j :: 0 <= i < |nodes| && 0 <= j < |nodes| ==> Count(ders[i], nodes[j]) == Count(dees[j], nodes[i]))
  }

  ghost predicate Consistent<T>(nodes: seq<T>, dees: seq<seq<T>>, ders: seq<seq<T>>, g: Graph) {
    Distinct(nodes) && Represents(nodes, dees, g) && Mirrored(nodes, dees, ders)
  }

  lemma Lengths<T>(nodes: seq<T>, dees: seq<seq<T>>, ders: seq<seq<T>>, g: Graph)
    requires Consistent(nodes, dees, ders, g)
    ensures |nodes| == |dees| == |ders| == |g|
  {
  }

  lemma EdgeAt<T>(nodes: seq<T>, dees: seq<seq<T>>, ders: seq<seq<T>>, g: Graph, i: nat, j: nat)
    requires Consistent(nodes, dees, ders, g) && i < |nodes| && j < |nodes|
    ensures i in g[j] <==> nodes[i] in dees[j]
    ensures nodes[j] in ders[i] <==> nodes[i] in dees[j]
  {
    CountIn(ders[i], nodes[j]);
    CountIn(dees[j], nodes[i]);
    assert Stands(nodes, dees[j], g[j]);
    if nodes[i] in dees[j] {
      var k :| 0 <= k < |dees[j]| && dees[j][k] == nodes[i];
      assert g[j][k] == i;
    }
    if i in g[j] {
      var k :| 0 <= k < |g[j]| && g[j][k] == i;
    }
  }

  /** The empty-list tests of `schedule` find exactly the roots and the leaves of the graph. */
  lemma EndTests<T>(nodes: seq<T>, dees: seq<seq<T>>, ders: seq<seq<T>>, g: Graph, i: nat)
    requires Consistent(nodes, dees, ders, g) && i < |nodes|
    ensures dees[i] == [] <==> IsRoot(g, i)
    ensures ders[i] == [] <==> IsLeaf(g, i)
  {
    assert Stands(nodes, dees[i], g[i]);
    if ders[i] != [] {
      var b := ders[i][0];
      assert b in ders[i];
      var j :| 0 <= j < |nodes| && nodes[j] == b;
      EdgeAt(nodes, dees, ders, g, i, j);
    }
    if !IsLeaf(g, i) {
      var j :| 0 <= j < |g| && i in g[j];
      EdgeAt(nodes, dees, ders, g, i, j);
    }
  }

  function Pick<T>(nodes: seq<T>, positions: seq<nat>): (picked: seq<T>)
    requires forall p :: p in positions ==> p < |nodes|
    ensures |picked| == |positions|
  {
    seq(|positions|, k requires 0 <= k < |positions| =>
        assert positions[k] in positions; nodes[positions[k]])
  }

  lemma PickAppend<T>(nodes: seq<T>, ps: seq<nat>, p: nat)
    requires (forall q :: q in ps ==> q < |nodes|) && p < |nodes|
    ensures forall q :: q in ps + [p] ==> q < |nodes|
    ensures Pick(nodes, ps + [p]) == Pick(nodes, ps) + [nodes[p]]
  {
    assert forall q :: q in ps + [p] ==> q in ps || q == p;
  }

  lemma DistinctByCount<T>(s: seq<T>)
    requires forall k :: 0 <= k < |s| ==> Count(s, s[k]) <= 1
    ensures Distinct(s)
  {
    forall i, j | 0 <= i < j < |s|
      ensures s[i] != s[j]
    {
      var before, after := s[..j], s[j..];
      assert s == before + after;
      assert before[i] == s[i] && after[0] == s[j];
      assert multiset(s) == multiset(before) + multiset(after);
      assert s[i] in multiset(before) && s[j] in multiset(after);
      assert Count(s, s[j]) <= 1;
    }
  }

  lemma CountAppend<T>(s: seq<T>, y: T, x: T)
    ensures Count(s + [y], x) == Count(s, x) + (if x == y then 1 else 0)
  {
  }

  lemma {:induction false} CountPick<T>(nodes: seq<T>, ps: seq<nat>, i: nat)
    requires Distinct(nodes) && (forall p :: p in ps ==> p < |nodes|) && i < |nodes|
    ensures Count(Pick(nodes, ps), nodes[i]) == Count(ps, i)
  {
    if ps != [] {
      var front, p := ps[..|ps| - 1], ps[|ps| - 1];
      assert ps == front + [p];
      assert p in ps && forall q :: q in front ==> q in ps;
      CountPick(nodes, front, i);
      PickAppend(nodes, front, p);
      CountAppend(front, p, i);
      CountAppend(Pick(nodes, front), nodes[p], nodes[i]);
    }
  }

  lemma {:induction false} LeafOnce(g: Graph, n: nat, i: nat)
    requires n <= |g|
    ensures Count(LeavesUpTo(g, n), i) == if i < n && IsLeaf(g, i) then 1 else 0
  {
    if n > 0 {
      LeafOnce(g, n - 1, i);
      CountAppend(LeavesUpTo(g, n - 1), n - 1, i);
      assert LeavesUpTo(g, n) == LeavesUpTo(g, n - 1) + (if IsLeaf(g, n - 1) then [n - 1] else []);
    }
  }

  lemma {:induction false} RootOnce(g: Graph, n: nat, i: nat)
    requires n <= |g|
    ensures Count(RootsUpTo(g, n), i) == if i < n && IsRoot(g, i) then 1 else 0
  {
    if n > 0 {
      RootOnce(g, n - 1, i);
      CountAppend(RootsUpTo(g, n - 1), n - 1, i);
      assert RootsUpTo(g, n) == RootsUpTo(g, n - 1) + (if IsRoot(g, n - 1) then [n - 1] else []);
    }
  }

  lemma CountLeaves<T>(nodes: seq<T>, g: Graph, i: nat)
    requires Distinct(nodes) && |g| == |nodes| && i < |nodes|
    ensures Count(Pick(nodes, LeavesUpTo(g, |g|)), nodes[i]) == if IsLeaf(g, i) then 1 else 0
  {
    CountPick(nodes, LeavesUpTo(g, |g|), i);
    LeafOnce(g, |g|, i);
  }

  lemma CountRoots<T>(nodes: seq<T>, g: Graph, i: nat)
    requires Distinct(nodes) && |g| == |nodes| && i < |nodes|
    ensures Count(Pick(nodes, RootsUpTo(g, |g|)), nodes[i]) == if IsRoot(g, i) then 1 else 0
  {
    CountPick(nodes, RootsUpTo(g, |g|), i);
    RootOnce(g, |g|, i);
  }

  lemma RootsStep<T>(nodes: seq<T>, dees: seq<seq<T>>, ders: seq<seq<T>>, g: Graph, i: nat)
    requires Consistent(nodes, dees, ders, g) && i < |nodes| == |dees| == |g|
    ensures Pick(nodes, RootsUpTo(g, i + 1)) == Pick(nodes, RootsUpTo(g, i)) + (if dees[i] == [] then [nodes[i]] else [])
  {
    EndTests(nodes, dees, ders, g, i);
    hide Consistent;
    PickAppend(nodes, RootsUpTo(g, i), i);
  }

  lemma LeavesStep<T>(nodes: seq<T>, dees: seq<seq<T>>, ders: seq<seq<T>>, g: Graph, i: nat)
    requires Consistent(nodes, dees, ders, g) && i < |nodes| == |ders| == |g|
    ensures Pick(nodes, LeavesUpTo(g, i + 1)) == Pick(nodes, LeavesUpTo(g, i)) + (if ders[i] == [] then [nodes[i]] else [])
  {
    EndTests(nodes, dees, ders, g, i);
    hide Consistent;
    PickAppend(nodes, LeavesUpTo(g, i), i);
  }

  lemma PickMembers<T>(nodes: seq<T>, positions: seq<nat>, x: T)
    requires forall p :: p in positions ==> p < |nodes|
    ensures x in Pick(nodes, positions) ==> x in nodes
    ensures x !in nodes ==> Count(Pick(nodes, positions), x) == 0
  {
    var picked := Pick(nodes, positions);
    if x in picked {
      var k :| 0 <= k < |picked| && picked[k] == x;
      assert positions[k] in positions;
    }
    CountIn(picked, x);
  }

  /** The picked roots are exactly the nodes with an empty dependee list, each once. */
  lemma RootsExact<T>(nodes: seq<T>, dees: seq<seq<T>>, ders: seq<seq<T>>, g: Graph, roots: seq<T>)
    requires Consistent(nodes, dees, ders, g) && roots == Pick(nodes, RootsUpTo(g, |g|))
    ensures Distinct(roots) && (forall a :: a in roots ==> a in nodes)
    ensures forall i :: 0 <= i < |nodes| ==> (nodes[i] in roots <==> dees[i] == [])
  {
    forall i | 0 <= i < |nodes|
      ensures Count(roots, nodes[i]) == if dees[i] == [] then 1 else 0
      ensures nodes[i] in roots <==> dees[i] == []
    {
      EndTests(nodes, dees, ders, g, i);
      CountRoots(nodes, g, i);
      CountIn(roots, nodes[i]);
    }
    forall a | a in roots
      ensures a in nodes && Count(roots, a) <= 1
    {
      PickMembers(nodes, RootsUpTo(g, |g|), a);
    }
    DistinctByCount(roots);
  }

  lemma LeavesExact<T>(nodes: seq<T>, dees: seq<seq<T>>, ders: seq<seq<T>>, g: Graph, leaves: seq<T>)
    requires Consistent(nodes, dees, ders, g) && leaves == Pick(nodes, LeavesUpTo(g, |g|))
    ensures Distinct(leaves) && (forall a :: a in leaves ==> a in nodes)
    ensures forall i :: 0 <= i < |nodes| ==> (nodes[i] in leaves <==> ders[i] == [])
  {
    forall i | 0 <= i < |nodes|
      ensures Count(leaves, nodes[i]) == if ders[i] == [] then 1 else 0
      ensures nodes[i] in leaves <==> ders[i] == []
    {
      EndTests(nodes, dees, ders, g, i);
      CountLeaves(nodes, g, i);
      CountIn(leaves, nodes[i]);
    }
    forall a | a in leaves
      ensures a in nodes && Count(leaves, a) <= 1
    {
      PickMembers(nodes, LeavesUpTo(g, |g|), a);
    }
    DistinctByCount(leaves);
  }

  // ---- Augmentation, list by list ---------------------------------------------

  function WithSource<T(==)>(dees: seq<seq<T>>, source: T): (r: seq<seq<T>>)
    ensures |r| == |dees|
  {
    seq(|dees|, i requires 0 <= i < |dees| => if dees[i] == [] then [source] else dees[i])
  }

  lemma AugmentedRepresents<T>(nodes: seq<T>, dees: seq<seq<T>>, ders: seq<seq<T>>, g: Graph, sink: T, source: T)
    requires Consistent(nodes, dees, ders, g)
    ensures Represents(nodes + [sink, source],
                       WithSource(dees, source) + [Pick(nodes, LeavesUpTo(g, |g|)), []],
                       Augmented(g))
  {
    var nodes' := nodes + [sink, source];
    var dees' := WithSource(dees, source) + [Pick(nodes, LeavesUpTo(g, |g|)), []];
    var h := Augmented(g);
    forall i | 0 <= i < |h|
      ensures Stands(nodes', dees'[i], h[i])
    {
      if i < |g| {
        assert Stands(nodes, dees[i], g[i]);
      } else if i == |g| {
        forall k | 0 <= k < |dees'[i]|
          ensures h[i][k] < |nodes'| && nodes'[h[i][k]] == dees'[i][k]
        {
          assert h[i][k] in LeavesUpTo(g, |g|);
        }
      }
    }
  }

  /** The only counts an augmented list can have, for an old node and for the two new ones. */
  lemma WithSourceCounts<T>(lists: seq<seq<T>>, extra: T, i: nat, x: T)
    requires i < |lists|
    ensures Count(WithSource(lists, extra)[i], x)
            == if x != extra then Count(lists[i], x)
               else if lists[i] == [] then 1 else Count(lists[i], extra)
  {
    if lists[i] == [] {
      CountAppend([], extra, x);
      assert [] + [extra] == [extra];
    }
  }

  lemma MembersOfDees<T>(nodes: seq<T>, dees: seq<seq<T>>, ders: seq<seq<T>>, g: Graph, j: nat, x: T)
    requires Consistent(nodes, dees, ders, g) && j < |nodes| && x !in nodes
    ensures Count(dees[j], x) == 0 && Count(ders[j], x) == 0
  {
    assert Stands(nodes, dees[j], g[j]);
    CountIn(dees[j], x);
    CountIn(ders[j], x);
  }

  lemma MirroredFrom<T>(nodes: seq<T>, dees: seq<seq<T>>, ders: seq<seq<T>>)
    requires |nodes| == |dees| == |ders|
    requires forall i: nat, b :: i < |nodes| && b in ders[i] ==> b in nodes
    requires forall i: nat, j: nat :: i < |nodes| && j < |nodes| ==> Count(ders[i], nodes[j]) == Count(dees[j], nodes[i])
    ensures Mirrored(nodes, dees, ders)
  {
  }

  lemma AugmentedMember<T>(nodes: seq<T>, dees: seq<seq<T>>, ders: seq<seq<T>>, g: Graph, sink: T, source: T, i: nat, b: T)
    requires Consistent(nodes, dees, ders, g)
    requires i < |nodes| + 2
    requires b in (WithSource(ders, sink) + [[], Pick(nodes, RootsUpTo(g, |g|))])[i]
    ensures b in nodes + [sink, source]
  {
    if i < |nodes| {
      assert b in ders[i] || b == sink;
    } else if i == |nodes| + 1 {
      PickMembers(nodes, RootsUpTo(g, |g|), b);
    }
  }

  lemma OldPair<T>(nodes: seq<T>, dees: seq<seq<T>>, ders: seq<seq<T>>, g: Graph, sink: T, source: T, i: nat, j: nat)
    requires Consistent(nodes, dees, ders, g)
    requires sink !in nodes && source !in nodes
    requires i < |nodes| && j < |nodes|
    ensures Count(WithSource(ders, sink)[i], nodes[j]) == Count(WithSource(dees, source)[j], nodes[i])
  {
    WithSourceCounts(ders, sink, i, nodes[j]);
    WithSourceCounts(dees, source, j, nodes[i]);
    assert nodes[i] in nodes && nodes[j] in nodes;
    assert Count(ders[i], nodes[j]) == Count(dees[j], nodes[i]);
  }

  lemma OldToNew<T>(nodes: seq<T>, dees: seq<seq<T>>, ders: seq<seq<T>>, g: Graph, sink: T, source: T, i: nat)
    requires Consistent(nodes, dees, ders, g)
    requires sink !in nodes && source !in nodes && sink != source
    requires i < |nodes|
    ensures Count(WithSource(ders, sink)[i], sink) == Count(Pick(nodes, LeavesUpTo(g, |g|)), nodes[i])
    ensures Count(WithSource(ders, sink)[i], source) == 0
  {
    WithSourceCounts(ders, sink, i, sink);
    WithSourceCounts(ders, sink, i, source);
    EndTests(nodes, dees, ders, g, i);
    MembersOfDees(nodes, dees, ders, g, i, sink);
    MembersOfDees(nodes, dees, ders, g, i, source);
    CountLeaves(nodes, g, i);
  }

  lemma NewToOld<T>(nodes: seq<T>, dees: seq<seq<T>>, ders: seq<seq<T>>, g: Graph, sink: T, source: T, j: nat)
    requires Consistent(nodes, dees, ders, g)
    requires sink !in nodes && source !in nodes && sink != source
    requires j < |nodes|
    ensures Count(Pick(nodes, RootsUpTo(g, |g|)), nodes[j]) == Count(WithSource(dees, source)[j], source)
    ensures Count(WithSource(dees, source)[j], sink) == 0
  {
    WithSourceCounts(dees, source, j, sink);
    WithSourceCounts(dees, source, j, source);
    EndTests(nodes, dees, ders, g, j);
    MembersOfDees(nodes, dees, ders, g, j, sink);
    MembersOfDees(nodes, dees, ders, g, j, source);
    CountRoots(nodes, g, j);
  }

  /** Node `i` is `x` with dependers `di`, node `j` is `y` with dependees `dj`. */
  lemma AugmentedCounts<T>(nodes: seq<T>, dees: seq<seq<T>>, ders: seq<seq<T>>, g: Graph, sink: T, source: T,
                           i: nat, x: T, di: seq<T>, j: nat, y: T, dj: seq<T>)
    requires Consistent(nodes, dees, ders, g) && |nodes| == |dees| == |ders| == |g|
    requires sink !in nodes && source !in nodes && sink != source
    requires i < |nodes| ==> x == nodes[i] && di == WithSource(ders, sink)[i]
    requires i == |nodes| ==> x == sink && di == []
    requires i > |nodes| ==> x == source && di == Pick(nodes, RootsUpTo(g, |g|))
    requires j < |nodes| ==> y == nodes[j] && dj == WithSource(dees, source)[j]
    requires j == |nodes| ==> y == sink && dj == Pick(nodes, LeavesUpTo(g, |g|))
    requires j > |nodes| ==> y == source && dj == []
    ensures Count(di, y) == Count(dj, x)
  {
    hide Consistent;
    if i < |nodes| && j < |nodes| {
      OldPair(nodes, dees, ders, g, sink, source, i, j);
    } else if i < |nodes| {
      OldToNew(nodes, dees, ders, g, sink, source, i);
    } else if j < |nodes| {
      NewToOld(nodes, dees, ders, g, sink, source, j);
    } else {
      PickMembers(nodes, LeavesUpTo(g, |g|), x);
      PickMembers(nodes, RootsUpTo(g, |g|), y);
    }
  }

  lemma AugmentedMirrored<T>(nodes: seq<T>, dees: seq<seq<T>>, ders: seq<seq<T>>, g: Graph, sink: T, source: T)
    requires Consistent(nodes, dees, ders, g)
    requires sink !in nodes && source !in nodes && sink != source
    ensures Mirrored(nodes + [sink, source],
                     WithSource(dees, source) + [Pick(nodes, LeavesUpTo(g, |g|)), []],
                     WithSource(ders, sink) + [[], Pick(nodes, RootsUpTo(g, |g|))])
  {
    hide Consistent, Mirrored;
    Lengths(nodes, dees, ders, g);
    var nodes' := nodes + [sink, source];
    var dees' := WithSource(dees, source) + [Pick(nodes, LeavesUpTo(g, |g|)), []];
    var ders' := WithSource(ders, sink) + [[], Pick(nodes, RootsUpTo(g, |g|))];
    forall i: nat, b | i < |nodes'| && b in ders'[i]
      ensures b in nodes'
    {
      AugmentedMember(nodes, dees, ders, g, sink, source, i, b);
    }
    forall i: nat, j: nat | i < |nodes'| && j < |nodes'|
      ensures Count(ders'[i], nodes'[j]) == Count(dees'[j], nodes'[i])
    {
      AugmentedCounts(nodes, dees, ders, g, sink, source, i, nodes'[i], ders'[i], j, nodes'[j], dees'[j]);
    }
    MirroredFrom(nodes', dees', ders');
  }
}
