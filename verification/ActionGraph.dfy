/** The dependency graph of a plan, as a value: entry `i` lists the dependees of action `i`
    in the order their edges were added.  An action is identified by its position in `actions_`. */
module ActionGraph {

  type Graph = seq<seq<nat>>

  predicate Edge(g: Graph, d: nat, i: nat) {
    i < |g| && d in g[i]
  }

  ghost predicate Closed(g: Graph) {
    forall i: nat, d: nat :: Edge(g, d, i) ==> d < |g|
  }

  /** A rank that falls along every edge: the certificate that the graph has no cycle. */
  ghost predicate Ranks(g: Graph, rank: seq<nat>) {
    && |rank| == |g|
    && forall i: nat, d: nat :: Edge(g, d, i) ==> d < |g| && rank[d] < rank[i]
  }

  ghost predicate Acyclic(g: Graph) {
    exists rank :: Ranks(g, rank)
  }

  predicate IsRoot(g: Graph, i: nat) {
    i < |g| && g[i] == []
  }

  predicate IsLeaf(g: Graph, i: nat) {
    i < |g| && forall j | 0 <= j < |g| :: i !in g[j]
  }

  /** A walk along edges, from a dependee to a depender at each step. */
  ghost predicate Path(g: Graph, p: seq<nat>) {
    && |p| > 0
    && p[0] < |g|
    && forall k :: 0 <= k < |p| - 1 ==> Edge(g, p[k], p[k + 1])
  }

  ghost predicate Reaches(g: Graph, a: nat, b: nat) {
    exists p :: Path(g, p) && p[0] == a && p[|p| - 1] == b
  }

  lemma PathPrefix(g: Graph, p: seq<nat>) returns (q: seq<nat>)
    requires Path(g, p) && |p| > 1
    ensures Path(g, q) && q == p[..|p| - 1]
    ensures q[0] == p[0] && q[|q| - 1] == p[|p| - 2] && Edge(g, p[|p| - 2], p[|p| - 1])
  {
    q := p[..|p| - 1];
    assert Edge(g, p[|p| - 2], p[|p| - 2 + 1]);
    forall k | 0 <= k < |q| - 1
      ensures Edge(g, q[k], q[k + 1])
    {
      assert Edge(g, p[k], p[k + 1]);
    }
  }

  lemma PathSuffix(g: Graph, p: seq<nat>) returns (q: seq<nat>)
    requires Path(g, p) && |p| > 1
    ensures Path(g, q) && q == p[1..]
    ensures q[0] == p[1] && q[|q| - 1] == p[|p| - 1] && Edge(g, p[0], p[1])
  {
    q := p[1..];
    assert Edge(g, p[0], p[0 + 1]);
    forall k | 0 <= k < |q| - 1
      ensures Edge(g, q[k], q[k + 1])
    {
      assert q[k] == p[k + 1] && q[k + 1] == p[k + 1 + 1];
    }
  }

  lemma ReachesSelf(g: Graph, a: nat)
    requires a < |g|
    ensures Reaches(g, a, a)
  {
    var p := [a];
    assert Path(g, p) && p[0] == a && p[|p| - 1] == a;
  }

  lemma ReachesStep(g: Graph, a: nat, b: nat, c: nat)
    requires Reaches(g, a, b) && Edge(g, b, c)
    ensures Reaches(g, a, c)
  {
    var p :| Path(g, p) && p[0] == a && p[|p| - 1] == b;
    var q := p + [c];
    assert forall k :: 0 <= k < |q| - 1 ==> Edge(g, q[k], q[k + 1]);
    assert Path(g, q) && q[0] == a && q[|q| - 1] == c;
  }

  lemma StepReaches(g: Graph, a: nat, b: nat, c: nat)
    requires Closed(g) && Edge(g, a, b) && Reaches(g, b, c)
    ensures Reaches(g, a, c)
  {
    var p :| Path(g, p) && p[0] == b && p[|p| - 1] == c;
    var q := [a] + p;
    assert forall k :: 0 <= k < |q| - 1 ==> Edge(g, q[k], q[k + 1]) by {
      forall k | 0 <= k < |q| - 1
        ensures Edge(g, q[k], q[k + 1])
      {
        if k > 0 {
          assert q[k] == p[k - 1] && q[k + 1] == p[k];
        }
      }
    }
    assert Path(g, q) && q[0] == a && q[|q| - 1] == c;
  }

  /** No action is its own ancestor: the rank certificate really excludes cycles. */
  lemma {:induction false} PathRises(g: Graph, rank: seq<nat>, p: seq<nat>)
    requires Ranks(g, rank) && Path(g, p)
    ensures forall k :: 0 <= k < |p| ==> p[k] < |g|
    ensures |p| > 1 ==> rank[p[0]] < rank[p[|p| - 1]]
    decreases |p|
  {
    if |p| > 1 {
      var q := PathPrefix(g, p);
      PathRises(g, rank, q);
      assert Edge(g, p[|p| - 2], p[|p| - 1]);
      assert q[|q| - 1] == p[|p| - 2];
    }
  }

  // ---- Roots and leaves -------------------------------------------------

  /** Every action of an acyclic plan descends from an action without dependees. */
  lemma {:induction false} ReachedFromRoot(g: Graph, rank: seq<nat>, i: nat) returns (r: nat)
    requires Ranks(g, rank) && i < |g|
    ensures IsRoot(g, r) && Reaches(g, r, i)
    decreases rank[i]
  {
    if g[i] == [] {
      r := i;
      ReachesSelf(g, i);
    } else {
      assert Edge(g, g[i][0], i);
      r := ReachedFromRoot(g, rank, g[i][0]);
      ReachesStep(g, r, g[i][0], i);
    }
  }

  function Bound(rank: seq<nat>): (b: nat)
    ensures forall i :: 0 <= i < |rank| ==> rank[i] <= b
  {
    if rank == [] then 0
    else
      var b := Bound(rank[1..]);
      assert forall i :: 1 <= i < |rank| ==> rank[i] == rank[1..][i - 1];
      if rank[0] > b then rank[0] else b
  }

  /** Every action of an acyclic plan leads to an action without dependers. */
  lemma {:induction false} ReachesLeaf(g: Graph, rank: seq<nat>, i: nat) returns (l: nat)
    requires Ranks(g, rank) && i < |g|
    ensures IsLeaf(g, l) && Reaches(g, i, l)
    decreases Bound(rank) - rank[i]
  {
    if IsLeaf(g, i) {
      l := i;
      ReachesSelf(g, i);
    } else {
      var j: nat :| j < |g| && i in g[j];
      assert Edge(g, i, j);
      l := ReachesLeaf(g, rank, j);
      assert Closed(g);
      StepReaches(g, i, j, l);
    }
  }

  // ---- Source and sink augmentation -------------------------------------

  /** The leaves below position `n`, in list order. */
  function LeavesUpTo(g: Graph, n: nat): (ls: seq<nat>)
    requires n <= |g|
    ensures forall i: nat :: i in ls <==> i < n && IsLeaf(g, i)
  {
    if n == 0 then []
    else LeavesUpTo(g, n - 1) + (if IsLeaf(g, n - 1) then [n - 1] else [])
  }

  function RootsUpTo(g: Graph, n: nat): (rs: seq<nat>)
    requires n <= |g|
    ensures forall i: nat :: i in rs <==> i < n && IsRoot(g, i)
  {
    if n == 0 then []
    else RootsUpTo(g, n - 1) + (if IsRoot(g, n - 1) then [n - 1] else [])
  }

  /** The graph after one sink (position |g|) and one source (position |g| + 1) were appended. */
  function Augmented(g: Graph): (h: Graph)
    ensures |h| == |g| + 2
  {
    seq(|g|, i requires 0 <= i < |g| => if g[i] == [] then [|g| + 1] else g[i])
    + [LeavesUpTo(g, |g|), []]
  }

  lemma AugmentedEdge(g: Graph, d: nat, i: nat)
    ensures Edge(Augmented(g), d, i) <==>
            || Edge(g, d, i)
            || (i == |g| && IsLeaf(g, d))
            || (d == |g| + 1 && IsRoot(g, i))
  {
  }

  lemma AugmentedRanks(g: Graph, rank: seq<nat>) returns (rank': seq<nat>)
    requires Ranks(g, rank)
    ensures Ranks(Augmented(g), rank')
  {
    var h := Augmented(g);
    rank' := seq(|g|, i requires 0 <= i < |g| => rank[i] + 1) + [Bound(rank) + 2, 0];
    forall i: nat, d: nat | Edge(h, d, i)
      ensures d < |h| && rank'[d] < rank'[i]
    {
      AugmentedEdge(g, d, i);
    }
  }

  /** Augmentation keeps the graph acyclic. */
  lemma AugmentedAcyclic(g: Graph)
    requires Acyclic(g)
    ensures Acyclic(Augmented(g)) && Closed(Augmented(g))
  {
    var rank :| Ranks(g, rank);
    var rank' := AugmentedRanks(g, rank);
  }

  /** Exactly one action without dependees and exactly one without dependers, and every action
      lies on a path from the one to the other. */
  ghost predicate SingleSourceSink(h: Graph, source: nat, sink: nat) {
    && source < |h| && sink < |h|
    && (forall i: nat :: IsRoot(h, i) <==> i == source)
    && (forall i: nat :: IsLeaf(h, i) <==> i == sink)
    && (forall i: nat :: i < |h| ==> Reaches(h, source, i) && Reaches(h, i, sink))
  }

  lemma AugmentedLeaf(g: Graph, rank: seq<nat>, root: nat, i: nat)
    requires Ranks(g, rank) && IsRoot(g, root)
    ensures IsLeaf(Augmented(g), i) <==> i == |g|
  {
    var h := Augmented(g);
    if i == |g| {
      forall j | 0 <= j < |h|
        ensures i !in h[j]
      {
        AugmentedEdge(g, i, j);
        assert Edge(h, i, j) <==> i in h[j];
      }
    } else if i == |g| + 1 {
      AugmentedEdge(g, i, root);
      assert i in h[root];
    } else if i < |g| {
      if IsLeaf(g, i) {
        AugmentedEdge(g, i, |g|);
        assert i in h[|g|];
      } else {
        var j: nat :| j < |g| && i in g[j];
        AugmentedEdge(g, i, j);
        assert i in h[j];
      }
    }
  }

  lemma AugmentedIsSingle(g: Graph)
    requires Acyclic(g) && g != []
    ensures SingleSourceSink(Augmented(g), |g| + 1, |g|)
  {
    var h := Augmented(g);
    var source, sink := |g| + 1, |g|;
    var rank :| Ranks(g, rank);
    var rank' := AugmentedRanks(g, rank);
    var leaf := ReachesLeaf(g, rank, 0);
    var root := ReachedFromRoot(g, rank, 0);
    assert leaf in h[|g|];
    assert h[|g|] != [] && h[|g| + 1] == [];
    assert forall i: nat :: IsRoot(h, i) <==> i == source;
    forall i: nat
      ensures IsLeaf(h, i) <==> i == sink
    {
      AugmentedLeaf(g, rank, root, i);
    }
    forall i: nat | i < |h|
      ensures Reaches(h, source, i) && Reaches(h, i, sink)
    {
      var r := ReachedFromRoot(h, rank', i);
      assert r == source;
      var l := ReachesLeaf(h, rank', i);
      assert l == sink;
    }
  }

  // ---- Repeated augmentation (a loop action run several times) -----------

  /** The graph after `k` augmentations, as a `LoopAction` object accumulates them. */
  function Layered(g: Graph, k: nat): (h: Graph)
    ensures |h| == |g| + 2 * k
  {
    if k == 0 then g else Augmented(Layered(g, k - 1))
  }

  lemma {:induction false} LayeredAcyclic(g: Graph, k: nat)
    requires Acyclic(g)
    ensures Acyclic(Layered(g, k))
  {
    if k > 0 {
      LayeredAcyclic(g, k - 1);
      AugmentedAcyclic(Layered(g, k - 1));
    }
  }

  /** However many layers are stacked, the newest source and sink are the only ends, and the
      edges among the original actions are untouched. */
  lemma {:induction false} LayeredIsSingle(g: Graph, k: nat)
    requires Acyclic(g) && g != [] && k > 0
    ensures SingleSourceSink(Layered(g, k), |g| + 2 * k - 1, |g| + 2 * k - 2)
    ensures forall i: nat, d: nat :: d < |g| && i < |g| ==> (Edge(Layered(g, k), d, i) <==> Edge(g, d, i))
  {
    LayeredAcyclic(g, k - 1);
    AugmentedIsSingle(Layered(g, k - 1));
    if k > 1 {
      LayeredIsSingle(g, k - 1);
    }
    forall i: nat, d: nat | d < |g| && i < |g|
      ensures Edge(Layered(g, k), d, i) <==> Edge(g, d, i)
    {
      AugmentedEdge(Layered(g, k - 1), d, i);
    }
  }
}
