/** The ordered part of a loop object through any number of calls of `doRun`. */
module LoopLayers {
  import opened ActionGraph
  import opened LoopSchedule
  import opened LoopInvariant

  function Below(n: nat): (part: set<nat>)
    ensures forall i: nat :: i in part <==> i < n
  {
    if n == 0 then {} else Below(n - 1) + {n - 1}
  }

  /** The sub-plan actions together with the End action of every layer. */
  function OrderedPart(g: Graph, layers: nat): (part: set<nat>)
    ensures forall i :: i in part ==> i < |g| + 2 * layers
  {
    if layers == 0 then Below(|g|)
    else OrderedPart(g, layers - 1) + {|g| + 2 * (layers - 1)}
  }

  /** Every dependee of the sub-plan is listed before its depender. */
  ghost predicate ListedInOrder(g: Graph) {
    forall i: nat, d: nat :: Edge(g, d, i) ==> d < i
  }

  lemma ListedIsAcyclic(g: Graph)
    requires ListedInOrder(g)
    ensures Acyclic(g)
  {
    assert Ranks(g, seq(|g|, i requires 0 <= i => i));
  }

  /** The part of layer `layers` is closed but for its last End, which has no depender yet. */
  ghost predicate LayerOrdered(g: Graph, layers: nat) {
    var h := Layered(g, layers);
    var part := OrderedPart(g, layers);
    && (forall i, d :: i in part && d in part && Edge(h, d, i) ==> d < i)
    && (forall i {:trigger HasDepender(h, part, i)} :: i in part ==> HasDepender(h, part, i) || IsLeaf(h, i))
  }

  /** One more layer keeps the listing order. */
  lemma LayerEdges(h: Graph, part: set<nat>, i: nat, d: nat)
    requires Closed(h) && (forall k :: k in part ==> k < |h|)
    requires forall i, d :: i in part && d in part && Edge(h, d, i) ==> d < i
    requires i in part + {|h|} && d in part + {|h|} && Edge(Augmented(h), d, i)
    ensures d < i
  {
    AugmentedEdge(h, d, i);
    if Edge(h, d, i) {
      assert i in part && d in part;
    }
  }

  lemma LayerDepender(h: Graph, part: set<nat>, i: nat)
    requires i in part && i < |h| && (HasDepender(h, part, i) || IsLeaf(h, i))
    ensures HasDepender(Augmented(h), part + {|h|}, i)
  {
    if IsLeaf(h, i) {
      AugmentedEdge(h, i, |h|);
      assert |h| in part + {|h|} && Edge(Augmented(h), i, |h|);
    } else {
      var j :| j in part && Edge(h, i, j);
      AugmentedEdge(h, i, j);
      assert j in part + {|h|} && Edge(Augmented(h), i, j);
    }
  }

  lemma SinkIsLeaf(h: Graph)
    requires Closed(h)
    ensures IsLeaf(Augmented(h), |h|)
  {
    forall j | 0 <= j < |h| + 2
      ensures |h| !in Augmented(h)[j]
    {
      AugmentedEdge(h, |h|, j);
    }
  }

  lemma BottomLayer(g: Graph)
    requires ListedInOrder(g)
    ensures LayerOrdered(g, 0)
  {
    forall i | i in OrderedPart(g, 0)
      ensures HasDepender(g, OrderedPart(g, 0), i) || IsLeaf(g, i)
    {
      if !IsLeaf(g, i) {
        var j: nat :| j < |g| && i in g[j];
        assert j in OrderedPart(g, 0) && Edge(g, i, j);
      }
    }
  }

  lemma LayerStep(g: Graph, k: nat)
    requires LayerOrdered(g, k) && Closed(Layered(g, k))
    ensures LayerOrdered(g, k + 1)
  {
    hide IsLeaf, HasDepender, Edge, Augmented;
    var h, part := Layered(g, k), OrderedPart(g, k);
    assert Layered(g, k + 1) == Augmented(h) && OrderedPart(g, k + 1) == part + {|h|};
    forall i, d | i in part + {|h|} && d in part + {|h|} && Edge(Augmented(h), d, i)
      ensures d < i
    {
      LayerEdges(h, part, i, d);
    }
    SinkIsLeaf(h);
    forall i | i in part + {|h|}
      ensures HasDepender(Augmented(h), part + {|h|}, i) || IsLeaf(Augmented(h), i)
    {
      if i in part {
        assert HasDepender(h, part, i) || IsLeaf(h, i);
        LayerDepender(h, part, i);
      }
    }
  }

  lemma {:induction false} LayersOrdered(g: Graph, layers: nat)
    requires ListedInOrder(g)
    ensures LayerOrdered(g, layers)
  {
    hide LayerOrdered;
    if layers == 0 {
      BottomLayer(g);
    } else {
      LayersOrdered(g, layers - 1);
      ListedIsAcyclic(g);
      LayeredAcyclic(g, layers - 1);
      LayerStep(g, layers - 1);
    }
  }

  lemma {:induction false} CoreInPart(g: Graph, layers: nat)
    ensures forall i: nat :: i < |g| ==> i in OrderedPart(g, layers)
  {
    if layers > 0 {
      CoreInPart(g, layers - 1);
    }
  }

  lemma {:induction false} SinkInPart(g: Graph, layers: nat)
    requires layers > 0
    ensures |g| + 2 * layers - 2 in OrderedPart(g, layers)
    ensures forall i :: i in OrderedPart(g, layers) ==> i != |g| + 2 * layers - 1
  {
    if layers > 1 {
      SinkInPart(g, layers - 1);
    }
  }

  /** After at least one call the part is ordered, and edges among the listed actions are as listed. */
  lemma LayersGiveOrder(g: Graph, layers: nat)
    requires ListedInOrder(g) && g != [] && layers > 0
    ensures Ordered(Layered(g, layers), OrderedPart(g, layers))
    ensures forall i: nat, d: nat :: i < |g| && d < |g| ==> (Edge(Layered(g, layers), d, i) <==> Edge(g, d, i))
  {
    ListedIsAcyclic(g);
    LayersOrdered(g, layers);
    LayeredAcyclic(g, layers);
    LayeredIsSingle(g, layers);
    SinkInPart(g, layers);
    var h, part := Layered(g, layers), OrderedPart(g, layers);
    forall i | i in part && i != |h| - 2
      ensures HasDepender(h, part, i)
    {
      assert !IsLeaf(h, i);
      assert HasDepender(h, part, i) || IsLeaf(h, i);
    }
    forall i | i in part
      ensures h[i] != []
    {
      assert i != |h| - 1 && !IsRoot(h, i);
    }
  }

  // ---- Every reachable state ---------------------------------------------------------

  /** `doRun` has been called `layers` times on the object. */
  ghost predicate Built(p: LoopPlan, s: State, layers: nat) {
    && s.graph == Layered(p.graph, layers)
    && (layers == 0 ==> s.conts == [] && s.main == Outside)
  }

  lemma StepKeepsBuilt(p: LoopPlan, s: State, step: Step, layers: nat) returns (layers': nat)
    requires ValidLoop(p) && ListedInOrder(p.graph)
    requires Built(p, s, layers) && Inv(p, OrderedPart(p.graph, layers), s) && Enabled(p, s, step)
    ensures Built(p, Apply(p, s, step), layers') && Inv(p, OrderedPart(p.graph, layers'), Apply(p, s, step))
    ensures layers' == if step.Execute? then layers + 1 else layers
  {
    hide Inv, Ordered;
    if layers > 0 {
      LayersGiveOrder(p.graph, layers);
    }
    if step.Execute? {
      ExecuteKeepsInv(p, OrderedPart(p.graph, layers), s);
      layers' := layers + 1;
    } else {
      StepKeepsInv(p, OrderedPart(p.graph, layers), s, step);
      layers' := layers;
    }
  }

  lemma InitialInv(p: LoopPlan)
    ensures Built(p, Initial(p), 0) && Inv(p, OrderedPart(p.graph, 0), Initial(p))
  {
  }

  lemma {:induction false} RunKeepsInv(p: LoopPlan, tr: seq<State>, k: nat) returns (layers: nat)
    requires ValidLoop(p) && ListedInOrder(p.graph) && Run(p, tr) && k < |tr|
    ensures Built(p, tr[k], layers) && Inv(p, OrderedPart(p.graph, layers), tr[k])
  {
    hide Inv, Built, Enabled, Apply;
    if k == 0 {
      InitialInv(p);
      layers := 0;
    } else {
      layers := RunKeepsInv(p, tr, k - 1);
      assert Next(p, tr[k - 1], tr[k - 1 + 1]);
      var step :| Enabled(p, tr[k - 1], step) && tr[k] == Apply(p, tr[k - 1], step);
      layers := StepKeepsBuilt(p, tr[k - 1], step, layers);
    }
  }

  lemma ReachableInv(p: LoopPlan, s: State) returns (layers: nat)
    requires ValidLoop(p) && ListedInOrder(p.graph) && Reachable(p, s)
    ensures Built(p, s, layers) && Inv(p, OrderedPart(p.graph, layers), s)
    ensures layers > 0 ==> Ordered(s.graph, OrderedPart(p.graph, layers))
    ensures forall i: nat :: i < |p.graph| ==> i in OrderedPart(p.graph, layers)
    ensures forall i: nat, d: nat :: i < |p.graph| && d < |p.graph| ==> (Edge(s.graph, d, i) <==> Edge(p.graph, d, i))
  {
    var tr :| Run(p, tr) && tr[|tr| - 1] == s;
    layers := RunKeepsInv(p, tr, |tr| - 1);
    CoreInPart(p.graph, layers);
    if layers > 0 {
      LayersGiveOrder(p.graph, layers);
    }
  }
}
