/** Building the plan: linking the actions of a plan file, and adding the source and the sink. */
module ChaosPlanObjects {
  import opened ActionGraph
  import opened ActionStatus
  import opened PlanSchedule
  import opened EdgeLists
  import opened Actions
  import opened PlanTheorems

  ghost function DependeeLists(actions: seq<Action>): (r: seq<seq<Action>>)
    reads actions
    ensures |r| == |actions|
  {
    seq(|actions|, i requires 0 <= i < |actions| reads actions => actions[i].dependees)
  }

  ghost function DependerLists(actions: seq<Action>): (r: seq<seq<Action>>)
    reads actions
    ensures |r| == |actions|
  {
    seq(|actions|, i requires 0 <= i < |actions| reads actions => actions[i].dependers)
  }

  /** The edge lists of these objects are mirrored and stand for the graph `g`. */
  ghost predicate Linked(actions: seq<Action>, g: Graph)
    reads actions
  {
    Consistent(actions, DependeeLists(actions), DependerLists(actions), g)
  }

  // ---- Loading ---------------------------------------------------------------

  lemma AddEdgeMirrored<T>(nodes: seq<T>, dees: seq<seq<T>>, ders: seq<seq<T>>, i: nat, d: nat)
    requires Distinct(nodes) && Mirrored(nodes, dees, ders) && i < |nodes| && d < |nodes|
    ensures Mirrored(nodes, dees[i := dees[i] + [nodes[d]]], ders[d := ders[d] + [nodes[i]]])
  {
    var dees' := dees[i := dees[i] + [nodes[d]]];
    var ders' := ders[d := ders[d] + [nodes[i]]];
    forall a, b | 0 <= a < |nodes| && 0 <= b < |nodes|
      ensures Count(ders'[a], nodes[b]) == Count(dees'[b], nodes[a])
    {
      assert Count(ders[a], nodes[b]) == Count(dees[b], nodes[a]);
      CountAppend(ders[d], nodes[i], nodes[b]);
      CountAppend(dees[i], nodes[d], nodes[a]);
    }
  }

  /** Not started yet, and each carrying its position as its id. */
  ghost predicate Numbered(actions: seq<Action>)
    reads actions
  {
    forall i :: 0 <= i < |actions| ==> actions[i].id == i && actions[i].status == INIT && actions[i].promise == Unset
  }

  /** First pass over the plan file: one object per entry, its position as its id. */
  method CreateActions(n: nat) returns (actions: seq<Action>)
    ensures |actions| == n && fresh(actions) && Distinct(actions)
    ensures Numbered(actions)
    ensures forall i :: 0 <= i < n ==> actions[i].dependees == [] && actions[i].dependers == []
  {
    actions := [];
    while |actions| < n
      invariant |actions| <= n && fresh(actions) && Distinct(actions)
      invariant Numbered(actions)
      invariant forall i :: 0 <= i < |actions| ==> actions[i].dependees == [] && actions[i].dependers == []
    {
      var action := new Action();
      action.id := |actions|;
      actions := actions + [action];
    }
  }

  lemma AddEdgeStands<T>(nodes: seq<T>, dees: seq<seq<T>>, g: Graph, i: nat, d: nat)
    requires Represents(nodes, dees, g) && i < |nodes| && d < |nodes|
    ensures Represents(nodes, dees[i := dees[i] + [nodes[d]]], g[i := g[i] + [d]])
  {
    var dees' := dees[i := dees[i] + [nodes[d]]];
    var g' := g[i := g[i] + [d]];
    forall j | 0 <= j < |g'|
      ensures Stands(nodes, dees'[j], g'[j])
    {
      assert Stands(nodes, dees[j], g[j]);
    }
  }

  method LinkOne(actions: seq<Action>, index: nat, d: nat, ghost g: Graph)
    requires Linked(actions, g) && index < |actions| && d < |actions|
    modifies {actions[index]}`dependees, {actions[d]}`dependers
    ensures Linked(actions, g[index := g[index] + [d]])
  {
    ghost var dees, ders := DependeeLists(actions), DependerLists(actions);
    actions[index].AddDependee(actions[d]);
    AddEdgeMirrored(actions, dees, ders, index, d);
    AddEdgeStands(actions, dees, g, index, d);
    assert DependeeLists(actions) == dees[index := dees[index] + [actions[d]]];
    assert DependerLists(actions) == ders[d := ders[d] + [actions[index]]];
  }

  lemma EmptyIsLinked(actions: seq<Action>)
    requires Distinct(actions)
    requires forall i :: 0 <= i < |actions| ==> actions[i].dependees == [] && actions[i].dependers == []
    ensures Linked(actions, seq(|actions|, _ => []))
  {
    var g: Graph := seq(|actions|, _ => []);
    forall i | 0 <= i < |g|
      ensures Stands(actions, DependeeLists(actions)[i], g[i])
    {
    }
  }

  /** Second pass: the `depends` indices become edges.  The result represents exactly the graph the
      file lists, forward references included. */
  method LoadActions(depends: seq<seq<nat>>) returns (actions: seq<Action>)
    requires Closed(depends)
    ensures |actions| == |depends| && fresh(actions)
    ensures Linked(actions, depends) && Numbered(actions)
  {
    hide Linked;
    actions := CreateActions(|depends|);
    EmptyIsLinked(actions);
    var index := 0;
    ghost var done: Graph := seq(|depends|, _ => []);
    while index < |depends|
      invariant 0 <= index <= |depends| == |actions|
      invariant done == depends[..index] + seq(|depends| - index, _ => [])
      invariant Linked(actions, done)
      invariant fresh(actions)
      invariant Numbered(actions)
    {
      var k := 0;
      while k < |depends[index]|
        invariant 0 <= k <= |depends[index]|
        invariant done == depends[..index] + [depends[index][..k]] + seq(|depends| - index - 1, _ => [])
        invariant Linked(actions, done)
        invariant fresh(actions)
        invariant Numbered(actions)
      {
        var d := depends[index][k];
        assert Edge(depends, d, index);
        LinkOne(actions, index, d, done);
        done := done[index := done[index] + [d]];
        assert depends[index][..k] + [d] == depends[index][..k + 1];
        k := k + 1;
      }
      assert depends[index][..k] == depends[index];
      index := index + 1;
    }
    assert done == depends;
  }

  // ---- The thread pool's side of a run --------------------------------------------

  /** How far the registration loop got, where each continuation stands, whether the wait on the sink
      has returned, and what each execution of the report task saw. */
  datatype Pool = Pool(registered: nat, phases: seq<Phase>, woken: bool, reports: seq<bool>)

  function BusyWorkers(phases: seq<Phase>): (b: nat) {
    if phases == [] then 0
    else (if phases[0] == Executing || phases[0] == Owing then 1 else 0) + BusyWorkers(phases[1..])
  }

  lemma {:induction false} BusyAgrees(phases: seq<Phase>, nodes: seq<Node>)
    requires |phases| == |nodes| && forall i :: 0 <= i < |nodes| ==> phases[i] == nodes[i].phase
    ensures BusyWorkers(phases) == Busy(nodes)
  {
    if nodes != [] {
      BusyAgrees(phases[1..], nodes[1..]);
    }
  }

  /** The objects and the pool are in the state `s`. */
  ghost predicate Shows(actions: seq<Action>, failed: bool, pool: Pool, s: State)
    reads actions
  {
    && |actions| == |s.nodes| == |pool.phases|
    && failed == s.failed && pool.registered == s.registered && pool.woken == s.woken && pool.reports == s.reports
    && forall i :: 0 <= i < |actions| ==>
         && actions[i].status == s.nodes[i].status
         && actions[i].promise == s.nodes[i].promise
         && pool.phases[i] == s.nodes[i].phase
  }

  /** The two tests a continuation makes on the promises of its dependees. */
  lemma DependeeTests(actions: seq<Action>, p: Plan, failed: bool, pool: Pool, s: State, i: nat)
    requires Linked(actions, p.graph) && Shows(actions, failed, pool, s) && i < |actions| == |p.graph|
    ensures (forall a | a in actions[i].dependees :: a.promise != Unset) <==> DepsSettled(p, s, i)
    ensures (exists a | a in actions[i].dependees :: a.promise == Broken) <==> DepBroken(p, s, i)
  {
    var dees, g := DependeeLists(actions)[i], p.graph[i];
    assert Stands(actions, dees, g);
    assert dees == actions[i].dependees;
    forall d | d in g
      ensures d < |actions| && actions[d] in dees
      ensures Settled(s, d) <==> actions[d].promise != Unset
      ensures Broke(s, d) <==> actions[d].promise == Broken
    {
      var k :| 0 <= k < |g| && g[k] == d;
      assert dees[k] == actions[d];
    }
    forall a | a in dees
      ensures exists d :: d in g && d < |actions| && actions[d] == a
    {
      var k :| 0 <= k < |dees| && dees[k] == a;
      assert g[k] in g;
    }
  }

  // ---- The plan ----------------------------------------------------------------

  lemma ListsAfter(nodes: seq<Action>, dees: seq<seq<Action>>, ders: seq<seq<Action>>,
                   roots: seq<Action>, leaves: seq<Action>, sink: Action, source: Action)
    requires |dees| == |ders| == |nodes|
    requires forall i :: 0 <= i < |nodes| ==> nodes[i].dependees == if dees[i] == [] then [source] else dees[i]
    requires forall i :: 0 <= i < |nodes| ==> nodes[i].dependers == if ders[i] == [] then [sink] else ders[i]
    requires sink.dependees == leaves && sink.dependers == []
    requires source.dependers == roots && source.dependees == []
    ensures DependeeLists(nodes + [sink, source]) == WithSource(dees, source) + [leaves, []]
    ensures DependerLists(nodes + [sink, source]) == WithSource(ders, sink) + [[], roots]
  {
  }

  ghost predicate EndsSoFar(actions: seq<Action>, g: Graph, i: nat, roots: seq<Action>, leaves: seq<Action>) {
    && i <= |g| == |actions|
    && roots == Pick(actions, RootsUpTo(g, i))
    && leaves == Pick(actions, LeavesUpTo(g, i))
  }

  lemma EndsExact(actions: seq<Action>, g: Graph, roots: seq<Action>, leaves: seq<Action>)
    requires Linked(actions, g) && EndsSoFar(actions, g, |actions|, roots, leaves)
    ensures |g| == |actions|
    ensures roots == Pick(actions, RootsUpTo(g, |g|)) && leaves == Pick(actions, LeavesUpTo(g, |g|))
    ensures Distinct(roots) && Distinct(leaves)
    ensures forall a :: a in roots ==> a in actions
    ensures forall a :: a in leaves ==> a in actions
    ensures forall i :: 0 <= i < |actions| ==> (actions[i] in roots <==> actions[i].dependees == [])
    ensures forall i :: 0 <= i < |actions| ==> (actions[i] in leaves <==> actions[i].dependers == [])
  {
    var dees, ders := DependeeLists(actions), DependerLists(actions);
    RootsExact(actions, dees, ders, g, roots);
    LeavesExact(actions, dees, ders, g, leaves);
    assert forall i :: 0 <= i < |actions| ==> dees[i] == actions[i].dependees && ders[i] == actions[i].dependers;
  }

  lemma LinkedFrom(nodes: seq<Action>, dees: seq<seq<Action>>, ders: seq<seq<Action>>, g: Graph,
                   sink: Action, source: Action, actions: seq<Action>)
    requires Consistent(nodes, dees, ders, g)
    requires sink !in nodes && source !in nodes && sink != source
    requires actions == nodes + [sink, source]
    requires DependeeLists(actions) == WithSource(dees, source) + [Pick(nodes, LeavesUpTo(g, |g|)), []]
    requires DependerLists(actions) == WithSource(ders, sink) + [[], Pick(nodes, RootsUpTo(g, |g|))]
    ensures Linked(actions, Augmented(g))
  {
    AugmentedRepresents(nodes, dees, ders, g, sink, source);
    AugmentedMirrored(nodes, dees, ders, g, sink, source);
  }

  lemma LinkedMeans(actions: seq<Action>, g: Graph)
    requires Linked(actions, g)
    ensures Consistent(actions, DependeeLists(actions), DependerLists(actions), g)
  {
  }

  lemma InvShape(p: Plan, s: State)
    requires Inv(p, s)
    ensures |s.nodes| == |p.graph| == |p.outcomes| && |p.graph| >= 2
  {
  }

  lemma LinkedAgain(actions: seq<Action>, g: Graph, dees: seq<seq<Action>>, ders: seq<seq<Action>>)
    requires Consistent(actions, dees, ders, g)
    requires |dees| == |ders| == |actions|
    requires forall i :: 0 <= i < |actions| ==> actions[i].dependees == dees[i] && actions[i].dependers == ders[i]
    ensures Linked(actions, g)
  {
    assert DependeeLists(actions) == dees && DependerLists(actions) == ders;
  }

  lemma ReachableSettled(p: Plan, s: State, i: nat)
    requires ValidPlan(p) && Acyclic(p.graph) && Reachable(p, s) && i < |p.graph| && i < |s.nodes|
    requires s.nodes[i].promise != Unset
    ensures s.nodes[i].status == SUCCEEDED <==> AllAncestorsOk(p, i)
  {
    var tr :| Run(p, tr) && tr[|tr| - 1] == s;
    RunKeepsInv(p, tr, |tr| - 1);
    var rank :| Ranks(p.graph, rank);
    FateDecides(p, rank, s, i);
    assert NodeOk(p, s, i);
  }

  lemma ReachableReturn(p: Plan, s: State)
    requires ValidPlan(p) && Reachable(p, s) && s.woken
    ensures Settled(s, Sink(p))
  {
    var tr :| Run(p, tr) && tr[|tr| - 1] == s;
    RunKeepsInv(p, tr, |tr| - 1);
  }

  lemma ReachableComplete(g: Graph, p: Plan, s: State, i: nat)
    requires Scheduled(g, p) && Reachable(p, s) && i < |p.graph| && s.woken
    ensures Settled(s, i) && (s.nodes[i].status == SUCCEEDED <==> AllAncestorsOk(p, i))
  {
    var tr :| Run(p, tr) && tr[|tr| - 1] == s;
    CompleteAtReturn(g, p, tr, |tr| - 1, i);
  }

  lemma QuiescentSettled(p: Plan, picks: seq<Step>)
    requires ValidPlan(p) && Acyclic(p.graph) && Quiescent(p, Carried(p, Initial(p), picks))
    ensures var s := Carried(p, Initial(p), picks);
            s.woken && forall i: nat :: i < |p.graph| ==> s.nodes[i].promise != Unset
  {
    hide Enabled;
    CarriedToTheEnd(p, picks);
  }

  lemma LinkedBasics(actions: seq<Action>, g: Graph)
    requires Linked(actions, g)
    ensures |actions| == |g| && Distinct(actions)
  {
  }

  lemma FreshWhileWaiting(p: Plan, s: State, i: nat)
    requires Inv(p, s) && i < |s.nodes| && s.nodes[i].phase == Waiting
    ensures s.nodes[i] == FRESH
  {
    assert NodeOk(p, s, i);
  }

  lemma LinkedLength(actions: seq<Action>, g: Graph)
    requires Linked(actions, g)
    ensures |actions| == |g|
  {
  }

  lemma NoEndsYet(actions: seq<Action>, g: Graph)
    requires |actions| == |g|
    ensures EndsSoFar(actions, g, 0, [], [])
  {
  }

  lemma EndsStep(actions: seq<Action>, g: Graph, i: nat, roots: seq<Action>, leaves: seq<Action>)
    requires Linked(actions, g) && i < |actions| && EndsSoFar(actions, g, i, roots, leaves)
    ensures EndsSoFar(actions, g, i + 1,
                      if actions[i].dependees == [] then roots + [actions[i]] else roots,
                      if actions[i].dependers == [] then leaves + [actions[i]] else leaves)
  {
    hide Consistent;
    var dees, ders := DependeeLists(actions), DependerLists(actions);
    RootsStep(actions, dees, ders, g, i);
    LeavesStep(actions, dees, ders, g, i);
  }

  /** Every leaf becomes a dependee of the sink. */
  method AttachSink(ghost owned: seq<Action>, leaves: seq<Action>, sink: Action)
    requires forall a :: a in leaves ==> a in owned
    requires Distinct(leaves) && sink !in leaves && sink.dependees == []
    requires forall a :: a in leaves ==> a.dependers == []
    modifies owned`dependers, sink`dependees
    ensures forall a :: a in owned && a !in leaves ==> a.dependers == old(a.dependers)
    ensures sink.dependees == leaves
    ensures forall a :: a in leaves ==> a.dependers == [sink]
  {
    for k := 0 to |leaves|
      invariant sink.dependees == leaves[..k]
      invariant forall a :: a in owned && a !in leaves ==> a.dependers == old(a.dependers)
      invariant forall j :: 0 <= j < |leaves| ==> leaves[j].dependers == if j < k then [sink] else []
    {
      assert leaves[k] in leaves;
      leaves[k].AddDependency(sink);
    }
  }

  /** Every root becomes a depender of the source. */
  method AttachSource(ghost owned: seq<Action>, roots: seq<Action>, source: Action)
    requires forall a :: a in roots ==> a in owned
    requires Distinct(roots) && source !in roots && source.dependers == []
    requires forall a :: a in roots ==> a.dependees == []
    modifies owned`dependees, source`dependers
    ensures forall a :: a in owned && a !in roots ==> a.dependees == old(a.dependees)
    ensures source.dependers == roots
    ensures forall a :: a in roots ==> a.dependees == [source]
  {
    for k := 0 to |roots|
      invariant source.dependers == roots[..k]
      invariant forall a :: a in owned && a !in roots ==> a.dependees == old(a.dependees)
      invariant forall j :: 0 <= j < |roots| ==> roots[j].dependees == if j < k then [source] else []
    {
      assert roots[k] in roots;
      source.AddDependency(roots[k]);
    }
  }

  class ChaosPlan {
    var actions: seq<Action>
    var failed: bool
    ghost var graph: Graph

    ghost predicate Valid()
      reads this, actions
    {
      Linked(actions, graph)
    }

    constructor (actions: seq<Action>, ghost graph: Graph)
      requires Linked(actions, graph)
      ensures Valid() && this.actions == actions && this.graph == graph && !failed
    {
      this.actions := actions;
      this.graph := graph;
      failed := false;
    }

    /** An action without an id gets its position. */
    method AddAction(action: Action)
      modifies this`actions, action`id
      ensures actions == old(actions) + [action]
      ensures action.id == if old(action.id) < 0 then |old(actions)| else old(action.id)
    {
      if action.id < 0 {
        action.id := |actions|;
      }
      actions := actions + [action];
    }

    /** The actions whose list of dependees, or of dependers, is empty. */
    method Ends() returns (roots: seq<Action>, leaves: seq<Action>)
      requires Valid()
      ensures EndsSoFar(actions, graph, |actions|, roots, leaves)
    {
      hide Linked, EndsSoFar;
      LinkedLength(actions, graph);
      NoEndsYet(actions, graph);
      roots, leaves := [], [];
      var i := 0;
      while i < |actions|
        invariant 0 <= i <= |actions|
        invariant EndsSoFar(actions, graph, i, roots, leaves)
      {
        EndsStep(actions, graph, i, roots, leaves);
        if actions[i].dependees == [] {
          roots := roots + [actions[i]];
        }
        if actions[i].dependers == [] {
          leaves := leaves + [actions[i]];
        }
        i := i + 1;
      }
    }

    method AppendEnds(roots: seq<Action>, leaves: seq<Action>) returns (sink: Action, source: Action)
      requires Distinct(roots) && (forall a :: a in roots ==> a.dependees == [])
      requires Distinct(leaves) && (forall a :: a in leaves ==> a.dependers == [])
      requires (forall a :: a in roots ==> a in actions) && (forall a :: a in leaves ==> a in actions)
      modifies this`actions, actions`dependees, actions`dependers
      ensures forall a :: a in old(actions) && a !in roots ==> a.dependees == old(a.dependees)
      ensures forall a :: a in old(actions) && a !in leaves ==> a.dependers == old(a.dependers)
      ensures fresh(sink) && fresh(source) && sink != source && actions == old(actions) + [sink, source]
      ensures sink.status == INIT && sink.promise == Unset && source.status == INIT && source.promise == Unset
      ensures sink.dependees == leaves && sink.dependers == []
      ensures source.dependers == roots && source.dependees == []
      ensures forall a :: a in roots ==> a.dependees == [source]
      ensures forall a :: a in leaves ==> a.dependers == [sink]
    {
      sink := new Action();
      AddAction(sink);
      AttachSink(old(actions), leaves, sink);
      source := new Action();
      AddAction(source);
      AttachSource(old(actions), roots, source);
    }

    /** One sink below all leaves and one source above all roots: the edges at both ends then stand
        for exactly the augmented graph. */
    method Augment() returns (sink: Action, source: Action)
      requires Valid()
      modifies this, actions`dependees, actions`dependers
      ensures Valid() && graph == Augmented(old(graph))
      ensures fresh(sink) && fresh(source) && actions == old(actions) + [sink, source]
      ensures sink.status == INIT && sink.promise == Unset && source.status == INIT && source.promise == Unset
      ensures failed == old(failed)
    {
      hide Linked, Consistent, EndsSoFar;
      ghost var nodes, g := actions, graph;
      ghost var dees, ders := DependeeLists(nodes), DependerLists(nodes);
      LinkedLength(nodes, g);
      LinkedMeans(nodes, g);
      var roots, leaves := Ends();
      EndsExact(nodes, g, roots, leaves);
      sink, source := AppendEnds(roots, leaves);
      graph := Augmented(g);
      ListsAfter(nodes, dees, ders, roots, leaves, sink, source);
      LinkedFrom(nodes, dees, ders, g, sink, source, actions);
    }

    method SkipAction(pool: Pool, i: nat, ghost p: Plan, ghost s: State) returns (pool': Pool, ghost s': State)
      requires Distinct(actions) && Shaped(p, s) && Shows(actions, failed, pool, s)
      requires Enabled(p, s, Skip(i)) && s.nodes[i] == FRESH && i < |actions|
      modifies actions`status, actions`promise
      ensures s' == Apply(p, s, Skip(i)) && Shows(actions, failed, pool', s')
    {
      s' := Apply(p, s, Skip(i));
      var _ := actions[i].MarkFailed();
      pool' := pool.(phases := pool.phases[i := Owing]);
    }

    method StartAction(pool: Pool, i: nat, ghost p: Plan, ghost s: State) returns (pool': Pool, ghost s': State)
      requires Distinct(actions) && Shaped(p, s) && Shows(actions, failed, pool, s)
      requires Enabled(p, s, Start(i)) && s.nodes[i] == FRESH && i < |actions|
      modifies actions`status, actions`promise
      ensures s' == Apply(p, s, Start(i)) && Shows(actions, failed, pool', s')
    {
      s' := Apply(p, s, Start(i));
      actions[i].BeginRun();
      pool' := pool.(phases := pool.phases[i := Executing],
                     reports := if i == |actions| - 2 then pool.reports + [!failed] else pool.reports);
    }

    /** The continuation of action `i`, called when all its dependees are settled: the first broken
        one marks the action failed, otherwise the action is run up to its body. */
    method Continue(pool: Pool, i: nat, ghost p: Plan, ghost s: State) returns (pool': Pool, ghost s': State)
      requires Valid() && p.graph == graph && Inv(p, s) && Shows(actions, failed, pool, s)
      requires Ready(p, s, i) && i < |actions|
      modifies actions`status, actions`promise
      ensures s' == Apply(p, s, if DepBroken(p, s, i) then Skip(i) else Start(i))
      ensures Shows(actions, failed, pool', s')
    {
      hide Linked, NodeOk;
      LinkedBasics(actions, graph);
      FreshWhileWaiting(p, s, i);
      DependeeTests(actions, p, failed, pool, s, i);
      if exists a | a in actions[i].dependees :: a.promise == Broken {
        pool', s' := SkipAction(pool, i, p, s);
      } else {
        pool', s' := StartAction(pool, i, p, s);
      }
    }

    /** The body of action `i` comes to its end. */
    method EndBody(pool: Pool, i: nat, outcome: Outcome, ghost p: Plan, ghost s: State)
      returns (pool': Pool, ghost s': State)
      requires Valid() && p.graph == graph && Inv(p, s) && Shows(actions, failed, pool, s)
      requires Enabled(p, s, Finish(i)) && outcome == p.outcomes[i] && i < |actions|
      modifies actions`status, actions`promise
      ensures s' == Apply(p, s, Finish(i)) && Shows(actions, failed, pool', s')
    {
      hide Linked;
      LinkedBasics(actions, graph);
      assert NodeOk(p, s, i);
      s' := Apply(p, s, Finish(i));
      actions[i].EndRun(outcome);
      pool' := pool.(phases := pool.phases[i := if outcome == Throws then Thrown else Done]);
    }

    /** The error handler behind a body that threw. */
    method HandleThrow(pool: Pool, i: nat, ghost p: Plan, ghost s: State) returns (pool': Pool, ghost s': State)
      requires Valid() && p.graph == graph && Inv(p, s) && Shows(actions, failed, pool, s)
      requires Enabled(p, s, Handle(i)) && i < |actions|
      modifies actions`status, actions`promise
      ensures s' == Apply(p, s, Handle(i)) && Shows(actions, failed, pool', s')
    {
      hide Linked;
      LinkedBasics(actions, graph);
      assert NodeOk(p, s, i);
      s' := Apply(p, s, Handle(i));
      var _ := actions[i].MarkFailed();
      pool' := pool.(phases := pool.phases[i := Owing]);
    }

    method RecordFailure(pool: Pool, i: nat, ghost p: Plan, ghost s: State) returns (pool': Pool, ghost s': State)
      requires Shaped(p, s) && Shows(actions, failed, pool, s) && Enabled(p, s, Record(i))
      modifies this`failed
      ensures s' == Apply(p, s, Record(i)) && Shows(actions, failed, pool', s')
    {
      s' := Apply(p, s, Record(i));
      failed := true;
      pool' := pool.(phases := pool.phases[i := Done]);
    }

    /** The main thread, past its wait on the sink: a failed report task is executed again. */
    method ReturnFromWait(pool: Pool, ghost p: Plan, ghost s: State) returns (pool': Pool, ghost s': State)
      requires Shaped(p, s) && Shows(actions, failed, pool, s) && Enabled(p, s, Wake)
      ensures s' == Apply(p, s, Wake) && Shows(actions, failed, pool', s')
    {
      s' := Apply(p, s, Wake);
      var again := actions[|actions| - 2].status == FAILED;
      pool' := pool.(woken := true, reports := if again then pool.reports + [!failed] else pool.reports);
    }

    /** `skip` says which of the two ends of the continuation is proposed. */
    method TryContinue(pool: Pool, i: nat, skip: bool, workers: nat, ghost p: Plan, ghost s: State)
      returns (pool': Pool, ghost s': State)
      requires Valid() && p.graph == graph && p.workers == workers && Inv(p, s) && Shows(actions, failed, pool, s)
      modifies actions`status, actions`promise
      ensures var step := if skip then Skip(i) else Start(i);
              s' == if Enabled(p, s, step) then Apply(p, s, step) else s
      ensures Shows(actions, failed, pool', s')
    {
      hide Linked, NodeOk;
      LinkedLength(actions, graph);
      BusyAgrees(pool.phases, s.nodes);
      pool', s' := pool, s;
      if i < |actions| && i < pool.registered && pool.phases[i] == Waiting && BusyWorkers(pool.phases) < workers {
        DependeeTests(actions, p, failed, pool, s, i);
        if forall a | a in actions[i].dependees :: a.promise != Unset {
          if skip == exists a | a in actions[i].dependees :: a.promise == Broken {
            pool', s' := Continue(pool, i, p, s);
          }
        }
      }
    }

    /** Whatever the scheduler of the machine proposes next is carried out on the objects, if it is
        possible, and otherwise ignored. */
    method TakeStep(pool: Pool, step: Step, outcomes: seq<Outcome>, workers: nat, ghost s: State)
      returns (pool': Pool, ghost s': State)
      requires Valid() && ValidPlan(Plan(graph, outcomes, workers))
      requires Inv(Plan(graph, outcomes, workers), s) && Shows(actions, failed, pool, s)
      modifies this`failed, actions`status, actions`promise
      ensures var p := Plan(graph, outcomes, workers);
              s' == if Enabled(p, s, step) then Apply(p, s, step) else s
      ensures Shows(actions, failed, pool', s')
    {
      hide Linked, Consistent, NodeOk;
      LinkedLength(actions, graph);
      ghost var p := Plan(graph, outcomes, workers);
      BusyAgrees(pool.phases, s.nodes);
      var free := BusyWorkers(pool.phases) < workers;
      pool', s' := pool, s;
      match step {
        case Register =>
          if pool.registered < |actions| {
            pool' := pool.(registered := pool.registered + 1);
            s' := Apply(p, s, step);
          }
        case Start(i) => pool', s' := TryContinue(pool, i, false, workers, p, s);
        case Skip(i) => pool', s' := TryContinue(pool, i, true, workers, p, s);
        case Finish(i) =>
          if i < |actions| && pool.phases[i] == Executing {
            pool', s' := EndBody(pool, i, outcomes[i], p, s);
          }
        case Handle(i) =>
          if i < |actions| && pool.phases[i] == Thrown && free {
            pool', s' := HandleThrow(pool, i, p, s);
          }
        case Record(i) =>
          if i < |actions| && pool.phases[i] == Owing {
            pool', s' := RecordFailure(pool, i, p, s);
          }
        case Wake =>
          if pool.registered == |actions| && !pool.woken && actions[|actions| - 2].promise != Unset {
            pool', s' := ReturnFromWait(pool, p, s);
          }
      }
    }

    /** The proposed steps are taken in order, each exactly if it is possible when its turn comes. */
    method RunPicks(pool0: Pool, outcomes: seq<Outcome>, workers: nat, picks: seq<Step>, ghost s0: State)
      returns (pool: Pool, ghost s: State)
      requires Valid() && ValidPlan(Plan(graph, outcomes, workers))
      requires Inv(Plan(graph, outcomes, workers), s0) && Shows(actions, failed, pool0, s0)
      modifies this`failed, actions`status, actions`promise
      ensures Valid() && s == Carried(Plan(graph, outcomes, workers), s0, picks)
      ensures Shows(actions, failed, pool, s)
    {
      hide Linked, Consistent, Inv, Shows, ValidPlan, Enabled;
      ghost var p := Plan(graph, outcomes, workers);
      InvShape(p, s0);
      pool, s := pool0, s0;
      for k := 0 to |picks|
        invariant Valid() && s == Carried(p, s0, picks[..k]) && Inv(p, s) && Shows(actions, failed, pool, s)
      {
        ghost var was := s;
        ghost var dees, ders := DependeeLists(actions), DependerLists(actions);
        LinkedMeans(actions, graph);
        pool, s := TakeStep(pool, picks[k], outcomes, workers, s);
        LinkedAgain(actions, graph, dees, ders);
        InvShape(p, was);
        CarriedStep(p, s0, picks[..k], picks[k]);
        assert picks[..k] + [picks[k]] == picks[..k + 1];
        if Enabled(p, was, picks[k]) {
          StepKeepsInv(p, was, picks[k]);
        }
      }
      assert picks[..|picks|] == picks;
    }

    /** `schedule()`: adds the two ends, then lets the main thread and the pool take the steps of any
        proposed interleaving, each exactly if it is possible when its turn comes.  If in the end nothing
        more is possible, the call has returned and every action is settled.  A settled action has
        SUCCEEDED exactly when it and all its ancestors returned OK; when the wait has returned the sink
        is settled, and unless the plan was empty so is every action. */
    method Schedule(outcomes: seq<Outcome>, workers: nat, picks: seq<Step>)
      returns (returned: bool, reports: seq<bool>, ghost s: State)
      requires Valid() && Acyclic(graph) && !failed
      requires |outcomes| == |actions| + 2 && workers > 0
      requires forall a :: a in actions ==> a.status == INIT && a.promise == Unset
      modifies this, actions
      ensures Valid() && graph == Augmented(old(graph)) && old(actions) <= actions
      ensures var p := Plan(graph, outcomes, workers);
              && ValidPlan(p) && (old(actions) != [] ==> Scheduled(old(graph), p))
              && s == Carried(p, Initial(p), picks)
              && |s.nodes| == |actions| == |graph|
              && failed == s.failed && reports == s.reports && returned == s.woken
              && forall i :: 0 <= i < |actions| ==>
                   actions[i].status == s.nodes[i].status && actions[i].promise == s.nodes[i].promise
      ensures forall i :: 0 <= i < |actions| && actions[i].promise != Unset ==>
                (actions[i].status == SUCCEEDED <==> AllAncestorsOk(Plan(graph, outcomes, workers), i))
      ensures returned ==> actions[|actions| - 2].promise != Unset
      ensures returned && old(actions) != [] ==> forall i :: 0 <= i < |actions| ==> actions[i].promise != Unset
      ensures Quiescent(Plan(graph, outcomes, workers), s) ==>
                returned && forall i :: 0 <= i < |actions| ==> actions[i].promise != Unset
    {
      hide Linked, Consistent, NodeOk, Reachable, AllAncestorsOk, Run, Enabled;
      ghost var g := graph;
      LinkedLength(actions, graph);
      var sink, source := Augment();
      LinkedLength(actions, graph);
      ghost var p := Plan(graph, outcomes, workers);
      AugmentedAcyclic(g);
      var pool := Pool(0, seq(|actions|, _ => Waiting), false, []);
      s := Initial(p);
      InitialInv(p);
      pool, s := RunPicks(pool, outcomes, workers, picks, s);
      CarriedReachable(p, picks);
      returned, reports := pool.woken, pool.reports;
      if Quiescent(p, s) {
        QuiescentSettled(p, picks);
      }
      forall i: nat | i < |actions|
        ensures actions[i].promise != Unset ==> (actions[i].status == SUCCEEDED <==> AllAncestorsOk(p, i))
        ensures returned && g != [] ==> actions[i].promise != Unset
      {
        if s.nodes[i].promise != Unset {
          ReachableSettled(p, s, i);
        }
        if returned && g != [] {
          ReachableComplete(g, p, s, i);
        }
      }
      if returned {
        ReachableReturn(p, s);
      }
    }
  }
}
