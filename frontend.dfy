/** The front end's driver (`invokeFrontend` in
    src/main/java/org/manifold/compiler/front/Main.java): build the expression
    graph of a unit, check that no variable is assigned twice, then run the
    function, type and node passes in that order into a fresh schematic. */
module Frontend {
  import opened Base
  import opened Graph
  import opened SchematicSink
  import opened Builder
  import opened Elaboration

  const EmptyGraph := GraphState([], [], map[])

  // ===== Building the graph of a unit =====

  /** The visits of the unit's top-level expressions, first to last, on the
      visitor's one graph; each yields the vertex its expression stands for.
      A failed visit aborts the unit. */
  function BuildProgram(env: Environment, s: GraphState, program: seq<Expr>): (o: Outcome<seq<VertexId>>)
    ensures o.result.Ok? ==> |o.result.value| == |program|
  {
    if program == [] then Outcome(s, Ok([]))
    else
      var prev := BuildProgram(env, s, program[..|program| - 1]);
      if prev.result.Err? then prev
      else
        var last := Construct(env, prev.graph, program[|program| - 1]);
        if last.result.Err? then Outcome(last.graph, Err(last.result.error))
        else Outcome(last.graph, Ok(prev.result.value + [last.result.value]))
  }

  /** The first unknown terminal of the unit, in visiting order. */
  function ProgramUnknownToken(program: seq<Expr>): Option<string> {
    if program == [] then None
    else Either(ProgramUnknownToken(program[..|program| - 1]), FirstUnknownToken(program[|program| - 1]))
  }

  function ProgramEdgeCount(program: seq<Expr>): nat {
    if program == [] then 0
    else ProgramEdgeCount(program[..|program| - 1]) + EdgeCount(program[|program| - 1])
  }

  /** Building a unit fails exactly when it holds an unknown terminal, with
      the first one's text; otherwise every expression adds its edges. */
  lemma {:induction false} BuildAccounts(env: Environment, s: GraphState, program: seq<Expr>)
    ensures Accounts(s, BuildProgram(env, s, program), ProgramUnknownToken(program), ProgramEdgeCount(program))
  {
    if program != [] {
      var init := program[..|program| - 1];
      BuildAccounts(env, s, init);
      var prev := BuildProgram(env, s, init);
      if prev.result.Ok? {
        ConstructAccounts(env, prev.graph, program[|program| - 1]);
      }
    }
  }

  /** Building keeps the graph well formed and only extends it. */
  lemma {:induction false} BuildSound(env: Environment, s: GraphState, program: seq<Expr>)
    ensures SoundLoop(s, BuildProgram(env, s, program))
  {
    if program != [] {
      var init := program[..|program| - 1];
      BuildSound(env, s, init);
      var prev := BuildProgram(env, s, init);
      if prev.result.Ok? {
        ConstructSound(env, prev.graph, program[|program| - 1]);
        GrowsTransitive(s, prev.graph, Construct(env, prev.graph, program[|program| - 1]).graph);
      }
    }
  }

  /** In the graph a unit builds, the vertex of each top-level expression
      still stands for that expression once the later ones have been visited. */
  lemma {:induction false} BuildDenotes(env: Environment, s: GraphState, program: seq<Expr>)
    requires WellFormed(s)
    ensures var o := BuildProgram(env, s, program);
            o.result.Ok? ==> forall i :: 0 <= i < |program| ==> Denotes(env, o.graph, program[i], o.result.value[i])
  {
    if program != [] {
      var init, e := program[..|program| - 1], program[|program| - 1];
      BuildDenotes(env, s, init);
      BuildSound(env, s, init);
      var prev := BuildProgram(env, s, init);
      if prev.result.Ok? {
        var last := Construct(env, prev.graph, e);
        ConstructSound(env, prev.graph, e);
        ConstructDenotes(env, prev.graph, e);
        if last.result.Ok? {
          var vs := prev.result.value + [last.result.value];
          forall i | 0 <= i < |program| ensures Denotes(env, last.graph, program[i], vs[i]) {
            if i < |init| {
              assert program[i] == init[i] && vs[i] == prev.result.value[i];
              DenotesGrows(env, prev.graph, last.graph, init[i], prev.result.value[i]);
            }
          }
        }
      }
    }
  }

  /** Once a visit has failed, the unit's outcome is that failure. */
  lemma {:induction false} BuildStopsAt(env: Environment, s: GraphState, program: seq<Expr>, i: nat)
    requires i <= |program| && BuildProgram(env, s, program[..i]).result.Err?
    ensures BuildProgram(env, s, program) == BuildProgram(env, s, program[..i])
    decreases |program| - i
  {
    if i < |program| {
      assert program[..i + 1][..i] == program[..i];
      BuildStopsAt(env, s, program, i + 1);
      assert program[..|program|] == program;
    } else {
      assert program[..i] == program;
    }
  }

  // ===== The passes =====

  /** What one successful run of the front end leaves: the graph as built,
      after the function pass, and after the type and node passes, and the
      calls made on the schematic, in order. */
  datatype Run = Run(built: GraphState, functionsDone: GraphState, final: GraphState, entries: seq<SchematicEntry>)

  /** After the type pass every primitive the passes visit is elaborated. */
  lemma TypePassElaborates(s: GraphState, evaluate: (GraphState, VertexId) -> Value)
    ensures var r := ElaborateEach(s, Primitives(s), evaluate);
            PrimitivesElaborated(r, NonVariableVertices(r))
  {
    var r := ElaborateEach(s, Primitives(s), evaluate);
    NonVariableSameShape(s, r);
    forall v | v in NonVariableVertices(r) && IsPrimitive(r, v) ensures Elaborated(r, v) {
      assert IsPrimitive(s, v);
      assert v in Primitives(s);
    }
  }

  /** After the first half of the node pass every node value vertex is
      elaborated, so `connect()` may be called on each. */
  lemma NodePassElaborates(s: GraphState, evaluate: (GraphState, VertexId) -> Value)
    ensures var r := ElaborateEach(s, NodeVertices(s), evaluate);
            NodeVertices(r) == NodeVertices(s) && AllElaborated(r, NodeVertices(r))
  {
    var r := ElaborateEach(s, NodeVertices(s), evaluate);
    NonVariableSameShape(s, r);
    NodeVerticesInSameShape(s, r, NonVariableVertices(s));
  }

  /** `invokeFrontend` after parsing: build the graph, then check it and run
      the passes on it. */
  function Pipeline(env: Environment, fx: Effects, bound: nat, program: seq<Expr>): (r: Result<Run>)
    requires ConnectAfterElaborate(fx.connect)
  {
    var built := BuildProgram(env, EmptyGraph, program);
    if built.result.Err? then Err(built.result.error)
    else Elaborate(built.graph, fx, bound)
  }

  /** A multiply assigned variable stops the unit before any elaboration;
      otherwise the function pass (within `bound` iterations), then the type
      and node passes. */
  function Elaborate(s0: GraphState, fx: Effects, bound: nat): (r: Result<Run>)
    requires ConnectAfterElaborate(fx.connect)
  {
    match MultiplyAssigned(s0)
    case Some(id) => Err(MultipleAssignment(id))
    case None =>
      var (s1, done) := Drain(s0, Rescan([], s0), fx.inline, bound);
      if !done then Err(ElaborationBound)
      else
        var (s3, entries) := LaterPasses(s1, fx);
        Ok(Run(s0, s1, s3, entries))
  }

  /** The type pass, then the node pass, on the graph the function pass left. */
  function LaterPasses(s1: GraphState, fx: Effects): (GraphState, seq<SchematicEntry>)
    requires ConnectAfterElaborate(fx.connect)
  {
    var s2 := ElaborateEach(s1, Primitives(s1), fx.evaluate);
    TypePassElaborates(s1, fx.evaluate);
    var s3 := ElaborateEach(s2, NodeVertices(s2), fx.evaluate);
    NodePassElaborates(s2, fx.evaluate);
    var nvs := NodeVertices(s3);
    (s3, TypeRegistrations(s2) + NodeEntries(NodeValues(s3, nvs)) + ConnectionEntries(Connections(s3, nvs, fx.connect)))
  }

  // ===== What the pass order guarantees =====

  /** Some vertex referring to variable `id` is the target of two or more edges. */
  predicate AssignedTwice(s: GraphState, id: Identifier) {
    exists v :: 0 <= v < |s.vertices| && s.vertices[v].kind == VariableReferenceVertex(id) && AssignmentCount(s, v) >= 2
  }

  /** Which error stops a unit: an unknown terminal exactly when the unit has
      one (the first, in visiting order); a multiple assignment only for a
      variable of the built graph that really is assigned twice, whatever the
      elaboration effects; the bound only once the graph passed the check. */
  lemma PipelineErrors(env: Environment, fx: Effects, bound: nat, program: seq<Expr>)
    requires ConnectAfterElaborate(fx.connect)
    ensures var r := Pipeline(env, fx, bound, program);
            var built := BuildProgram(env, EmptyGraph, program).graph;
            && (ProgramUnknownToken(program).Some? <==> r.Err? && r.error.UnknownTerminal?)
            && (r.Err? && r.error.UnknownTerminal? ==> r.error.text == ProgramUnknownToken(program).value)
            && (r.Err? && r.error.MultipleAssignment? ==>
                  ProgramUnknownToken(program).None?
                  && AssignedTwice(built, r.error.id))
            && (ProgramUnknownToken(program).None? && !SingleAssignment(built) ==>
                  r.Err? && r.error.MultipleAssignment?)
            && (r.Err? && r.error.ElaborationBound? ==> SingleAssignment(built))
  {
    BuildAccounts(env, EmptyGraph, program);
    var o := BuildProgram(env, EmptyGraph, program);
    var r := Pipeline(env, fx, bound, program);
    if o.result.Ok? {
      var m := MultiplyAssigned(o.graph);
      if m.Some? {
        assert r == Err(MultipleAssignment(m.value));
        var v :| 0 <= v < |o.graph.vertices| && o.graph.vertices[v].kind == VariableReferenceVertex(m.value)
                 && AssignmentCount(o.graph, v) >= 2;
        assert AssignedTwice(o.graph, m.value);
      }
    }
  }

  /** A unit that gets through the front end was single-assigned, and the
      type and node passes ran on a graph with no function invocation left;
      a unit without invocations reaches the type pass unchanged. */
  lemma PipelinePasses(env: Environment, fx: Effects, bound: nat, program: seq<Expr>)
    requires ConnectAfterElaborate(fx.connect)
    ensures var r := Pipeline(env, fx, bound, program);
            r.Ok? ==>
              && r.value.built == BuildProgram(env, EmptyGraph, program).graph
              && SingleAssignment(r.value.built)
              && Invocations(r.value.functionsDone) == []
              && (Invocations(r.value.built) == [] ==> r.value.functionsDone == r.value.built)
  {
    var built := BuildProgram(env, EmptyGraph, program);
    if built.result.Ok? && MultiplyAssigned(built.graph).None? {
      var s0 := built.graph;
      DrainLeavesNoInvocations(s0, Rescan([], s0), fx.inline, bound);
      if Invocations(s0) == [] {
        assert Rescan([], s0) == [];
      }
    }
  }

  /** The rank of a schematic call in the pass order. */
  function Rank(x: SchematicEntry): nat {
    match x
    case PortType(_, _) => 0
    case NodeType(_, _) => 0
    case Node(_, _) => 1
    case Connection(_, _) => 2
  }

  lemma {:induction false} RegistrationsAreTypes(s: GraphState, ids: seq<VertexId>)
    requires PrimitivesElaborated(s, ids)
    ensures forall k :: 0 <= k < |RegistrationsAll(s, ids)| ==> Rank(RegistrationsAll(s, ids)[k]) == 0
  {
    if ids != [] {
      var init, v := ids[..|ids| - 1], ids[|ids| - 1];
      assert forall w :: w in init ==> w in ids;
      RegistrationsAreTypes(s, init);
      if IsPrimitive(s, v) {
        RegistrationsOverNames(s, v, EdgesFromSource(s, v));
      }
    }
  }

  /** The calls on the schematic follow the pass order: every type
      registration comes before every node, and every node before every
      connection. */
  lemma PipelineOrder(env: Environment, fx: Effects, bound: nat, program: seq<Expr>)
    requires ConnectAfterElaborate(fx.connect)
    ensures var r := Pipeline(env, fx, bound, program);
            r.Ok? ==> forall i, j :: 0 <= i < j < |r.value.entries| ==> Rank(r.value.entries[i]) <= Rank(r.value.entries[j])
  {
    var r := Pipeline(env, fx, bound, program);
    if r.Ok? {
      LaterPassesOrdered(r.value.functionsDone, fx);
    }
  }

  lemma LaterPassesOrdered(s1: GraphState, fx: Effects)
    requires ConnectAfterElaborate(fx.connect)
    ensures var entries := LaterPasses(s1, fx).1;
            forall i, j :: 0 <= i < j < |entries| ==> Rank(entries[i]) <= Rank(entries[j])
  {
    var s2 := ElaborateEach(s1, Primitives(s1), fx.evaluate);
    TypePassElaborates(s1, fx.evaluate);
    var s3 := ElaborateEach(s2, NodeVertices(s2), fx.evaluate);
    NodePassElaborates(s2, fx.evaluate);
    RegistrationsAreTypes(s2, NonVariableVertices(s2));
    var nvs := NodeVertices(s3);
    ThreeRanks(TypeRegistrations(s2), NodeEntries(NodeValues(s3, nvs)), ConnectionEntries(Connections(s3, nvs, fx.connect)));
  }

  /** Type registrations, then nodes, then connections are in rank order. */
  lemma ThreeRanks(types: seq<SchematicEntry>, nodes: seq<SchematicEntry>, connections: seq<SchematicEntry>)
    requires forall k :: 0 <= k < |types| ==> Rank(types[k]) == 0
    requires forall k :: 0 <= k < |nodes| ==> nodes[k].Node?
    requires forall k :: 0 <= k < |connections| ==> connections[k].Connection?
    ensures var entries := types + nodes + connections;
            forall i, j :: 0 <= i < j < |entries| ==> Rank(entries[i]) <= Rank(entries[j])
  {
    var entries := types + nodes + connections;
    forall k | 0 <= k < |entries|
      ensures Rank(entries[k]) == if k < |types| then 0 else if k < |types| + |nodes| then 1 else 2
    {
      if k < |types| {
        assert entries[k] == types[k];
      } else if k < |types| + |nodes| {
        assert entries[k] == nodes[k - |types|];
      } else {
        assert entries[k] == connections[k - |types| - |nodes|];
      }
    }
  }

  // ===== The driver =====

  /** The loop of `invokeFrontend` over the unit's top-level expressions:
      each is visited in turn on the visitor's graph, and the first failure
      propagates. */
  method VisitUnit(graphBuilder: ExpressionContextVisitor, program: seq<Expr>) returns (r: Result<seq<VertexId>>)
    modifies graphBuilder.exprGraph
    ensures Outcome(graphBuilder.exprGraph.State(), r) == BuildProgram(graphBuilder.env, old(graphBuilder.exprGraph.State()), program)
  {
    ghost var s := graphBuilder.exprGraph.State();
    var vertices: seq<VertexId> := [];
    for i := 0 to |program|
      invariant BuildProgram(graphBuilder.env, s, program[..i]) == Outcome(graphBuilder.exprGraph.State(), Ok(vertices))
    {
      assert program[..i + 1][..i] == program[..i];
      var v := graphBuilder.Visit(program[i]);
      if v.Err? {
        BuildStopsAt(graphBuilder.env, s, program, i + 1);
        return Err(v.error);
      }
      vertices := vertices + [v.value];
    }
    assert program[..|program|] == program;
    r := Ok(vertices);
  }

  /** The three passes of `invokeFrontend` in order, on a checked graph and
      a schematic: functions, then schematic types, then nodes. The type and
      node passes run only when the function pass finished within `bound`. */
  method RunPasses(exprGraph: ExpressionGraph, schematic: Schematic, fx: Effects, bound: nat) returns (done: bool)
    requires ConnectAfterElaborate(fx.connect)
    modifies exprGraph, schematic
    ensures var (s1, finished) := Drain(old(exprGraph.State()), Rescan([], old(exprGraph.State())), fx.inline, bound);
            && done == finished
            && (done ==> exprGraph.State() == LaterPasses(s1, fx).0
                         && schematic.entries == old(schematic.entries) + LaterPasses(s1, fx).1)
  {
    done := ElaborateFunctions(exprGraph, fx.inline, bound);
    if !done {
      return;
    }
    ghost var s1 := exprGraph.State();
    ghost var e1 := schematic.entries;
    ElaborateSchematicTypes(exprGraph, schematic, fx.evaluate);
    ghost var s2 := exprGraph.State();
    ghost var types := TypeRegistrations(s2);
    assert schematic.entries == e1 + types;
    ElaborateNodes(exprGraph, schematic, fx.evaluate, fx.connect);
    ghost var s3 := exprGraph.State();
    ghost var nvs := NodeVertices(s3);
    ghost var entries := types + NodeEntries(NodeValues(s3, nvs)) + ConnectionEntries(Connections(s3, nvs, fx.connect));
    ghost var nodes, connections := NodeEntries(NodeValues(s3, nvs)), ConnectionEntries(Connections(s3, nvs, fx.connect));
    AppendAssociative(e1, types, nodes);
    AppendAssociative(e1, types + nodes, connections);
    assert LaterPasses(s1, fx) == (s3, entries);
  }

  /** `invokeFrontend`, from the parsed unit on: visit every top-level
      expression, check single assignment, create the schematic, then the
      function, type and node passes. */
  method InvokeFrontend(name: string, program: seq<Expr>, env: Environment, fx: Effects, bound: nat)
    returns (r: Result<Schematic>)
    requires ConnectAfterElaborate(fx.connect)
    ensures var p := Pipeline(env, fx, bound, program);
            && (p.Err? ==> r == Err(p.error))
            && (p.Ok? ==> r.Ok? && fresh(r.value) && r.value.name == name && r.value.entries == p.value.entries)
  {
    var graphBuilder := new ExpressionContextVisitor(env);
    var built := VisitUnit(graphBuilder, program);
    if built.Err? {
      return Err(built.error);
    }
    var exprGraph := graphBuilder.exprGraph;
    var multiplyAssigned := MultiplyAssigned(exprGraph.State());
    if multiplyAssigned.Some? {
      return Err(MultipleAssignment(multiplyAssigned.value));
    }
    ghost var s0 := exprGraph.State();
    assert Pipeline(env, fx, bound, program) == Elaborate(s0, fx, bound);
    var schematic := new Schematic(name);
    var done := RunPasses(exprGraph, schematic, fx, bound);
    if !done {
      return Err(ElaborationBound);
    }
    r := Ok(schematic);
  }
}
