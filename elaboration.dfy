/** The elaboration engine: the three passes that drain an expression graph
    into a schematic (src/main/java/org/manifold/compiler/front/Main.java,
    `elaborateFunctions`, `elaborateSchematicTypes`, `elaborateNodes`). */
module Elaboration {
  import opened Base
  import opened Graph
  import opened SchematicSink

  /** What the vertex classes do when the engine calls them; their code is
      outside the front end, so the model takes it as parameters.
      - `inline`: `elaborate()` of a function invocation vertex, which rewrites
        the graph (splices in the callee body, and may add or remove vertices).
      - `evaluate`: the value that `elaborate()` computes for any other vertex.
      - `connect`: `connect()` of a node value vertex; the connections it makes.
        Calling it on a vertex that is not yet elaborated is a usage error, so
        it is a partial function. */
  datatype Effects = Effects(
    inline: (GraphState, VertexId) -> GraphState,
    evaluate: (GraphState, VertexId) -> Value,
    connect: (GraphState, VertexId) --> seq<Value>)

  /** `connect()` is defined on every elaborated vertex. */
  ghost predicate ConnectAfterElaborate(connect: (GraphState, VertexId) --> seq<Value>) {
    forall s, v :: Elaborated(s, v) ==> connect.requires(s, v)
  }

  // ===== Pass A: function elaboration =====

  predicate IsInvocation(s: GraphState, v: VertexId) {
    v < |s.vertices| && s.vertices[v].kind.FunctionInvocationVertex?
  }

  /** The function invocation vertices among `ids`, in order. */
  function InvocationsIn(s: GraphState, ids: seq<VertexId>): (r: seq<VertexId>)
    ensures forall v :: v in r <==> v in ids && IsInvocation(s, v)
  {
    if ids == [] then []
    else
      var r := InvocationsIn(s, ids[..|ids| - 1]);
      var last := ids[|ids| - 1];
      assert forall v :: v in ids <==> v in ids[..|ids| - 1] || v == last;
      if IsInvocation(s, last) then r + [last] else r
  }

  /** The function invocation vertices of the graph, in the order the graph
      lists its non-variable vertices. */
  function Invocations(s: GraphState): (r: seq<VertexId>)
    ensures forall v :: v in r <==> 0 <= v < |s.vertices| && IsNonVariable(s.vertices[v])
                                     && s.vertices[v].kind.FunctionInvocationVertex?
  {
    InvocationsIn(s, NonVariableVertices(s))
  }

  /** `add` on an insertion-ordered set: an element already present keeps
      its place. */
  function Add(work: seq<VertexId>, v: VertexId): seq<VertexId> {
    if v in work then work else work + [v]
  }

  /** Adding each of `xs`, first to last, to the insertion-ordered set `work`. */
  function AddAll(work: seq<VertexId>, xs: seq<VertexId>): (r: seq<VertexId>)
    ensures |r| >= |work| && r[..|work|] == work
    ensures forall x :: x in r <==> x in work || x in xs
    ensures Distinct(work) ==> Distinct(r)
  {
    if xs == [] then work
    else
      var last := xs[|xs| - 1];
      assert forall x :: x in xs <==> x in xs[..|xs| - 1] || x == last;
      Add(AddAll(work, xs[..|xs| - 1]), last)
  }

  /** The rescan: every invocation vertex of the graph is added to the work-set. */
  function Rescan(work: seq<VertexId>, s: GraphState): seq<VertexId> {
    AddAll(work, Invocations(s))
  }

  /** The work-set loop of `elaborateFunctions`, run for at most `fuel`
      iterations: take the first vertex of the work-set, elaborate it, rescan.
      The boolean says whether the work-set was emptied. */
  function Drain(s: GraphState, work: seq<VertexId>, inline: (GraphState, VertexId) -> GraphState, fuel: nat): (GraphState, bool)
    decreases fuel
  {
    if work == [] then (s, true)
    else if fuel == 0 then (s, false)
    else
      var s' := inline(s, work[0]);
      Drain(s', Rescan(work[1..], s'), inline, fuel - 1)
  }

  /** When the work-set has been emptied, no function invocation vertex is left
      in the graph, because each rescan puts every remaining one back. */
  lemma {:induction false} DrainLeavesNoInvocations(s: GraphState, work: seq<VertexId>, inline: (GraphState, VertexId) -> GraphState, fuel: nat)
    requires forall v :: v in Invocations(s) ==> v in work
    ensures Drain(s, work, inline, fuel).1 ==> Invocations(Drain(s, work, inline, fuel).0) == []
    decreases fuel
  {
    if work == [] {
      HeadIn(Invocations(s), work);
    } else if fuel > 0 {
      var s' := inline(s, work[0]);
      DrainLeavesNoInvocations(s', Rescan(work[1..], s'), inline, fuel - 1);
    }
  }

  lemma HeadIn(r: seq<VertexId>, w: seq<VertexId>)
    requires forall x :: x in r ==> x in w
    ensures r != [] ==> r[0] in w
  {
    if r != [] {
      assert r[0] in r;
    }
  }

  /** Every invocation vertex of `s` is still one of `s'`. */
  ghost predicate KeepsInvocations(s: GraphState, s': GraphState) {
    forall y :: y in Invocations(s) ==> y in Invocations(s')
  }

  /** The rescan after elaborating the head of a work-set without duplicates
      puts the head back exactly when it is still an invocation vertex of the
      graph: progress depends on `elaborate()` removing it. */
  lemma RescanReaddsHead(work: seq<VertexId>, s': GraphState)
    requires work != [] && Distinct(work)
    ensures work[0] in Rescan(work[1..], s') <==> work[0] in Invocations(s')
  {
    assert work[0] !in work[1..] by {
      forall k | 0 <= k < |work| - 1 ensures work[1..][k] != work[0] {
        assert work[1..][k] == work[k + 1];
      }
    }
  }

  /** If elaborating an invocation never removes an invocation vertex from
      the graph, the work-set never empties: the loop runs until the bound. */
  lemma {:induction false} NoRemovalNoFixpoint(s: GraphState, work: seq<VertexId>, inline: (GraphState, VertexId) -> GraphState, fuel: nat)
    requires forall s1, x {:trigger KeepsInvocations(s1, inline(s1, x))} :: KeepsInvocations(s1, inline(s1, x))
    requires work != [] && forall v :: v in work ==> v in Invocations(s)
    ensures !Drain(s, work, inline, fuel).1
    decreases fuel
  {
    if fuel > 0 {
      var s' := inline(s, work[0]);
      assert KeepsInvocations(s, s');
      StallStep(s, work, s');
      NoRemovalNoFixpoint(s', Rescan(work[1..], s'), inline, fuel - 1);
    }
  }

  /** One step of the loop from a work-set of invocation vertices, when the
      step keeps every invocation vertex, leaves a non-empty work-set of
      invocation vertices. */
  lemma StallStep(s: GraphState, work: seq<VertexId>, s': GraphState)
    requires KeepsInvocations(s, s')
    requires work != [] && forall v :: v in work ==> v in Invocations(s)
    ensures var work' := Rescan(work[1..], s');
            work' != [] && forall v :: v in work' ==> v in Invocations(s')
  {
    var work' := Rescan(work[1..], s');
    assert work[0] in work;
    assert work[0] in Invocations(s');
    assert work[0] in work';
    forall v | v in work' ensures v in Invocations(s') {
      if v in work[1..] {
        assert v in work;
      }
    }
  }

  /** One invocation whose expansion contains no further invocation: the loop
      elaborates it exactly once and stops. */
  lemma SingleInvocationElaboratedOnce(s: GraphState, v: VertexId, inline: (GraphState, VertexId) -> GraphState, fuel: nat)
    requires Invocations(s) == [v] && Invocations(inline(s, v)) == [] && fuel >= 1
    ensures Drain(s, Rescan([], s), inline, fuel) == (inline(s, v), true)
  {
    assert [v][..0] == [];
    assert AddAll([], [v]) == Add(AddAll([], []), v);
    assert Rescan([], inline(s, v)) == [];
  }

  /** The scan of `getNonVariableVertices()` that adds every function
      invocation vertex to the work-set; it seeds the work-set and it is the
      rescan after each elaboration. */
  method AddInvocations(g: ExpressionGraph, work: seq<VertexId>) returns (r: seq<VertexId>)
    ensures r == Rescan(work, g.State())
  {
    r := work;
    var vs := NonVariableVertices(g.State());
    for i := 0 to |vs|
      invariant r == AddAll(work, InvocationsIn(g.State(), vs[..i]))
    {
      assert vs[..i + 1][..i] == vs[..i];
      if vs[i] < |g.vertices| && g.vertices[vs[i]].kind.FunctionInvocationVertex? {
        r := Add(r, vs[i]);
      }
    }
    assert vs[..|vs|] == vs;
  }

  /** One iteration of the work-set loop. */
  lemma DrainStep(s: GraphState, work: seq<VertexId>, inline: (GraphState, VertexId) -> GraphState, fuel: nat)
    requires work != [] && fuel > 0
    ensures Drain(s, work, inline, fuel)
         == Drain(inline(s, work[0]), Rescan(work[1..], inline(s, work[0])), inline, fuel - 1)
  {
  }

  /** `elaborateFunctions`: seed the insertion-ordered work-set with every
      invocation vertex, then repeatedly remove its first element, elaborate
      it and rescan the whole graph. The source has no bound on the number of
      iterations; the model stops after `bound` of them and reports whether
      the work-set was emptied. */
  method ElaborateFunctions(g: ExpressionGraph, inline: (GraphState, VertexId) -> GraphState, bound: nat) returns (done: bool)
    modifies g
    ensures (g.State(), done) == Drain(old(g.State()), Rescan([], old(g.State())), inline, bound)
    ensures done ==> Invocations(g.State()) == []
    ensures Invocations(old(g.State())) == [] ==> done && g.State() == old(g.State())
  {
    ghost var s0 := g.State();
    var funcalls := AddInvocations(g, []);
    var fuel := bound;
    while funcalls != [] && fuel > 0
      invariant Drain(g.State(), funcalls, inline, fuel) == Drain(s0, Rescan([], s0), inline, bound)
      decreases fuel
    {
      ghost var before, w := g.State(), funcalls;
      var v := funcalls[0];
      funcalls := funcalls[1..];
      g.ElaborateInvocation(v, inline);
      funcalls := AddInvocations(g, funcalls);
      fuel := fuel - 1;
      DrainStep(before, w, inline, fuel + 1);
    }
    done := funcalls == [];
    DrainLeavesNoInvocations(s0, Rescan([], s0), inline, bound);
    if Invocations(s0) == [] {
      assert Rescan([], s0) == [];
    }
  }

  // ===== Pass B: primitive type elaboration =====

  predicate IsPrimitive(s: GraphState, v: VertexId) {
    v < |s.vertices|
    && (s.vertices[v].kind.PrimitivePortVertex? || s.vertices[v].kind.PrimitiveNodeVertex?)
  }

  /** The primitive port and node vertices among `ids`, in order. */
  function PrimitivesIn(s: GraphState, ids: seq<VertexId>): (r: seq<VertexId>)
    ensures forall v :: v in r <==> v in ids && IsPrimitive(s, v)
  {
    if ids == [] then []
    else
      var r := PrimitivesIn(s, ids[..|ids| - 1]);
      var last := ids[|ids| - 1];
      assert forall v :: v in ids <==> v in ids[..|ids| - 1] || v == last;
      if IsPrimitive(s, last) then r + [last] else r
  }

  function Primitives(s: GraphState): seq<VertexId> {
    PrimitivesIn(s, NonVariableVertices(s))
  }

  /** The name a primitive takes from the variable an edge assigns it to: the
      last segment of the variable's identifier. */
  function AssignedName(s: GraphState, e: Edge): string
    requires TargetsVariable(s, e)
  {
    Name(s.vertices[e.target.value].kind.id)
  }

  /** The schematic registration one outgoing edge of an elaborated primitive
      produces: one entry when the edge's target is a variable, none otherwise. */
  function RegistrationForEdge(s: GraphState, v: VertexId, e: Edge): seq<SchematicEntry>
    requires IsPrimitive(s, v) && Elaborated(s, v)
  {
    if TargetsVariable(s, e) then
      var value := s.vertices[v].value.value;
      if s.vertices[v].kind.PrimitivePortVertex? then [PortType(AssignedName(s, e), value)]
      else [NodeType(AssignedName(s, e), value)]
    else []
  }

  function RegistrationsOver(s: GraphState, v: VertexId, es: seq<Edge>): seq<SchematicEntry>
    requires IsPrimitive(s, v) && Elaborated(s, v)
  {
    if es == [] then []
    else RegistrationsOver(s, v, es[..|es| - 1]) + RegistrationForEdge(s, v, es[|es| - 1])
  }

  /** Every primitive among `ids` is elaborated. */
  predicate PrimitivesElaborated(s: GraphState, ids: seq<VertexId>) {
    forall v :: v in ids && IsPrimitive(s, v) ==> Elaborated(s, v)
  }

  /** The registrations of one vertex: those of its outgoing edges if it is a
      primitive, nothing otherwise. */
  function RegistrationsFor(s: GraphState, v: VertexId): seq<SchematicEntry>
    requires IsPrimitive(s, v) ==> Elaborated(s, v)
  {
    if IsPrimitive(s, v) then RegistrationsOver(s, v, EdgesFromSource(s, v)) else []
  }

  function RegistrationsAll(s: GraphState, ids: seq<VertexId>): seq<SchematicEntry>
    requires PrimitivesElaborated(s, ids)
  {
    if ids == [] then []
    else
      assert forall v :: v in ids[..|ids| - 1] ==> v in ids;
      RegistrationsAll(s, ids[..|ids| - 1]) + RegistrationsFor(s, ids[|ids| - 1])
  }

  /** All the type registrations that the graph's primitives call for. */
  function TypeRegistrations(s: GraphState): seq<SchematicEntry>
    requires PrimitivesElaborated(s, NonVariableVertices(s))
  {
    RegistrationsAll(s, NonVariableVertices(s))
  }

  /** The names, in edge order, of the variables that the edges `es` assign to. */
  function AssignedNames(s: GraphState, es: seq<Edge>): (r: seq<string>)
    ensures forall n :: n in r <==> exists e :: e in es && TargetsVariable(s, e) && AssignedName(s, e) == n
  {
    if es == [] then []
    else
      var last := es[|es| - 1];
      var r := AssignedNames(s, es[..|es| - 1]);
      assert forall e :: e in es <==> e in es[..|es| - 1] || e == last;
      if TargetsVariable(s, last) then r + [AssignedName(s, last)] else r
  }

  /** A primitive port makes one `addPortType` call per edge that assigns it
      to a variable, named after that variable, in edge order, each carrying
      the port's elaborated value; a primitive node likewise `addNodeType`. */
  lemma {:induction false} RegistrationsOverNames(s: GraphState, v: VertexId, es: seq<Edge>)
    requires IsPrimitive(s, v) && Elaborated(s, v)
    ensures var names := AssignedNames(s, es);
            var value := s.vertices[v].value.value;
            RegistrationsOver(s, v, es) ==
              if s.vertices[v].kind.PrimitivePortVertex? then seq(|names|, i requires 0 <= i < |names| => PortType(names[i], value))
              else seq(|names|, i requires 0 <= i < |names| => NodeType(names[i], value))
  {
    if es != [] {
      RegistrationsOverNames(s, v, es[..|es| - 1]);
    }
  }

  /** A primitive that is assigned to no variable registers nothing, and a
      vertex that is not a primitive registers nothing. */
  lemma UnassignedRegistersNothing(s: GraphState, v: VertexId)
    requires IsPrimitive(s, v) ==> Elaborated(s, v)
    requires !IsPrimitive(s, v) || forall e :: e in s.edges && e.source == v ==> !TargetsVariable(s, e)
    ensures RegistrationsFor(s, v) == []
  {
    if IsPrimitive(s, v) {
      var es := EdgesFromSource(s, v);
      RegistrationsOverNames(s, v, es);
      if AssignedNames(s, es) != [] {
        assert AssignedNames(s, es)[0] in AssignedNames(s, es);
      }
    }
  }

  /** Registrations only look at the shape of the graph and at the values of
      the vertices they are about. */
  lemma {:induction false} RegistrationsAllFrame(s: GraphState, r: GraphState, ids: seq<VertexId>)
    requires SameShape(s, r) && PrimitivesElaborated(s, ids)
    requires forall w :: w in ids && w < |s.vertices| ==> r.vertices[w] == s.vertices[w]
    ensures PrimitivesElaborated(r, ids)
    ensures RegistrationsAll(r, ids) == RegistrationsAll(s, ids)
  {
    if ids != [] {
      var init, last := ids[..|ids| - 1], ids[|ids| - 1];
      assert forall w :: w in init ==> w in ids;
      RegistrationsAllFrame(s, r, init);
      if IsPrimitive(s, last) {
        assert EdgesFromSource(r, last) == EdgesFromSource(s, last);
        RegistrationsOverFrame(s, r, last, EdgesFromSource(s, last));
      }
    }
  }

  lemma {:induction false} RegistrationsOverFrame(s: GraphState, r: GraphState, v: VertexId, es: seq<Edge>)
    requires SameShape(s, r) && IsPrimitive(s, v) && Elaborated(s, v) && r.vertices[v] == s.vertices[v]
    ensures IsPrimitive(r, v) && Elaborated(r, v)
    ensures RegistrationsOver(r, v, es) == RegistrationsOver(s, v, es)
  {
    if es != [] {
      RegistrationsOverFrame(s, r, v, es[..|es| - 1]);
      var e := es[|es| - 1];
      assert TargetsVariable(r, e) == TargetsVariable(s, e);
    }
  }

  lemma {:induction false} NonVariableUpToSameShape(s: GraphState, r: GraphState, n: nat)
    requires SameShape(s, r) && n <= |s.vertices|
    ensures NonVariableUpTo(r.vertices, n) == NonVariableUpTo(s.vertices, n)
  {
    if n > 0 {
      NonVariableUpToSameShape(s, r, n - 1);
    }
  }

  /** Elaboration does not change which vertices the passes visit. */
  lemma NonVariableSameShape(s: GraphState, r: GraphState)
    requires SameShape(s, r)
    ensures NonVariableVertices(r) == NonVariableVertices(s)
  {
    NonVariableUpToSameShape(s, r, |s.vertices|);
  }

  lemma {:induction false} PrimitivesInSameShape(s: GraphState, r: GraphState, ids: seq<VertexId>)
    requires SameShape(s, r)
    ensures PrimitivesIn(r, ids) == PrimitivesIn(s, ids)
  {
    if ids != [] {
      PrimitivesInSameShape(s, r, ids[..|ids| - 1]);
    }
  }

  /** `elaborateSchematicTypes`: elaborate every primitive port and node vertex
      and register it in the schematic under the name of each variable it is
      assigned to. */
  method ElaborateSchematicTypes(g: ExpressionGraph, sch: Schematic, evaluate: (GraphState, VertexId) -> Value)
    modifies g, sch
    ensures g.State() == ElaborateEach(old(g.State()), Primitives(old(g.State())), evaluate)
    ensures PrimitivesElaborated(g.State(), NonVariableVertices(g.State()))
    ensures sch.entries == old(sch.entries) + TypeRegistrations(g.State())
  {
    ghost var s0 := g.State();
    ghost var e0 := sch.entries;
    var vs := NonVariableVertices(g.State());
    for i := 0 to |vs|
      invariant g.State() == ElaborateEach(s0, PrimitivesIn(s0, vs[..i]), evaluate)
      invariant PrimitivesElaborated(g.State(), vs[..i])
      invariant sch.entries == e0 + RegistrationsAll(g.State(), vs[..i])
    {
      ghost var before, entriesBefore := g.State(), sch.entries;
      ghost var done := RegistrationsAll(before, vs[..i]);
      assert entriesBefore == e0 + done;
      var v := vs[i];
      if v < |g.vertices| && (g.vertices[v].kind.PrimitivePortVertex? || g.vertices[v].kind.PrimitiveNodeVertex?) {
        g.Elaborate(v, evaluate); // usually redundant but always safe
        RegisterType(g, sch, v);
      }
      TypesStep(s0, vs, i, before, g.State(), evaluate);
      ghost var added := RegistrationsFor(g.State(), v);
      assert sch.entries == (e0 + done) + added;
      AppendAssociative(e0, done, added);
    }
    assert vs[..|vs|] == vs;
    NonVariableSameShape(s0, g.State());
  }

  /** The inner loop of `elaborateSchematicTypes`: one registration per
      outgoing edge of the elaborated primitive `v` that targets a variable. */
  method RegisterType(g: ExpressionGraph, sch: Schematic, v: VertexId)
    requires IsPrimitive(g.State(), v) && Elaborated(g.State(), v)
    modifies sch
    ensures sch.entries == old(sch.entries) + RegistrationsOver(g.State(), v, EdgesFromSource(g.State(), v))
  {
    ghost var s := g.State();
    var outgoingEdges := EdgesFromSource(g.State(), v);
    for j := 0 to |outgoingEdges|
      invariant sch.entries == old(sch.entries) + RegistrationsOver(s, v, outgoingEdges[..j])
    {
      var e := outgoingEdges[j];
      ghost var before := sch.entries;
      assert outgoingEdges[..j + 1][..j] == outgoingEdges[..j];
      if e.target.Some? && e.target.value < |g.vertices| && g.vertices[e.target.value].kind.VariableReferenceVertex? {
        var typename := Name(g.vertices[e.target.value].kind.id);
        if g.vertices[v].kind.PrimitivePortVertex? {
          sch.AddPortType(typename, g.vertices[v].value.value);
        } else {
          sch.AddNodeType(typename, g.vertices[v].value.value);
        }
      }
      assert sch.entries == before + RegistrationForEdge(s, v, e);
      AppendAssociative(old(sch.entries), RegistrationsOver(s, v, outgoingEdges[..j]), RegistrationForEdge(s, v, e));
    }
    assert outgoingEdges[..|outgoingEdges|] == outgoingEdges;
  }

  lemma AppendAssociative<T>(a: seq<T>, b: seq<T>, c: seq<T>)
    ensures (a + b) + c == a + (b + c)
  {
  }

  /** One iteration of `elaborateSchematicTypes`: the vertex `vs[i]` is
      elaborated if it is a primitive, and only its registrations are added. */
  lemma TypesStep(s0: GraphState, vs: seq<VertexId>, i: nat, cur: GraphState, next: GraphState,
                  evaluate: (GraphState, VertexId) -> Value)
    requires vs == NonVariableVertices(s0) && i < |vs|
    requires cur == ElaborateEach(s0, PrimitivesIn(s0, vs[..i]), evaluate)
    requires PrimitivesElaborated(cur, vs[..i])
    requires next == if IsPrimitive(cur, vs[i]) then ElaborateOne(cur, vs[i], evaluate) else cur
    ensures next == ElaborateEach(s0, PrimitivesIn(s0, vs[..i + 1]), evaluate)
    ensures PrimitivesElaborated(next, vs[..i + 1])
    ensures RegistrationsAll(next, vs[..i + 1]) == RegistrationsAll(cur, vs[..i]) + RegistrationsFor(next, vs[i])
  {
    var v := vs[i];
    assert vs[..i + 1][..i] == vs[..i] && vs[..i + 1][i] == v;
    assert v !in vs[..i];
    assert IsPrimitive(cur, v) == IsPrimitive(s0, v);
    RegistrationsAllFrame(cur, next, vs[..i]);
  }

  // ===== Pass C: node and connection elaboration =====

  predicate IsNodeValue(s: GraphState, v: VertexId) {
    v < |s.vertices| && s.vertices[v].kind.NodeValueVertex?
  }

  function NodeVerticesIn(s: GraphState, ids: seq<VertexId>): (r: seq<VertexId>)
    ensures forall v :: v in r <==> v in ids && IsNodeValue(s, v)
  {
    if ids == [] then []
    else
      var r := NodeVerticesIn(s, ids[..|ids| - 1]);
      var last := ids[|ids| - 1];
      assert forall v :: v in ids <==> v in ids[..|ids| - 1] || v == last;
      if IsNodeValue(s, last) then r + [last] else r
  }

  /** The node value vertices of the graph, in the order they are collected. */
  function NodeVertices(s: GraphState): seq<VertexId> {
    NodeVerticesIn(s, NonVariableVertices(s))
  }

  predicate AllElaborated(s: GraphState, ids: seq<VertexId>) {
    forall v :: v in ids ==> Elaborated(s, v)
  }

  /** The node values of the (elaborated) vertices `nvs`, in order. */
  function NodeValues(s: GraphState, nvs: seq<VertexId>): (r: seq<Value>)
    requires AllElaborated(s, nvs)
    ensures |r| == |nvs|
  {
    seq(|nvs|, i requires 0 <= i < |nvs| => assert nvs[i] in nvs; s.vertices[nvs[i]].value.value)
  }

  /** All the connections that `connect()` returns for `nvs`: vertex by
      vertex, each vertex's list in its own order. */
  function Connections(s: GraphState, nvs: seq<VertexId>, connect: (GraphState, VertexId) --> seq<Value>): seq<Value>
    requires forall v :: v in nvs ==> connect.requires(s, v)
  {
    if nvs == [] then []
    else
      assert forall v :: v in nvs[..|nvs| - 1] ==> v in nvs;
      Connections(s, nvs[..|nvs| - 1], connect) + connect(s, nvs[|nvs| - 1])
  }

  /** The total size of the lists `connect()` returns for `nvs`. */
  function ConnectionCount(s: GraphState, nvs: seq<VertexId>, connect: (GraphState, VertexId) --> seq<Value>): nat
    requires forall v :: v in nvs ==> connect.requires(s, v)
  {
    if nvs == [] then 0
    else
      assert forall v :: v in nvs[1..] ==> v in nvs;
      |connect(s, nvs[0])| + ConnectionCount(s, nvs[1..], connect)
  }

  /** The connections are as many as the sizes of the lists returned by
      `connect()` add up to. */
  lemma {:induction false} ConnectionsCounted(s: GraphState, nvs: seq<VertexId>, connect: (GraphState, VertexId) --> seq<Value>)
    requires forall v :: v in nvs ==> connect.requires(s, v)
    ensures |Connections(s, nvs, connect)| == ConnectionCount(s, nvs, connect)
  {
    if nvs != [] {
      assert forall v :: v in nvs[..|nvs| - 1] ==> v in nvs;
      assert forall v :: v in nvs[1..] ==> v in nvs;
      ConnectionsCounted(s, nvs[..|nvs| - 1], connect);
      if |nvs| > 1 {
        assert forall v :: v in nvs[1..][..|nvs| - 2] ==> v in nvs;
        assert forall v :: v in nvs[1..] ==> v in nvs;
        assert nvs[1..][..|nvs| - 2] == nvs[..|nvs| - 1][1..];
        ConnectionCountSplit(s, nvs[..|nvs| - 1], connect);
        ConnectionCountSplit(s, nvs, connect);
      }
    }
  }

  /** The count read from the back: the last vertex's list comes last. */
  lemma {:induction false} ConnectionCountSplit(s: GraphState, nvs: seq<VertexId>, connect: (GraphState, VertexId) --> seq<Value>)
    requires nvs != [] && forall v :: v in nvs ==> connect.requires(s, v)
    ensures forall v :: v in nvs[..|nvs| - 1] ==> v in nvs
    ensures ConnectionCount(s, nvs, connect)
         == ConnectionCount(s, nvs[..|nvs| - 1], connect) + |connect(s, nvs[|nvs| - 1])|
    decreases |nvs|
  {
    assert forall v :: v in nvs[..|nvs| - 1] ==> v in nvs;
    if |nvs| > 1 {
      assert forall v :: v in nvs[1..] ==> v in nvs;
      assert nvs[1..][..|nvs| - 2] == nvs[..|nvs| - 1][1..];
      ConnectionCountSplit(s, nvs[1..], connect);
    }
  }

  function NodeName(k: nat): string {
    "n" + NatToString(k)
  }

  function ConnectionName(k: nat): string {
    "c" + NatToString(k)
  }

  /** The `addNode` calls for `nodes`: the k-th node (from 1) is named "nk". */
  function NodeEntries(nodes: seq<Value>): seq<SchematicEntry> {
    seq(|nodes|, i requires 0 <= i < |nodes| => Node(NodeName(i + 1), nodes[i]))
  }

  /** The `addConnection` calls for `connections`: the k-th is named "ck". */
  function ConnectionEntries(connections: seq<Value>): seq<SchematicEntry> {
    seq(|connections|, i requires 0 <= i < |connections| => Connection(ConnectionName(i + 1), connections[i]))
  }

  /** The naming scheme of the node pass: k nodes then m connections, every
      node before any connection, and no two entries under one name. */
  lemma NamingScheme(nodes: seq<Value>, connections: seq<Value>)
    ensures var r := NodeEntries(nodes) + ConnectionEntries(connections);
            && |r| == |nodes| + |connections|
            && (forall i :: 0 <= i < |nodes| ==> r[i] == Node(NodeName(i + 1), nodes[i]))
            && (forall j :: 0 <= j < |connections| ==> r[|nodes| + j] == Connection(ConnectionName(j + 1), connections[j]))
            && (forall i, j :: 0 <= i < j < |r| ==> r[i].name != r[j].name)
  {
    var r := NodeEntries(nodes) + ConnectionEntries(connections);
    forall i, j | 0 <= i < j < |r| ensures r[i].name != r[j].name {
      if j < |nodes| {
        NatToStringInjective(i + 1, j + 1);
        assert r[i].name[1..] == NatToString(i + 1) && r[j].name[1..] == NatToString(j + 1);
      } else if i >= |nodes| {
        NatToStringInjective(i - |nodes| + 1, j - |nodes| + 1);
        assert r[i].name[1..] == NatToString(i - |nodes| + 1) && r[j].name[1..] == NatToString(j - |nodes| + 1);
      } else {
        assert r[i].name[0] == 'n' && r[j].name[0] == 'c';
      }
    }
  }

  lemma {:induction false} NodeVerticesInSameShape(s: GraphState, r: GraphState, ids: seq<VertexId>)
    requires SameShape(s, r)
    ensures NodeVerticesIn(r, ids) == NodeVerticesIn(s, ids)
  {
    if ids != [] {
      NodeVerticesInSameShape(s, r, ids[..|ids| - 1]);
    }
  }

  /** The collection loop of `elaborateNodes`: the node value vertices among
      the non-variable vertices, in order. */
  method CollectNodeVertices(g: ExpressionGraph) returns (nodeVertices: seq<VertexId>)
    ensures nodeVertices == NodeVertices(g.State())
  {
    var vs := NonVariableVertices(g.State());
    nodeVertices := [];
    for i := 0 to |vs|
      invariant nodeVertices == NodeVerticesIn(g.State(), vs[..i])
    {
      assert vs[..i + 1][..i] == vs[..i];
      if vs[i] < |g.vertices| && g.vertices[vs[i]].kind.NodeValueVertex? {
        nodeVertices := nodeVertices + [vs[i]];
      }
    }
    assert vs[..|vs|] == vs;
  }

  /** Pass 1 of `elaborateNodes`: elaborate each vertex in turn. */
  method ElaborateAll(g: ExpressionGraph, nodeVertices: seq<VertexId>, evaluate: (GraphState, VertexId) -> Value)
    modifies g
    ensures g.State() == ElaborateEach(old(g.State()), nodeVertices, evaluate)
  {
    ghost var s0 := g.State();
    for i := 0 to |nodeVertices|
      invariant g.State() == ElaborateEach(s0, nodeVertices[..i], evaluate)
    {
      assert nodeVertices[..i + 1][..i] == nodeVertices[..i];
      g.Elaborate(nodeVertices[i], evaluate);
    }
    assert nodeVertices[..|nodeVertices|] == nodeVertices;
  }

  /** Pass 2 of `elaborateNodes`: connect each (elaborated) vertex, gathering
      its connections and its node value. */
  method ConnectAll(g: ExpressionGraph, nodeVertices: seq<VertexId>, connect: (GraphState, VertexId) --> seq<Value>)
    returns (connections: seq<Value>, nodes: seq<Value>)
    requires ConnectAfterElaborate(connect) && AllElaborated(g.State(), nodeVertices)
    ensures connections == Connections(g.State(), nodeVertices, connect)
    ensures nodes == NodeValues(g.State(), nodeVertices)
  {
    connections, nodes := [], [];
    for i := 0 to |nodeVertices|
      invariant connections == Connections(g.State(), nodeVertices[..i], connect)
      invariant nodes == NodeValues(g.State(), nodeVertices[..i])
    {
      assert nodeVertices[..i + 1][..i] == nodeVertices[..i];
      var nv := nodeVertices[i];
      assert Elaborated(g.State(), nv);
      var cs := connect(g.State(), nv);
      connections := connections + cs;
      nodes := nodes + [g.vertices[nv].value.value];
    }
    assert nodeVertices[..|nodeVertices|] == nodeVertices;
  }

  lemma NodeEntriesSnoc(nodes: seq<Value>, i: nat)
    requires i < |nodes|
    ensures NodeEntries(nodes[..i + 1]) == NodeEntries(nodes[..i]) + [Node(NodeName(i + 1), nodes[i])]
  {
  }

  lemma ConnectionEntriesSnoc(connections: seq<Value>, i: nat)
    requires i < |connections|
    ensures ConnectionEntries(connections[..i + 1])
         == ConnectionEntries(connections[..i]) + [Connection(ConnectionName(i + 1), connections[i])]
  {
  }

  /** The node-naming loop: the k-th node is added as "nk". */
  method AddNodes(sch: Schematic, nodes: seq<Value>)
    modifies sch
    ensures sch.entries == old(sch.entries) + NodeEntries(nodes)
  {
    var nodeID := 1;
    for i := 0 to |nodes|
      invariant nodeID == i + 1
      invariant sch.entries == old(sch.entries) + NodeEntries(nodes[..i])
    {
      NodeEntriesSnoc(nodes, i);
      var nodeName := "n" + NatToString(nodeID);
      sch.AddNode(nodeName, nodes[i]);
      nodeID := nodeID + 1;
    }
    assert nodes[..|nodes|] == nodes;
  }

  /** The connection-naming loop: the k-th connection is added as "ck". */
  method AddConnections(sch: Schematic, connections: seq<Value>)
    modifies sch
    ensures sch.entries == old(sch.entries) + ConnectionEntries(connections)
  {
    var connectionID := 1;
    for i := 0 to |connections|
      invariant connectionID == i + 1
      invariant sch.entries == old(sch.entries) + ConnectionEntries(connections[..i])
    {
      ConnectionEntriesSnoc(connections, i);
      var connName := "c" + NatToString(connectionID);
      sch.AddConnection(connName, connections[i]);
      connectionID := connectionID + 1;
    }
    assert connections[..|connections|] == connections;
  }

  /** `elaborateNodes`: collect the node value vertices; pass 1 elaborates
      each of them; pass 2 connects each of them (so every connect() call sees
      all of them elaborated), gathering connections and node values; finally
      nodes are added as n1, n2, ... and then connections as c1, c2, ... */
  method ElaborateNodes(g: ExpressionGraph, sch: Schematic, evaluate: (GraphState, VertexId) -> Value,
                        connect: (GraphState, VertexId) --> seq<Value>)
    requires ConnectAfterElaborate(connect)
    modifies g, sch
    ensures g.State() == ElaborateEach(old(g.State()), NodeVertices(old(g.State())), evaluate)
    ensures NodeVertices(g.State()) == NodeVertices(old(g.State()))
    ensures AllElaborated(g.State(), NodeVertices(g.State()))
    ensures sch.entries == old(sch.entries)
                           + NodeEntries(NodeValues(g.State(), NodeVertices(g.State())))
                           + ConnectionEntries(Connections(g.State(), NodeVertices(g.State()), connect))
  {
    ghost var s0 := g.State();
    var nodeVertices := CollectNodeVertices(g);
    ElaborateAll(g, nodeVertices, evaluate);
    ghost var s1 := g.State();
    NonVariableSameShape(s0, s1);
    NodeVerticesInSameShape(s0, s1, NonVariableVertices(s0));
    assert AllElaborated(s1, nodeVertices);
    var connections, nodes := ConnectAll(g, nodeVertices, connect);
    AddNodes(sch, nodes);
    AddConnections(sch, connections);
  }
}
