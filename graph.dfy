/** The expression graph: the dataflow IR of one parsed unit. Vertices live in
    an arena and are referred to by their index, which is their identity;
    `inGraph` says whether the vertex has been added to the graph's vertex set
    (an object is created first and added afterwards, as in the source).
    Edges are referred to by their index in the edge sequence. */
module Graph {
  import opened Base

  type VertexId = nat
  type EdgeId = nat

  /** A dataflow link: a mandatory source, and a target only for the binding
      of a value to a variable. Target-less edges are owned by the vertex that
      holds them as input slots. */
  datatype Edge = Edge(source: VertexId, target: Option<VertexId>)

  /** The vertex classes of the front end, with the input edges each holds. */
  datatype VertexKind =
    | ConstantValueVertex(constant: Value)
    | VariableReferenceVertex(id: Identifier)
    | TupleTypeValueVertex(typeValueEdges: map<string, EdgeId>, defaultValueEdges: map<string, EdgeId>)
    | TupleValueVertex(valueEdges: map<string, EdgeId>)
    | FunctionTypeValueVertex(inputType: EdgeId, outputType: EdgeId)
    | PrimitiveNodeVertex(signature: EdgeId)
    | PrimitivePortVertex(signalType: EdgeId, attributes: EdgeId)
    | FunctionInvocationVertex(functionEdge: EdgeId, inputEdge: EdgeId)
    | NodeValueVertex(nodeType: EdgeId, arguments: EdgeId)

  /** A vertex: its class, its elaborated value (None while unelaborated) and
      whether it is in the graph's vertex set. */
  datatype Vertex = Vertex(kind: VertexKind, value: Option<Value>, inGraph: bool)

  datatype GraphState = GraphState(
    vertices: seq<Vertex>,
    edges: seq<Edge>,
    variables: map<Identifier, VertexId>)

  /** A constant vertex is elaborated at construction; every other vertex
      starts unelaborated. */
  function InitialValue(kind: VertexKind): (r: Option<Value>)
    ensures r.Some? <==> kind.ConstantValueVertex?
  {
    if kind.ConstantValueVertex? then Some(kind.constant) else None
  }

  function KindOf(s: GraphState, v: VertexId): Option<VertexKind> {
    if v < |s.vertices| then Some(s.vertices[v].kind) else None
  }

  /** Whether an edge's target is a variable reference vertex (the
      `instanceof VariableReferenceVertex` test on a possibly absent target). */
  predicate TargetsVariable(s: GraphState, e: Edge) {
    e.target.Some? && e.target.value < |s.vertices|
    && s.vertices[e.target.value].kind.VariableReferenceVertex?
  }

  predicate Elaborated(s: GraphState, v: VertexId) {
    v < |s.vertices| && s.vertices[v].value.Some?
  }

  predicate IsNonVariable(x: Vertex) {
    x.inGraph && !x.kind.VariableReferenceVertex?
  }

  // ----- graph queries -----

  /** The vertices of the graph that are not variables, in arena order. */
  function NonVariableVertices(s: GraphState): (r: seq<VertexId>)
    ensures forall v :: v in r <==> 0 <= v < |s.vertices| && IsNonVariable(s.vertices[v])
    ensures forall i, j :: 0 <= i < j < |r| ==> r[i] < r[j]
  {
    NonVariableUpTo(s.vertices, |s.vertices|)
  }

  function NonVariableUpTo(vs: seq<Vertex>, n: nat): (r: seq<VertexId>)
    requires n <= |vs|
    ensures forall v :: v in r <==> 0 <= v < n && IsNonVariable(vs[v])
    ensures forall i :: 0 <= i < |r| ==> r[i] < n
    ensures forall i, j :: 0 <= i < j < |r| ==> r[i] < r[j]
  {
    if n == 0 then []
    else
      var r := NonVariableUpTo(vs, n - 1);
      if IsNonVariable(vs[n - 1]) then r + [n - 1] else r
  }

  /** The edges whose source is `v`, in insertion order. */
  function EdgesFromSource(s: GraphState, v: VertexId): (r: seq<Edge>)
    ensures forall e :: e in r ==> e in s.edges && e.source == v
    ensures forall i :: 0 <= i < |s.edges| && s.edges[i].source == v ==> s.edges[i] in r
  {
    EdgesFromUpTo(s.edges, v, |s.edges|)
  }

  function EdgesFromUpTo(es: seq<Edge>, v: VertexId, n: nat): (r: seq<Edge>)
    requires n <= |es|
    ensures forall e :: e in r ==> e in es[..n] && e.source == v
    ensures forall i :: 0 <= i < n && es[i].source == v ==> es[i] in r
  {
    if n == 0 then []
    else
      var r := EdgesFromUpTo(es, v, n - 1);
      assert es[..n] == es[..n - 1] + [es[n - 1]];
      if es[n - 1].source == v then r + [es[n - 1]] else r
  }

  /** The number of edges that bind a value to vertex `v`. */
  function AssignmentCount(s: GraphState, v: VertexId): nat {
    CountTargeting(s.edges, v, |s.edges|)
  }

  function CountTargeting(es: seq<Edge>, v: VertexId, n: nat): nat
    requires n <= |es|
  {
    if n == 0 then 0
    else CountTargeting(es, v, n - 1) + (if es[n - 1].target == Some(v) then 1 else 0)
  }

  /** Every variable vertex has at most one incoming assignment. */
  predicate SingleAssignment(s: GraphState) {
    forall v :: 0 <= v < |s.vertices| && s.vertices[v].kind.VariableReferenceVertex? ==>
      AssignmentCount(s, v) <= 1
  }

  /** The single-assignment verification: the identifier of a variable that is
      assigned more than once, if there is one. */
  function MultiplyAssigned(s: GraphState): (r: Option<Identifier>)
    ensures r.None? <==> SingleAssignment(s)
    ensures r.Some? ==>
              exists v :: 0 <= v < |s.vertices|
                          && s.vertices[v].kind == VariableReferenceVertex(r.value) && AssignmentCount(s, v) >= 2
  {
    MultiplyAssignedUpTo(s, |s.vertices|)
  }

  function MultiplyAssignedUpTo(s: GraphState, n: nat): (r: Option<Identifier>)
    requires n <= |s.vertices|
    ensures r.None? <==> forall v :: 0 <= v < n && s.vertices[v].kind.VariableReferenceVertex? ==>
      AssignmentCount(s, v) <= 1
    ensures r.Some? ==>
              exists v :: 0 <= v < n
                          && s.vertices[v].kind == VariableReferenceVertex(r.value) && AssignmentCount(s, v) >= 2
  {
    if n == 0 then None
    else match MultiplyAssignedUpTo(s, n - 1)
      case Some(id) => Some(id)
      case None =>
        var x := s.vertices[n - 1];
        if x.kind.VariableReferenceVertex? && AssignmentCount(s, n - 1) >= 2 then Some(x.kind.id) else None
  }

  // ----- the graph mutations the front end uses -----

  /** `new XVertex(exprGraph, ...)`: a fresh vertex object of class `kind`,
      not yet in the graph's vertex set. Its identity is its arena index. */
  function Create(s: GraphState, kind: VertexKind): GraphState {
    s.(vertices := s.vertices + [Vertex(kind, InitialValue(kind), false)])
  }

  /** `addVertex(v)`: insert a vertex into the vertex set (a set, so adding a
      vertex that is already there changes nothing). */
  function Insert(s: GraphState, v: VertexId): GraphState
    requires v < |s.vertices|
  {
    s.(vertices := s.vertices[v := s.vertices[v].(inGraph := true)])
  }

  /** `addEdge(e)`. */
  function Attach(s: GraphState, e: Edge): GraphState {
    s.(edges := s.edges + [e])
  }

  /** `addVertex(id)` for an undeclared identifier: a new variable vertex,
      in the vertex set and recorded in the variable table. */
  function Declare(s: GraphState, id: Identifier): GraphState {
    GraphState(s.vertices + [Vertex(VariableReferenceVertex(id), None, true)], s.edges,
               s.variables[id := |s.vertices|])
  }

  // ----- the elaborate() contract shared by every vertex class -----

  /** Two states that differ at most in the elaborated values of vertices. */
  predicate SameShape(s: GraphState, r: GraphState) {
    && r.edges == s.edges && r.variables == s.variables && |r.vertices| == |s.vertices|
    && forall w :: 0 <= w < |s.vertices| ==>
         r.vertices[w].kind == s.vertices[w].kind && r.vertices[w].inGraph == s.vertices[w].inGraph
  }

  /** `v.elaborate()` for a vertex whose elaboration computes a value
      (`evaluate` stands for the vertex class's own computation): the first
      call stores the value, later calls change nothing. */
  function ElaborateOne(s: GraphState, v: VertexId, evaluate: (GraphState, VertexId) -> Value): (r: GraphState)
    ensures SameShape(s, r)
    ensures forall w :: 0 <= w < |s.vertices| && w != v ==> r.vertices[w] == s.vertices[w]
    ensures v < |s.vertices| ==> Elaborated(r, v)
    ensures Elaborated(s, v) ==> r == s
  {
    if v < |s.vertices| && s.vertices[v].value.None? then
      s.(vertices := s.vertices[v := s.vertices[v].(value := Some(evaluate(s, v)))])
    else s
  }

  /** Elaborating the vertices `ids` one after the other, first to last. */
  function ElaborateEach(s: GraphState, ids: seq<VertexId>, evaluate: (GraphState, VertexId) -> Value): (r: GraphState)
    ensures SameShape(s, r)
    ensures forall w :: 0 <= w < |s.vertices| && (w !in ids || Elaborated(s, w)) ==> r.vertices[w] == s.vertices[w]
    ensures forall w :: w in ids && w < |s.vertices| ==> Elaborated(r, w)
  {
    if ids == [] then s
    else
      var last := ids[|ids| - 1];
      var mid := ElaborateEach(s, ids[..|ids| - 1], evaluate);
      assert forall w :: w in ids ==> w in ids[..|ids| - 1] || w == last;
      ElaborateOne(mid, last, evaluate)
  }

  /** Elaboration is idempotent: vertices that are all elaborated already are
      left exactly as they are. */
  lemma {:induction false} ElaborateEachElaborated(s: GraphState, ids: seq<VertexId>, evaluate: (GraphState, VertexId) -> Value)
    requires forall w :: w in ids && w < |s.vertices| ==> Elaborated(s, w)
    ensures ElaborateEach(s, ids, evaluate) == s
  {
    if ids != [] {
      ElaborateEachElaborated(s, ids[..|ids| - 1], evaluate);
    }
  }

  /** Elaborating the same vertices twice does no more than elaborating them
      once. */
  lemma ElaborateEachIdempotent(s: GraphState, ids: seq<VertexId>, evaluate: (GraphState, VertexId) -> Value)
    ensures ElaborateEach(ElaborateEach(s, ids, evaluate), ids, evaluate) == ElaborateEach(s, ids, evaluate)
  {
    ElaborateEachElaborated(ElaborateEach(s, ids, evaluate), ids, evaluate);
  }

  /** The graph object of the front end. Only the operations the front end
      calls are modelled, each with the behaviour the front end relies on. */
  class ExpressionGraph {
    var vertices: seq<Vertex>
    var edges: seq<Edge>
    var variables: map<Identifier, VertexId>

    constructor ()
      ensures State() == GraphState([], [], map[])
    {
      vertices, edges, variables := [], [], map[];
    }

    function State(): GraphState
      reads this
    {
      GraphState(vertices, edges, variables)
    }

    /** `new XVertex(exprGraph, ...)`: a fresh vertex object, not yet in the
        graph's vertex set. */
    method CreateVertex(kind: VertexKind) returns (v: VertexId)
      modifies this
      ensures v == |old(vertices)|
      ensures State() == Create(old(State()), kind)
    {
      v := |vertices|;
      vertices := vertices + [Vertex(kind, InitialValue(kind), false)];
    }

    /** `addVertex(v)`: insert a vertex into the vertex set; inserting one that
        is already there changes nothing. */
    method AddVertex(v: VertexId)
      requires v < |vertices|
      modifies this
      ensures State() == Insert(old(State()), v)
      ensures old(vertices[v].inGraph) ==> State() == old(State())
    {
      vertices := vertices[v := vertices[v].(inGraph := true)];
    }

    /** `addVertex(id)`: declare a variable. A second declaration of the same
        identifier fails (the source's MultipleDefinitionException) and does
        not overwrite the first. */
    method AddVariable(id: Identifier) returns (added: bool)
      modifies this
      ensures added == (id !in old(variables))
      ensures added ==> State() == Declare(old(State()), id)
      ensures !added ==> State() == old(State())
    {
      added := id !in variables;
      if added {
        variables := variables[id := |vertices|];
        vertices := vertices + [Vertex(VariableReferenceVertex(id), None, true)];
      }
    }

    predicate ContainsVariable(id: Identifier)
      reads this
    {
      id in variables
    }

    /** `getVariableVertex(id)`; None stands for VariableNotDefinedException. */
    function GetVariableVertex(id: Identifier): (r: Option<VertexId>)
      reads this
      ensures r.Some? <==> ContainsVariable(id)
    {
      if id in variables then Some(variables[id]) else None
    }

    method AddEdge(e: Edge)
      modifies this
      ensures State() == Attach(old(State()), e)
    {
      edges := edges + [e];
    }

    /** `v.elaborate()` for a vertex that computes a value. */
    method Elaborate(v: VertexId, evaluate: (GraphState, VertexId) -> Value)
      modifies this
      ensures State() == ElaborateOne(old(State()), v, evaluate)
    {
      var r := ElaborateOne(State(), v, evaluate);
      vertices, edges, variables := r.vertices, r.edges, r.variables;
    }

    /** `v.elaborate()` for a function invocation vertex: an active rewrite of
        the graph (the inlined call), given by `inline`. */
    method ElaborateInvocation(v: VertexId, inline: (GraphState, VertexId) -> GraphState)
      modifies this
      ensures State() == inline(old(State()), v)
    {
      var r := inline(State(), v);
      vertices, edges, variables := r.vertices, r.edges, r.variables;
    }
  }
}
