/** Expression-graph construction: the visitor that turns each parsed
    expression of a unit into vertices and edges of the expression graph
    (`ExpressionContextVisitor` in src/main/java/org/manifold/compiler/front/Main.java).
    `Construct` and its companions specify, construct by construct, the graph
    a visit leaves and the vertex it returns; the visitor class below is proved
    to do exactly that, and the lemmas state what it means. */
module Builder {
  import opened Base
  import opened Graph

  // ===== Syntax =====

  /** A terminal token as the lexer classifies it, with its text. */
  datatype Token =
    | IntegerValueToken(text: string)
    | BooleanValueToken(text: string)
    | OtherToken(text: string)

  /** The expression forms the visitor handles. */
  datatype Expr =
    | AssignmentExpression(lvalue: Expr, rvalue: Expr)
    | FunctionInvocationExpression(callee: Expr, argument: Expr)
    | PrimitiveNodeDefinitionExpression(signature: FunctionTypeSyntax)
    | PrimitivePortDefinitionExpression(signalType: Expr, attributes: Option<TupleTypeSyntax>)
    | TupleTypeValue(tupleType: TupleTypeSyntax)
    | TupleValue(tuple: TupleValueSyntax)
    | FunctionTypeValue(functionType: FunctionTypeSyntax)
    | NamespacedIdentifier(id: Identifier)
    | Terminal(token: Token)

  /** `(in) -> (out)`: a function type from one tuple type to another. */
  datatype FunctionTypeSyntax = FunctionTypeSyntax(input: TupleTypeSyntax, output: TupleTypeSyntax)

  /** `(name: type = default, type, ...)`: every entry has a type, and may have
      a name and a default value. */
  datatype TupleTypeSyntax = TupleTypeSyntax(entries: seq<TupleTypeEntry>)
  datatype TupleTypeEntry = TupleTypeEntry(name: Option<string>, typeValue: Expr, defaultValue: Option<Expr>)

  /** `(name: value, value, ...)`: every entry has a value and may have a name. */
  datatype TupleValueSyntax = TupleValueSyntax(entries: seq<TupleValueEntry>)
  datatype TupleValueEntry = TupleValueEntry(name: Option<string>, value: Expr)

  /** What the visitor consults besides the graph: the builtin identifiers and
      their values, and the conversion of literal token text to a value. */
  datatype Environment = Environment(
    reserved: map<Identifier, Value>,
    parseInteger: string -> int,
    parseBoolean: string -> bool)

  // ===== Positional naming of tuple entries =====

  /** The number of unnamed entries among `labels`. */
  function Unnamed(labels: seq<Option<string>>): (n: nat)
    ensures n <= |labels|
  {
    if labels == [] then 0
    else Unnamed(labels[..|labels| - 1]) + (if labels[|labels| - 1].None? then 1 else 0)
  }

  /** The field name of entry `i`: its own name if it has one, otherwise the
      value of the anonymous-entry counter, which starts at 0 and advances
      on unnamed entries only. */
  function PositionalName(labels: seq<Option<string>>, i: nat): string
    requires i < |labels|
  {
    if labels[i].Some? then labels[i].value else NatToString(Unnamed(labels[..i]))
  }

  function PositionalNames(labels: seq<Option<string>>): (names: seq<string>)
    ensures |names| == |labels|
  {
    seq(|labels|, i requires 0 <= i < |labels| => PositionalName(labels, i))
  }

  function TypeLabels(entries: seq<TupleTypeEntry>): (labels: seq<Option<string>>)
    ensures |labels| == |entries|
  {
    seq(|entries|, i requires 0 <= i < |entries| => entries[i].name)
  }

  function ValueLabels(entries: seq<TupleValueEntry>): (labels: seq<Option<string>>)
    ensures |labels| == |entries|
  {
    seq(|entries|, i requires 0 <= i < |entries| => entries[i].name)
  }

  /** The counter only moves forward: an unnamed entry at `i` has been counted
      by the time any later entry `j` is reached. */
  lemma {:induction false} UnnamedBefore(labels: seq<Option<string>>, i: nat, j: nat)
    requires i < j <= |labels| && labels[i].None?
    ensures Unnamed(labels[..i]) < Unnamed(labels[..j])
    decreases j
  {
    assert labels[..j][..j - 1] == labels[..j - 1];
    if j > i + 1 {
      UnnamedBefore(labels, i, j - 1);
    }
  }

  /** Two unnamed entries never get the same positional name. */
  lemma AnonymousNamesDistinct(labels: seq<Option<string>>, i: nat, j: nat)
    requires i < j < |labels| && labels[i].None? && labels[j].None?
    ensures PositionalName(labels, i) != PositionalName(labels, j)
  {
    UnnamedBefore(labels, i, j);
    NatToStringInjective(Unnamed(labels[..i]), Unnamed(labels[..j]));
  }

  /** The names of the entries before `n` do not depend on the entries after. */
  lemma PositionalNamePrefix(labels: seq<Option<string>>, n: nat, i: nat)
    requires i < n <= |labels|
    ensures PositionalName(labels[..n], i) == PositionalName(labels, i)
  {
    assert labels[..n][..i] == labels[..i];
  }

  /** With m unnamed entries, every positional name handed out is the decimal
      rendering of a number below m ... */
  lemma AnonymousNamesBelowCount(labels: seq<Option<string>>, i: nat)
    requires i < |labels| && labels[i].None?
    ensures exists k :: 0 <= k < Unnamed(labels) && PositionalName(labels, i) == NatToString(k)
  {
    UnnamedBefore(labels, i, |labels|);
    assert labels[..|labels|] == labels;
    assert PositionalName(labels, i) == NatToString(Unnamed(labels[..i]));
  }

  /** ... and every number below m is handed out: the anonymous entries are
      named "0", "1", ... with no gap. */
  lemma {:induction false} AnonymousNamesCountUp(labels: seq<Option<string>>, k: nat)
    requires k < Unnamed(labels)
    ensures exists i :: 0 <= i < |labels| && labels[i].None? && PositionalName(labels, i) == NatToString(k)
  {
    var n := |labels| - 1;
    var init := labels[..n];
    if k < Unnamed(init) {
      AnonymousNamesCountUp(init, k);
      var i :| 0 <= i < |init| && init[i].None? && PositionalName(init, i) == NatToString(k);
      PositionalNamePrefix(labels, n, i);
    } else {
      assert labels[n].None? && PositionalName(labels, n) == NatToString(k);
    }
  }

  // ===== The graph a visit leaves =====

  /** The graph after a visit, and either the vertex the visit returns or the
      error that aborted it. */
  datatype Outcome<+T> = Outcome(graph: GraphState, result: Result<T>)

  /** A graph that the visitor can be run on: every vertex is in the vertex
      set, every edge joins existing vertices, and the variable table maps
      each identifier to its own variable vertex. */
  predicate WellFormed(s: GraphState) {
    && (forall v :: 0 <= v < |s.vertices| ==> s.vertices[v].inGraph)
    && (forall i :: 0 <= i < |s.edges| ==>
          s.edges[i].source < |s.vertices|
          && (s.edges[i].target.Some? ==> s.edges[i].target.value < |s.vertices|))
    && (forall id :: id in s.variables ==>
          s.variables[id] < |s.vertices|
          && s.vertices[s.variables[id]].kind == VariableReferenceVertex(id))
  }

  /** `t` extends `s`: no vertex, edge or variable of `s` is changed or lost,
      and every vertex created since `s` is in the vertex set. */
  predicate Grows(s: GraphState, t: GraphState) {
    && |s.vertices| <= |t.vertices|
    && (forall v {:trigger t.vertices[v]} :: 0 <= v < |s.vertices| ==> t.vertices[v] == s.vertices[v])
    && (forall v :: |s.vertices| <= v < |t.vertices| ==> t.vertices[v].inGraph)
    && |s.edges| <= |t.edges|
    && (forall i {:trigger t.edges[i]} :: 0 <= i < |s.edges| ==> t.edges[i] == s.edges[i])
    && (forall id :: id in s.variables ==> id in t.variables && t.variables[id] == s.variables[id])
  }

  /** A vertex of class `kind` created and added to the vertex set at once. */
  function NewVertex(s: GraphState, kind: VertexKind): GraphState {
    Insert(Create(s, kind), |s.vertices|)
  }

  lemma GrowsTransitive(s: GraphState, t: GraphState, u: GraphState)
    requires Grows(s, t) && Grows(t, u)
    ensures Grows(s, u)
  {
  }

  /** Adding an edge between existing vertices keeps the graph well formed. */
  lemma AttachGrows(s: GraphState, e: Edge)
    ensures Grows(s, Attach(s, e))
    ensures WellFormed(s) && e.source < |s.vertices| && (e.target.Some? ==> e.target.value < |s.vertices|)
            ==> WellFormed(Attach(s, e))
  {
  }

  /** A new vertex whose edges are attached afterwards keeps the graph well
      formed. */
  lemma NewVertexGrows(s: GraphState, kind: VertexKind)
    requires !kind.VariableReferenceVertex?
    ensures Grows(s, NewVertex(s, kind))
    ensures WellFormed(s) ==> WellFormed(NewVertex(s, kind))
  {
  }

  /** Declaring a new variable keeps the graph well formed. */
  lemma DeclareGrows(s: GraphState, id: Identifier)
    requires id !in s.variables
    ensures Grows(s, Declare(s, id))
    ensures WellFormed(s) ==> WellFormed(Declare(s, id))
  {
  }

  /** A new vertex followed by its two input edges, as an invocation and a
      function type are added, keeps the graph well formed. */
  lemma NewVertexInputsGrows(s: GraphState, kind: VertexKind, first: VertexId, second: VertexId)
    requires !kind.VariableReferenceVertex?
    ensures var t := Attach(Attach(NewVertex(s, kind), Edge(first, None)), Edge(second, None));
            && Grows(s, t)
            && (WellFormed(s) && first < |s.vertices| && second < |s.vertices| ==> WellFormed(t))
  {
    var t1 := NewVertex(s, kind);
    var t2 := Attach(t1, Edge(first, None));
    NewVertexGrows(s, kind);
    AttachGrows(t1, Edge(first, None));
    AttachGrows(t2, Edge(second, None));
    GrowsTransitive(s, t1, t2);
    GrowsTransitive(s, t2, Attach(t2, Edge(second, None)));
  }

  /** The last step of an invocation or function type visit, from the graph
      `t` its two operand visits left behind. */
  lemma TwoInputVertexSound(s: GraphState, t: GraphState, kind: VertexKind, first: VertexId, second: VertexId)
    requires !kind.VariableReferenceVertex? && Grows(s, t)
    requires WellFormed(s) ==> WellFormed(t) && first < |t.vertices| && second < |t.vertices|
    ensures SoundVisit(s, Outcome(Attach(Attach(NewVertex(t, kind), Edge(first, None)), Edge(second, None)),
                                  Ok(|t.vertices|)))
  {
    NewVertexInputsGrows(t, kind, first, second);
    GrowsTransitive(s, t, Attach(Attach(NewVertex(t, kind), Edge(first, None)), Edge(second, None)));
  }

  /** The visit of expression `e` on graph `s`. */
  function Construct(env: Environment, s: GraphState, e: Expr): (o: Outcome<VertexId>)
    decreases e, 2
  {
    match e
    case AssignmentExpression(_, _) => ConstructAssignment(env, s, e)
    case FunctionInvocationExpression(_, _) => ConstructInvocation(env, s, e)
    case PrimitiveNodeDefinitionExpression(_) => ConstructPrimitiveNode(env, s, e)
    case PrimitivePortDefinitionExpression(_, _) => ConstructPrimitivePort(env, s, e)
    case TupleTypeValue(tupleType) => ConstructTupleType(env, s, tupleType)
    case TupleValue(tuple) => ConstructTupleValue(env, s, tuple)
    case FunctionTypeValue(functionType) => ConstructFunctionType(env, s, functionType)
    case NamespacedIdentifier(id) => ConstructIdentifier(env, s, id)
    case Terminal(token) => ConstructTerminal(env, s, token)
  }

  /** Visit the lvalue, then the rvalue, then bind the rvalue to the lvalue. */
  function ConstructAssignment(env: Environment, s: GraphState, e: Expr): (o: Outcome<VertexId>)
    requires e.AssignmentExpression?
    decreases e, 1
  {
    var left := Construct(env, s, e.lvalue);
    if left.result.Err? then left
    else
      var right := Construct(env, left.graph, e.rvalue);
      if right.result.Err? then right
      else
        var edge := Edge(right.result.value, Some(left.result.value));
        Outcome(Attach(right.graph, edge), right.result)
  }

  /** Visit the callee, then the argument, then a new invocation vertex whose
      two input edges are added after it. */
  function ConstructInvocation(env: Environment, s: GraphState, e: Expr): (o: Outcome<VertexId>)
    requires e.FunctionInvocationExpression?
    decreases e, 1
  {
    var fn := Construct(env, s, e.callee);
    if fn.result.Err? then fn
    else
      var input := Construct(env, fn.graph, e.argument);
      if input.result.Err? then input
      else
        var t := input.graph;
        var t1 := NewVertex(t, FunctionInvocationVertex(|t.edges|, |t.edges| + 1));
        var t2 := Attach(t1, Edge(fn.result.value, None));
        Outcome(Attach(t2, Edge(input.result.value, None)), Ok(|t.vertices|))
  }

  /** Visit the signature, add its edge, then a new primitive node vertex. */
  function ConstructPrimitiveNode(env: Environment, s: GraphState, e: Expr): (o: Outcome<VertexId>)
    requires e.PrimitiveNodeDefinitionExpression?
    decreases e, 1
  {
    var sig := ConstructFunctionType(env, s, e.signature);
    if sig.result.Err? then sig
    else
      var t := Attach(sig.graph, Edge(sig.result.value, None));
      Outcome(NewVertex(t, PrimitiveNodeVertex(|t.edges| - 1)), Ok(|t.vertices|))
  }

  /** Visit the signal type and add its edge; visit the attribute tuple type,
      or create a Nil constant when there is none; add that vertex (again) and
      its edge; then a new primitive port vertex. */
  function ConstructPrimitivePort(env: Environment, s: GraphState, e: Expr): (o: Outcome<VertexId>)
    requires e.PrimitivePortDefinitionExpression?
    decreases e, 1
  {
    var signal := Construct(env, s, e.signalType);
    if signal.result.Err? then signal
    else ConstructPortTail(env, Attach(signal.graph, Edge(signal.result.value, None)), e)
  }

  /** The part of a port visit after its signal type edge, the last edge of
      `t`: the attributes, their edge, and the port vertex itself. */
  function ConstructPortTail(env: Environment, t: GraphState, e: Expr): (o: Outcome<VertexId>)
    requires e.PrimitivePortDefinitionExpression? && |t.edges| > 0
    decreases e, 0
  {
    var attrs := ConstructAttributes(env, t, e.attributes);
    if attrs.result.Err? then attrs
    else
      var t1 := Attach(attrs.graph, Edge(attrs.result.value, None));
      Outcome(NewVertex(t1, PrimitivePortVertex(|t.edges| - 1, |t1.edges| - 1)), Ok(|t1.vertices|))
  }

  /** The attributes vertex of a port, added to the vertex set: the visited
      tuple type (already there), or a new Nil constant. */
  function ConstructAttributes(env: Environment, s: GraphState, attributes: Option<TupleTypeSyntax>)
    : (o: Outcome<VertexId>)
    ensures o.result.Ok? ==> o.result.value == |o.graph.vertices| - 1
    decreases attributes, 0
  {
    if attributes.Some? then
      var tuple := ConstructTupleType(env, s, attributes.value);
      if tuple.result.Err? then tuple
      else Outcome(Insert(tuple.graph, tuple.result.value), tuple.result)
    else
      Outcome(NewVertex(s, ConstantValueVertex(NilTypeValue)), Ok(|s.vertices|))
  }

  function ConstructFunctionType(env: Environment, s: GraphState, ft: FunctionTypeSyntax): (o: Outcome<VertexId>)
    decreases ft, 1
  {
    var input := ConstructTupleType(env, s, ft.input);
    if input.result.Err? then input
    else
      var output := ConstructTupleType(env, input.graph, ft.output);
      if output.result.Err? then output
      else
        var t := output.graph;
        var t1 := NewVertex(t, FunctionTypeValueVertex(|t.edges|, |t.edges| + 1));
        Outcome(Attach(Attach(t1, Edge(input.result.value, None)), Edge(output.result.value, None)),
                Ok(|t.vertices|))
  }

  /** The visit of a tuple type: the entries, then a fresh tuple type vertex. */
  function ConstructTupleType(env: Environment, s: GraphState, tt: TupleTypeSyntax): (o: Outcome<VertexId>)
    ensures o.result.Ok? ==> o.result.value == |o.graph.vertices| - 1
    decreases tt, |tt.entries| + 1
  {
    var fields := ConstructTypeEntries(env, s, tt, |tt.entries|);
    if fields.result.Err? then Outcome(fields.graph, Err(fields.result.error))
    else
      var (typeValueEdges, defaultValueEdges) := fields.result.value;
      Outcome(NewVertex(fields.graph, TupleTypeValueVertex(typeValueEdges, defaultValueEdges)),
              Ok(|fields.graph.vertices|))
  }

  /** The first `n` iterations of the entry loop of a tuple type visit: the
      type-value edges and default-value edges by field name. */
  function ConstructTypeEntries(env: Environment, s: GraphState, tt: TupleTypeSyntax, n: nat)
    : (o: Outcome<(map<string, EdgeId>, map<string, EdgeId>)>)
    requires n <= |tt.entries|
    decreases tt, n, 2
  {
    if n == 0 then Outcome(s, Ok((map[], map[])))
    else
      var prev := ConstructTypeEntries(env, s, tt, n - 1);
      if prev.result.Err? then prev
      else ConstructTypeEntry(env, prev.graph, tt, n - 1, prev.result.value)
  }

  /** Iteration `i` of the entry loop of a tuple type visit: visit the type
      and record its edge under the entry's name, then the default value. */
  function ConstructTypeEntry(env: Environment, s: GraphState, tt: TupleTypeSyntax, i: nat,
                              fields: (map<string, EdgeId>, map<string, EdgeId>))
    : (o: Outcome<(map<string, EdgeId>, map<string, EdgeId>)>)
    requires i < |tt.entries|
    decreases tt, i, 1
  {
    var identifier := PositionalName(TypeLabels(tt.entries), i);
    var typeValue := Construct(env, s, tt.entries[i].typeValue);
    if typeValue.result.Err? then Outcome(typeValue.graph, Err(typeValue.result.error))
    else
      var t := Attach(typeValue.graph, Edge(typeValue.result.value, None));
      ConstructDefault(env, t, tt, i, (fields.0[identifier := |t.edges| - 1], fields.1))
  }

  /** The rest of iteration `i`: if the entry has a default value, visit it
      and record its edge under the entry's name. */
  function ConstructDefault(env: Environment, s: GraphState, tt: TupleTypeSyntax, i: nat,
                            fields: (map<string, EdgeId>, map<string, EdgeId>))
    : (o: Outcome<(map<string, EdgeId>, map<string, EdgeId>)>)
    requires i < |tt.entries|
    decreases tt, i, 0
  {
    var entry := tt.entries[i];
    if entry.defaultValue.None? then Outcome(s, Ok(fields))
    else
      var defaultValue := Construct(env, s, entry.defaultValue.value);
      if defaultValue.result.Err? then Outcome(defaultValue.graph, Err(defaultValue.result.error))
      else
        var t := Attach(defaultValue.graph, Edge(defaultValue.result.value, None));
        Outcome(t, Ok((fields.0, fields.1[PositionalName(TypeLabels(tt.entries), i) := |t.edges| - 1])))
  }

  /** The visit of a tuple value: the entries, then a fresh tuple value vertex. */
  function ConstructTupleValue(env: Environment, s: GraphState, tv: TupleValueSyntax): (o: Outcome<VertexId>)
    ensures o.result.Ok? ==> o.result.value == |o.graph.vertices| - 1
    decreases tv, |tv.entries| + 1
  {
    var fields := ConstructValueEntries(env, s, tv, |tv.entries|);
    if fields.result.Err? then Outcome(fields.graph, Err(fields.result.error))
    else
      Outcome(NewVertex(fields.graph, TupleValueVertex(fields.result.value)), Ok(|fields.graph.vertices|))
  }

  /** The first `n` iterations of the entry loop of a tuple value visit: the
      value edges by field name. */
  function ConstructValueEntries(env: Environment, s: GraphState, tv: TupleValueSyntax, n: nat)
    : (o: Outcome<map<string, EdgeId>>)
    requires n <= |tv.entries|
    decreases tv, n, 1
  {
    if n == 0 then Outcome(s, Ok(map[]))
    else
      var prev := ConstructValueEntries(env, s, tv, n - 1);
      if prev.result.Err? then prev
      else ConstructValueEntry(env, prev.graph, tv, n - 1, prev.result.value)
  }

  /** Iteration `i` of the entry loop of a tuple value visit: visit the value
      and record its edge under the entry's name. */
  function ConstructValueEntry(env: Environment, s: GraphState, tv: TupleValueSyntax, i: nat,
                               values: map<string, EdgeId>)
    : (o: Outcome<map<string, EdgeId>>)
    requires i < |tv.entries|
    decreases tv, i, 0
  {
    var value := Construct(env, s, tv.entries[i].value);
    if value.result.Err? then Outcome(value.graph, Err(value.result.error))
    else
      var identifier := PositionalName(ValueLabels(tv.entries), i);
      var t := Attach(value.graph, Edge(value.result.value, None));
      Outcome(t, Ok(values[identifier := |t.edges| - 1]))
  }

  /** The visit of a namespaced identifier: a builtin becomes a fresh constant
      vertex; a variable is looked up, and declared on its first use. */
  function ConstructIdentifier(env: Environment, s: GraphState, id: Identifier): (o: Outcome<VertexId>)
    ensures o.result.Ok?
  {
    if id in env.reserved then
      Outcome(NewVertex(s, ConstantValueVertex(env.reserved[id])), Ok(|s.vertices|))
    else if id in s.variables then
      Outcome(s, Ok(s.variables[id]))
    else
      Outcome(Declare(s, id), Ok(|s.vertices|))
  }

  /** The visit of a terminal: an integer or boolean literal becomes a fresh
      constant vertex; any other token aborts the visit. */
  function ConstructTerminal(env: Environment, s: GraphState, token: Token): (o: Outcome<VertexId>)
    ensures o.result.Ok? <==> !token.OtherToken?
  {
    match token
    case IntegerValueToken(text) =>
      Outcome(NewVertex(s, ConstantValueVertex(IntegerValue(env.parseInteger(text)))), Ok(|s.vertices|))
    case BooleanValueToken(text) =>
      Outcome(NewVertex(s, ConstantValueVertex(BooleanValue(env.parseBoolean(text)))), Ok(|s.vertices|))
    case OtherToken(text) =>
      Outcome(s, Err(UnknownTerminal(text)))
  }

  // ===== Visits only extend the graph, and keep it well formed =====

  /** What every visit guarantees: nothing that was in the graph is changed
      or lost, every vertex it creates is in the vertex set when it returns,
      and a well-formed graph stays well formed, the returned vertex in it. */
  predicate SoundVisit(s: GraphState, o: Outcome<VertexId>) {
    && Grows(s, o.graph)
    && (WellFormed(s) ==> WellFormed(o.graph) && (o.result.Ok? ==> o.result.value < |o.graph.vertices|))
  }

  predicate SoundLoop<T>(s: GraphState, o: Outcome<T>) {
    Grows(s, o.graph) && (WellFormed(s) ==> WellFormed(o.graph))
  }

  lemma {:induction false} ConstructSound(env: Environment, s: GraphState, e: Expr)
    ensures SoundVisit(s, Construct(env, s, e))
    decreases e, 2
  {
    match e
    case AssignmentExpression(_, _) => AssignmentSound(env, s, e);
    case FunctionInvocationExpression(_, _) => InvocationSound(env, s, e);
    case PrimitiveNodeDefinitionExpression(_) => PrimitiveNodeSound(env, s, e);
    case PrimitivePortDefinitionExpression(_, _) => PrimitivePortSound(env, s, e);
    case TupleTypeValue(tupleType) => TupleTypeSound(env, s, tupleType);
    case TupleValue(tuple) => TupleValueSound(env, s, tuple);
    case FunctionTypeValue(functionType) => FunctionTypeSound(env, s, functionType);
    case NamespacedIdentifier(id) => IdentifierSound(env, s, id);
    case Terminal(token) => TerminalSound(env, s, token);
  }

  lemma IdentifierSound(env: Environment, s: GraphState, id: Identifier)
    ensures SoundVisit(s, ConstructIdentifier(env, s, id))
  {
    if id in env.reserved {
      NewVertexGrows(s, ConstantValueVertex(env.reserved[id]));
    } else if id !in s.variables {
      DeclareGrows(s, id);
    }
  }

  lemma TerminalSound(env: Environment, s: GraphState, token: Token)
    ensures SoundVisit(s, ConstructTerminal(env, s, token))
  {
    match token
    case IntegerValueToken(text) => NewVertexGrows(s, ConstantValueVertex(IntegerValue(env.parseInteger(text))));
    case BooleanValueToken(text) => NewVertexGrows(s, ConstantValueVertex(BooleanValue(env.parseBoolean(text))));
    case OtherToken(_) =>
  }

  lemma {:induction false} AssignmentSound(env: Environment, s: GraphState, e: Expr)
    requires e.AssignmentExpression?
    ensures SoundVisit(s, ConstructAssignment(env, s, e))
    decreases e, 1
  {
    ConstructSound(env, s, e.lvalue);
    var left := Construct(env, s, e.lvalue);
    if left.result.Ok? {
      ConstructSound(env, left.graph, e.rvalue);
      var right := Construct(env, left.graph, e.rvalue);
      if right.result.Ok? {
        var edge := Edge(right.result.value, Some(left.result.value));
        AttachGrows(right.graph, edge);
        GrowsTransitive(s, left.graph, right.graph);
        GrowsTransitive(s, right.graph, Attach(right.graph, edge));
      }
    }
  }

  lemma {:induction false} InvocationSound(env: Environment, s: GraphState, e: Expr)
    requires e.FunctionInvocationExpression?
    ensures SoundVisit(s, ConstructInvocation(env, s, e))
    decreases e, 1
  {
    ConstructSound(env, s, e.callee);
    var fn := Construct(env, s, e.callee);
    if fn.result.Ok? {
      ConstructSound(env, fn.graph, e.argument);
      var input := Construct(env, fn.graph, e.argument);
      if input.result.Ok? {
        var t := input.graph;
        GrowsTransitive(s, fn.graph, t);
        TwoInputVertexSound(s, t, FunctionInvocationVertex(|t.edges|, |t.edges| + 1), fn.result.value, input.result.value);
      }
    }
  }

  lemma {:induction false} PrimitiveNodeSound(env: Environment, s: GraphState, e: Expr)
    requires e.PrimitiveNodeDefinitionExpression?
    ensures SoundVisit(s, ConstructPrimitiveNode(env, s, e))
    decreases e, 1
  {
    FunctionTypeSound(env, s, e.signature);
    var sig := ConstructFunctionType(env, s, e.signature);
    if sig.result.Ok? {
      var t := Attach(sig.graph, Edge(sig.result.value, None));
      AttachGrows(sig.graph, Edge(sig.result.value, None));
      NewVertexGrows(t, PrimitiveNodeVertex(|t.edges| - 1));
      GrowsTransitive(s, sig.graph, t);
      GrowsTransitive(s, t, NewVertex(t, PrimitiveNodeVertex(|t.edges| - 1)));
    }
  }

  lemma {:induction false} PrimitivePortSound(env: Environment, s: GraphState, e: Expr)
    requires e.PrimitivePortDefinitionExpression?
    ensures SoundVisit(s, ConstructPrimitivePort(env, s, e))
    decreases e, 1
  {
    ConstructSound(env, s, e.signalType);
    var signal := Construct(env, s, e.signalType);
    if signal.result.Ok? {
      var t := Attach(signal.graph, Edge(signal.result.value, None));
      AttachGrows(signal.graph, Edge(signal.result.value, None));
      GrowsTransitive(s, signal.graph, t);
      PortTailSound(env, t, e);
      GrowsTransitive(s, t, ConstructPortTail(env, t, e).graph);
    }
  }

  /** The part of a port visit after its signal type edge: the attributes,
      their edge and the port vertex. */
  lemma {:induction false} PortTailSound(env: Environment, t: GraphState, e: Expr)
    requires e.PrimitivePortDefinitionExpression? && |t.edges| > 0
    ensures SoundVisit(t, ConstructPortTail(env, t, e))
    decreases e, 0
  {
    AttributesSound(env, t, e.attributes);
    var attrs := ConstructAttributes(env, t, e.attributes);
    if attrs.result.Ok? {
      var t1 := Attach(attrs.graph, Edge(attrs.result.value, None));
      var kind := PrimitivePortVertex(|t.edges| - 1, |t1.edges| - 1);
      AttachGrows(attrs.graph, Edge(attrs.result.value, None));
      NewVertexGrows(t1, kind);
      GrowsTransitive(t, attrs.graph, t1);
      GrowsTransitive(t, t1, NewVertex(t1, kind));
    }
  }

  lemma {:induction false} AttributesSound(env: Environment, s: GraphState, attributes: Option<TupleTypeSyntax>)
    ensures SoundVisit(s, ConstructAttributes(env, s, attributes))
    decreases attributes, 0
  {
    if attributes.Some? {
      TupleTypeSound(env, s, attributes.value);
    } else {
      NewVertexGrows(s, ConstantValueVertex(NilTypeValue));
    }
  }

  lemma {:induction false} FunctionTypeSound(env: Environment, s: GraphState, ft: FunctionTypeSyntax)
    ensures SoundVisit(s, ConstructFunctionType(env, s, ft))
    decreases ft, 1
  {
    TupleTypeSound(env, s, ft.input);
    var input := ConstructTupleType(env, s, ft.input);
    if input.result.Ok? {
      OutputTypeSound(env, s, input.graph, ft, input.result.value);
    }
  }

  /** The part of a function type visit after its input type. */
  lemma {:induction false} OutputTypeSound(env: Environment, s: GraphState, m: GraphState, ft: FunctionTypeSyntax,
                                           input: VertexId)
    requires Grows(s, m) && (WellFormed(s) ==> WellFormed(m) && input < |m.vertices|)
    ensures var output := ConstructTupleType(env, m, ft.output);
            var t := output.graph;
            if output.result.Err? then SoundVisit(s, output)
            else SoundVisit(s, Outcome(Attach(Attach(NewVertex(t, FunctionTypeValueVertex(|t.edges|, |t.edges| + 1)),
                                                     Edge(input, None)), Edge(output.result.value, None)),
                                       Ok(|t.vertices|)))
    decreases ft, 0
  {
    TupleTypeSound(env, m, ft.output);
    var output := ConstructTupleType(env, m, ft.output);
    GrowsTransitive(s, m, output.graph);
    if output.result.Ok? {
      var t := output.graph;
      TwoInputVertexSound(s, t, FunctionTypeValueVertex(|t.edges|, |t.edges| + 1), input, output.result.value);
    }
  }

  lemma {:induction false} TupleTypeSound(env: Environment, s: GraphState, tt: TupleTypeSyntax)
    ensures SoundVisit(s, ConstructTupleType(env, s, tt))
    decreases tt, |tt.entries| + 1
  {
    TypeEntriesSound(env, s, tt, |tt.entries|);
    var fields := ConstructTypeEntries(env, s, tt, |tt.entries|);
    if fields.result.Ok? {
      var (tm, dm) := fields.result.value;
      NewVertexGrows(fields.graph, TupleTypeValueVertex(tm, dm));
      GrowsTransitive(s, fields.graph, NewVertex(fields.graph, TupleTypeValueVertex(tm, dm)));
    }
  }

  lemma {:induction false} TypeEntriesSound(env: Environment, s: GraphState, tt: TupleTypeSyntax, n: nat)
    requires n <= |tt.entries|
    ensures SoundLoop(s, ConstructTypeEntries(env, s, tt, n))
    decreases tt, n, 2
  {
    if n > 0 {
      TypeEntriesSound(env, s, tt, n - 1);
      var prev := ConstructTypeEntries(env, s, tt, n - 1);
      if prev.result.Ok? {
        TypeEntrySound(env, prev.graph, tt, n - 1, prev.result.value);
        GrowsTransitive(s, prev.graph, ConstructTypeEntry(env, prev.graph, tt, n - 1, prev.result.value).graph);
      }
    }
  }

  lemma {:induction false} TypeEntrySound(env: Environment, s: GraphState, tt: TupleTypeSyntax, i: nat,
                                          fields: (map<string, EdgeId>, map<string, EdgeId>))
    requires i < |tt.entries|
    ensures SoundLoop(s, ConstructTypeEntry(env, s, tt, i, fields))
    decreases tt, i, 1
  {
    ConstructSound(env, s, tt.entries[i].typeValue);
    var typeValue := Construct(env, s, tt.entries[i].typeValue);
    if typeValue.result.Ok? {
      var t := Attach(typeValue.graph, Edge(typeValue.result.value, None));
      var fields' := (fields.0[PositionalName(TypeLabels(tt.entries), i) := |t.edges| - 1], fields.1);
      AttachGrows(typeValue.graph, Edge(typeValue.result.value, None));
      GrowsTransitive(s, typeValue.graph, t);
      DefaultSound(env, t, tt, i, fields');
      GrowsTransitive(s, t, ConstructDefault(env, t, tt, i, fields').graph);
    }
  }

  lemma {:induction false} DefaultSound(env: Environment, s: GraphState, tt: TupleTypeSyntax, i: nat,
                                        fields: (map<string, EdgeId>, map<string, EdgeId>))
    requires i < |tt.entries|
    ensures SoundLoop(s, ConstructDefault(env, s, tt, i, fields))
    decreases tt, i, 0
  {
    var entry := tt.entries[i];
    if entry.defaultValue.Some? {
      ConstructSound(env, s, entry.defaultValue.value);
      var defaultValue := Construct(env, s, entry.defaultValue.value);
      if defaultValue.result.Ok? {
        var t := Attach(defaultValue.graph, Edge(defaultValue.result.value, None));
        AttachGrows(defaultValue.graph, Edge(defaultValue.result.value, None));
        GrowsTransitive(s, defaultValue.graph, t);
      }
    }
  }

  lemma {:induction false} TupleValueSound(env: Environment, s: GraphState, tv: TupleValueSyntax)
    ensures SoundVisit(s, ConstructTupleValue(env, s, tv))
    decreases tv, |tv.entries| + 1
  {
    ValueEntriesSound(env, s, tv, |tv.entries|);
    var fields := ConstructValueEntries(env, s, tv, |tv.entries|);
    if fields.result.Ok? {
      NewVertexGrows(fields.graph, TupleValueVertex(fields.result.value));
      GrowsTransitive(s, fields.graph, NewVertex(fields.graph, TupleValueVertex(fields.result.value)));
    }
  }

  lemma {:induction false} ValueEntriesSound(env: Environment, s: GraphState, tv: TupleValueSyntax, n: nat)
    requires n <= |tv.entries|
    ensures SoundLoop(s, ConstructValueEntries(env, s, tv, n))
    decreases tv, n, 1
  {
    if n > 0 {
      ValueEntriesSound(env, s, tv, n - 1);
      var prev := ConstructValueEntries(env, s, tv, n - 1);
      if prev.result.Ok? {
        ConstructSound(env, prev.graph, tv.entries[n - 1].value);
        var value := Construct(env, prev.graph, tv.entries[n - 1].value);
        GrowsTransitive(s, prev.graph, value.graph);
        if value.result.Ok? {
          var t := Attach(value.graph, Edge(value.result.value, None));
          AttachGrows(value.graph, Edge(value.result.value, None));
          GrowsTransitive(s, value.graph, t);
        }
      }
    }
  }

  // ===== Which visits fail, and how many edges the others add =====

  /** The text of the first terminal, in visiting order, that is neither an
      integer nor a boolean literal. */
  function FirstUnknownToken(e: Expr): Option<string>
    decreases e, 0
  {
    match e
    case AssignmentExpression(lvalue, rvalue) => Either(FirstUnknownToken(lvalue), FirstUnknownToken(rvalue))
    case FunctionInvocationExpression(callee, argument) => Either(FirstUnknownToken(callee), FirstUnknownToken(argument))
    case PrimitiveNodeDefinitionExpression(signature) => FunctionTypeUnknownToken(signature)
    case PrimitivePortDefinitionExpression(signalType, attributes) =>
      Either(FirstUnknownToken(signalType),
             if attributes.Some? then TypeEntriesUnknownToken(attributes.value, |attributes.value.entries|) else None)
    case TupleTypeValue(tupleType) => TypeEntriesUnknownToken(tupleType, |tupleType.entries|)
    case TupleValue(tuple) => ValueEntriesUnknownToken(tuple, |tuple.entries|)
    case FunctionTypeValue(functionType) => FunctionTypeUnknownToken(functionType)
    case NamespacedIdentifier(_) => None
    case Terminal(token) => if token.OtherToken? then Some(token.text) else None
  }

  function Either(first: Option<string>, second: Option<string>): Option<string> {
    if first.Some? then first else second
  }

  function FunctionTypeUnknownToken(ft: FunctionTypeSyntax): Option<string>
    decreases ft, 0
  {
    Either(TypeEntriesUnknownToken(ft.input, |ft.input.entries|), TypeEntriesUnknownToken(ft.output, |ft.output.entries|))
  }

  function TypeEntriesUnknownToken(tt: TupleTypeSyntax, n: nat): Option<string>
    requires n <= |tt.entries|
    decreases tt, n
  {
    if n == 0 then None
    else
      var entry := tt.entries[n - 1];
      Either(TypeEntriesUnknownToken(tt, n - 1),
             Either(FirstUnknownToken(entry.typeValue),
                    if entry.defaultValue.Some? then FirstUnknownToken(entry.defaultValue.value) else None))
  }

  function ValueEntriesUnknownToken(tv: TupleValueSyntax, n: nat): Option<string>
    requires n <= |tv.entries|
    decreases tv, n
  {
    if n == 0 then None
    else Either(ValueEntriesUnknownToken(tv, n - 1), FirstUnknownToken(tv.entries[n - 1].value))
  }

  /** The number of edges the visit of `e` adds: one per assignment, two per
      invocation and per function type, one for a primitive node's signature,
      two for a primitive port, one per tuple entry and one more per default
      value. */
  function EdgeCount(e: Expr): nat
    decreases e, 0
  {
    match e
    case AssignmentExpression(lvalue, rvalue) => EdgeCount(lvalue) + EdgeCount(rvalue) + 1
    case FunctionInvocationExpression(callee, argument) => EdgeCount(callee) + EdgeCount(argument) + 2
    case PrimitiveNodeDefinitionExpression(signature) => FunctionTypeEdgeCount(signature) + 1
    case PrimitivePortDefinitionExpression(signalType, attributes) =>
      EdgeCount(signalType) + (if attributes.Some? then TypeEntriesEdgeCount(attributes.value, |attributes.value.entries|) else 0) + 2
    case TupleTypeValue(tupleType) => TypeEntriesEdgeCount(tupleType, |tupleType.entries|)
    case TupleValue(tuple) => ValueEntriesEdgeCount(tuple, |tuple.entries|)
    case FunctionTypeValue(functionType) => FunctionTypeEdgeCount(functionType)
    case NamespacedIdentifier(_) => 0
    case Terminal(_) => 0
  }

  function FunctionTypeEdgeCount(ft: FunctionTypeSyntax): nat
    decreases ft, 0
  {
    TypeEntriesEdgeCount(ft.input, |ft.input.entries|) + TypeEntriesEdgeCount(ft.output, |ft.output.entries|) + 2
  }

  function TypeEntriesEdgeCount(tt: TupleTypeSyntax, n: nat): nat
    requires n <= |tt.entries|
    decreases tt, n
  {
    if n == 0 then 0
    else
      var entry := tt.entries[n - 1];
      TypeEntriesEdgeCount(tt, n - 1) + EdgeCount(entry.typeValue) + 1
      + (if entry.defaultValue.Some? then EdgeCount(entry.defaultValue.value) + 1 else 0)
  }

  function ValueEntriesEdgeCount(tv: TupleValueSyntax, n: nat): nat
    requires n <= |tv.entries|
    decreases tv, n
  {
    if n == 0 then 0
    else ValueEntriesEdgeCount(tv, n - 1) + EdgeCount(tv.entries[n - 1].value) + 1
  }

  /** A visit fails exactly when the expression holds an unknown terminal, with
      the first one's text; otherwise it adds exactly `count` edges. */
  predicate Accounts<T>(s: GraphState, o: Outcome<T>, unknown: Option<string>, count: nat) {
    && (o.result.Err? <==> unknown.Some?)
    && (o.result.Err? ==> o.result.error == UnknownTerminal(unknown.value))
    && (o.result.Ok? ==> |o.graph.edges| == |s.edges| + count)
  }

  lemma {:induction false} ConstructAccounts(env: Environment, s: GraphState, e: Expr)
    ensures Accounts(s, Construct(env, s, e), FirstUnknownToken(e), EdgeCount(e))
    decreases e, 2
  {
    match e
    case AssignmentExpression(lvalue, rvalue) =>
      ConstructAccounts(env, s, lvalue);
      var left := Construct(env, s, lvalue);
      if left.result.Ok? {
        ConstructAccounts(env, left.graph, rvalue);
      }
    case FunctionInvocationExpression(callee, argument) =>
      ConstructAccounts(env, s, callee);
      var fn := Construct(env, s, callee);
      if fn.result.Ok? {
        ConstructAccounts(env, fn.graph, argument);
      }
    case PrimitiveNodeDefinitionExpression(signature) =>
      FunctionTypeAccounts(env, s, signature);
    case PrimitivePortDefinitionExpression(_, _) => PrimitivePortAccounts(env, s, e);
    case TupleTypeValue(tupleType) => TupleTypeAccounts(env, s, tupleType);
    case TupleValue(tuple) => TupleValueAccounts(env, s, tuple);
    case FunctionTypeValue(functionType) => FunctionTypeAccounts(env, s, functionType);
    case NamespacedIdentifier(_) =>
    case Terminal(_) =>
  }

  lemma {:induction false} PrimitivePortAccounts(env: Environment, s: GraphState, e: Expr)
    requires e.PrimitivePortDefinitionExpression?
    ensures Accounts(s, ConstructPrimitivePort(env, s, e), FirstUnknownToken(e), EdgeCount(e))
    decreases e, 1
  {
    ConstructAccounts(env, s, e.signalType);
    var signal := Construct(env, s, e.signalType);
    if signal.result.Ok? {
      var t := Attach(signal.graph, Edge(signal.result.value, None));
      var attrs := ConstructAttributes(env, t, e.attributes);
      if e.attributes.Some? {
        TupleTypeAccounts(env, t, e.attributes.value);
        assert Accounts(t, attrs, TypeEntriesUnknownToken(e.attributes.value, |e.attributes.value.entries|),
                        TypeEntriesEdgeCount(e.attributes.value, |e.attributes.value.entries|));
      }
    }
  }

  lemma {:induction false} FunctionTypeAccounts(env: Environment, s: GraphState, ft: FunctionTypeSyntax)
    ensures Accounts(s, ConstructFunctionType(env, s, ft), FunctionTypeUnknownToken(ft), FunctionTypeEdgeCount(ft))
    decreases ft, 1
  {
    TupleTypeAccounts(env, s, ft.input);
    var input := ConstructTupleType(env, s, ft.input);
    if input.result.Ok? {
      TupleTypeAccounts(env, input.graph, ft.output);
    }
  }

  lemma {:induction false} TupleTypeAccounts(env: Environment, s: GraphState, tt: TupleTypeSyntax)
    ensures Accounts(s, ConstructTupleType(env, s, tt),
                     TypeEntriesUnknownToken(tt, |tt.entries|), TypeEntriesEdgeCount(tt, |tt.entries|))
    decreases tt, |tt.entries| + 1
  {
    TypeEntriesAccounts(env, s, tt, |tt.entries|);
  }

  lemma {:induction false} TypeEntriesAccounts(env: Environment, s: GraphState, tt: TupleTypeSyntax, n: nat)
    requires n <= |tt.entries|
    ensures Accounts(s, ConstructTypeEntries(env, s, tt, n), TypeEntriesUnknownToken(tt, n), TypeEntriesEdgeCount(tt, n))
    decreases tt, n, 2
  {
    if n > 0 {
      TypeEntriesAccounts(env, s, tt, n - 1);
      var prev := ConstructTypeEntries(env, s, tt, n - 1);
      if prev.result.Ok? {
        var entry := tt.entries[n - 1];
        ConstructAccounts(env, prev.graph, entry.typeValue);
        var typeValue := Construct(env, prev.graph, entry.typeValue);
        if typeValue.result.Ok? {
          var t := Attach(typeValue.graph, Edge(typeValue.result.value, None));
          var fields := prev.result.value;
          var fields' := (fields.0[PositionalName(TypeLabels(tt.entries), n - 1) := |t.edges| - 1], fields.1);
          if entry.defaultValue.Some? {
            ConstructAccounts(env, t, entry.defaultValue.value);
          }
          assert ConstructTypeEntry(env, prev.graph, tt, n - 1, fields) == ConstructDefault(env, t, tt, n - 1, fields');
        }
      }
    }
  }

  lemma {:induction false} TupleValueAccounts(env: Environment, s: GraphState, tv: TupleValueSyntax)
    ensures Accounts(s, ConstructTupleValue(env, s, tv),
                     ValueEntriesUnknownToken(tv, |tv.entries|), ValueEntriesEdgeCount(tv, |tv.entries|))
    decreases tv, |tv.entries| + 1
  {
    ValueEntriesAccounts(env, s, tv, |tv.entries|);
  }

  lemma {:induction false} ValueEntriesAccounts(env: Environment, s: GraphState, tv: TupleValueSyntax, n: nat)
    requires n <= |tv.entries|
    ensures Accounts(s, ConstructValueEntries(env, s, tv, n), ValueEntriesUnknownToken(tv, n), ValueEntriesEdgeCount(tv, n))
    decreases tv, n, 1
  {
    if n > 0 {
      ValueEntriesAccounts(env, s, tv, n - 1);
      var prev := ConstructValueEntries(env, s, tv, n - 1);
      if prev.result.Ok? {
        ConstructAccounts(env, prev.graph, tv.entries[n - 1].value);
      }
    }
  }

  // ===== What the returned vertex stands for =====

  /** Edge `i` is an input slot: it exists and has no target. */
  predicate Owned(s: GraphState, i: EdgeId) {
    i < |s.edges| && s.edges[i].target.None?
  }

  /** Vertex `v` of `s` is what a visit of `e` yields: a vertex in the vertex
      set whose class is the construct's and whose input edges come from
      vertices that stand for the construct's parts. An assignment stands for
      its rvalue, bound by an edge to a vertex standing for its lvalue; a
      builtin stands for a constant holding its value, a variable for the
      vertex the variable table gives it. */
  ghost predicate Denotes(env: Environment, s: GraphState, e: Expr, v: VertexId)
    decreases e, 1
  {
    && v < |s.vertices| && s.vertices[v].inGraph
    && var k := s.vertices[v].kind;
       match e
       case AssignmentExpression(lvalue, rvalue) =>
         && Denotes(env, s, rvalue, v)
         && exists i :: 0 <= i < |s.edges| && s.edges[i].source == v && s.edges[i].target.Some?
                        && Denotes(env, s, lvalue, s.edges[i].target.value)
       case FunctionInvocationExpression(callee, argument) =>
         && k.FunctionInvocationVertex?
         && Feeds(env, s, k.functionEdge, callee) && Feeds(env, s, k.inputEdge, argument)
       case PrimitiveNodeDefinitionExpression(signature) =>
         && k.PrimitiveNodeVertex?
         && Owned(s, k.signature) && DenotesFunctionType(env, s, signature, s.edges[k.signature].source)
       case PrimitivePortDefinitionExpression(signalType, attributes) =>
         && k.PrimitivePortVertex?
         && Feeds(env, s, k.signalType, signalType)
         && Owned(s, k.attributes) && DenotesAttributes(env, s, attributes, s.edges[k.attributes].source)
       case TupleTypeValue(tupleType) => DenotesTupleType(env, s, tupleType, v)
       case TupleValue(tuple) => DenotesTupleValue(env, s, tuple, v)
       case FunctionTypeValue(functionType) => DenotesFunctionType(env, s, functionType, v)
       case NamespacedIdentifier(id) =>
         if id in env.reserved then k == ConstantValueVertex(env.reserved[id])
         else id in s.variables && s.variables[id] == v
       case Terminal(token) =>
         match token
         case IntegerValueToken(text) => k == ConstantValueVertex(IntegerValue(env.parseInteger(text)))
         case BooleanValueToken(text) => k == ConstantValueVertex(BooleanValue(env.parseBoolean(text)))
         case OtherToken(_) => false
  }

  /** The attributes vertex of a port stands for its attribute tuple type or,
      when it has none, is a Nil constant in the vertex set. */
  ghost predicate DenotesAttributes(env: Environment, s: GraphState, attributes: Option<TupleTypeSyntax>, a: VertexId)
    decreases attributes, 2
  {
    if attributes.Some? then DenotesTupleType(env, s, attributes.value, a)
    else a < |s.vertices| && s.vertices[a].inGraph && s.vertices[a].kind == ConstantValueVertex(NilTypeValue)
  }

  /** Edge `i` is an input slot fed by a vertex standing for `e`. */
  ghost predicate Feeds(env: Environment, s: GraphState, i: EdgeId, e: Expr)
    decreases e, 2
  {
    Owned(s, i) && Denotes(env, s, e, s.edges[i].source)
  }

  ghost predicate DenotesFunctionType(env: Environment, s: GraphState, ft: FunctionTypeSyntax, v: VertexId)
    decreases ft, 2
  {
    && v < |s.vertices| && s.vertices[v].inGraph
    && var k := s.vertices[v].kind;
       && k.FunctionTypeValueVertex?
       && Owned(s, k.inputType) && DenotesTupleType(env, s, ft.input, s.edges[k.inputType].source)
       && Owned(s, k.outputType) && DenotesTupleType(env, s, ft.output, s.edges[k.outputType].source)
  }

  ghost predicate DenotesTupleType(env: Environment, s: GraphState, tt: TupleTypeSyntax, v: VertexId)
    decreases tt, 2
  {
    && v < |s.vertices| && s.vertices[v].inGraph
    && var k := s.vertices[v].kind;
       && k.TupleTypeValueVertex?
       && TypeFields(env, s, tt, |tt.entries|, k.typeValueEdges, k.defaultValueEdges)
  }

  ghost predicate DenotesTupleValue(env: Environment, s: GraphState, tv: TupleValueSyntax, v: VertexId)
    decreases tv, 2
  {
    && v < |s.vertices| && s.vertices[v].inGraph
    && var k := s.vertices[v].kind;
       && k.TupleValueVertex?
       && ValueFields(env, s, tv, |tv.entries|, k.valueEdges)
  }

  /** The names of the first `n` entries. */
  function NameSet(names: seq<string>, n: nat): set<string>
    requires n <= |names|
  {
    if n == 0 then {} else NameSet(names, n - 1) + {names[n - 1]}
  }

  /** The names of those of the first `n` entries that have a default value. */
  function DefaultNameSet(names: seq<string>, entries: seq<TupleTypeEntry>, n: nat): set<string>
    requires n <= |names| == |entries|
  {
    if n == 0 then {}
    else if entries[n - 1].defaultValue.Some? then DefaultNameSet(names, entries, n - 1) + {names[n - 1]}
    else DefaultNameSet(names, entries, n - 1)
  }

  lemma {:induction false} NameSetMembers(names: seq<string>, n: nat, name: string)
    requires n <= |names|
    ensures name in NameSet(names, n) <==> exists i :: 0 <= i < n && names[i] == name
  {
    if n > 0 {
      NameSetMembers(names, n - 1, name);
      if names[n - 1] == name {
        assert names[n - 1] == name;
      }
    }
  }

  lemma {:induction false} DefaultNameSetMembers(names: seq<string>, entries: seq<TupleTypeEntry>, n: nat, name: string)
    requires n <= |names| == |entries|
    ensures name in DefaultNameSet(names, entries, n) <==>
            exists i :: 0 <= i < n && names[i] == name && entries[i].defaultValue.Some?
  {
    if n > 0 {
      DefaultNameSetMembers(names, entries, n - 1, name);
      if names[n - 1] == name && entries[n - 1].defaultValue.Some? {
        assert names[n - 1] == name && entries[n - 1].defaultValue.Some?;
      }
    }
  }

  /** No entry in `(i, n)` has the same name as entry `i`. */
  predicate LastNamed(names: seq<string>, i: nat, n: nat)
    requires n <= |names|
  {
    forall j :: i < j < n ==> names[j] != names[i]
  }

  /** No entry in `(i, n)` with a default value has the same name as entry `i`. */
  predicate LastDefaulted(names: seq<string>, entries: seq<TupleTypeEntry>, i: nat, n: nat)
    requires n <= |names| == |entries|
  {
    forall j :: i < j < n && entries[j].defaultValue.Some? ==> names[j] != names[i]
  }

  /** The field maps after the first `n` entries of a tuple type: the type map
      has a key for each of their positional names, held by the last entry
      with that name; the default map has a key for each name that an entry
      with a default value has, held by the last such entry. */
  ghost predicate TypeFields(env: Environment, s: GraphState, tt: TupleTypeSyntax, n: nat,
                             typeValueEdges: map<string, EdgeId>, defaultValueEdges: map<string, EdgeId>)
    decreases tt, 1
  {
    var names := PositionalNames(TypeLabels(tt.entries));
    && n <= |tt.entries|
    && typeValueEdges.Keys == NameSet(names, n)
    && defaultValueEdges.Keys == DefaultNameSet(names, tt.entries, n)
    && (forall i :: 0 <= i < n && LastNamed(names, i, n) ==>
          names[i] in typeValueEdges && Feeds(env, s, typeValueEdges[names[i]], tt.entries[i].typeValue))
    && (forall i :: 0 <= i < n && tt.entries[i].defaultValue.Some? && LastDefaulted(names, tt.entries, i, n) ==>
          names[i] in defaultValueEdges
          && Feeds(env, s, defaultValueEdges[names[i]], tt.entries[i].defaultValue.value))
  }

  /** The value map after the first `n` entries of a tuple value, likewise. */
  ghost predicate ValueFields(env: Environment, s: GraphState, tv: TupleValueSyntax, n: nat,
                              valueEdges: map<string, EdgeId>)
    decreases tv, 1
  {
    var names := PositionalNames(ValueLabels(tv.entries));
    && n <= |tv.entries|
    && valueEdges.Keys == NameSet(names, n)
    && (forall i :: 0 <= i < n && LastNamed(names, i, n) ==>
          names[i] in valueEdges && Feeds(env, s, valueEdges[names[i]], tv.entries[i].value))
  }

  /** What a vertex stands for is not disturbed by later growth of the graph. */
  lemma {:induction false} DenotesGrows(env: Environment, s: GraphState, t: GraphState, e: Expr, v: VertexId)
    requires Grows(s, t) && Denotes(env, s, e, v)
    ensures Denotes(env, t, e, v)
    decreases e, 1
  {
    var k := s.vertices[v].kind;
    match e
    case AssignmentExpression(lvalue, rvalue) =>
      DenotesGrows(env, s, t, rvalue, v);
      var i :| 0 <= i < |s.edges| && s.edges[i].source == v && s.edges[i].target.Some?
               && Denotes(env, s, lvalue, s.edges[i].target.value);
      DenotesGrows(env, s, t, lvalue, s.edges[i].target.value);
      assert t.edges[i] == s.edges[i];
    case FunctionInvocationExpression(callee, argument) =>
      FeedsGrows(env, s, t, k.functionEdge, callee);
      FeedsGrows(env, s, t, k.inputEdge, argument);
    case PrimitiveNodeDefinitionExpression(signature) =>
      FunctionTypeGrows(env, s, t, signature, s.edges[k.signature].source);
    case PrimitivePortDefinitionExpression(signalType, attributes) =>
      FeedsGrows(env, s, t, k.signalType, signalType);
      AttributesGrows(env, s, t, attributes, s.edges[k.attributes].source);
    case TupleTypeValue(tupleType) => TupleTypeGrows(env, s, t, tupleType, v);
    case TupleValue(tuple) => TupleValueGrows(env, s, t, tuple, v);
    case FunctionTypeValue(functionType) => FunctionTypeGrows(env, s, t, functionType, v);
    case NamespacedIdentifier(_) =>
    case Terminal(_) =>
  }

  lemma {:induction false} FeedsGrows(env: Environment, s: GraphState, t: GraphState, i: EdgeId, e: Expr)
    requires Grows(s, t) && Feeds(env, s, i, e)
    ensures Feeds(env, t, i, e)
    decreases e, 2
  {
    DenotesGrows(env, s, t, e, s.edges[i].source);
  }

  lemma {:induction false} AttributesGrows(env: Environment, s: GraphState, t: GraphState,
                                           attributes: Option<TupleTypeSyntax>, a: VertexId)
    requires Grows(s, t) && DenotesAttributes(env, s, attributes, a)
    ensures DenotesAttributes(env, t, attributes, a)
    decreases attributes, 2
  {
    if attributes.Some? {
      TupleTypeGrows(env, s, t, attributes.value, a);
    }
  }

  lemma {:induction false} FunctionTypeGrows(env: Environment, s: GraphState, t: GraphState,
                                             ft: FunctionTypeSyntax, v: VertexId)
    requires Grows(s, t) && DenotesFunctionType(env, s, ft, v)
    ensures DenotesFunctionType(env, t, ft, v)
    decreases ft, 2
  {
    var k := s.vertices[v].kind;
    TupleTypeGrows(env, s, t, ft.input, s.edges[k.inputType].source);
    TupleTypeGrows(env, s, t, ft.output, s.edges[k.outputType].source);
  }

  lemma {:induction false} TupleTypeGrows(env: Environment, s: GraphState, t: GraphState,
                                          tt: TupleTypeSyntax, v: VertexId)
    requires Grows(s, t) && DenotesTupleType(env, s, tt, v)
    ensures DenotesTupleType(env, t, tt, v)
    decreases tt, 2
  {
    var k := s.vertices[v].kind;
    TypeFieldsGrows(env, s, t, tt, |tt.entries|, k.typeValueEdges, k.defaultValueEdges);
  }

  lemma {:induction false} TupleValueGrows(env: Environment, s: GraphState, t: GraphState,
                                           tv: TupleValueSyntax, v: VertexId)
    requires Grows(s, t) && DenotesTupleValue(env, s, tv, v)
    ensures DenotesTupleValue(env, t, tv, v)
    decreases tv, 2
  {
    ValueFieldsGrows(env, s, t, tv, |tv.entries|, s.vertices[v].kind.valueEdges);
  }

  lemma {:induction false} TypeFieldsGrows(env: Environment, s: GraphState, t: GraphState, tt: TupleTypeSyntax,
                                           n: nat, tm: map<string, EdgeId>, dm: map<string, EdgeId>)
    requires Grows(s, t) && TypeFields(env, s, tt, n, tm, dm)
    ensures TypeFields(env, t, tt, n, tm, dm)
    decreases tt, 1
  {
    var names := PositionalNames(TypeLabels(tt.entries));
    forall i | 0 <= i < n && LastNamed(names, i, n)
      ensures Feeds(env, t, tm[names[i]], tt.entries[i].typeValue)
    {
      FeedsGrows(env, s, t, tm[names[i]], tt.entries[i].typeValue);
    }
    forall i | 0 <= i < n && tt.entries[i].defaultValue.Some? && LastDefaulted(names, tt.entries, i, n)
      ensures Feeds(env, t, dm[names[i]], tt.entries[i].defaultValue.value)
    {
      FeedsGrows(env, s, t, dm[names[i]], tt.entries[i].defaultValue.value);
    }
  }

  lemma {:induction false} ValueFieldsGrows(env: Environment, s: GraphState, t: GraphState, tv: TupleValueSyntax,
                                            n: nat, vm: map<string, EdgeId>)
    requires Grows(s, t) && ValueFields(env, s, tv, n, vm)
    ensures ValueFields(env, t, tv, n, vm)
    decreases tv, 1
  {
    var names := PositionalNames(ValueLabels(tv.entries));
    forall i | 0 <= i < n && LastNamed(names, i, n)
      ensures Feeds(env, t, vm[names[i]], tv.entries[i].value)
    {
      FeedsGrows(env, s, t, vm[names[i]], tv.entries[i].value);
    }
  }

  /** Recording entry `i` of a tuple type, once its edges exist, extends the
      field maps of the first `i` entries to those of the first `i + 1`: the
      entry's name now maps to its own edges, overriding an earlier entry of
      the same name. */
  lemma TypeFieldsExtend(env: Environment, g: GraphState, tt: TupleTypeSyntax, i: nat,
                         tm: map<string, EdgeId>, dm: map<string, EdgeId>, te: EdgeId, de: Option<EdgeId>)
    requires i < |tt.entries| && TypeFields(env, g, tt, i, tm, dm)
    requires Feeds(env, g, te, tt.entries[i].typeValue)
    requires de.Some? <==> tt.entries[i].defaultValue.Some?
    requires de.Some? ==> Feeds(env, g, de.value, tt.entries[i].defaultValue.value)
    ensures var name := PositionalName(TypeLabels(tt.entries), i);
            TypeFields(env, g, tt, i + 1, tm[name := te], if de.Some? then dm[name := de.value] else dm)
  {
    var names := PositionalNames(TypeLabels(tt.entries));
    assert names[i] == PositionalName(TypeLabels(tt.entries), i);
    var tm' := tm[names[i] := te];
    var dm' := if de.Some? then dm[names[i] := de.value] else dm;
    assert tm'.Keys == NameSet(names, i + 1);
    assert dm'.Keys == DefaultNameSet(names, tt.entries, i + 1);
    TypeValuesExtend(env, g, tt, i, tm, dm, te);
    DefaultValuesExtend(env, g, tt, i, tm, dm, de);
  }

  lemma TypeValuesExtend(env: Environment, g: GraphState, tt: TupleTypeSyntax, i: nat,
                         tm: map<string, EdgeId>, dm: map<string, EdgeId>, te: EdgeId)
    requires i < |tt.entries| && TypeFields(env, g, tt, i, tm, dm)
    requires Feeds(env, g, te, tt.entries[i].typeValue)
    ensures var names := PositionalNames(TypeLabels(tt.entries));
            var tm' := tm[names[i] := te];
            forall j :: 0 <= j < i + 1 && LastNamed(names, j, i + 1) ==>
              names[j] in tm' && Feeds(env, g, tm'[names[j]], tt.entries[j].typeValue)
  {
    var names := PositionalNames(TypeLabels(tt.entries));
    assert names[i] == PositionalName(TypeLabels(tt.entries), i);
    var tm' := tm[names[i] := te];
    forall j | 0 <= j < i + 1 && LastNamed(names, j, i + 1)
      ensures names[j] in tm' && Feeds(env, g, tm'[names[j]], tt.entries[j].typeValue)
    {
      if j < i {
        assert names[i] != names[j] && LastNamed(names, j, i);
        assert tm'[names[j]] == tm[names[j]];
      } else {
        assert tm'[names[j]] == te;
      }
    }
  }

  lemma DefaultValuesExtend(env: Environment, g: GraphState, tt: TupleTypeSyntax, i: nat,
                            tm: map<string, EdgeId>, dm: map<string, EdgeId>, de: Option<EdgeId>)
    requires i < |tt.entries| && TypeFields(env, g, tt, i, tm, dm)
    requires de.Some? <==> tt.entries[i].defaultValue.Some?
    requires de.Some? ==> Feeds(env, g, de.value, tt.entries[i].defaultValue.value)
    ensures var names := PositionalNames(TypeLabels(tt.entries));
            var dm' := if de.Some? then dm[names[i] := de.value] else dm;
            forall j :: 0 <= j < i + 1 && tt.entries[j].defaultValue.Some? && LastDefaulted(names, tt.entries, j, i + 1) ==>
              names[j] in dm' && Feeds(env, g, dm'[names[j]], tt.entries[j].defaultValue.value)
  {
    var entries := tt.entries;
    var names := PositionalNames(TypeLabels(entries));
    var dm' := if de.Some? then dm[names[i] := de.value] else dm;
    forall j | 0 <= j < i + 1 && entries[j].defaultValue.Some? && LastDefaulted(names, entries, j, i + 1)
      ensures names[j] in dm' && Feeds(env, g, dm'[names[j]], entries[j].defaultValue.value)
    {
      if j < i {
        assert de.Some? ==> names[i] != names[j];
        assert LastDefaulted(names, entries, j, i);
        assert dm'[names[j]] == dm[names[j]];
      } else {
        assert dm' == dm[names[i] := de.value];
        assert dm'[names[j]] == de.value;
      }
    }
  }

  /** The same for entry `i` of a tuple value. */
  lemma ValueFieldsExtend(env: Environment, g: GraphState, tv: TupleValueSyntax, i: nat,
                          vm: map<string, EdgeId>, ve: EdgeId)
    requires i < |tv.entries| && ValueFields(env, g, tv, i, vm)
    requires Feeds(env, g, ve, tv.entries[i].value)
    ensures ValueFields(env, g, tv, i + 1, vm[PositionalName(ValueLabels(tv.entries), i) := ve])
  {
    var names := PositionalNames(ValueLabels(tv.entries));
    assert names[i] == PositionalName(ValueLabels(tv.entries), i);
    var vm' := vm[names[i] := ve];
    assert vm'.Keys == NameSet(names, i + 1);
    ValuesExtend(env, g, tv, i, vm, ve);
  }

  lemma ValuesExtend(env: Environment, g: GraphState, tv: TupleValueSyntax, i: nat,
                     vm: map<string, EdgeId>, ve: EdgeId)
    requires i < |tv.entries| && ValueFields(env, g, tv, i, vm)
    requires Feeds(env, g, ve, tv.entries[i].value)
    ensures var names := PositionalNames(ValueLabels(tv.entries));
            var vm' := vm[names[i] := ve];
            forall j :: 0 <= j < i + 1 && LastNamed(names, j, i + 1) ==>
              names[j] in vm' && Feeds(env, g, vm'[names[j]], tv.entries[j].value)
  {
    var names := PositionalNames(ValueLabels(tv.entries));
    var vm' := vm[names[i] := ve];
    forall j | 0 <= j < i + 1 && LastNamed(names, j, i + 1)
      ensures names[j] in vm' && Feeds(env, g, vm'[names[j]], tv.entries[j].value)
    {
      if j < i {
        assert names[i] != names[j] && LastNamed(names, j, i);
        assert vm'[names[j]] == vm[names[j]];
      } else {
        assert vm'[names[j]] == ve;
      }
    }
  }

  /** A successful visit returns a vertex that stands for the visited
      expression, in the graph the visit leaves. */
  lemma {:induction false} ConstructDenotes(env: Environment, s: GraphState, e: Expr)
    requires WellFormed(s)
    ensures var o := Construct(env, s, e);
            o.result.Ok? ==> Denotes(env, o.graph, e, o.result.value)
    decreases e, 2
  {
    match e
    case AssignmentExpression(_, _) => AssignmentDenotes(env, s, e);
    case FunctionInvocationExpression(_, _) => InvocationDenotes(env, s, e);
    case PrimitiveNodeDefinitionExpression(_) => PrimitiveNodeDenotes(env, s, e);
    case PrimitivePortDefinitionExpression(_, _) => PrimitivePortDenotes(env, s, e);
    case TupleTypeValue(tupleType) => TupleTypeDenotes(env, s, tupleType);
    case TupleValue(tuple) => TupleValueDenotes(env, s, tuple);
    case FunctionTypeValue(functionType) => FunctionTypeDenotes(env, s, functionType);
    case NamespacedIdentifier(id) => IdentifierDenotes(env, s, id);
    case Terminal(token) =>
  }

  lemma {:induction false} AssignmentDenotes(env: Environment, s: GraphState, e: Expr)
    requires WellFormed(s) && e.AssignmentExpression?
    ensures var o := ConstructAssignment(env, s, e);
            o.result.Ok? ==> Denotes(env, o.graph, e, o.result.value)
    decreases e, 1
  {
    var left := Construct(env, s, e.lvalue);
    ConstructSound(env, s, e.lvalue);
    ConstructDenotes(env, s, e.lvalue);
    if left.result.Ok? {
      var right := Construct(env, left.graph, e.rvalue);
      ConstructSound(env, left.graph, e.rvalue);
      ConstructDenotes(env, left.graph, e.rvalue);
      if right.result.Ok? {
        var edge := Edge(right.result.value, Some(left.result.value));
        var t := Attach(right.graph, edge);
        AttachGrows(right.graph, edge);
        GrowsTransitive(left.graph, right.graph, t);
        DenotesGrows(env, left.graph, t, e.lvalue, left.result.value);
        DenotesGrows(env, right.graph, t, e.rvalue, right.result.value);
        assert t.edges[|right.graph.edges|] == edge;
      }
    }
  }

  lemma {:induction false} InvocationDenotes(env: Environment, s: GraphState, e: Expr)
    requires WellFormed(s) && e.FunctionInvocationExpression?
    ensures var o := ConstructInvocation(env, s, e);
            o.result.Ok? ==> Denotes(env, o.graph, e, o.result.value)
    decreases e, 1
  {
    var fn := Construct(env, s, e.callee);
    ConstructSound(env, s, e.callee);
    ConstructDenotes(env, s, e.callee);
    if fn.result.Ok? {
      ArgumentDenotes(env, fn.graph, e, fn.result.value);
    }
  }

  /** The part of an invocation visit after its callee. */
  lemma {:induction false} ArgumentDenotes(env: Environment, m: GraphState, e: Expr, callee: VertexId)
    requires WellFormed(m) && e.FunctionInvocationExpression? && Denotes(env, m, e.callee, callee)
    ensures var input := Construct(env, m, e.argument);
            var t := input.graph;
            input.result.Ok? ==>
              Denotes(env, Attach(Attach(NewVertex(t, FunctionInvocationVertex(|t.edges|, |t.edges| + 1)),
                                         Edge(callee, None)), Edge(input.result.value, None)),
                      e, |t.vertices|)
    decreases e, 0
  {
    var input := Construct(env, m, e.argument);
    ConstructSound(env, m, e.argument);
    ConstructDenotes(env, m, e.argument);
    if input.result.Ok? {
      DenotesGrows(env, m, input.graph, e.callee, callee);
      InvocationTailDenotes(env, input.graph, e, callee, input.result.value);
    }
  }

  /** The invocation vertex and its two input edges, added after the callee
      and the argument have been visited. */
  lemma InvocationTailDenotes(env: Environment, t: GraphState, e: Expr, callee: VertexId, argument: VertexId)
    requires e.FunctionInvocationExpression?
    requires Denotes(env, t, e.callee, callee) && Denotes(env, t, e.argument, argument)
    ensures var kind := FunctionInvocationVertex(|t.edges|, |t.edges| + 1);
            var u := Attach(Attach(NewVertex(t, kind), Edge(callee, None)), Edge(argument, None));
            Denotes(env, u, e, |t.vertices|)
  {
    var kind := FunctionInvocationVertex(|t.edges|, |t.edges| + 1);
    var u := Attach(Attach(NewVertex(t, kind), Edge(callee, None)), Edge(argument, None));
    NewVertexInputsGrows(t, kind, callee, argument);
    DenotesGrows(env, t, u, e.callee, callee);
    DenotesGrows(env, t, u, e.argument, argument);
    assert u.edges[|t.edges|] == Edge(callee, None);
    assert u.edges[|t.edges| + 1] == Edge(argument, None);
    assert u.vertices[|t.vertices|].kind == kind && u.vertices[|t.vertices|].inGraph;
  }

  lemma {:induction false} PrimitiveNodeDenotes(env: Environment, s: GraphState, e: Expr)
    requires WellFormed(s) && e.PrimitiveNodeDefinitionExpression?
    ensures var o := ConstructPrimitiveNode(env, s, e);
            o.result.Ok? ==> Denotes(env, o.graph, e, o.result.value)
    decreases e, 1
  {
    var sig := ConstructFunctionType(env, s, e.signature);
    FunctionTypeDenotes(env, s, e.signature);
    if sig.result.Ok? {
      var t := Attach(sig.graph, Edge(sig.result.value, None));
      var kind := PrimitiveNodeVertex(|t.edges| - 1);
      var t1 := NewVertex(t, kind);
      AttachGrows(sig.graph, Edge(sig.result.value, None));
      NewVertexGrows(t, kind);
      GrowsTransitive(sig.graph, t, t1);
      FunctionTypeGrows(env, sig.graph, t1, e.signature, sig.result.value);
      assert t1.edges[|t.edges| - 1] == Edge(sig.result.value, None);
      assert t1.vertices[|t.vertices|].kind == kind && t1.vertices[|t.vertices|].inGraph;
    }
  }

  lemma {:induction false} PrimitivePortDenotes(env: Environment, s: GraphState, e: Expr)
    requires WellFormed(s) && e.PrimitivePortDefinitionExpression?
    ensures var o := ConstructPrimitivePort(env, s, e);
            o.result.Ok? ==> Denotes(env, o.graph, e, o.result.value)
    decreases e, 1
  {
    var signal := Construct(env, s, e.signalType);
    VisitFeeds(env, s, e.signalType);
    if signal.result.Ok? {
      var t := Attach(signal.graph, Edge(signal.result.value, None));
      PortTailDenotes(env, t, e);
    }
  }

  /** The part of a port visit after its signal type edge. */
  lemma {:induction false} PortTailDenotes(env: Environment, t: GraphState, e: Expr)
    requires e.PrimitivePortDefinitionExpression? && WellFormed(t) && |t.edges| > 0
    requires Feeds(env, t, |t.edges| - 1, e.signalType)
    ensures var attrs := ConstructAttributes(env, t, e.attributes);
            attrs.result.Ok? ==>
              var t1 := Attach(attrs.graph, Edge(attrs.result.value, None));
              Denotes(env, NewVertex(t1, PrimitivePortVertex(|t.edges| - 1, |t1.edges| - 1)), e, |t1.vertices|)
    decreases e, 0
  {
    var attrs := ConstructAttributes(env, t, e.attributes);
    AttributesFeeds(env, t, e.attributes);
    if attrs.result.Ok? {
      var a := attrs.result.value;
      var t1 := Attach(attrs.graph, Edge(a, None));
      FeedsGrows(env, t, t1, |t.edges| - 1, e.signalType);
      PortVertexDenotes(env, t1, e, |t.edges| - 1, |t1.edges| - 1);
    }
  }

  /** The port vertex itself, added once its signal type and attributes edges
      exist. */
  lemma PortVertexDenotes(env: Environment, s: GraphState, e: Expr, signal: EdgeId, attributes: EdgeId)
    requires e.PrimitivePortDefinitionExpression? && Feeds(env, s, signal, e.signalType)
    requires Owned(s, attributes) && DenotesAttributes(env, s, e.attributes, s.edges[attributes].source)
    ensures Denotes(env, NewVertex(s, PrimitivePortVertex(signal, attributes)), e, |s.vertices|)
  {
    var kind := PrimitivePortVertex(signal, attributes);
    var t := NewVertex(s, kind);
    NewVertexGrows(s, kind);
    FeedsGrows(env, s, t, signal, e.signalType);
    AttributesGrows(env, s, t, e.attributes, s.edges[attributes].source);
    assert t.edges[attributes] == s.edges[attributes];
    assert t.vertices[|s.vertices|].kind == kind && t.vertices[|s.vertices|].inGraph;
  }

  /** The attributes of a port, visited and given their edge. */
  lemma {:induction false} AttributesFeeds(env: Environment, s: GraphState, attributes: Option<TupleTypeSyntax>)
    requires WellFormed(s)
    ensures var o := ConstructAttributes(env, s, attributes);
            o.result.Ok? ==>
              var t := Attach(o.graph, Edge(o.result.value, None));
              Grows(s, t) && Owned(t, |t.edges| - 1) && DenotesAttributes(env, t, attributes, o.result.value)
    decreases attributes, 1
  {
    var o := ConstructAttributes(env, s, attributes);
    AttributesSound(env, s, attributes);
    AttributesDenotes(env, s, attributes);
    if o.result.Ok? {
      var t := Attach(o.graph, Edge(o.result.value, None));
      AttachGrows(o.graph, Edge(o.result.value, None));
      GrowsTransitive(s, o.graph, t);
      AttributesGrows(env, o.graph, t, attributes, o.result.value);
    }
  }

  /** The attributes vertex of a port stands for the attribute tuple type, or
      is a Nil constant in the vertex set. */
  lemma {:induction false} AttributesDenotes(env: Environment, s: GraphState, attributes: Option<TupleTypeSyntax>)
    requires WellFormed(s)
    ensures var o := ConstructAttributes(env, s, attributes);
            o.result.Ok? ==> DenotesAttributes(env, o.graph, attributes, o.result.value)
    decreases attributes, 0
  {
    if attributes.Some? {
      var tuple := ConstructTupleType(env, s, attributes.value);
      TupleTypeDenotes(env, s, attributes.value);
      if tuple.result.Ok? {
        var v := tuple.result.value;
        assert tuple.graph.vertices[v].(inGraph := true) == tuple.graph.vertices[v];
        assert Insert(tuple.graph, v) == tuple.graph;
      }
    }
  }

  lemma {:induction false} FunctionTypeDenotes(env: Environment, s: GraphState, ft: FunctionTypeSyntax)
    requires WellFormed(s)
    ensures var o := ConstructFunctionType(env, s, ft);
            o.result.Ok? ==> DenotesFunctionType(env, o.graph, ft, o.result.value)
    decreases ft, 1
  {
    var input := ConstructTupleType(env, s, ft.input);
    TupleTypeSound(env, s, ft.input);
    TupleTypeDenotes(env, s, ft.input);
    if input.result.Ok? {
      OutputTypeDenotes(env, input.graph, ft, input.result.value);
    }
  }

  /** The part of a function type visit after its input type. */
  lemma {:induction false} OutputTypeDenotes(env: Environment, m: GraphState, ft: FunctionTypeSyntax, input: VertexId)
    requires WellFormed(m) && DenotesTupleType(env, m, ft.input, input)
    ensures var output := ConstructTupleType(env, m, ft.output);
            var t := output.graph;
            output.result.Ok? ==>
              DenotesFunctionType(env, Attach(Attach(NewVertex(t, FunctionTypeValueVertex(|t.edges|, |t.edges| + 1)),
                                                     Edge(input, None)), Edge(output.result.value, None)),
                                  ft, |t.vertices|)
    decreases ft, 0
  {
    var output := ConstructTupleType(env, m, ft.output);
    TupleTypeSound(env, m, ft.output);
    TupleTypeDenotes(env, m, ft.output);
    if output.result.Ok? {
      TupleTypeGrows(env, m, output.graph, ft.input, input);
      FunctionTypeTailDenotes(env, output.graph, ft, input, output.result.value);
    }
  }

  /** The function type vertex and its two input edges, added after the input
      and output tuple types have been visited. */
  lemma FunctionTypeTailDenotes(env: Environment, t: GraphState, ft: FunctionTypeSyntax, input: VertexId, output: VertexId)
    requires DenotesTupleType(env, t, ft.input, input) && DenotesTupleType(env, t, ft.output, output)
    ensures var kind := FunctionTypeValueVertex(|t.edges|, |t.edges| + 1);
            var u := Attach(Attach(NewVertex(t, kind), Edge(input, None)), Edge(output, None));
            DenotesFunctionType(env, u, ft, |t.vertices|)
  {
    var kind := FunctionTypeValueVertex(|t.edges|, |t.edges| + 1);
    var u := Attach(Attach(NewVertex(t, kind), Edge(input, None)), Edge(output, None));
    NewVertexInputsGrows(t, kind, input, output);
    TupleTypeGrows(env, t, u, ft.input, input);
    TupleTypeGrows(env, t, u, ft.output, output);
    assert u.edges[|t.edges|] == Edge(input, None);
    assert u.edges[|t.edges| + 1] == Edge(output, None);
    assert u.vertices[|t.vertices|].kind == kind && u.vertices[|t.vertices|].inGraph;
  }

  lemma {:induction false} TupleTypeDenotes(env: Environment, s: GraphState, tt: TupleTypeSyntax)
    requires WellFormed(s)
    ensures var o := ConstructTupleType(env, s, tt);
            o.result.Ok? ==> DenotesTupleType(env, o.graph, tt, o.result.value)
    decreases tt, |tt.entries| + 1
  {
    var fields := ConstructTypeEntries(env, s, tt, |tt.entries|);
    TypeEntriesDenotes(env, s, tt, |tt.entries|);
    if fields.result.Ok? {
      var (tm, dm) := fields.result.value;
      var kind := TupleTypeValueVertex(tm, dm);
      var t := NewVertex(fields.graph, kind);
      NewVertexGrows(fields.graph, kind);
      TypeFieldsGrows(env, fields.graph, t, tt, |tt.entries|, tm, dm);
      assert t.vertices[|fields.graph.vertices|].kind == kind;
    }
  }

  /** After `n` iterations of the entry loop, the field maps are those of the
      first `n` entries. */
  lemma {:induction false} TypeEntriesDenotes(env: Environment, s: GraphState, tt: TupleTypeSyntax, n: nat)
    requires WellFormed(s) && n <= |tt.entries|
    ensures var o := ConstructTypeEntries(env, s, tt, n);
            o.result.Ok? ==> TypeFields(env, o.graph, tt, n, o.result.value.0, o.result.value.1)
    decreases tt, n, 2
  {
    if n > 0 {
      var prev := ConstructTypeEntries(env, s, tt, n - 1);
      TypeEntriesSound(env, s, tt, n - 1);
      TypeEntriesDenotes(env, s, tt, n - 1);
      if prev.result.Ok? {
        TypeEntryDenotes(env, prev.graph, tt, n - 1, prev.result.value);
      }
    }
  }

  lemma {:induction false} TypeEntryDenotes(env: Environment, s: GraphState, tt: TupleTypeSyntax, i: nat,
                                            fields: (map<string, EdgeId>, map<string, EdgeId>))
    requires WellFormed(s) && i < |tt.entries| && TypeFields(env, s, tt, i, fields.0, fields.1)
    ensures var o := ConstructTypeEntry(env, s, tt, i, fields);
            o.result.Ok? ==> TypeFields(env, o.graph, tt, i + 1, o.result.value.0, o.result.value.1)
    decreases tt, i, 1
  {
    var typeValue := Construct(env, s, tt.entries[i].typeValue);
    VisitFeeds(env, s, tt.entries[i].typeValue);
    if typeValue.result.Ok? {
      var t := Attach(typeValue.graph, Edge(typeValue.result.value, None));
      TypeFieldsGrows(env, s, t, tt, i, fields.0, fields.1);
      DefaultDenotes(env, t, tt, i, fields.0, fields.1, |t.edges| - 1);
    }
  }

  /** The default value part of iteration `i`, once the type edge `te` of
      entry `i` exists. */
  lemma {:induction false} DefaultDenotes(env: Environment, s: GraphState, tt: TupleTypeSyntax, i: nat,
                                          tm: map<string, EdgeId>, dm: map<string, EdgeId>, te: EdgeId)
    requires WellFormed(s) && i < |tt.entries| && TypeFields(env, s, tt, i, tm, dm)
    requires Feeds(env, s, te, tt.entries[i].typeValue)
    ensures var o := ConstructDefault(env, s, tt, i, (tm[PositionalName(TypeLabels(tt.entries), i) := te], dm));
            o.result.Ok? ==> TypeFields(env, o.graph, tt, i + 1, o.result.value.0, o.result.value.1)
    decreases tt, i, 0
  {
    var entry := tt.entries[i];
    if entry.defaultValue.None? {
      TypeFieldsExtend(env, s, tt, i, tm, dm, te, None);
    } else {
      var defaultValue := Construct(env, s, entry.defaultValue.value);
      VisitFeeds(env, s, entry.defaultValue.value);
      if defaultValue.result.Ok? {
        var t := Attach(defaultValue.graph, Edge(defaultValue.result.value, None));
        FeedsGrows(env, s, t, te, entry.typeValue);
        TypeFieldsGrows(env, s, t, tt, i, tm, dm);
        TypeFieldsExtend(env, t, tt, i, tm, dm, te, Some(|t.edges| - 1));
      }
    }
  }

  /** Visiting `e` and adding the returned vertex's edge yields an input slot
      fed by a vertex standing for `e`, in a well-formed extension of the
      graph. */
  lemma {:induction false} VisitFeeds(env: Environment, s: GraphState, e: Expr)
    requires WellFormed(s)
    ensures var o := Construct(env, s, e);
            o.result.Ok? ==>
              var t := Attach(o.graph, Edge(o.result.value, None));
              Grows(s, t) && WellFormed(t) && Feeds(env, t, |t.edges| - 1, e)
    decreases e, 3
  {
    var o := Construct(env, s, e);
    ConstructSound(env, s, e);
    ConstructDenotes(env, s, e);
    if o.result.Ok? {
      var t := Attach(o.graph, Edge(o.result.value, None));
      AttachGrows(o.graph, Edge(o.result.value, None));
      GrowsTransitive(s, o.graph, t);
      DenotesGrows(env, o.graph, t, e, o.result.value);
      assert t.edges[|t.edges| - 1] == Edge(o.result.value, None);
    }
  }

  lemma {:induction false} TupleValueDenotes(env: Environment, s: GraphState, tv: TupleValueSyntax)
    requires WellFormed(s)
    ensures var o := ConstructTupleValue(env, s, tv);
            o.result.Ok? ==> DenotesTupleValue(env, o.graph, tv, o.result.value)
    decreases tv, |tv.entries| + 1
  {
    var fields := ConstructValueEntries(env, s, tv, |tv.entries|);
    ValueEntriesDenotes(env, s, tv, |tv.entries|);
    if fields.result.Ok? {
      var kind := TupleValueVertex(fields.result.value);
      var t := NewVertex(fields.graph, kind);
      NewVertexGrows(fields.graph, kind);
      ValueFieldsGrows(env, fields.graph, t, tv, |tv.entries|, fields.result.value);
      assert t.vertices[|fields.graph.vertices|].kind == kind;
    }
  }

  lemma {:induction false} ValueEntriesDenotes(env: Environment, s: GraphState, tv: TupleValueSyntax, n: nat)
    requires WellFormed(s) && n <= |tv.entries|
    ensures var o := ConstructValueEntries(env, s, tv, n);
            o.result.Ok? ==> ValueFields(env, o.graph, tv, n, o.result.value)
    decreases tv, n, 1
  {
    if n > 0 {
      var prev := ConstructValueEntries(env, s, tv, n - 1);
      ValueEntriesSound(env, s, tv, n - 1);
      ValueEntriesDenotes(env, s, tv, n - 1);
      if prev.result.Ok? {
        ValueEntryDenotes(env, prev.graph, tv, n - 1, prev.result.value);
      }
    }
  }

  /** Iteration `i` of the tuple value entry loop: the value map of the first
      `i` entries becomes that of the first `i + 1`. */
  lemma {:induction false} ValueEntryDenotes(env: Environment, s: GraphState, tv: TupleValueSyntax, i: nat,
                                             vm: map<string, EdgeId>)
    requires WellFormed(s) && i < |tv.entries| && ValueFields(env, s, tv, i, vm)
    ensures var o := ConstructValueEntry(env, s, tv, i, vm);
            o.result.Ok? ==> ValueFields(env, o.graph, tv, i + 1, o.result.value)
    decreases tv, i, 0
  {
    var value := Construct(env, s, tv.entries[i].value);
    VisitFeeds(env, s, tv.entries[i].value);
    if value.result.Ok? {
      var t := Attach(value.graph, Edge(value.result.value, None));
      ValueFieldsGrows(env, s, t, tv, i, vm);
      ValueFieldsExtend(env, t, tv, i, vm, |t.edges| - 1);
      assert ConstructValueEntry(env, s, tv, i, vm)
          == Outcome(t, Ok(vm[PositionalName(ValueLabels(tv.entries), i) := |t.edges| - 1]));
    }
  }

  /** An identifier stands for a fresh constant holding its builtin value, or
      for its variable's vertex. */
  lemma IdentifierDenotes(env: Environment, s: GraphState, id: Identifier)
    requires WellFormed(s)
    ensures var o := ConstructIdentifier(env, s, id);
            Denotes(env, o.graph, NamespacedIdentifier(id), o.result.value)
  {
  }

  /** How an identifier is resolved: a reserved one is a fresh constant and
      leaves the variable table alone; a known variable is looked up without
      changing the graph; an unknown one gets a new variable vertex, and the
      table grows by exactly that entry. */
  lemma IdentifierResolution(env: Environment, s: GraphState, id: Identifier)
    ensures var o := ConstructIdentifier(env, s, id);
            && (id in env.reserved ==>
                  && o.result == Ok(|s.vertices|) && |o.graph.vertices| == |s.vertices| + 1
                  && o.graph.vertices[|s.vertices|].kind == ConstantValueVertex(env.reserved[id])
                  && o.graph.variables == s.variables && o.graph.edges == s.edges)
            && (id !in env.reserved && id in s.variables ==> o == Outcome(s, Ok(s.variables[id])))
            && (id !in env.reserved && id !in s.variables ==>
                  && o.result == Ok(|s.vertices|) && |o.graph.vertices| == |s.vertices| + 1
                  && o.graph.vertices[|s.vertices|].kind == VariableReferenceVertex(id)
                  && o.graph.variables == s.variables[id := |s.vertices|]
                  && |o.graph.variables| == |s.variables| + 1 && o.graph.edges == s.edges)
  {
    var o := ConstructIdentifier(env, s, id);
    if id !in env.reserved && id !in s.variables {
      assert o.graph.variables.Keys == s.variables.Keys + {id};
    }
  }

  /** Whatever is visited between two references to the same non-reserved
      identifier, the second reference returns the vertex of the first and
      leaves the graph as it is. */
  lemma SameIdentifierSameVertex(env: Environment, s: GraphState, id: Identifier, e: Expr)
    requires id !in env.reserved
    ensures var first := ConstructIdentifier(env, s, id);
            var between := Construct(env, first.graph, e);
            ConstructIdentifier(env, between.graph, id) == Outcome(between.graph, first.result)
  {
    var first := ConstructIdentifier(env, s, id);
    ConstructSound(env, first.graph, e);
  }

  /** Once an iteration of the tuple type entry loop has failed, the loop's
      outcome is that failure. */
  lemma {:induction false} TypeEntriesStopAt(env: Environment, s: GraphState, tt: TupleTypeSyntax, i: nat, n: nat)
    requires i <= n <= |tt.entries|
    requires ConstructTypeEntries(env, s, tt, i).result.Err?
    ensures ConstructTypeEntries(env, s, tt, n) == ConstructTypeEntries(env, s, tt, i)
    decreases n
  {
    if i < n {
      TypeEntriesStopAt(env, s, tt, i, n - 1);
    }
  }

  /** The same for the tuple value entry loop. */
  lemma {:induction false} ValueEntriesStopAt(env: Environment, s: GraphState, tv: TupleValueSyntax, i: nat, n: nat)
    requires i <= n <= |tv.entries|
    requires ConstructValueEntries(env, s, tv, i).result.Err?
    ensures ConstructValueEntries(env, s, tv, n) == ConstructValueEntries(env, s, tv, i)
    decreases n
  {
    if i < n {
      ValueEntriesStopAt(env, s, tv, i, n - 1);
    }
  }

  // ===== The visitor =====

  /** `ExpressionContextVisitor`: visits expressions one by one, each visit
      adding to the one expression graph it owns. */
  class ExpressionContextVisitor {
    const env: Environment
    const exprGraph: ExpressionGraph

    constructor (env: Environment)
      ensures this.env == env && fresh(exprGraph)
      ensures exprGraph.State() == GraphState([], [], map[])
    {
      this.env := env;
      exprGraph := new ExpressionGraph();
    }

    /** `visit`: dispatch on the form of the expression. */
    method Visit(e: Expr) returns (r: Result<VertexId>)
      modifies exprGraph
      ensures Outcome(exprGraph.State(), r) == Construct(env, old(exprGraph.State()), e)
      decreases e, 2
    {
      match e
      case AssignmentExpression(_, _) => r := VisitAssignmentExpression(e);
      case FunctionInvocationExpression(_, _) => r := VisitFunctionInvocationExpression(e);
      case PrimitiveNodeDefinitionExpression(_) => r := VisitPrimitiveNodeDefinitionExpression(e);
      case PrimitivePortDefinitionExpression(_, _) => r := VisitPrimitivePortDefinitionExpression(e);
      case TupleTypeValue(tupleType) => r := VisitTupleTypeValue(tupleType);
      case TupleValue(tuple) => r := VisitTupleValue(tuple);
      case FunctionTypeValue(functionType) => r := VisitFunctionTypeValue(functionType);
      case NamespacedIdentifier(id) => r := VisitNamespacedIdentifier(id);
      case Terminal(token) => r := VisitTerminal(token);
    }

    method VisitAssignmentExpression(e: Expr) returns (r: Result<VertexId>)
      requires e.AssignmentExpression?
      modifies exprGraph
      ensures Outcome(exprGraph.State(), r) == ConstructAssignment(env, old(exprGraph.State()), e)
      decreases e, 1
    {
      var vLeft := Visit(e.lvalue);
      if vLeft.Err? {
        return vLeft;
      }
      var vRight := Visit(e.rvalue);
      if vRight.Err? {
        return vRight;
      }
      exprGraph.AddEdge(Edge(vRight.value, Some(vLeft.value)));
      r := vRight;
    }

    method VisitFunctionInvocationExpression(e: Expr) returns (r: Result<VertexId>)
      requires e.FunctionInvocationExpression?
      modifies exprGraph
      ensures Outcome(exprGraph.State(), r) == ConstructInvocation(env, old(exprGraph.State()), e)
      decreases e, 1
    {
      var vFunction := Visit(e.callee);
      if vFunction.Err? {
        return vFunction;
      }
      var eFunction := Edge(vFunction.value, None);
      var vInput := Visit(e.argument);
      if vInput.Err? {
        return vInput;
      }
      var eInput := Edge(vInput.value, None);
      // the two edges are added right after the vertex, so these are their indices
      var n := |exprGraph.edges|;
      var vInvocation := exprGraph.CreateVertex(FunctionInvocationVertex(n, n + 1));
      exprGraph.AddVertex(vInvocation);
      exprGraph.AddEdge(eFunction);
      exprGraph.AddEdge(eInput);
      r := Ok(vInvocation);
    }

    method VisitPrimitiveNodeDefinitionExpression(e: Expr) returns (r: Result<VertexId>)
      requires e.PrimitiveNodeDefinitionExpression?
      modifies exprGraph
      ensures Outcome(exprGraph.State(), r) == ConstructPrimitiveNode(env, old(exprGraph.State()), e)
      decreases e, 1
    {
      var vSignature := VisitFunctionTypeValue(e.signature);
      if vSignature.Err? {
        return vSignature;
      }
      exprGraph.AddEdge(Edge(vSignature.value, None));
      var eSignature := |exprGraph.edges| - 1;
      var vNode := exprGraph.CreateVertex(PrimitiveNodeVertex(eSignature));
      exprGraph.AddVertex(vNode);
      r := Ok(vNode);
    }

    method VisitPrimitivePortDefinitionExpression(e: Expr) returns (r: Result<VertexId>)
      requires e.PrimitivePortDefinitionExpression?
      modifies exprGraph
      ensures Outcome(exprGraph.State(), r) == ConstructPrimitivePort(env, old(exprGraph.State()), e)
      decreases e, 1
    {
      var vSignalType := Visit(e.signalType);
      if vSignalType.Err? {
        return vSignalType;
      }
      exprGraph.AddEdge(Edge(vSignalType.value, None));
      ghost var t := exprGraph.State();
      assert ConstructPrimitivePort(env, old(exprGraph.State()), e) == ConstructPortTail(env, t, e);
      var eSignalType := |exprGraph.edges| - 1;
      var vAttributes: VertexId;
      if e.attributes.Some? {
        var a := VisitTupleTypeValue(e.attributes.value);
        if a.Err? {
          assert ConstructPortTail(env, t, e) == Outcome(exprGraph.State(), a);
          return a;
        }
        vAttributes := a.value;
      } else {
        vAttributes := exprGraph.CreateVertex(ConstantValueVertex(NilTypeValue));
      }
      exprGraph.AddVertex(vAttributes);
      exprGraph.AddEdge(Edge(vAttributes, None));
      var eAttributes := |exprGraph.edges| - 1;
      var vPort := exprGraph.CreateVertex(PrimitivePortVertex(eSignalType, eAttributes));
      exprGraph.AddVertex(vPort);
      r := Ok(vPort);
      assert ConstructPortTail(env, t, e) == Outcome(exprGraph.State(), r);
    }

    method VisitTupleTypeValue(tt: TupleTypeSyntax) returns (r: Result<VertexId>)
      modifies exprGraph
      ensures Outcome(exprGraph.State(), r) == ConstructTupleType(env, old(exprGraph.State()), tt)
      decreases tt, |tt.entries| + 1
    {
      ghost var s0 := exprGraph.State();
      var entries := tt.entries;
      var typeValueEdges: map<string, EdgeId> := map[];
      var defaultValueEdges: map<string, EdgeId> := map[];
      var nextAnonymousID := 0;
      for i := 0 to |entries|
        invariant ConstructTypeEntries(env, s0, tt, i) == Outcome(exprGraph.State(), Ok((typeValueEdges, defaultValueEdges)))
        invariant nextAnonymousID == Unnamed(TypeLabels(entries)[..i])
      {
        ghost var before := exprGraph.State();
        ghost var fields := (typeValueEdges, defaultValueEdges);
        assert TypeLabels(entries)[..i + 1][..i] == TypeLabels(entries)[..i];
        var entry := entries[i];
        var identifier: string;
        if entry.name.Some? {
          identifier := entry.name.value;
        } else {
          identifier := NatToString(nextAnonymousID);
          nextAnonymousID := nextAnonymousID + 1;
        }
        assert identifier == PositionalName(TypeLabels(entries), i);
        var vxTypeValue := Visit(entry.typeValue);
        if vxTypeValue.Err? {
          TypeEntriesStopAt(env, s0, tt, i + 1, |entries|);
          return Err(vxTypeValue.error);
        }
        exprGraph.AddEdge(Edge(vxTypeValue.value, None));
        typeValueEdges := typeValueEdges[identifier := |exprGraph.edges| - 1];
        ghost var mid := exprGraph.State();
        assert ConstructTypeEntry(env, before, tt, i, fields)
            == ConstructDefault(env, mid, tt, i, (typeValueEdges, defaultValueEdges));
        if entry.defaultValue.Some? {
          var vxDefaultValue := Visit(entry.defaultValue.value);
          if vxDefaultValue.Err? {
            TypeEntriesStopAt(env, s0, tt, i + 1, |entries|);
            return Err(vxDefaultValue.error);
          }
          exprGraph.AddEdge(Edge(vxDefaultValue.value, None));
          defaultValueEdges := defaultValueEdges[identifier := |exprGraph.edges| - 1];
        }
      }
      var vTuple := exprGraph.CreateVertex(TupleTypeValueVertex(typeValueEdges, defaultValueEdges));
      exprGraph.AddVertex(vTuple);
      r := Ok(vTuple);
    }

    method VisitTupleValue(tv: TupleValueSyntax) returns (r: Result<VertexId>)
      modifies exprGraph
      ensures Outcome(exprGraph.State(), r) == ConstructTupleValue(env, old(exprGraph.State()), tv)
      decreases tv, |tv.entries| + 1
    {
      ghost var s0 := exprGraph.State();
      var entries := tv.entries;
      var valueEdges: map<string, EdgeId> := map[];
      var nextAnonymousID := 0;
      for i := 0 to |entries|
        invariant ConstructValueEntries(env, s0, tv, i) == Outcome(exprGraph.State(), Ok(valueEdges))
        invariant nextAnonymousID == Unnamed(ValueLabels(entries)[..i])
      {
        assert ValueLabels(entries)[..i + 1][..i] == ValueLabels(entries)[..i];
        var entry := entries[i];
        var vxValue := Visit(entry.value);
        if vxValue.Err? {
          ValueEntriesStopAt(env, s0, tv, i + 1, |entries|);
          return Err(vxValue.error);
        }
        var identifier: string;
        if entry.name.Some? {
          identifier := entry.name.value;
        } else {
          identifier := NatToString(nextAnonymousID);
          nextAnonymousID := nextAnonymousID + 1;
        }
        assert identifier == PositionalName(ValueLabels(entries), i);
        exprGraph.AddEdge(Edge(vxValue.value, None));
        valueEdges := valueEdges[identifier := |exprGraph.edges| - 1];
      }
      var vTuple := exprGraph.CreateVertex(TupleValueVertex(valueEdges));
      exprGraph.AddVertex(vTuple);
      r := Ok(vTuple);
    }

    method VisitFunctionTypeValue(ft: FunctionTypeSyntax) returns (r: Result<VertexId>)
      modifies exprGraph
      ensures Outcome(exprGraph.State(), r) == ConstructFunctionType(env, old(exprGraph.State()), ft)
      decreases ft, 1
    {
      var vIn := VisitTupleTypeValue(ft.input);
      if vIn.Err? {
        return vIn;
      }
      var eIn := Edge(vIn.value, None);
      var vOut := VisitTupleTypeValue(ft.output);
      if vOut.Err? {
        return vOut;
      }
      var eOut := Edge(vOut.value, None);
      // the two edges are added right after the vertex, so these are their indices
      var n := |exprGraph.edges|;
      var vFunctionType := exprGraph.CreateVertex(FunctionTypeValueVertex(n, n + 1));
      exprGraph.AddVertex(vFunctionType);
      exprGraph.AddEdge(eIn);
      exprGraph.AddEdge(eOut);
      r := Ok(vFunctionType);
    }

    method VisitNamespacedIdentifier(id: Identifier) returns (r: Result<VertexId>)
      modifies exprGraph
      ensures Outcome(exprGraph.State(), r) == ConstructIdentifier(env, old(exprGraph.State()), id)
    {
      if id in env.reserved {
        var vReserved := exprGraph.CreateVertex(ConstantValueVertex(env.reserved[id]));
        exprGraph.AddVertex(vReserved);
        return Ok(vReserved);
      }
      if exprGraph.ContainsVariable(id) {
        var v := exprGraph.GetVariableVertex(id);
        return Ok(v.value);
      }
      var _ := exprGraph.AddVariable(id);
      var v := exprGraph.GetVariableVertex(id);
      r := Ok(v.value);
    }

    method VisitTerminal(token: Token) returns (r: Result<VertexId>)
      modifies exprGraph
      ensures Outcome(exprGraph.State(), r) == ConstructTerminal(env, old(exprGraph.State()), token)
    {
      match token
      case IntegerValueToken(text) =>
        var v := exprGraph.CreateVertex(ConstantValueVertex(IntegerValue(env.parseInteger(text))));
        exprGraph.AddVertex(v);
        r := Ok(v);
      case BooleanValueToken(text) =>
        var v := exprGraph.CreateVertex(ConstantValueVertex(BooleanValue(env.parseBoolean(text))));
        exprGraph.AddVertex(v);
        r := Ok(v);
      case OtherToken(text) =>
        r := Err(UnknownTerminal(text));
    }
  }
}
