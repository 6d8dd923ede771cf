# Manifold front end: expression graph construction and elaboration

This project models the semantic-analysis core of the Manifold hardware
schematic compiler's front end (`org.manifold.compiler.front.Main`), as a
Dafny program with proofs.

- **The graph builder.** The `ExpressionContextVisitor` walks each top-level
  expression of a parsed unit. It builds an *expression graph*: vertices for
  literals, variables, tuples, function types, primitive port and node
  definitions and function invocations, plus edges that feed vertices or
  bind values to variables.
- **The driver.** `invokeFrontend` checks that no variable is assigned
  twice. It creates the schematic and then runs three passes in order:
  - **Function elaboration:** a work-list drained in insertion order and
    rescanned after every step.
  - **Type elaboration:** every primitive port or node assigned to a
    variable becomes a named port type or node type.
  - **Node elaboration:** every node value vertex is elaborated, then
    connected. The nodes are added as `n1..nk` and the connections as
    `c1..cm`.

The model is split into modules:

- `Base`: results, errors, identifiers and the decimal rendering of counters.
- `Graph`: the `ExpressionGraph` class and the `GraphState` snapshot it
  exposes to contracts.
- `SchematicSink`: the `Schematic` class, which records every call made on
  it.
- `Builder`: the syntax of expressions and the visitor class.
- `Elaboration`: the three passes.
- `Frontend`: `invokeFrontend` from the parsed unit on.

Each imperative method is proved against a specification function of the
old state. The model identifies a vertex by its position in the graph's
creation order, and a flag records whether the vertex has been added to the
vertex set. Everything the vertex classes do in `elaborate()` and
`connect()` is a parameter, the `Effects`:

- `inline` expands a function invocation;
- `evaluate` computes a vertex's value;
- `connect` lists a node's connections and is defined at least on every elaborated
  vertex.

The reserved-identifier table and the literal parsers are fields of an
`Environment`.

## Model

| member | source | states |
|---|---|---|
| Builder.ExpressionContextVisitor.constructor | src/main/java/org/manifold/compiler/front/Main.java:230-232 | a new visitor owns a fresh, empty expression graph |
| Builder.ExpressionContextVisitor.Visit | src/main/java/org/manifold/compiler/front/Main.java:223-454 | dispatching an expression leaves the graph and result given by `Construct` of the old graph |
| Builder.ExpressionContextVisitor.VisitAssignmentExpression | src/main/java/org/manifold/compiler/front/Main.java:235-244 | lvalue visited first, then rvalue, then one edge from rvalue to lvalue; the rvalue vertex is returned; a failing operand aborts |
| Builder.ExpressionContextVisitor.VisitFunctionInvocationExpression | src/main/java/org/manifold/compiler/front/Main.java:247-262 | callee then argument visited; one new invocation vertex added, then its function edge and input edge, both without target |
| Builder.ExpressionContextVisitor.VisitPrimitiveNodeDefinitionExpression | src/main/java/org/manifold/compiler/front/Main.java:277-285 | signature visited, one target-less signature edge, then a new primitive node vertex over it |
| Builder.ExpressionContextVisitor.VisitPrimitivePortDefinitionExpression | src/main/java/org/manifold/compiler/front/Main.java:288-309 | signal type edge; attribute tuple (or a new Nil constant) added to the vertex set and fed by an edge; new primitive port vertex |
| Builder.ExpressionContextVisitor.VisitTupleTypeValue | src/main/java/org/manifold/compiler/front/Main.java:312-343 | entries left to right with the positional-naming counter, one edge per type and one per default, later names overwriting earlier ones; one new tuple-type vertex |
| Builder.ExpressionContextVisitor.VisitTupleValue | src/main/java/org/manifold/compiler/front/Main.java:346-368 | each value visited before it is named, one edge per entry, later names overwriting; one new tuple vertex |
| Builder.ExpressionContextVisitor.VisitFunctionTypeValue | src/main/java/org/manifold/compiler/front/Main.java:371-386 | input then output tuple type visited; new function-type vertex, then its input and output edges |
| Builder.ExpressionContextVisitor.VisitNamespacedIdentifier | src/main/java/org/manifold/compiler/front/Main.java:389-434 | reserved identifier: a new constant vertex; known variable: its vertex; otherwise the variable is declared and its new vertex returned |
| Builder.ExpressionContextVisitor.VisitTerminal | src/main/java/org/manifold/compiler/front/Main.java:437-452 | an integer or boolean literal becomes a new constant vertex; any other token is an error carrying its text |
| Builder.ConstructTerminal | src/main/java/org/manifold/compiler/front/Main.java:437-452 | the visit of a terminal succeeds exactly when the token is an integer or boolean literal |
| Builder.ConstructIdentifier | src/main/java/org/manifold/compiler/front/Main.java:389-434 | resolving an identifier always yields a vertex: the reserved constant, the known variable's vertex, or a newly declared one |
| Builder.ConstructTupleType | src/main/java/org/manifold/compiler/front/Main.java:339-342 | a successful tuple-type visit returns the vertex it created last |
| Builder.ConstructTupleValue | src/main/java/org/manifold/compiler/front/Main.java:365-367 | a successful tuple visit returns the vertex it created last |
| Builder.ConstructAttributes | src/main/java/org/manifold/compiler/front/Main.java:295-302 | the attributes source of a port is the last vertex created: the tuple type's or the new Nil constant |
| Builder.Unnamed | src/main/java/org/manifold/compiler/front/Main.java:316-327 | the anonymous counter never exceeds the number of entries |
| Builder.PositionalNames | src/main/java/org/manifold/compiler/front/Main.java:321-327 | every entry of a tuple gets exactly one field name |
| Builder.UnnamedBefore | src/main/java/org/manifold/compiler/front/Main.java:324-327 | an unnamed entry advances the counter, so later prefixes have strictly more unnamed entries |
| Builder.AnonymousNamesDistinct | src/main/java/org/manifold/compiler/front/Main.java:324-327 | two different unnamed entries receive different positional names |
| Builder.PositionalNamePrefix | src/main/java/org/manifold/compiler/front/Main.java:317-327 | an entry's name depends only on the entries before it (left-to-right naming) |
| Builder.AnonymousNamesBelowCount | src/main/java/org/manifold/compiler/front/Main.java:356-360 | every positional name is the decimal form of a number below the count of unnamed entries |
| Builder.AnonymousNamesCountUp | src/main/java/org/manifold/compiler/front/Main.java:356-360 | every number below the count of unnamed entries is the name of some unnamed entry: names are 0, 1, … without gaps |
| Builder.ConstructSound | src/main/java/org/manifold/compiler/front/Main.java:223-454 | a visit never changes or drops existing vertices, edges or variables, adds every vertex it creates to the vertex set, and keeps the graph well formed with the result in it |
| Builder.AssignmentSound | src/main/java/org/manifold/compiler/front/Main.java:235-244 | the assignment visit extends the graph and keeps it well formed |
| Builder.InvocationSound | src/main/java/org/manifold/compiler/front/Main.java:247-262 | the invocation visit extends the graph and keeps it well formed |
| Builder.PrimitivePortSound | src/main/java/org/manifold/compiler/front/Main.java:288-309 | the port visit extends the graph and keeps it well formed |
| Builder.TupleTypeSound | src/main/java/org/manifold/compiler/front/Main.java:312-343 | the tuple-type visit extends the graph and keeps it well formed |
| Builder.TupleValueSound | src/main/java/org/manifold/compiler/front/Main.java:346-368 | the tuple visit extends the graph and keeps it well formed |
| Builder.ConstructAccounts | src/main/java/org/manifold/compiler/front/Main.java:223-454 | a visit fails exactly when the expression holds an unknown terminal, with the first one's text, and otherwise adds exactly the edges counted per construct |
| Builder.PrimitivePortAccounts | src/main/java/org/manifold/compiler/front/Main.java:288-309 | a port visit adds its own two edges plus those of its operands, or fails with the first unknown token |
| Builder.TupleTypeAccounts | src/main/java/org/manifold/compiler/front/Main.java:317-338 | one edge per entry and one more per default value, or the first unknown token |
| Builder.TypeEntriesAccounts | src/main/java/org/manifold/compiler/front/Main.java:317-338 | the same count over the first n entries of a tuple type |
| Builder.TupleValueAccounts | src/main/java/org/manifold/compiler/front/Main.java:350-364 | one edge per tuple entry, or the first unknown token |
| Builder.ValueEntriesAccounts | src/main/java/org/manifold/compiler/front/Main.java:350-364 | the same count over the first n entries of a tuple value |
| Builder.NameSetMembers | src/main/java/org/manifold/compiler/front/Main.java:330 | the field map's keys are exactly the names of the entries visited so far |
| Builder.DefaultNameSetMembers | src/main/java/org/manifold/compiler/front/Main.java:332-336 | the default map's keys are exactly the names of entries with a default value |
| Builder.ConstructDenotes | src/main/java/org/manifold/compiler/front/Main.java:223-454 | on a well-formed graph the returned vertex stands for the expression: right vertex class, each input edge target-less and fed by a vertex standing for the operand, assignments bound by an edge to the lvalue |
| Builder.InvocationDenotes | src/main/java/org/manifold/compiler/front/Main.java:247-262 | the invocation vertex's function and input edges are fed by the callee's and argument's vertices |
| Builder.PrimitiveNodeDenotes | src/main/java/org/manifold/compiler/front/Main.java:277-285 | the node vertex's signature edge is fed by the function type's vertex |
| Builder.PrimitivePortDenotes | src/main/java/org/manifold/compiler/front/Main.java:288-309 | the port vertex's signal edge and attributes edge are fed by the signal type and by the attribute tuple or a Nil constant |
| Builder.AttributesDenotes | src/main/java/org/manifold/compiler/front/Main.java:295-302 | without an attribute tuple, the attributes vertex is a Nil constant in the vertex set |
| Builder.FunctionTypeDenotes | src/main/java/org/manifold/compiler/front/Main.java:371-386 | the function-type vertex's input and output edges are fed by the two tuple types |
| Builder.TupleTypeDenotes | src/main/java/org/manifold/compiler/front/Main.java:312-343 | the tuple-type vertex's maps hold each entry's last-named type edge and default edge, fed by the entry's vertices |
| Builder.TupleValueDenotes | src/main/java/org/manifold/compiler/front/Main.java:346-368 | the tuple vertex's map holds for every name the edge fed by its last entry |
| Builder.IdentifierDenotes | src/main/java/org/manifold/compiler/front/Main.java:389-434 | the vertex returned for an identifier is the reserved constant or the identifier's own variable vertex |
| Builder.DenotesGrows | src/main/java/org/manifold/compiler/front/Main.java:197-200 | what a vertex stands for survives every later visit that only extends the graph |
| Builder.IdentifierResolution | src/main/java/org/manifold/compiler/front/Main.java:399-432 | reserved: one new constant, variables unchanged; known: graph unchanged, its vertex returned; new: one new variable vertex and exactly one new table entry |
| Builder.SameIdentifierSameVertex | src/main/java/org/manifold/compiler/front/Main.java:409-416 | a second reference to a non-reserved identifier, after any visit in between, returns the first reference's vertex and changes nothing |
| Builder.TypeEntriesStopAt | src/main/java/org/manifold/compiler/front/Main.java:317-338 | once an entry of a tuple type fails, the later entries are not visited |
| Builder.ValueEntriesStopAt | src/main/java/org/manifold/compiler/front/Main.java:350-364 | once an entry of a tuple value fails, the later entries are not visited |
| Graph.ExpressionGraph.constructor | src/main/java/org/manifold/compiler/front/Main.java:231 | a new graph has no vertices, edges or variables |
| Graph.ExpressionGraph.CreateVertex | src/main/java/org/manifold/compiler/front/Main.java:256-257 | a new vertex object gets the next identity and is not yet in the vertex set |
| Graph.ExpressionGraph.AddVertex | src/main/java/org/manifold/compiler/front/Main.java:302 | adding a vertex puts it in the set; adding one already there changes nothing |
| Graph.ExpressionGraph.AddVariable | src/main/java/org/manifold/compiler/front/Main.java:418-424 | declares a new variable vertex exactly when the identifier is not yet in the table |
| Graph.ExpressionGraph.GetVariableVertex | src/main/java/org/manifold/compiler/front/Main.java:409-411 | a variable vertex is found exactly when the table contains the identifier |
| Graph.ExpressionGraph.AddEdge | src/main/java/org/manifold/compiler/front/Main.java:241-242 | adding an edge appends it to the edge list |
| Graph.ExpressionGraph.Elaborate | src/main/java/org/manifold/compiler/front/Main.java:102 | elaborating a vertex gives it a value and leaves every other vertex and the graph's shape unchanged |
| Graph.ExpressionGraph.ElaborateInvocation | src/main/java/org/manifold/compiler/front/Main.java:82 | elaborating an invocation replaces the graph by the expansion the effects give |
| Graph.NonVariableVertices | src/main/java/org/manifold/compiler/front/Main.java:68 | exactly the vertices in the set that are not variables, in creation order |
| Graph.EdgesFromSource | src/main/java/org/manifold/compiler/front/Main.java:103 | exactly the edges whose source is the vertex |
| Graph.MultiplyAssigned | src/main/java/org/manifold/compiler/front/Main.java:206 | no identifier is reported exactly when every variable has at most one targeted incoming edge; a reported identifier names a variable with two or more |
| Graph.ElaborateOne | src/main/java/org/manifold/compiler/front/Main.java:102 | elaborates one vertex and no other; an already elaborated vertex is left alone |
| Graph.ElaborateEach | src/main/java/org/manifold/compiler/front/Main.java:143-147 | every listed vertex ends up elaborated, nothing else changes |
| Graph.ElaborateEachElaborated | src/main/java/org/manifold/compiler/front/Main.java:102 | elaborating vertices that are all elaborated already changes nothing |
| Graph.ElaborateEachIdempotent | src/main/java/org/manifold/compiler/front/Main.java:102 | elaborating twice is the same as once ("usually redundant but always safe") |
| SchematicSink.Schematic.constructor | src/main/java/org/manifold/compiler/front/Main.java:208 | a new schematic has the unit's name and no entries |
| SchematicSink.Schematic.AddPortType | src/main/java/org/manifold/compiler/front/Main.java:113 | records one port type registration |
| SchematicSink.Schematic.AddNodeType | src/main/java/org/manifold/compiler/front/Main.java:117 | records one node type registration |
| SchematicSink.Schematic.AddNode | src/main/java/org/manifold/compiler/front/Main.java:168 | records one node |
| SchematicSink.Schematic.AddConnection | src/main/java/org/manifold/compiler/front/Main.java:174 | records one connection |
| Base.Name | src/main/java/org/manifold/compiler/front/Main.java:108 | the type name is a segment of the identifier, the identifier itself when it has one segment |
| Base.NatToString | src/main/java/org/manifold/compiler/front/Main.java:167 | a counter renders as a non-empty string of decimal digits with no leading zero |
| Base.ParseNatToString | src/main/java/org/manifold/compiler/front/Main.java:165-175 | reading the rendered decimal back gives the counter |
| Base.NatToStringInjective | src/main/java/org/manifold/compiler/front/Main.java:165-175 | different counters render differently |
| Elaboration.Invocations | src/main/java/org/manifold/compiler/front/Main.java:68-72 | exactly the function invocation vertices in the vertex set |
| Elaboration.AddAll | src/main/java/org/manifold/compiler/front/Main.java:85-89 | insertion-ordered set addition: old order kept, contents the union, no duplicates |
| Elaboration.AddInvocations | src/main/java/org/manifold/compiler/front/Main.java:85-89 | the loop that adds every invocation to the work set equals the rescan function |
| Elaboration.ElaborateFunctions | src/main/java/org/manifold/compiler/front/Main.java:62-91 | the loop follows the drain specification; when it finishes no invocation is left; with no invocation at the start it finishes at once and changes nothing |
| Elaboration.DrainLeavesNoInvocations | src/main/java/org/manifold/compiler/front/Main.java:75-90 | a drain that empties its work set leaves no invocation vertex in the graph |
| Elaboration.RescanReaddsHead | src/main/java/org/manifold/compiler/front/Main.java:77-89 | the vertex just elaborated comes back into the work set exactly when it is still an invocation in the graph |
| Elaboration.NoRemovalNoFixpoint | src/main/java/org/manifold/compiler/front/Main.java:75-90 | if elaboration never removes an invocation, the loop never finishes, however many steps are allowed |
| Elaboration.StallStep | src/main/java/org/manifold/compiler/front/Main.java:77-89 | a step that removes no invocation leaves a non-empty work set of invocations |
| Elaboration.SingleInvocationElaboratedOnce | src/main/java/org/manifold/compiler/front/Main.java:62-91 | one invocation whose expansion has none: elaborated exactly once, then the loop ends |
| Elaboration.PrimitivesIn | src/main/java/org/manifold/compiler/front/Main.java:99-101 | exactly the primitive port and node vertices of the list |
| Elaboration.AssignedNames | src/main/java/org/manifold/compiler/front/Main.java:104-108 | exactly the names of the variables targeted by the edges |
| Elaboration.RegistrationsOverNames | src/main/java/org/manifold/compiler/front/Main.java:104-118 | a port registers one port type, a node one node type, per assigned variable name, with the primitive's value |
| Elaboration.UnassignedRegistersNothing | src/main/java/org/manifold/compiler/front/Main.java:99-122 | a non-primitive, or a primitive with no edge to a variable, registers nothing |
| Elaboration.RegisterType | src/main/java/org/manifold/compiler/front/Main.java:103-120 | the loop over outgoing edges appends the registrations of the primitive's edges in edge order |
| Elaboration.ElaborateSchematicTypes | src/main/java/org/manifold/compiler/front/Main.java:93-123 | every primitive is elaborated, nothing else changes, and the schematic gains exactly the type registrations of the elaborated graph |
| Elaboration.TypesStep | src/main/java/org/manifold/compiler/front/Main.java:99-121 | one iteration of the type pass extends the elaborated prefix and its registrations by that vertex |
| Elaboration.NodeVerticesIn | src/main/java/org/manifold/compiler/front/Main.java:135-138 | exactly the node value vertices of the list |
| Elaboration.NodeValues | src/main/java/org/manifold/compiler/front/Main.java:162 | one node value per node vertex |
| Elaboration.CollectNodeVertices | src/main/java/org/manifold/compiler/front/Main.java:134-139 | the collected list is the node value vertices in graph order |
| Elaboration.ElaborateAll | src/main/java/org/manifold/compiler/front/Main.java:141-147 | the first loop elaborates every collected vertex |
| Elaboration.ConnectAll | src/main/java/org/manifold/compiler/front/Main.java:148-163 | the second loop concatenates every vertex's connections in order and lists the node values |
| Elaboration.ConnectionsCounted | src/main/java/org/manifold/compiler/front/Main.java:150-161 | the number of connections is the sum of the sizes of the lists `connect` returns |
| Elaboration.ConnectionCountSplit | src/main/java/org/manifold/compiler/front/Main.java:155-161 | the last vertex adds the size of its list to the count |
| Elaboration.AddNodes | src/main/java/org/manifold/compiler/front/Main.java:165-170 | the node loop appends `n1..nk` in order |
| Elaboration.AddConnections | src/main/java/org/manifold/compiler/front/Main.java:171-176 | the connection loop appends `c1..cm` in order |
| Elaboration.NamingScheme | src/main/java/org/manifold/compiler/front/Main.java:164-176 | the i-th node is named n(i+1), the j-th connection c(j+1), every node comes before every connection, and all names are distinct |
| Elaboration.ElaborateNodes | src/main/java/org/manifold/compiler/front/Main.java:125-178 | exactly the node vertices are elaborated, all before any `connect`; the schematic gains their nodes, then their connections |
| Frontend.BuildProgram | src/main/java/org/manifold/compiler/front/Main.java:196-200 | a successful unit visit returns one vertex per top-level expression |
| Frontend.BuildAccounts | src/main/java/org/manifold/compiler/front/Main.java:196-200 | the unit fails exactly on its first unknown terminal and otherwise adds exactly the counted edges |
| Frontend.BuildSound | src/main/java/org/manifold/compiler/front/Main.java:196-200 | visiting the unit extends the empty graph and keeps it well formed |
| Frontend.BuildDenotes | src/main/java/org/manifold/compiler/front/Main.java:196-200 | after the whole unit, every top-level expression's vertex still stands for it |
| Frontend.BuildStopsAt | src/main/java/org/manifold/compiler/front/Main.java:198-200 | a failed visit aborts the unit: later expressions are not visited |
| Frontend.VisitUnit | src/main/java/org/manifold/compiler/front/Main.java:196-200 | the loop over top-level expressions follows the unit specification |
| Frontend.TypePassElaborates | src/main/java/org/manifold/compiler/front/Main.java:99-102 | after the type pass every primitive in the graph is elaborated |
| Frontend.NodePassElaborates | src/main/java/org/manifold/compiler/front/Main.java:141-147 | the node pass keeps the set of node vertices and elaborates all of them |
| Frontend.PipelineErrors | src/main/java/org/manifold/compiler/front/Main.java:196-210 | unknown terminal iff the unit holds one; a reported multiple assignment names a variable really assigned twice, and is reported whenever one exists; elaboration runs only on a single-assigned graph |
| Frontend.PipelinePasses | src/main/java/org/manifold/compiler/front/Main.java:206-216 | a successful run started from the built, single-assigned graph, and the type and node passes see no invocation; without invocations the function pass changes nothing |
| Frontend.RegistrationsAreTypes | src/main/java/org/manifold/compiler/front/Main.java:99-122 | the type pass records only port and node types |
| Frontend.LaterPassesOrdered | src/main/java/org/manifold/compiler/front/Main.java:215-216 | types, then nodes, then connections in the schematic |
| Frontend.PipelineOrder | src/main/java/org/manifold/compiler/front/Main.java:215-216 | in every successful run, every type registration precedes every node and every node precedes every connection |
| Frontend.RunPasses | src/main/java/org/manifold/compiler/front/Main.java:210-216 | the three passes in order; when the function pass finishes, the graph and schematic are those of the later-passes specification |
| Frontend.InvokeFrontend | src/main/java/org/manifold/compiler/front/Main.java:180-220 | the driver returns the pipeline's error, or a fresh schematic named after the unit holding exactly the pipeline's entries |

## Left out

- Parsing, lexing and file input (Main.java:183-195): the unit is given as a sequence of expression syntax trees, and the schematic's name as a string.
- DOT export of the graph (Main.java:202-204, 211-213) and all `log.debug` calls: they have no effect on the result.
- `getFrontendName` and `registerArguments`: command-line plumbing.
- `src/main/java/org/whdl/intermediate/Constraint.java`: an unused legacy class with no behaviour to verify.
- The bodies of the vertex classes, `ExpressionGraph`, `Schematic` and `ReservedIdentifiers` are not part of this model:
  - vertex `elaborate()` and `connect()` are the `Effects` parameters;
  - the graph and schematic are modelled only by the operations the core calls;
  - the reserved table is a map in the `Environment`.
- `Integer.valueOf` and `Boolean.parseBoolean` (Main.java:440, 445) are opaque functions of the `Environment`. A malformed integer literal's `NumberFormatException` is not modelled.
- ConstructTerminal: 32-bit range of integer literals is not modelled, because literal parsing is an opaque environment function.
- The casts to `PortTypeValue` and `NodeTypeValue` (Main.java:112, 116) are not modelled. Values are untyped, so a failing cast cannot happen in the model.
- Elaboration.ElaborateFunctions: takes a step bound and reports `ElaborationBound` when it is reached, because the source loop has no termination guarantee. A run of the source that never ends corresponds to every bound being reached, as `NoRemovalNoFixpoint` shows for a stalled expansion.
- Frontend.InvokeFrontend: reports an exhausted step bound as the `ElaborationBound` error, where the source would not return.
- `verifyVariablesSingleAssignment` throws an exception; here it is an `Err(MultipleAssignment(id))` result. Unknown terminals (Main.java:449-450) are an `Err(UnknownTerminal(text))` result that stops the visit of the unit, and the partial graph is not inspected.
- The exception branches of the identifier visit (Main.java:413-431) have no counterpart in the model. `Builder.ExpressionContextVisitor.VisitNamespacedIdentifier` reads the looked-up vertex only after `ContainsVariable` or `AddVariable`, and the contracts of `AddVariable` and `GetVariableVertex` make that lookup succeed. This assumes that the real `ExpressionGraph` keeps `containsVariable`, `addVertex(id)` and `getVariableVertex` consistent with each other; its code is not part of this model.
- Overflow of the `Integer` counters (`nextAnonymousID`, `nodeID`, `connectionID`) is not modelled: counters are unbounded naturals.
- The iteration order of `getNonVariableVertices` and `getEdgesFromSource` is taken to be creation order. The real `ExpressionGraph` may return them in another order, which would only change the order of schematic calls.
- Edges are identified by their position in the edge list. Their object identity and equality are not modelled.
- `connect()` is taken not to change the graph, and `elaborate()` of a primitive or node vertex only sets that vertex's value.
- The vertex returned by `visit` for each top-level expression is discarded by the source. The model returns them so that the properties of the built graph can be stated.
