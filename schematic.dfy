/** The schematic sink the elaboration passes write into. Its own behaviour
    (for instance what it does with a name registered twice) is outside the
    front end, so the model records the calls made on it, in order. */
module SchematicSink {
  import opened Base

  datatype SchematicEntry =
    | PortType(name: string, portType: Value)
    | NodeType(name: string, nodeType: Value)
    | Node(name: string, node: Value)
    | Connection(name: string, connection: Value)

  class Schematic {
    const name: string
    var entries: seq<SchematicEntry>

    constructor (name: string)
      ensures this.name == name && entries == []
    {
      this.name := name;
      entries := [];
    }

    method AddPortType(typeName: string, portType: Value)
      modifies this
      ensures entries == old(entries) + [PortType(typeName, portType)]
    {
      entries := entries + [PortType(typeName, portType)];
    }

    method AddNodeType(typeName: string, nodeType: Value)
      modifies this
      ensures entries == old(entries) + [NodeType(typeName, nodeType)]
    {
      entries := entries + [NodeType(typeName, nodeType)];
    }

    method AddNode(nodeName: string, node: Value)
      modifies this
      ensures entries == old(entries) + [Node(nodeName, node)]
    {
      entries := entries + [Node(nodeName, node)];
    }

    method AddConnection(connectionName: string, connection: Value)
      modifies this
      ensures entries == old(entries) + [Connection(connectionName, connection)]
    {
      entries := entries + [Connection(connectionName, connection)];
    }
  }
}
