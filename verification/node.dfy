/** A node of the flow graph: an identifier, a position, a layer, an
    anchor-initialised flag, the port counts of the data model it owns, and one connection list
    per input port and per output port.

    The data model itself stays outside the node. The calls that notify
    listeners or may change the model — the `positionChanged` signal, the
    model's `setInData`, `outData` and `restore` — are returned as an
    `Effect`, in the order the node makes them, next to the updated node.
    What the model answers to the node's queries — its port counts when the
    node is built, its saved record when the node is saved — is an input. */
module Nodes {
  import opened Options
  import opened Ports

  /** A node identifier. The null identifier is all zero bits. */
  datatype Uuid = Uuid(bits: nat)

  const NullUuid: Uuid := Uuid(0)

  /** A scene position; coordinates are kept abstract. */
  datatype Point = Point(x: real, y: real)

  /** Where a default-constructed point lies. */
  const Origin: Point := Point(0.0, 0.0)

  /** The structured record a data model saves itself to. Its contents belong
      to the model; the node only passes it along. */
  datatype ModelRecord = ModelRecord(fields: map<string, string>)

  /** What reading a missing object field yields: an empty object. */
  const EmptyObject: ModelRecord := ModelRecord(map[])

  /** The port counts the data model declared when the node was built. */
  datatype PortCounts = PortCounts(nIn: nat, nOut: nat)

  /** The declared number of ports on one side. */
  function NPorts(m: PortCounts, t: PortType): nat
  {
    match t
    case In => m.nIn
    case Out => m.nOut
  }

  /** A piece of data flowing between ports; `None` is a null pointer. */
  datatype NodeData = NodeData(payload: string)

  /** A call the node makes outside itself. */
  datatype Effect =
    | PositionChanged(pos: Point)
    | SetInData(data: Option<NodeData>, inPort: PortIndex)
    | OutData(outPort: PortIndex)
    | RestoreModel(record: ModelRecord)

  datatype Node = Node(
    id: Uuid,
    position: Point,
    layer: int,
    anchorInit: bool,
    declared: PortCounts,
    inConnections: seq<seq<ConnId>>,
    outConnections: seq<seq<ConnId>>)

  /** A node after an operation, with the calls the operation made. */
  datatype Step = Step(node: Node, effects: seq<Effect>)

  /** The connection lists of one side of the node. */
  function Slots(n: Node, t: PortType): seq<seq<ConnId>>
  {
    match t
    case In => n.inConnections
    case Out => n.outConnections
  }

  /** There is one connection list per declared port on each side. */
  predicate WellFormed(n: Node)
  {
    && |Slots(n, In)| == NPorts(n.declared, In)
    && |Slots(n, Out)| == NPorts(n.declared, Out)
  }

  /** Two nodes have the same number of slots on each side and the same
      declared port counts. */
  predicate SameShape(a: Node, b: Node)
  {
    && |a.inConnections| == |b.inConnections|
    && |a.outConnections| == |b.outConnections|
    && a.declared == b.declared
  }

  /** Builds a node around a model that declares `declared` ports: one
      empty list per declared port, the given identifier, the anchor flag
      cleared and a default position. Node.cpp does not initialise the
      layer, so its starting value is a parameter here. */
  function Create(declared: PortCounts, id: Uuid, initialLayer: int): (n: Node)
    ensures forall t: PortType :: |Slots(n, t)| == NPorts(declared, t)
    ensures WellFormed(n)
    ensures forall t: PortType, i | 0 <= i < |Slots(n, t)| :: Slots(n, t)[i] == []
    ensures n.id == id && n.declared == declared
    ensures !n.anchorInit && n.position == Origin && n.layer == initialLayer
  {
    Node(id, Origin, initialLayer, false, declared,
         seq(declared.nIn, _ => []), seq(declared.nOut, _ => []))
  }

  /** Moves the node and emits exactly one position-changed signal carrying
      the new position; nothing else about the node changes. */
  function SetPosition(n: Node, p: Point): (r: Step)
    ensures r.node.position == p
    ensures r.node.(position := n.position) == n
    ensures r.effects == [PositionChanged(p)]
  {
    Step(n.(position := p), [PositionChanged(p)])
  }

  function SetLayer(n: Node, l: int): (r: Node)
    ensures r.layer == l
    ensures r.(layer := n.layer) == n
  {
    n.(layer := l)
  }

  function SetAnchorInit(n: Node, v: bool): (r: Node)
    ensures r.anchorInit == v
    ensures r.(anchorInit := n.anchorInit) == n
  {
    n.(anchorInit := v)
  }

  /** A slot the connection accessor may be asked for. */
  predicate ValidSlot(n: Node, t: PortType, idx: PortIndex)
  {
    0 <= idx < |Slots(n, t)|
  }

  /** The connection list of one port: the input list for an input port,
      the output list for an output port. The index must lie below the slot
      count of that side; this also excludes the node without any port. */
  function Connections(n: Node, t: PortType, idx: PortIndex): (r: seq<ConnId>)
    requires ValidSlot(n, t, idx)
    ensures t == In ==> r == n.inConnections[idx]
    ensures t == Out ==> r == n.outConnections[idx]
  {
    Slots(n, t)[idx]
  }

  /** Writes a list through the reference the accessor returns. Only that
      one slot changes; no side is resized. */
  function SetConnections(n: Node, t: PortType, idx: PortIndex, list: seq<ConnId>): (r: Node)
    requires ValidSlot(n, t, idx)
    ensures SameShape(n, r)
    ensures Connections(r, t, idx) == list
    ensures forall u: PortType, j | ValidSlot(n, u, j) && (u, j) != (t, idx) ::
              Connections(r, u, j) == Connections(n, u, j)
    ensures r.(inConnections := n.inConnections, outConnections := n.outConnections) == n
  {
    match t
    case In => n.(inConnections := n.inConnections[idx := list])
    case Out => n.(outConnections := n.outConnections[idx := list])
  }

  /** Hands data to the model's input port: one `setInData` call with the
      same data and the same index, which the node does not check. */
  function PropagateData(n: Node, data: Option<NodeData>, inPort: PortIndex): (r: Step)
    ensures r.node == n
    ensures r.effects == [SetInData(data, inPort)]
  {
    Step(n, [SetInData(data, inPort)])
  }

  /** Reacts to the model's data-updated notification: reads the output and
      drops it, leaving the node as it was. */
  function OnDataUpdated(n: Node, outPort: PortIndex): (r: Step)
    ensures r.node == n
    ensures r.effects == [OutData(outPort)]
  {
    Step(n, [OutData(outPort)])
  }

  /** The two coordinates of a saved position; either may be absent. */
  datatype PointRecord = PointRecord(x: Option<real>, y: Option<real>)

  /** The record a node saves itself to: fields `id`, `model` and `position`,
      each of which may be absent from a record read back. */
  datatype NodeRecord = NodeRecord(
    id: Option<Uuid>,
    model: Option<ModelRecord>,
    position: Option<PointRecord>)

  /** Every field of the record is present. */
  predicate Complete(rec: NodeRecord)
  {
    && rec.id.Some?
    && rec.model.Some?
    && rec.position.Some?
    && rec.position.value.x.Some?
    && rec.position.value.y.Some?
  }

  /** Saves the identifier, the model's own record and the position.
      `modelRecord` is what the model's `save` answers at that moment. */
  function Save(n: Node, modelRecord: ModelRecord): (r: NodeRecord)
    ensures Complete(r)
    ensures r.id == Some(n.id) && r.model == Some(modelRecord)
    ensures r.position == Some(PointRecord(Some(n.position.x), Some(n.position.y)))
  {
    NodeRecord(Some(n.id), Some(modelRecord),
               Some(PointRecord(Some(n.position.x), Some(n.position.y))))
  }

  /** The position a record describes; a missing coordinate reads as 0. */
  function RecordPosition(rec: NodeRecord): Point
  {
    var pr := rec.position.GetOr(PointRecord(None, None));
    Point(pr.x.GetOr(0.0), pr.y.GetOr(0.0))
  }

  /** Restores identifier and position from a record (the move emits its
      signal), then hands the model its part of the record. A missing
      identifier reads as the null identifier and a missing model part as an
      empty object. Slots, layer, anchor flag and declared port counts are
      kept. */
  function Restore(n: Node, rec: NodeRecord): (r: Step)
    ensures r.node.id == rec.id.GetOr(NullUuid)
    ensures r.node.position == RecordPosition(rec)
    ensures r.node.(id := n.id, position := n.position) == n
    ensures r.effects == [PositionChanged(r.node.position), RestoreModel(rec.model.GetOr(EmptyObject))]
  {
    var moved := SetPosition(n.(id := rec.id.GetOr(NullUuid)), RecordPosition(rec));
    Step(moved.node, moved.effects + [RestoreModel(rec.model.GetOr(EmptyObject))])
  }

  // Laws relating the operations.

  /** A record saved from `n`, with the model record `mr`, and restored onto
      any node `m` gives `m` the identifier and position of `n`, and hands
      `mr` to `m`'s model; every field of `m` but those two is kept. */
  lemma SaveRestoreRoundTrip(n: Node, mr: ModelRecord, m: Node)
    ensures Restore(m, Save(n, mr)).node == m.(id := n.id, position := n.position)
    ensures Restore(m, Save(n, mr)).effects == [PositionChanged(n.position), RestoreModel(mr)]
  {
  }

  /** Distinct identifiers, positions or model records give distinct saved
      records. */
  lemma SaveInjective(a: Node, ra: ModelRecord, b: Node, rb: ModelRecord)
    requires Save(a, ra) == Save(b, rb)
    ensures a.id == b.id && a.position == b.position && ra == rb
  {
    SaveRestoreRoundTrip(a, ra, a);
    SaveRestoreRoundTrip(b, rb, a);
  }

  /** Each absent field of a record reads as Qt's default: the null
      identifier, a coordinate of 0, an empty object for the model. Present
      fields are taken as they are, whatever else is absent. */
  lemma RestoreDefaults(n: Node, rec: NodeRecord)
    ensures rec.id.None? ==> Restore(n, rec).node.id == NullUuid
    ensures rec.id.Some? ==> Restore(n, rec).node.id == rec.id.value
    ensures rec.position.None? ==> Restore(n, rec).node.position == Origin
    ensures rec.position.Some? && rec.position.value.x.None? ==> Restore(n, rec).node.position.x == 0.0
    ensures rec.position.Some? && rec.position.value.y.None? ==> Restore(n, rec).node.position.y == 0.0
    ensures rec.position.Some? && rec.position.value.x.Some? ==>
              Restore(n, rec).node.position.x == rec.position.value.x.value
    ensures rec.position.Some? && rec.position.value.y.Some? ==>
              Restore(n, rec).node.position.y == rec.position.value.y.value
    ensures rec.model.None? ==> Restore(n, rec).effects[1] == RestoreModel(EmptyObject)
    ensures rec.model.Some? ==> Restore(n, rec).effects[1] == RestoreModel(rec.model.value)
  {
  }

  /** Restore then save gives back a complete record's identifier and
      position; the model part of the new record is whatever the restored
      model then answers. */
  lemma RestoreSaveRoundTrip(n: Node, rec: NodeRecord, mr: ModelRecord)
    requires Complete(rec)
    ensures Save(Restore(n, rec).node, mr).id == rec.id
    ensures Save(Restore(n, rec).node, mr).position == rec.position
  {
  }

  /** Setting a position twice keeps the last; setting the current one
      changes no field. */
  lemma SetPositionLaws(n: Node, p: Point, q: Point)
    ensures SetPosition(SetPosition(n, p).node, q).node == SetPosition(n, q).node
    ensures SetPosition(n, n.position).node == n
  {
  }

  lemma SetLayerLaws(n: Node, a: int, b: int)
    ensures SetLayer(SetLayer(n, a), b) == SetLayer(n, b)
    ensures SetLayer(n, n.layer) == n
  {
  }

  lemma SetAnchorInitLaws(n: Node, v: bool, w: bool)
    ensures SetAnchorInit(SetAnchorInit(n, v), w) == SetAnchorInit(n, w)
    ensures SetAnchorInit(n, n.anchorInit) == n
  {
  }

  /** Writing a slot, then writing it again, keeps only the second list;
      writing back the list a slot already holds changes nothing. */
  lemma SetConnectionsLaws(n: Node, t: PortType, idx: PortIndex, a: seq<ConnId>, b: seq<ConnId>)
    requires ValidSlot(n, t, idx)
    ensures SetConnections(SetConnections(n, t, idx, a), t, idx, b) == SetConnections(n, t, idx, b)
    ensures SetConnections(n, t, idx, Connections(n, t, idx)) == n
  {
  }

  /** A well-formed node stays well formed under every update. */
  lemma UpdatesKeepWellFormed(n: Node, t: PortType, idx: PortIndex, list: seq<ConnId>, p: Point, rec: NodeRecord)
    requires WellFormed(n) && ValidSlot(n, t, idx)
    ensures WellFormed(SetConnections(n, t, idx, list))
    ensures WellFormed(SetPosition(n, p).node)
    ensures WellFormed(Restore(n, rec).node)
  {
  }
}
