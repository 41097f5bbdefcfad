/** Sequences of node operations, and what stays true across all of them:
    the slot counts fixed at construction, the identifier (changed only by a
    restore), every slot nobody writes, and the data handed to the model. */
module NodeTrace {
  import opened Options
  import opened Ports
  import opened Nodes

  /** One call on a node after it was built. */
  datatype Op =
    | SetPositionOp(pos: Point)
    | SetLayerOp(layer: int)
    | SetAnchorInitOp(flag: bool)
    | SetConnectionsOp(side: PortType, slot: PortIndex, list: seq<ConnId>)
    | PropagateDataOp(data: Option<NodeData>, inPort: PortIndex)
    | DataUpdatedOp(outPort: PortIndex)
    | RestoreOp(record: NodeRecord)

  /** The call's precondition holds: a slot write names an existing slot. */
  predicate Allowed(n: Node, op: Op)
  {
    op.SetConnectionsOp? ==> ValidSlot(n, op.side, op.slot)
  }

  /** Nodes of the same shape admit the same calls. */
  lemma AllowedByShape(n: Node, m: Node, op: Op)
    requires SameShape(n, m) && Allowed(n, op)
    ensures Allowed(m, op)
  {
  }

  /** Performs one call. */
  function Apply(n: Node, op: Op): (r: Step)
    requires Allowed(n, op)
    ensures SameShape(n, r.node)
    ensures !op.RestoreOp? ==> r.node.id == n.id
  {
    match op
    case SetPositionOp(p) => SetPosition(n, p)
    case SetLayerOp(l) => Step(SetLayer(n, l), [])
    case SetAnchorInitOp(v) => Step(SetAnchorInit(n, v), [])
    case SetConnectionsOp(t, idx, list) => Step(SetConnections(n, t, idx, list), [])
    case PropagateDataOp(d, i) => PropagateData(n, d, i)
    case DataUpdatedOp(i) => OnDataUpdated(n, i)
    case RestoreOp(rec) => Restore(n, rec)
  }

  /** Every call of a sequence is allowed on `n`; since no call changes the
      slot counts, this is the same as being allowed where it runs. */
  predicate AllAllowed(n: Node, ops: seq<Op>)
  {
    forall k | 0 <= k < |ops| :: Allowed(n, ops[k])
  }

  /** What is allowed of a sequence stays allowed of its tail after the
      first call. */
  lemma TailAllowed(n: Node, ops: seq<Op>)
    requires AllAllowed(n, ops) && ops != []
    ensures AllAllowed(Apply(n, ops[0]).node, ops[1..])
  {
    var first := Apply(n, ops[0]);
    forall k | 0 <= k < |ops[1..]|
      ensures Allowed(first.node, ops[1..][k])
    {
      AllowedByShape(n, first.node, ops[1..][k]);
    }
  }

  /** Performs the calls in order, collecting their effects in order. */
  function Run(n: Node, ops: seq<Op>): (r: Step)
    requires AllAllowed(n, ops)
    ensures SameShape(n, r.node)
    decreases |ops|
  {
    if ops == [] then Step(n, [])
    else
      var first := Apply(n, ops[0]);
      TailAllowed(n, ops);
      var rest := Run(first.node, ops[1..]);
      Step(rest.node, first.effects + rest.effects)
  }

  /** Slot counts never change after construction: a node built from a model
      keeps one slot per declared port through any sequence of calls. */
  lemma SlotCountsStable(declared: PortCounts, id: Uuid, l: int, ops: seq<Op>)
    requires AllAllowed(Create(declared, id, l), ops)
    ensures WellFormed(Run(Create(declared, id, l), ops).node)
    ensures |Slots(Run(Create(declared, id, l), ops).node, In)| == NPorts(declared, In)
    ensures |Slots(Run(Create(declared, id, l), ops).node, Out)| == NPorts(declared, Out)
  {
  }

  /** Only a restore changes the identifier. */
  lemma {:induction false} IdentityKept(n: Node, ops: seq<Op>)
    requires AllAllowed(n, ops)
    requires forall k | 0 <= k < |ops| :: !ops[k].RestoreOp?
    ensures Run(n, ops).node.id == n.id
    decreases |ops|
  {
    if ops != [] {
      var first := Apply(n, ops[0]);
      TailAllowed(n, ops);
      IdentityKept(first.node, ops[1..]);
    }
  }

  /** The call writes through the given slot. */
  predicate Writes(op: Op, t: PortType, idx: PortIndex)
  {
    op.SetConnectionsOp? && op.side == t && op.slot == idx
  }

  /** A slot that no call writes keeps its list: writing one slot never
      disturbs another. */
  lemma {:induction false} UntouchedSlotKept(n: Node, ops: seq<Op>, t: PortType, idx: PortIndex)
    requires AllAllowed(n, ops) && ValidSlot(n, t, idx)
    requires forall k | 0 <= k < |ops| :: !Writes(ops[k], t, idx)
    ensures ValidSlot(Run(n, ops).node, t, idx)
    ensures Connections(Run(n, ops).node, t, idx) == Connections(n, t, idx)
    decreases |ops|
  {
    if ops != [] {
      var first := Apply(n, ops[0]);
      assert Connections(first.node, t, idx) == Connections(n, t, idx) by {
        assert !Writes(ops[0], t, idx);
      }
      TailAllowed(n, ops);
      assert forall k | 0 <= k < |ops[1..]| :: !Writes(ops[1..][k], t, idx) by {
        forall k | 0 <= k < |ops[1..]|
          ensures !Writes(ops[1..][k], t, idx)
        {
          assert ops[1..][k] == ops[k + 1];
        }
      }
      UntouchedSlotKept(first.node, ops[1..], t, idx);
    }
  }

  /** A delivery of data to the model: the data and the input port. */
  datatype Delivery = Delivery(data: Option<NodeData>, inPort: PortIndex)

  /** The `setInData` calls among a list of effects, in order. */
  function Deliveries(effects: seq<Effect>): seq<Delivery>
  {
    if effects == [] then []
    else
      (if effects[0].SetInData? then [Delivery(effects[0].data, effects[0].inPort)] else [])
      + Deliveries(effects[1..])
  }

  /** The data-propagation requests among a list of calls, in order. */
  function Requests(ops: seq<Op>): seq<Delivery>
  {
    if ops == [] then []
    else
      (if ops[0].PropagateDataOp? then [Delivery(ops[0].data, ops[0].inPort)] else [])
      + Requests(ops[1..])
  }

  lemma {:induction false} DeliveriesAppend(a: seq<Effect>, b: seq<Effect>)
    ensures Deliveries(a + b) == Deliveries(a) + Deliveries(b)
    decreases |a|
  {
    if a == [] {
      assert a + b == b;
    } else {
      assert (a + b)[0] == a[0];
      assert (a + b)[1..] == a[1..] + b;
      DeliveriesAppend(a[1..], b);
    }
  }

  /** Each propagation request reaches the model as exactly one `setInData`
      call with the same data and index, in request order, and nothing else
      the node does calls `setInData`. */
  lemma {:induction false} DataForwardedOnce(n: Node, ops: seq<Op>)
    requires AllAllowed(n, ops)
    ensures Deliveries(Run(n, ops).effects) == Requests(ops)
    decreases |ops|
  {
    if ops != [] {
      var first := Apply(n, ops[0]);
      TailAllowed(n, ops);
      var rest := Run(first.node, ops[1..]);
      DeliveriesAppend(first.effects, rest.effects);
      DataForwardedOnce(first.node, ops[1..]);
      assert Deliveries(first.effects) ==
        (if ops[0].PropagateDataOp? then [Delivery(ops[0].data, ops[0].inPort)] else []);
    }
  }
}
