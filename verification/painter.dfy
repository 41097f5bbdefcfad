/** The decisions the node painter takes before it draws: which ports react
    to a drag in progress and how, which ports get a filled marker, what each
    port label reads, whether the title is drawn, and whether and how the
    validation band is shown. Geometry, fonts and colours themselves are not
    modelled; the scene model's port queries and converter lookup are
    inputs. */
module Painter {
  import opened Options
  import opened Ports

  /** The painter's view of a node: one entry list per port on each side, and
      the drag the node is reacting to, if any. */
  datatype NodeState = NodeState(
    inEntries: seq<seq<ConnId>>,
    outEntries: seq<seq<ConnId>>,
    reacting: bool,
    reactingPortType: PortType,
    reactingDataType: DataType)

  /** What the scene model answers about the ports of the node being painted. */
  datatype PortQueries = PortQueries(
    dataType: (PortType, PortIndex) -> DataType,
    caption: (PortType, PortIndex) -> string,
    policy: (PortType, PortIndex) -> ConnectionPolicy)

  /** The scene model's converter lookup: the name of the converter node
      registered for a (source, target) pair of types, or "" when none is. */
  type ConverterLookup = (DataType, DataType) -> string

  function Entries(s: NodeState, t: PortType): seq<seq<ConnId>>
  {
    match t
    case In => s.inEntries
    case Out => s.outEntries
  }

  /** A port of the node being painted. */
  datatype PortRef = PortRef(side: PortType, index: nat)

  predicate IsPort(s: NodeState, p: PortRef)
  {
    p.index < |Entries(s, p.side)|
  }

  // Connection rules.

  /** Fan-in rule: a port takes another link iff it has none yet or its
      policy allows many. */
  predicate CanConnect(entries: seq<ConnId>, policy: ConnectionPolicy)
  {
    entries == [] || policy == Many
  }

  /** The converter name asked for when a type is dragged onto a port: the
      pair is (dragged, port) for an input port, since data flows into it,
      and (port, dragged) for an output port. */
  function ConverterFor(t: PortType, dragged: DataType, portType: DataType, lookup: ConverterLookup): string
  {
    match t
    case In => lookup(dragged, portType)
    case Out => lookup(portType, dragged)
  }

  /** Type-compatibility rule: equal ids, or a registered converter. */
  predicate TypeCompatible(t: PortType, dragged: DataType, portType: DataType, lookup: ConverterLookup)
  {
    dragged.id == portType.id || ConverterFor(t, dragged, portType, lookup) != ""
  }

  /** How a port marker reacts to the drag: it stays at its normal size, or
      it is drawn attracting (compatible) or repelling (incompatible). The
      distance-dependent size itself is not modelled. */
  datatype Reaction = Rest | Attract | Repel

  /** The reaction of one port. Only a reacting node, a port that can take
      another link, and a port on the side being dragged to are considered;
      all other ports rest. */
  function PortReaction(s: NodeState, q: PortQueries, lookup: ConverterLookup, p: PortRef): (r: Reaction)
    requires IsPort(s, p)
    ensures r != Rest <==>
              && s.reacting
              && CanConnect(Entries(s, p.side)[p.index], q.policy(p.side, p.index))
              && p.side == s.reactingPortType
    ensures r != Rest ==>
              (r == Attract <==> TypeCompatible(p.side, s.reactingDataType, q.dataType(p.side, p.index), lookup))
  {
    var canConnect := CanConnect(Entries(s, p.side)[p.index], q.policy(p.side, p.index));
    if s.reacting && canConnect && p.side == s.reactingPortType then
      if TypeCompatible(p.side, s.reactingDataType, q.dataType(p.side, p.index), lookup)
      then Attract
      else Repel
    else Rest
  }

  // Traversal order.

  /** The ports of one side, in index order. */
  function SidePorts(s: NodeState, t: PortType): (r: seq<PortRef>)
    ensures |r| == |Entries(s, t)|
    ensures forall k | 0 <= k < |r| :: r[k] == PortRef(t, k)
  {
    seq(|Entries(s, t)|, (k: nat) => PortRef(t, k))
  }

  /** `a` is painted before `b`: output ports come first, each side in index
      order. */
  predicate Precedes(a: PortRef, b: PortRef)
  {
    (a.side == Out && b.side == In) || (a.side == b.side && a.index < b.index)
  }

  predicate Ordered(ps: seq<PortRef>)
  {
    forall j, k | 0 <= j < k < |ps| :: Precedes(ps[j], ps[k])
  }

  /** The order the painter visits ports in: every output port, then every
      input port. */
  function PaintOrder(s: NodeState): (r: seq<PortRef>)
    ensures |r| == |s.outEntries| + |s.inEntries|
    ensures forall p :: p in r <==> IsPort(s, p)
    ensures Ordered(r)
  {
    SidePorts(s, Out) + SidePorts(s, In)
  }

  /** Visiting in paint order meets no port twice. */
  lemma PaintOrderDistinct(s: NodeState)
    ensures forall j, k | 0 <= j < k < |PaintOrder(s)| :: PaintOrder(s)[j] != PaintOrder(s)[k]
  {
  }

  // Connection points.

  /** A marker drawn at a port, with its reaction to the drag. */
  datatype PointMark = PointMark(port: PortRef, reaction: Reaction)

  /** The markers of one side, in index order. */
  method SidePoints(s: NodeState, q: PortQueries, lookup: ConverterLookup, t: PortType)
    returns (marks: seq<PointMark>)
    ensures |marks| == |Entries(s, t)|
    ensures forall k | 0 <= k < |marks| ::
              marks[k] == PointMark(PortRef(t, k), PortReaction(s, q, lookup, PortRef(t, k)))
  {
    var n := |Entries(s, t)|;
    marks := [];
    var i := 0;
    while i < n
      invariant 0 <= i <= n
      invariant |marks| == i
      invariant forall k | 0 <= k < i ::
                  marks[k] == PointMark(PortRef(t, k), PortReaction(s, q, lookup, PortRef(t, k)))
    {
      marks := marks + [PointMark(PortRef(t, i), PortReaction(s, q, lookup, PortRef(t, i)))];
      i := i + 1;
    }
  }

  /** One marker per port, in paint order, each with that port's reaction. */
  method ConnectionPoints(s: NodeState, q: PortQueries, lookup: ConverterLookup)
    returns (marks: seq<PointMark>)
    ensures |marks| == |PaintOrder(s)|
    ensures forall k | 0 <= k < |marks| ::
              && marks[k].port == PaintOrder(s)[k]
              && marks[k].reaction == PortReaction(s, q, lookup, PaintOrder(s)[k])
  {
    var outs := SidePoints(s, q, lookup, Out);
    var ins := SidePoints(s, q, lookup, In);
    marks := outs + ins;
  }

  // Filled connection points.

  /** The port has at least one link. */
  predicate Connected(s: NodeState, p: PortRef)
    requires IsPort(s, p)
  {
    Entries(s, p.side)[p.index] != []
  }

  /** The connected ports of one side, in index order. */
  method SideFilled(s: NodeState, t: PortType) returns (filled: seq<PortRef>)
    ensures forall p :: p in filled <==> p.side == t && IsPort(s, p) && Connected(s, p)
    ensures Ordered(filled)
  {
    var n := |Entries(s, t)|;
    filled := [];
    var i := 0;
    while i < n
      invariant 0 <= i <= n
      invariant forall p :: p in filled <==>
                  p.side == t && p.index < i && IsPort(s, p) && Connected(s, p)
      invariant Ordered(filled)
      invariant forall k | 0 <= k < |filled| :: filled[k].index < i
    {
      if Entries(s, t)[i] != [] {
        filled := filled + [PortRef(t, i)];
      }
      i := i + 1;
    }
  }

  /** Filled markers go on exactly the connected ports, in paint order. */
  method FilledConnectionPoints(s: NodeState) returns (filled: seq<PortRef>)
    ensures forall p :: p in filled <==> IsPort(s, p) && Connected(s, p)
    ensures Ordered(filled)
  {
    var outs := SideFilled(s, Out);
    var ins := SideFilled(s, In);
    filled := outs + ins;
    forall j, k | 0 <= j < k < |filled|
      ensures Precedes(filled[j], filled[k])
    {
      if k < |outs| {
        assert filled[j] == outs[j] && filled[k] == outs[k];
      } else if j >= |outs| {
        assert filled[j] == ins[j - |outs|] && filled[k] == ins[k - |outs|];
      } else {
        assert filled[j] in outs && filled[k] in ins;
      }
    }
  }

  // Labels.

  /** A port label: the caption, or the data type's name when the caption
      is empty. */
  function EntryLabel(caption: string, dataType: DataType): (r: string)
    ensures caption != "" ==> r == caption
    ensures caption == "" ==> r == dataType.name
  {
    if caption == "" then dataType.name else caption
  }

  /** A label drawn at a port: its text and whether it is drawn faded. */
  datatype Label = Label(port: PortRef, text: string, faded: bool)

  /** The labels of one side, in index order; a label is faded exactly when
      its port has no link. */
  method SideLabels(s: NodeState, q: PortQueries, t: PortType) returns (labels: seq<Label>)
    ensures |labels| == |Entries(s, t)|
    ensures forall k | 0 <= k < |labels| ::
              && labels[k].port == PortRef(t, k)
              && labels[k].text == EntryLabel(q.caption(t, k), q.dataType(t, k))
              && (labels[k].faded <==> Entries(s, t)[k] == [])
  {
    var n := |Entries(s, t)|;
    labels := [];
    var i := 0;
    while i < n
      invariant 0 <= i <= n
      invariant |labels| == i
      invariant forall k | 0 <= k < i ::
                  && labels[k].port == PortRef(t, k)
                  && labels[k].text == EntryLabel(q.caption(t, k), q.dataType(t, k))
                  && (labels[k].faded <==> Entries(s, t)[k] == [])
    {
      var text := EntryLabel(q.caption(t, i), q.dataType(t, i));
      labels := labels + [Label(PortRef(t, i), text, Entries(s, t)[i] == [])];
      i := i + 1;
    }
  }

  /** One label per port, in paint order. */
  method EntryLabels(s: NodeState, q: PortQueries) returns (labels: seq<Label>)
    ensures |labels| == |PaintOrder(s)|
    ensures forall k | 0 <= k < |labels| ::
              var p := PaintOrder(s)[k];
              && labels[k].port == p
              && labels[k].text == EntryLabel(q.caption(p.side, p.index), q.dataType(p.side, p.index))
              && (labels[k].faded <==> !Connected(s, p))
  {
    var outs := SideLabels(s, q, Out);
    var ins := SideLabels(s, q, In);
    labels := outs + ins;
  }

  /** The node title: the caption, or nothing drawn when it is empty. */
  function ModelTitle(caption: string): (r: Option<string>)
    ensures r == None <==> caption == ""
    ensures r.Some? ==> r.value == caption
  {
    if caption == "" then None else Some(caption)
  }

  // Validation band.

  /** The fill of the validation band. */
  datatype Fill = ErrorFill | WarningFill

  /** The band drawn under a node that is not valid, with the model's
      message. */
  datatype Band = Band(fill: Fill, message: string)

  /** The band appears iff the state is not `Valid`; it is filled with the
      error colour for `Error` and the warning colour otherwise. */
  function ValidationBand(state: ValidationState, message: string): (r: Option<Band>)
    ensures r.Some? <==> state != Valid
    ensures r.Some? ==> r.value.message == message
    ensures r.Some? ==> (r.value.fill == ErrorFill <==> state == Error)
    ensures r.Some? ==> (r.value.fill == WarningFill <==> state == Warning)
  {
    if state == Valid then None
    else Some(Band(if state == Error then ErrorFill else WarningFill, message))
  }

  // Laws of the rules.

  /** A single-link port that already holds a link is never offered: it
      neither attracts nor repels. */
  lemma OccupiedSinglePortRests(s: NodeState, q: PortQueries, lookup: ConverterLookup, p: PortRef)
    requires IsPort(s, p)
    requires q.policy(p.side, p.index) == One && Entries(s, p.side)[p.index] != []
    ensures PortReaction(s, q, lookup, p) == Rest
  {
  }

  /** A node that is not reacting draws every port at rest. */
  lemma IdleNodeRests(s: NodeState, q: PortQueries, lookup: ConverterLookup)
    requires !s.reacting
    ensures forall p | IsPort(s, p) :: PortReaction(s, q, lookup, p) == Rest
  {
  }

  /** Equal ids are compatible whatever the names and the converters. */
  lemma SameIdCompatible(t: PortType, a: DataType, b: DataType, lookup: ConverterLookup)
    requires a.id == b.id
    ensures TypeCompatible(t, a, b, lookup)
  {
  }

  /** Without a converter, compatibility is id equality: names never
      matter. */
  lemma NamesIgnored(t: PortType, a: DataType, b: DataType)
    ensures TypeCompatible(t, a, b, (x, y) => "") <==> a.id == b.id
    ensures TypeCompatible(t, a, b, (x, y) => "")
            <==> TypeCompatible(t, a.(name := ""), b.(name := ""), (x, y) => "")
  {
  }

  /** The lookup always asks source-to-target: dragging `a` onto an input
      port of type `b` is the same question as dragging `b` onto an output
      port of type `a`. */
  lemma CompatibilityOrientation(a: DataType, b: DataType, lookup: ConverterLookup)
    ensures TypeCompatible(In, a, b, lookup) <==> TypeCompatible(Out, b, a, lookup)
  {
  }

  /** The lookup is direction-sensitive: with a one-way converter from
      numbers to text, a number dragged onto a text input is accepted, but
      dragged onto a text output it is refused. */
  lemma ConverterDirectionMatters()
    ensures
      var number := DataType("number", "Number");
      var text := DataType("text", "Text");
      var lookup: ConverterLookup := (x: DataType, y: DataType) =>
        if x.id == "number" && y.id == "text" then "NumberToText" else "";
      TypeCompatible(In, number, text, lookup) && !TypeCompatible(Out, number, text, lookup)
  {
  }

  /** A label is empty only when both the caption and the type name are. */
  lemma LabelEmptyIff(caption: string, dataType: DataType)
    ensures EntryLabel(caption, dataType) == "" <==> caption == "" && dataType.name == ""
  {
  }
}
