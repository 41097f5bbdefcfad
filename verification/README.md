# Node record and painter decision rules of a node editor

This project models two pieces of pure logic from a Qt node-editor library.
The first is the `Node` record (`src/Node.cpp`). The second is the set of
decision rules the node painter applies before it draws (`src/NodePainter.cpp`).

- `Nodes` (node.dfy): the node is an immutable datatype. It holds an
  identifier, a position, a layer, an anchor-initialised flag, the port
  counts its data model declared, and one connection list per input port and
  per output port. The lists are sized from those counts when the node is
  built. There are pure functions for every setter, for the bounds-checked
  slot accessor, for the forwarder into the model's `setInData`, for the
  data-updated handler, and for save/restore to a structured record.
  - The data model itself is not part of the node value.
  - Calls that notify listeners or may change the model are returned next to
    the new node as an `Effect`, in the order the source makes them. These
    are the `positionChanged` signal and the model's `setInData`, `outData`
    and `restore`.
  - What the model answers to the node's queries is an input. Its port
    counts (`nPorts`) are the argument of `Create`. Its own saved record
    (the model's `save`) is an argument of `Save`.
- `NodeTrace` (node_trace.dfy): arbitrary sequences of node calls, and the
  facts that hold across all of them:
  - the slot counts never change;
  - only `restore` changes the identifier;
  - a slot nobody writes keeps its list;
  - every propagation request reaches the model exactly once, unchanged and
    in order.
- `Painter` (painter.dfy) holds the painter's rules:
  - the fan-in rule (`canConnect`);
  - type compatibility with its direction-sensitive converter lookup;
  - the gate deciding when a port attracts or repels a drag;
  - filled markers on exactly the connected ports;
  - the label fallback from caption to type name;
  - the empty-title skip;
  - the presence and fill of the validation band.

  The painter visits output ports first, then input ports, each side in
  index order. The traversal methods reproduce this order.
- `Ports` and `Options` (ports.dfy, options.dfy) hold the shared vocabulary:
  port directions, policies, data types, connection handles, validation
  states, and optional values.

The scene model's port queries (data type, caption, policy) and its
converter lookup are inputs to the painter rules. They are not given a
behaviour. The data model is likewise opaque. The node reports the calls it
makes on the model, but does not assume what the model does with them: a
save after a restore takes whatever record the model then answers.

Output ports are usually thought of as fanning out without bound. The
painter, however, asks the scene model for a policy on both sides and
applies the fan-in rule to output ports too. The model follows the code:
`PortReaction` applies the rule to both sides.

## Model

| member | source | states |
|---|---|---|
| Nodes.Create | src/Node.cpp:17-28 | A new node has exactly `nPorts(In)` input and `nPorts(Out)` output slots, each an empty list. It carries the supplied identifier and the declared port counts, sits at the default position, and its anchor flag is cleared. |
| Nodes.SetPosition | src/Node.cpp:95-107 | After `setPosition(p)`, `position()` is `p`. Exactly one `positionChanged(p)` signal is emitted, and no other field changes. |
| Nodes.SetPositionLaws | src/Node.cpp:95-107 | Two moves in a row leave the node where the second puts it. Moving a node to its current position changes no field. |
| Nodes.SetLayer | src/Node.cpp:67-75 | After `setLayer(l)`, `layer()` is `l`, and no other field changes. |
| Nodes.SetLayerLaws | src/Node.cpp:67-75 | Of two layer writes only the last counts. Writing the current layer changes nothing. |
| Nodes.SetAnchorInit | src/Node.cpp:116-124 | After `setAnchorInit(v)`, `anchorInitialized()` is `v`, and no other field changes. |
| Nodes.SetAnchorInitLaws | src/Node.cpp:116-124 | Of two anchor-flag writes only the last counts. Writing the current flag changes nothing. |
| Nodes.Connections | src/Node.cpp:127-138 | For an index below that side's slot count, the accessor returns the input list for `In` and the output list for `Out`. |
| Nodes.SetConnections | src/Node.cpp:127-138 | Writing through the returned reference changes that one slot only. Reading it back gives the written list, every other slot keeps its list, and no side is resized. |
| Nodes.SetConnectionsLaws | src/Node.cpp:127-138 | Writing a slot twice keeps the second list. Writing back the list a slot already holds leaves the node unchanged. |
| Nodes.PropagateData | src/Node.cpp:140-146 | The node makes one `setInData` call with the same data and the same, unchecked, index. The node itself is unchanged. |
| Nodes.OnDataUpdated | src/Node.cpp:149-154 | The node reads `outData(index)` once and changes no node state. |
| Nodes.Save | src/Node.cpp:34-50 | The saved record has all its fields: the node's identifier, the record the model's `save` answers, and the node's x and y coordinates as `x` and `y`. |
| Nodes.Restore | src/Node.cpp:53-65 | The identifier becomes the record's `id`, or the null identifier if absent. The position becomes the record's `x`/`y`, with 0 for an absent coordinate. Nothing else about the node changes. The effects are exactly the position signal, then one `restore` call handing the model the record's `model` part, or an empty object if absent. |
| Nodes.SaveRestoreRoundTrip | src/Node.cpp:34-65 | Restoring a record saved from node `n` onto any node gives it `n`'s identifier and position. Restore emits the position signal, then hands the model exactly the record the model saved. Every other field of the node is kept. |
| Nodes.RestoreSaveRoundTrip | src/Node.cpp:34-65 | For a complete record, restoring and then saving gives back the record's identifier and position, whatever the model then saves. |
| Nodes.SaveInjective | src/Node.cpp:34-50 | Equal saved records come from nodes with the same identifier and position, and from equal model records. |
| Nodes.RestoreDefaults | src/Node.cpp:53-65 | Each absent field of a record independently reads as Qt's default: the null identifier, 0 for a coordinate, an empty object for the model part. Each present field is taken as it is. |
| Nodes.UpdatesKeepWellFormed | src/Node.cpp:26-27 | A slot write, a move and a restore all keep one slot per declared port. |
| NodeTrace.Apply | src/Node.cpp:53-154 | No node call changes either slot count or the declared port counts. Only a restore changes the identifier. |
| NodeTrace.Run | src/Node.cpp:26-27 | Any sequence of allowed calls keeps both slot counts and the declared port counts. |
| NodeTrace.SlotCountsStable | src/Node.cpp:26-27 | A node built from a model has exactly `nPorts(In)` and `nPorts(Out)` slots after any sequence of calls. |
| NodeTrace.IdentityKept | src/Node.cpp:53-57 | Across any sequence of calls without a restore, the identifier stays the one the node was built with. |
| NodeTrace.UntouchedSlotKept | src/Node.cpp:127-138 | A slot that no call in a sequence writes keeps its list. Writing one slot never disturbs another. |
| NodeTrace.DataForwardedOnce | src/Node.cpp:140-146 | Across any sequence of calls, the model's `setInData` calls are exactly the propagation requests, in order, with the same data and index. |
| Painter.PortReaction | src/NodePainter.cpp:123-161 | A port reacts to a drag iff the node is reacting, the port can take a link, and the port is on the dragged side. A reacting port attracts iff the types are compatible and repels otherwise. |
| Painter.OccupiedSinglePortRests | src/NodePainter.cpp:123-129 | A `One`-policy port that already holds a link is never offered: it neither attracts nor repels. |
| Painter.IdleNodeRests | src/NodePainter.cpp:126-129 | When the node is not reacting, every port stays at its normal size. |
| Painter.SameIdCompatible | src/NodePainter.cpp:147 | Types with equal ids are compatible, whatever their names and the converter registry. |
| Painter.NamesIgnored | src/NodePainter.cpp:137-147 | With no converter registered, compatibility is id equality, and names never change the answer. |
| Painter.CompatibilityOrientation | src/NodePainter.cpp:137-144 | The lookup is keyed source-to-target. Dragging `a` onto an input of type `b` asks the same question as dragging `b` onto an output of type `a`. |
| Painter.ConverterDirectionMatters | src/NodePainter.cpp:137-144 | With a one-way number-to-text converter, a number dragged onto a text input is accepted. The same number dragged onto a text output is refused. |
| Painter.PaintOrder | src/NodePainter.cpp:111-179 | The painter visits every port of the node exactly once: output ports first, each side in index order. |
| Painter.PaintOrderDistinct | src/NodePainter.cpp:114-116 | No port is visited twice. |
| Painter.SidePoints | src/NodePainter.cpp:114-175 | Each port of one side, indices 0 to n-1, gets one marker, carrying that port's reaction. |
| Painter.ConnectionPoints | src/NodePainter.cpp:111-179 | Every port gets one marker, in paint order, with its own reaction. |
| Painter.SideFilled | src/NodePainter.cpp:198-204 | Of indices 0 to n-1 on one side, exactly the ports with a non-empty list get a filled marker, in index order. |
| Painter.FilledConnectionPoints | src/NodePainter.cpp:195-228 | Filled markers go on exactly the connected ports of both sides, in paint order. |
| Painter.EntryLabel | src/NodePainter.cpp:294-299 | A port label is its caption when that is non-empty. Otherwise it is the port data type's name. |
| Painter.LabelEmptyIff | src/NodePainter.cpp:294-299 | A label is empty only when both the caption and the type name are empty. |
| Painter.SideLabels | src/NodePainter.cpp:281-299 | Each port of one side gets its label. The label is faded exactly when the port has no link. |
| Painter.EntryLabels | src/NodePainter.cpp:276-325 | Every port gets one label, in paint order. Each label has the caption-or-type-name text and is faded iff the port is unconnected. |
| Painter.ModelTitle | src/NodePainter.cpp:240-244 | The node title is drawn iff the caption is non-empty, and the drawn text is the caption. |
| Painter.ValidationBand | src/NodePainter.cpp:352-381 | The band is shown iff the state is not `Valid`. Its fill is the error colour exactly for `Error` and the warning colour exactly for `Warning`, and it carries the model's message. |

## Left out

- Painting itself is not modelled, since it is presentation only:
  - pens, brushes, gradients, fonts and text metrics;
  - the node rectangle (`drawNodeRect`), the resize handle and the custom painter delegate;
  - the selected/hovered pen choice, and the data-defined colour choice.
- PortReaction: the floating-point marker radius and its distance thresholds (40 and 80) are not modelled. Only the rest/attract/repel branch that the radius formula is chosen by is modelled. Past the threshold distance an attracting or repelling marker is still drawn at normal size.
- `FlowView` is not modelled. It is a graphics-view widget: context menus, the filter tree, zoom, panning and grid drawing.
- The scene model's port queries, converter lookup, node caption and validation state come from code that is not part of this model. They are inputs with no assumed behaviour.
- The data model's behaviour is opaque. `setInData`, `outData` and `restore` are recorded as calls the node makes. What they do to the model's state is not modelled. The value `outData` returns is dropped by the source, so it is not modelled either.
- The model's `nPorts` and `save` answers are arguments (of `Create` and `Save`), not recorded calls.
- Qt signal/slot wiring in the constructor is not modelled, and neither is the destructor. `positionChanged` is an emitted `Effect`.
- JSON and `QUuid` text encoding are abstract. The saved record holds the identifier and coordinates as values, and they are assumed to survive their text round trip.
- Restore: a field that is absent or of the wrong JSON kind reads as Qt's default. That default is the null identifier, 0 for a coordinate, or an empty object.
- `rect`/`setRect` are not modelled, because the rectangle type is defined in code that is not part of this model.
- Create: `layer_` is not initialised in `Node.cpp`, so its starting value is a parameter.
- Connections: the index must lie below the slot count of the requested side. The source asserts this only in debug builds; out of range, a release build indexes past the vector.
- Connections: when the node has no ports at all, the source returns a reference to a destroyed local vector. That is undefined behaviour and a defect in the source. The same requires excludes this case instead of modelling it.
- The painter's `NodeState` entry lists are taken as given. How they track the node's connection lists is decided in code that is not part of this model.
