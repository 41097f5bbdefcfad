/** Vocabulary shared by the node and its painter: port directions, fan-in
    policies, data type descriptors, connection handles and validation states. */
module Ports {

  /** The side of a node a port sits on. */
  datatype PortType = In | Out

  /** A port index; the library uses a signed integer, so nothing stops a
      caller from passing a negative one. */
  type PortIndex = int

  /** How many links may end at a port: a single one, or any number. */
  datatype ConnectionPolicy = One | Many

  /** A data type descriptor. Only `id` takes part in compatibility; `name`
      is what a user sees. */
  datatype DataType = DataType(id: string, name: string)

  /** An opaque handle standing for a connection object. */
  datatype ConnId = ConnId(handle: nat)

  /** What a data model reports about its current inputs. */
  datatype ValidationState = Valid | Warning | Error
}
