/** The tagged events that cross the boundary between the engine and the shim. */
module Boundary {
  import opened Utf16

  /** UnityPeerJS.EventType. `None` is never queued: it is only the answer
      to "what is next?" when the queue is empty. */
  datatype EventType =
    | None
    | Initialized
    | Connected
    | Received
    | ConnClosed
    | PeerDisconnected
    | PeerClosed
    | Error
  {
    /** The integer the boundary carries for this tag. */
    function Code(): int {
      match this
      case None => 0
      case Initialized => 1
      case Connected => 2
      case Received => 3
      case ConnClosed => 4
      case PeerDisconnected => 5
      case PeerClosed => 6
      case Error => 7
    }
  }

  /** The Data field of an event: a byte array, or null. */
  datatype Payload = Null | Bytes(bytes: seq<byte>)

  /** The mock backend's Event record. Fields a producer leaves unset keep
      their .NET defaults: Conn is 0 and Data is null. */
  datatype Event = Event(kind: EventType, conn: int, data: Payload)
}
