# UnityPeerJS shim and dinosaur command reader, modelled in Dafny

This project models the boundary shim of a Unity game that talks to the
PeerJS peer-to-peer library. The game keeps `Peer` and `Connection`
objects on its side. It reaches the engine only through integer handles,
raw byte buffers and a queue of tagged events. `Peer.Pump` drains that
queue and turns each event into a notification for the game.

The model covers the in-process mock engine that replaces the JavaScript
binding outside WebGL builds. It also covers the small command reader of
the dinosaur scene, which turns a server message into the dinosaur's next
action.

The project has seven modules:

- `Exceptions`: the .NET exceptions the code can raise, as `Outcome` values
  (`Ok(value)` or `Throws(fault)`).
- `Utf16`: the byte encoding identifiers use at the boundary. Identifiers
  are little-endian UTF-16 code units ended by a zero code unit.
  - `DecodeZ` is the declarative decoder.
  - `Encode` is `Encoding.Unicode.GetBytes`.
  - `Units` reads whole code units back.
  - `UntilNul` cuts at the first zero code unit.
- `Boundary`: the `EventType` tags and the mock's `Event` record.
- `MockBackend`: class `Backend`, the static state of the mock.
  - One event queue is shared by every mock peer. It is static in the
    C# code.
  - A list of mock peers, each holding the targets of its connections.
  - Every entry point of the mock as a method. Each method states its
    result, its exceptions and the new queue and peer list.
- `UnityPeerJS`: classes `Peer` and `Connection`.
  - `Pump` is proved against the pure functions `Step`, `Drain` and
    `EndOf`. `EndOf` also gives the state and queue a throwing Pump leaves
    behind.
  - Game-visible callbacks (`OnOpen`, `OnConnection`, `OnData`) are recorded
    as a trace of `Notification`s.
  - The lemmas about `Drain` state three facts:
    - FIFO order of the trace;
    - which connection handles a drain registers, and with which remote id;
    - loopback delivery of sent bytes.
- `SocketScript`: the command before the first CRLF of a server message,
  the command table, and class `SocketScript`. Its `SocketResponse` updates
  `command` and the controller's `action`.
- `Scenarios`: two clients that use only the contracts.
  - A loopback round trip: open, connect to "bob", send three bytes.
  - Two peers sharing the mock's single queue.

The mock's queue is one static `Queue<Event>`
(Assets/Plugins/UnityPeerJS.cs:366), so the model follows it:

- every `Peer` holds the same `Backend`;
- whichever peer pumps first receives every pending event, including
  events another peer caused;
- a `Connected` event is looked up in the list of the peer that pops it
  (Assets/Plugins/UnityPeerJS.cs:469-470).

`SharedQueueScenario` shows the first peer taking both `Initialized`
events.

## Model

| member | source | states |
|---|---|---|
| Utf16.Encode | Assets/Plugins/UnityPeerJS.cs:472 | Encoding.Unicode.GetBytes: exactly two bytes per code unit |
| Utf16.Units | Assets/Plugins/UnityPeerJS.cs:217 | Encoding.Unicode.GetString over a byte range: the whole byte pairs of the range, low byte first, one code unit each; DecodeUtf16Z only passes even lengths |
| Utf16.UntilNul | Assets/Plugins/UnityPeerJS.cs:426 | the result is a prefix of the input, holds no zero code unit, and is followed in the input by a zero code unit unless it is all of it |
| Utf16.DecodeZ | Assets/Plugins/UnityPeerJS.cs:212-218 | decoding a null-terminated buffer never yields more code units than the buffer holds whole, and never yields a zero code unit |
| Utf16.UnitsOfEncode | Assets/Plugins/UnityPeerJS.cs:472 | reading back the bytes of an encoded string gives the string again |
| Utf16.EncodeOfUnits | Assets/Plugins/UnityPeerJS.cs:217 | encoding the code units of an even-length byte sequence gives back the bytes |
| Utf16.UnitsAt | Assets/Plugins/UnityPeerJS.cs:215 | code unit k is built from bytes 2k (low) and 2k+1 (high) |
| Utf16.UnitsPrefix | Assets/Plugins/UnityPeerJS.cs:217 | decoding the first n bytes gives the first n/2 code units of the whole buffer |
| Utf16.UnitsAppend | Assets/Plugins/UnityPeerJS.cs:217 | decoding distributes over concatenation when the first part has even length |
| Utf16.UnitsOfZeros | Assets/Plugins/UnityPeerJS.cs:102 | a freshly allocated buffer decodes to zero code units only |
| Utf16.UntilNulIs | Assets/Plugins/UnityPeerJS.cs:215 | a prefix with no zero code unit, followed by a zero code unit or the end, is exactly what UntilNul keeps |
| Utf16.UntilNulPadded | Assets/Plugins/UnityPeerJS.cs:102 | trailing zero code units do not change the decoded identifier |
| Utf16.UntilNulTake | Assets/Plugins/UnityPeerJS.cs:474 | cutting the code units before or after the zero-stop gives the same identifier |
| Utf16.DecodeZWithoutTerminator | Assets/Plugins/UnityPeerJS.cs:215-217 | with no aligned zero code unit, the whole buffer is decoded, an odd trailing byte ignored |
| Utf16.DecodeZStopsAtTerminator | Assets/Plugins/UnityPeerJS.cs:215-217 | decoding stops at the first zero code unit at an even offset, decoding exactly the bytes in front of it |
| Utf16.MarshalledDecodes | Assets/Plugins/UnityPeerJS.cs:189-191 | a string laid out by StringToHGlobalUni and read back by PtrToStringUni is its part before the first zero code unit |
| Utf16.ScanDecodes | Assets/Plugins/UnityPeerJS.cs:214-217 | when the scan stops at code unit k, with no zero unit before it and either a zero pair or fewer than two bytes after it, the 2k bytes it hands to GetString decode to DecodeZ of the buffer |
| Utf16.CopiedIdDecodes | Assets/Plugins/UnityPeerJS.cs:102-109 | a target copied, cut to the capacity, into a zeroed buffer decodes to the target before its first zero code unit, cut to capacity/2 code units |
| MockBackend.MarshalCopy | Assets/Plugins/UnityPeerJS.cs:475 | the first `length` bytes are copied and the rest of the destination is untouched; a negative length or one past the end of the managed array throws and writes nothing |
| MockBackend.Backend.constructor | Assets/Plugins/UnityPeerJS.cs:366 | the mock starts with an empty queue and no peers |
| MockBackend.Backend.OpenPeer | Assets/Plugins/UnityPeerJS.cs:417-422 | the handle is the number of peers opened before, a peer with no connections is appended, and exactly one Initialized event is enqueued |
| MockBackend.Backend.Connect | Assets/Plugins/UnityPeerJS.cs:375-380 | the connection handle is the peer's prior connection count, the decoded target is appended, and one Connected event with that handle is enqueued at the tail; a bad peer handle throws and changes nothing |
| MockBackend.Backend.Send | Assets/Plugins/UnityPeerJS.cs:429-435 | a Received event with exactly the `length` sent bytes (possibly none) is enqueued; a negative length or a bad peer handle throws and changes nothing |
| MockBackend.Backend.ConnClose | Assets/Plugins/UnityPeerJS.cs:437-440 | always throws NotImplementedException |
| MockBackend.Backend.PeerDisconnect | Assets/Plugins/UnityPeerJS.cs:442-445 | always throws NotImplementedException |
| MockBackend.Backend.PeerDestroy | Assets/Plugins/UnityPeerJS.cs:447-450 | always throws NotImplementedException |
| MockBackend.Backend.NextEventType | Assets/Plugins/UnityPeerJS.cs:382-387 | None exactly when the queue is empty, otherwise the head's tag; the queue is only read |
| MockBackend.Backend.PopEvent | Assets/Plugins/UnityPeerJS.cs:389-395 | removes and returns exactly the head even when its tag is not the expected one (that is only flagged); an empty queue throws |
| MockBackend.Backend.PeekEvent | Assets/Plugins/UnityPeerJS.cs:402-408 | returns the head without removing it; the mismatch flag as in PopEvent |
| MockBackend.Backend.PopAnyEvent | Assets/Plugins/UnityPeerJS.cs:457-460 | drops the head whatever its tag |
| MockBackend.Backend.PopInitializedEvent | Assets/Plugins/UnityPeerJS.cs:462-465 | drops the head |
| MockBackend.Backend.PopConnectedEvent | Assets/Plugins/UnityPeerJS.cs:467-478 | pops the head, and copies min(bytes of the target, capacity) bytes of the UTF-16 target, writing nothing at or past that count; returns the event's handle; each exception case and its effect |
| MockBackend.Backend.PeekReceivedEventSize | Assets/Plugins/UnityPeerJS.cs:480-484 | the untruncated payload length of the head, without popping; a null payload throws |
| MockBackend.Backend.PopReceivedEvent | Assets/Plugins/UnityPeerJS.cs:486-493 | pops the head, and copies min(payload length, capacity) bytes, writing nothing past them; returns the event's handle |
| MockBackend.Backend.PopConnClosedEvent | Assets/Plugins/UnityPeerJS.cs:495-498 | always throws NotImplementedException |
| MockBackend.Backend.PopPeerDisconnectedEvent | Assets/Plugins/UnityPeerJS.cs:500-503 | always throws NotImplementedException |
| MockBackend.Backend.PopPeerClosedEvent | Assets/Plugins/UnityPeerJS.cs:505-508 | always throws NotImplementedException |
| MockBackend.Backend.PopErrorEvent | Assets/Plugins/UnityPeerJS.cs:510-513 | always throws NotImplementedException |
| UnityPeerJS.RemoteIdOf | Assets/Plugins/UnityPeerJS.cs:102-109 | the remote id of a connection is a prefix of its target, at most 128 code units long, holding no zero code unit |
| UnityPeerJS.Step | Assets/Plugins/UnityPeerJS.cs:88-179 | one pass of Pump's switch: when it does not throw it keeps every registered handle and adds at most one notification after the old ones; None changes nothing |
| UnityPeerJS.Drain | Assets/Plugins/UnityPeerJS.cs:86-180 | Pump's loop, one Step per event: when it does not throw it keeps every registered handle and adds at most one notification per event after the old ones |
| UnityPeerJS.EndOf | Assets/Plugins/UnityPeerJS.cs:86-180 | where Pump's loop stops: what is left queued is never longer than the queue it started on; EndOfRest, EndOfDrained and EndOfFailing state what it is |
| UnityPeerJS.EndOfRest | Assets/Plugins/UnityPeerJS.cs:86-180 | Pump only removes events from the head: what it leaves queued is a tail of the queue it started on |
| UnityPeerJS.EndOfDrained | Assets/Plugins/UnityPeerJS.cs:86-180 | a Pump that does not throw ends in Drain's state with an empty queue |
| UnityPeerJS.StepThenDrain | Assets/Plugins/UnityPeerJS.cs:86-88 | after a step at the head that does not throw, Pump goes on with the rest of the queue from that step's state |
| UnityPeerJS.FailsAtCons | Assets/Plugins/UnityPeerJS.cs:86-88 | a failure at position j after a successful first step is a failure at position j + 1 of the whole queue |
| UnityPeerJS.EndOfFailing | Assets/Plugins/UnityPeerJS.cs:100-163 | a Pump that throws fails at some event q[j] of the queue: the events in front of it drain to the final state, the step of q[j] from that state throws Drain's exception, and what is left queued is everything behind q[j], with q[j] itself at the head when it had not been popped (so the next Pump throws the same exception) and without it when it had (Connected, Received with data) |
| UnityPeerJS.StepReports | Assets/Plugins/UnityPeerJS.cs:88-133 | each handled event adds exactly one notification, which reports that event and, for a connection, the remote id decoded from the peer's own target |
| UnityPeerJS.DrainReportsInOrder | Assets/Plugins/UnityPeerJS.cs:86-133 | a successful drain adds one notification per queued event, in queue order (FIFO, nothing dropped or reordered) |
| UnityPeerJS.DrainAppend | Assets/Plugins/UnityPeerJS.cs:86 | draining q1 + q2 is draining q1 and then q2 |
| UnityPeerJS.DrainRegistersAnnounced | Assets/Plugins/UnityPeerJS.cs:100-117 | after a successful drain the connection handles are exactly the old ones plus those announced by Connected events; each announced handle maps to the decoded target; the other handles keep their remote id |
| UnityPeerJS.RemoteIdOfPlainTarget | Assets/Plugins/UnityPeerJS.cs:102-111 | a target of at most 128 code units with no zero code unit arrives as the RemoteId unchanged |
| UnityPeerJS.LoopbackDelivers | Assets/Plugins/UnityPeerJS.cs:119-133 | bytes sent on an open connection are delivered to it, unchanged, after what was queued before them |
| UnityPeerJS.BufferedIdDecodes | Assets/Plugins/UnityPeerJS.cs:102-109 | the 256-byte buffer Pump hands out, filled with as much of the target as fits, decodes to the target before its first zero code unit, cut to 128 code units |
| UnityPeerJS.Peer.constructor | Assets/Plugins/UnityPeerJS.cs:67-78 | the peer's handle is the number of peers opened before it; one Initialized event is queued; no connections |
| UnityPeerJS.Peer.DecodeUtf16Z | Assets/Plugins/UnityPeerJS.cs:212-218 | the scanning loop decodes exactly DecodeZ of the buffer |
| UnityPeerJS.Peer.Pump | Assets/Plugins/UnityPeerJS.cs:83-181 | the connections and notifications become Drain of the old state and queue; on success the queue is left empty; a failure surfaces the first exception Drain meets and leaves the state and queue EndOf gives |
| UnityPeerJS.Peer.HandleEvent | Assets/Plugins/UnityPeerJS.cs:88-179 | one pass of the switch does exactly Step on the head event and pops it; when it throws, the state is unchanged and the head is popped exactly for Connected and for Received with data |
| UnityPeerJS.Peer.HandleConnected | Assets/Plugins/UnityPeerJS.cs:100-117 | the Connected case registers a Connection under the popped handle whose RemoteId is the target decoded from the 256-byte buffer; a handle outside the peer's own connections throws after the event is popped |
| UnityPeerJS.Peer.HandleReceived | Assets/Plugins/UnityPeerJS.cs:119-133 | the Received case sizes the buffer from the peek, so the delivered bytes are the queued payload; an unknown handle throws KeyNotFoundException after the event is popped; a null payload throws before anything is popped |
| UnityPeerJS.Peer.Connect | Assets/Plugins/UnityPeerJS.cs:187-194 | the engine records the remote id up to its first zero code unit and queues Connected for the next handle |
| UnityPeerJS.Peer.Disconnect | Assets/Plugins/UnityPeerJS.cs:199-202 | reaches PeerDisconnect, which throws NotImplementedException |
| UnityPeerJS.Peer.Destroy | Assets/Plugins/UnityPeerJS.cs:207-210 | reaches PeerDestroy, which throws NotImplementedException |
| UnityPeerJS.Connection.constructor | Assets/Plugins/UnityPeerJS.cs:266-271 | peer, handle and RemoteId are fixed at creation |
| UnityPeerJS.Connection.Send | Assets/Plugins/UnityPeerJS.cs:285-290 | the whole buffer is queued as a Received event for this connection's handle |
| UnityPeerJS.Connection.Close | Assets/Plugins/UnityPeerJS.cs:292-295 | reaches ConnClose, which throws NotImplementedException |
| Scenarios.DrainOpened | Assets/Plugins/UnityPeerJS.cs:90-98 | an Initialized event is reported as Opened |
| Scenarios.DrainConnectedToBob | Assets/Plugins/UnityPeerJS.cs:100-117 | the Connected event for the first target opens handle 0 with that target as RemoteId |
| Scenarios.DrainReceived | Assets/Plugins/UnityPeerJS.cs:119-133 | a Received event on an open handle is reported with its payload |
| Scenarios.OpenedPeer | Assets/Plugins/UnityPeerJS.cs:417-422 | a peer opened on a fresh engine gets handle 0, and one Pump reports Opened and empties the queue |
| Scenarios.ConnectedToBob | Assets/Plugins/UnityPeerJS.cs:375-380 | connecting that peer to "bob" and pumping registers handle 0 with RemoteId "bob" |
| Scenarios.SentBack | Assets/Plugins/UnityPeerJS.cs:397-399 | after the connection to "bob", sending [1, 2, 3] on handle 0 and pumping adds Data(0, [1, 2, 3]) to the trace |
| Scenarios.LoopbackScenario | Assets/Plugins/UnityPeerJS.cs:397-399 | open, connect to "bob" and send [1, 2, 3], pumping after each: the trace is Opened, NewConnection(0, "bob"), Data(0, [1, 2, 3]) |
| Scenarios.SharedQueueScenario | Assets/Plugins/UnityPeerJS.cs:366 | two peers get handles 0 and 1; the first to pump receives both Initialized events and the second receives none |
| SocketScript.DinoController.constructor | Assets/Scripts/DinoController.cs:37-43 | Start leaves the dinosaur idle |
| SocketScript.SocketScript.constructor | Assets/Scripts/socketScript.cs:43-45 | Start keeps the dinosaur's DinoController; the command starts empty |
| SocketScript.IndexOfCrlf | Assets/Scripts/socketScript.cs:137 | -1 exactly when the message holds no CRLF, otherwise the position of its first CRLF |
| SocketScript.CommandOf | Assets/Scripts/socketScript.cs:137 | the command is the prefix in front of the first CRLF; it throws ArgumentOutOfRangeException exactly when there is no CRLF |
| SocketScript.CommandOfFramed | Assets/Scripts/socketScript.cs:137 | a command with no CRLF of its own, followed by CRLF and anything, is read back as itself |
| SocketScript.ActionAfter | Assets/Scripts/socketScript.cs:139-163 | FAR→Hit, NEAR→Jumping, LEFT→LookLeft, RIGHT→LookRight, UP→Jumping, DOWN→Idle; any other command keeps the current action |
| SocketScript.FramedCommandSelects | Assets/Scripts/socketScript.cs:137-162 | every table command, sent framed by CRLF, selects its action whatever the dinosaur was doing |
| SocketScript.SocketScript.SocketResponse | Assets/Scripts/socketScript.cs:124-169 | an empty message changes nothing; otherwise the command before the first CRLF is stored and selects the action through the table; a message without CRLF throws and changes nothing |

## Left out

- The WebGL build's binding to foreign JavaScript
  (Assets/Plugins/UnityPeerJS.cs:299-349). Its code is not shown. Only the
  mock engine is modelled.
- GCHandle pinning and the Marshal string plumbing (`StringToHGlobalUni`,
  `PtrToStringUni`, `FreeHGlobal`). Native buffers are byte sequences or
  arrays, and `Marshal.Copy` is `MarshalCopy`.
- Reads or writes through a native address past the end of the native
  buffer are undefined behaviour, not an exception. The methods that take
  such an address therefore require the stated length to fit that buffer.
  The managed side of `Marshal.Copy` is range-checked and throws, and
  `MarshalCopy` models that throw.
- Game callbacks (`OnOpen`, `OnConnection`, `OnData`) are modelled as a
  recorded trace of notifications. Whether a handler is subscribed is not
  modelled.
- UnityPeerJS.Peer.Pump: the handlers are assumed not to call back into
  the shim. In the C# code, a handler that calls `Send` or `Connect`
  enqueues more events during Pump, and Pump handles them in the same call.
  An echo handler would keep Pump running forever. Pump's contract and its
  termination argument hold only for handlers that do nothing.
- `Debug.Log` and `Debug.LogError` are left out. A wrongly tagged pop is
  reported only as the `wrongType` flag.
- `Init` does nothing in the mock and is not modelled.
- A null key, id, remote id or send buffer is not modelled: strings and
  the buffer passed to `Connection.Send` are always present, so the
  NullReferenceException `Send(null)` raises at `buffer.Length` is not.
  The key and id are passed to `OpenPeer`, which ignores them.
- `Encoding.Unicode` replaces unpaired surrogates with U+FFFD. This is not
  modelled: encoding and decoding pass code units through unchanged.
- The `default` branch of Pump's switch is not modelled. The engine's tag
  is an `EventType` here, and the switch names every tag but None, which
  ends the loop, so that branch cannot be taken.
- ConnClosed, PeerDisconnected, PeerClosed and Error events have no model
  beyond the exception. The mock never produces them, and their pops, like
  `ConnClose`, `PeerDisconnect` and `PeerDestroy`, only throw
  NotImplementedException.
- `socketScript` TCP plumbing (`TCPConnection`, `setupSocket`,
  `readSocket`, `writeSocket`, `SendToServer`) is network I/O. The message
  read from the socket is a parameter of `SocketResponse` and is never
  null.
- SocketScript.IndexOfCrlf: `String.IndexOf(string)` compares
  culture-sensitively. The model compares ordinally, which agrees for the
  ASCII commands of the table.
- DinoController's animation, random idle choice and rotation, and
  LeaderScript, are left out. DinoController is reduced to its `action`
  field.
