/** The in-process mock engine that stands in for the PeerJS JavaScript
    binding outside WebGL builds: every request enqueues the event a real
    engine would deliver later. Its state is static in the C# code, so one
    Backend object stands for all of it and every Peer shares it. */
module MockBackend {
  import opened Utf16
  import opened Exceptions
  import opened Boundary

  /** Marshal.Copy from a managed byte array to native memory: the first
      `length` bytes of `source` overwrite the start of `destination`. A
      negative length, or one beyond the end of the managed array, is
      rejected and nothing is written. */
  method MarshalCopy(source: seq<byte>, destination: array<byte>, length: int) returns (r: Outcome<()>)
    requires length <= destination.Length
    modifies destination
    ensures (length < 0 || |source| < length) ==>
      r == Throws(ArgumentOutOfRange) && destination[..] == old(destination[..])
    ensures 0 <= length <= |source| ==>
      r == Ok(()) && destination[..] == source[..length] + old(destination[length..])
  {
    if length < 0 || |source| < length {
      return Throws(ArgumentOutOfRange);
    }
    var i := 0;
    while i < length
      invariant 0 <= i <= length
      invariant forall j :: 0 <= j < i ==> destination[j] == source[j]
      invariant forall j :: i <= j < destination.Length ==> destination[j] == old(destination[j])
    {
      destination[i] := source[i];
      i := i + 1;
    }
    r := Ok(());
  }

  class Backend {
    /** The static Queue<Event> that every mock peer enqueues to and pops from. */
    var queue: seq<Event>
    /** The static _mockPeers list: for each mock peer, by handle, the Target
        of each of its MockConns, by connection handle. */
    var peers: seq<seq<seq<CodeUnit>>>

    /** No queued event carries the tag None. */
    ghost predicate Valid()
      reads this
    {
      forall i :: 0 <= i < |queue| ==> queue[i].kind != None
    }

    constructor ()
      ensures Valid() && queue == [] && peers == []
    {
      queue := [];
      peers := [];
    }

    /** OpenPeer: the new mock peer's handle is the number of peers opened
        before it, and its constructor enqueues one Initialized event. The
        key and id are not looked at. */
    method OpenPeer(keyStr: seq<byte>, idStr: seq<byte>) returns (handle: int)
      requires Valid()
      modifies this
      ensures Valid()
      ensures handle == |old(peers)|
      ensures peers == old(peers) + [[]]
      ensures queue == old(queue) + [Event(Initialized, 0, Null)]
    {
      handle := |peers|;
      queue := queue + [Event(Initialized, 0, Null)];
      peers := peers + [[]];
    }

    /** Connect (with MockPeer.Connect): the target read back from the
        null-terminated string is appended to the peer's connections, and a
        Connected event carrying its handle, the prior count, is enqueued. */
    method Connect(peerInstance: int, remoteIdStr: seq<byte>) returns (r: Outcome<()>)
      requires Valid()
      modifies this
      ensures Valid()
      ensures 0 <= peerInstance < |old(peers)| ==>
        && r == Ok(())
        && peers == old(peers)[peerInstance := old(peers[peerInstance]) + [DecodeZ(remoteIdStr)]]
        && queue == old(queue) + [Event(Connected, |old(peers[peerInstance])|, Null)]
      ensures !(0 <= peerInstance < |old(peers)|) ==>
        r == Throws(ArgumentOutOfRange) && peers == old(peers) && queue == old(queue)
    {
      if !(0 <= peerInstance < |peers|) {
        return Throws(ArgumentOutOfRange);
      }
      var target := DecodeZ(remoteIdStr);
      var connId := |peers[peerInstance]|;
      peers := peers[peerInstance := peers[peerInstance] + [target]];
      queue := queue + [Event(Connected, connId, Null)];
      r := Ok(());
    }

    /** Send (with MockPeer.Send): a copy of the `length` bytes at `ptr` is
        enqueued as a Received event for `connInstance`, which is not
        checked against the peer's connections. */
    method Send(peerInstance: int, connInstance: int, ptr: array<byte>, length: int) returns (r: Outcome<()>)
      requires Valid()
      requires length <= ptr.Length
      modifies this
      ensures Valid() && peers == old(peers)
      ensures length < 0 ==> r == Throws(Overflow) && queue == old(queue)
      ensures 0 <= length && !(0 <= peerInstance < |peers|) ==>
        r == Throws(ArgumentOutOfRange) && queue == old(queue)
      ensures 0 <= length && 0 <= peerInstance < |peers| ==>
        r == Ok(()) && queue == old(queue) + [Event(Received, connInstance, Bytes(ptr[..length]))]
    {
      if length < 0 {
        return Throws(Overflow);
      }
      var bytes := ptr[..length];
      if !(0 <= peerInstance < |peers|) {
        return Throws(ArgumentOutOfRange);
      }
      queue := queue + [Event(Received, connInstance, Bytes(bytes))];
      r := Ok(());
    }

    /** ConnClose, PeerDisconnect and PeerDestroy are not implemented by the mock. */
    method ConnClose(peerInstance: int, connInstance: int) returns (r: Outcome<()>)
      ensures r == Throws(NotImplemented)
    {
      r := Throws(NotImplemented);
    }

    method PeerDisconnect(peerInstance: int) returns (r: Outcome<()>)
      ensures r == Throws(NotImplemented)
    {
      r := Throws(NotImplemented);
    }

    method PeerDestroy(peerInstance: int) returns (r: Outcome<()>)
      ensures r == Throws(NotImplemented)
    {
      r := Throws(NotImplemented);
    }

    /** NextEventType (with MockPeer.NextEventType): the head's tag, whose
        code is 0 exactly when the queue is empty. Changes nothing. */
    method NextEventType(peerInstance: int) returns (r: Outcome<EventType>)
      requires Valid()
      ensures !(0 <= peerInstance < |peers|) ==> r == Throws(ArgumentOutOfRange)
      ensures 0 <= peerInstance < |peers| ==>
        && r.Ok?
        && (r.value.Code() == 0 <==> queue == [])
        && (queue != [] ==> r.value == queue[0].kind)
    {
      if !(0 <= peerInstance < |peers|) {
        return Throws(ArgumentOutOfRange);
      }
      if |queue| == 0 {
        return Ok(None);
      }
      r := Ok(queue[0].kind);
    }

    /** MockPeer.PopEvent: removes and returns the head whatever its tag; a
        tag other than the expected one (None expects any) is only reported. */
    method PopEvent(et: EventType) returns (r: Outcome<Event>, wrongType: bool)
      requires Valid()
      modifies this
      ensures Valid() && peers == old(peers)
      ensures old(queue) == [] ==> r == Throws(InvalidOperation) && queue == old(queue) && !wrongType
      ensures old(queue) != [] ==>
        && r == Ok(old(queue)[0])
        && queue == old(queue)[1..]
        && wrongType == (et != None && et != old(queue)[0].kind)
    {
      if |queue| == 0 {
        return Throws(InvalidOperation), false;
      }
      var ev := queue[0];
      queue := queue[1..];
      r, wrongType := Ok(ev), et != None && et != ev.kind;
    }

    /** MockPeer.PeekEvent: the head, left in place; a tag other than the
        expected one is only reported. */
    method PeekEvent(et: EventType) returns (r: Outcome<Event>, wrongType: bool)
      ensures queue == [] ==> r == Throws(InvalidOperation) && !wrongType
      ensures queue != [] ==> r == Ok(queue[0]) && wrongType == (et != None && et != queue[0].kind)
    {
      if |queue| == 0 {
        return Throws(InvalidOperation), false;
      }
      var ev := queue[0];
      r, wrongType := Ok(ev), et != None && et != ev.kind;
    }

    /** PopAnyEvent: drops the head, whatever it is. */
    method PopAnyEvent(peerInstance: int) returns (r: Outcome<()>)
      requires Valid()
      modifies this
      ensures Valid() && peers == old(peers)
      ensures !(0 <= peerInstance < |peers|) ==> r == Throws(ArgumentOutOfRange) && queue == old(queue)
      ensures 0 <= peerInstance < |peers| && old(queue) == [] ==> r == Throws(InvalidOperation) && queue == old(queue)
      ensures 0 <= peerInstance < |peers| && old(queue) != [] ==> r == Ok(()) && queue == old(queue)[1..]
    {
      if !(0 <= peerInstance < |peers|) {
        return Throws(ArgumentOutOfRange);
      }
      var ev, _ := PopEvent(None);
      r := if ev.Ok? then Ok(()) else Throws(ev.fault);
    }

    /** PopInitializedEvent: drops the head, expected to be Initialized. */
    method PopInitializedEvent(peerInstance: int) returns (r: Outcome<()>)
      requires Valid()
      modifies this
      ensures Valid() && peers == old(peers)
      ensures !(0 <= peerInstance < |peers|) ==> r == Throws(ArgumentOutOfRange) && queue == old(queue)
      ensures 0 <= peerInstance < |peers| && old(queue) == [] ==> r == Throws(InvalidOperation) && queue == old(queue)
      ensures 0 <= peerInstance < |peers| && old(queue) != [] ==> r == Ok(()) && queue == old(queue)[1..]
    {
      if !(0 <= peerInstance < |peers|) {
        return Throws(ArgumentOutOfRange);
      }
      var ev, _ := PopEvent(Initialized);
      r := if ev.Ok? then Ok(()) else Throws(ev.fault);
    }

    /** PopConnectedEvent: pops the head, looks its Conn up in this peer's
        own connections, and copies the target's UTF-16 bytes, cut to
        `remoteIdMaxLength`, to `remoteIdPtr`; returns the connection handle.
        Nothing at or beyond `remoteIdMaxLength` is written. */
    method PopConnectedEvent(peerInstance: int, remoteIdPtr: array<byte>, remoteIdMaxLength: int)
      returns (r: Outcome<int>)
      requires Valid()
      requires remoteIdMaxLength <= remoteIdPtr.Length
      modifies this, remoteIdPtr
      ensures Valid() && peers == old(peers)
      ensures !(0 <= peerInstance < |peers|) ==>
        r == Throws(ArgumentOutOfRange) && queue == old(queue) && remoteIdPtr[..] == old(remoteIdPtr[..])
      ensures 0 <= peerInstance < |peers| && old(queue) == [] ==>
        r == Throws(InvalidOperation) && queue == old(queue) && remoteIdPtr[..] == old(remoteIdPtr[..])
      ensures 0 <= peerInstance < |peers| && old(queue) != [] ==> queue == old(queue)[1..]
      ensures 0 <= peerInstance < |peers| && old(queue) != [] && !(0 <= old(queue)[0].conn < |peers[peerInstance]|) ==>
        r == Throws(ArgumentOutOfRange) && remoteIdPtr[..] == old(remoteIdPtr[..])
      ensures 0 <= peerInstance < |peers| && old(queue) != [] && 0 <= old(queue)[0].conn < |peers[peerInstance]| ==>
        var bytes := Encode(peers[peerInstance][old(queue)[0].conn]);
        var n := Min(|bytes|, remoteIdMaxLength);
        && (n < 0 ==> r == Throws(ArgumentOutOfRange) && remoteIdPtr[..] == old(remoteIdPtr[..]))
        && (0 <= n ==> r == Ok(old(queue)[0].conn) && remoteIdPtr[..] == bytes[..n] + old(remoteIdPtr[n..]))
    {
      if !(0 <= peerInstance < |peers|) {
        return Throws(ArgumentOutOfRange);
      }
      var popped, _ := PopEvent(Connected);
      if popped.Throws? {
        return Throws(popped.fault);
      }
      var ev := popped.value;
      if !(0 <= ev.conn < |peers[peerInstance]|) {
        return Throws(ArgumentOutOfRange);
      }
      var bytes := Encode(peers[peerInstance][ev.conn]);
      var length := |bytes|;
      if length > remoteIdMaxLength {
        length := remoteIdMaxLength;
      }
      var copied := MarshalCopy(bytes, remoteIdPtr, length);
      if copied.Throws? {
        return Throws(copied.fault);
      }
      r := Ok(ev.conn);
    }

    /** PeekReceivedEventSize: the full length of the head's payload, left
        in place. */
    method PeekReceivedEventSize(peerInstance: int) returns (r: Outcome<int>)
      ensures !(0 <= peerInstance < |peers|) ==> r == Throws(ArgumentOutOfRange)
      ensures 0 <= peerInstance < |peers| && queue == [] ==> r == Throws(InvalidOperation)
      ensures 0 <= peerInstance < |peers| && queue != [] && queue[0].data.Null? ==> r == Throws(NullReference)
      ensures 0 <= peerInstance < |peers| && queue != [] && queue[0].data.Bytes? ==> r == Ok(|queue[0].data.bytes|)
    {
      if !(0 <= peerInstance < |peers|) {
        return Throws(ArgumentOutOfRange);
      }
      var peeked, _ := PeekEvent(Received);
      if peeked.Throws? {
        return Throws(peeked.fault);
      }
      match peeked.value.data
      case Null => r := Throws(NullReference);
      case Bytes(data) => r := Ok(|data|);
    }

    /** PopReceivedEvent: pops the head and copies its payload, cut to
        `dataMaxLength`, to `dataPtr`; returns the connection handle.
        Nothing at or beyond `dataMaxLength` is written. */
    method PopReceivedEvent(peerInstance: int, dataPtr: array<byte>, dataMaxLength: int)
      returns (r: Outcome<int>)
      requires Valid()
      requires dataMaxLength <= dataPtr.Length
      modifies this, dataPtr
      ensures Valid() && peers == old(peers)
      ensures !(0 <= peerInstance < |peers|) ==>
        r == Throws(ArgumentOutOfRange) && queue == old(queue) && dataPtr[..] == old(dataPtr[..])
      ensures 0 <= peerInstance < |peers| && old(queue) == [] ==>
        r == Throws(InvalidOperation) && queue == old(queue) && dataPtr[..] == old(dataPtr[..])
      ensures 0 <= peerInstance < |peers| && old(queue) != [] ==> queue == old(queue)[1..]
      ensures 0 <= peerInstance < |peers| && old(queue) != [] && old(queue)[0].data.Null? ==>
        r == Throws(NullReference) && dataPtr[..] == old(dataPtr[..])
      ensures 0 <= peerInstance < |peers| && old(queue) != [] && old(queue)[0].data.Bytes? ==>
        var data := old(queue)[0].data.bytes;
        var n := Min(|data|, dataMaxLength);
        && (n < 0 ==> r == Throws(ArgumentOutOfRange) && dataPtr[..] == old(dataPtr[..]))
        && (0 <= n ==> r == Ok(old(queue)[0].conn) && dataPtr[..] == data[..n] + old(dataPtr[n..]))
    {
      if !(0 <= peerInstance < |peers|) {
        return Throws(ArgumentOutOfRange);
      }
      var popped, _ := PopEvent(Received);
      if popped.Throws? {
        return Throws(popped.fault);
      }
      var ev := popped.value;
      if ev.data.Null? {
        return Throws(NullReference);
      }
      var length := |ev.data.bytes|;
      if length > dataMaxLength {
        length := dataMaxLength;
      }
      var copied := MarshalCopy(ev.data.bytes, dataPtr, length);
      if copied.Throws? {
        return Throws(copied.fault);
      }
      r := Ok(ev.conn);
    }

    /** The pops of the events the mock never produces are not implemented. */
    method PopConnClosedEvent(peerInstance: int) returns (r: Outcome<int>)
      ensures r == Throws(NotImplemented)
    {
      r := Throws(NotImplemented);
    }

    method PopPeerDisconnectedEvent(peerInstance: int) returns (r: Outcome<()>)
      ensures r == Throws(NotImplemented)
    {
      r := Throws(NotImplemented);
    }

    method PopPeerClosedEvent(peerInstance: int) returns (r: Outcome<()>)
      ensures r == Throws(NotImplemented)
    {
      r := Throws(NotImplemented);
    }

    method PopErrorEvent(peerInstance: int, errorPtr: array<byte>, errorMaxLength: int) returns (r: Outcome<()>)
      ensures r == Throws(NotImplemented)
    {
      r := Throws(NotImplemented);
    }
  }
}
