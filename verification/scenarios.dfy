/** Clients of the shim running on the mock engine, showing what callers can
    rely on from the contracts alone. */
module Scenarios {
  import opened Utf16
  import opened Exceptions
  import opened Boundary
  import opened MockBackend
  import opened UnityPeerJS

  /** "bob" and "app1" as UTF-16 code units. */
  const Bob: seq<CodeUnit> := [0x62, 0x6F, 0x62]
  const App1: seq<CodeUnit> := [0x61, 0x70, 0x70, 0x31]

  /** An Initialized event at the head of the queue is reported as Opened,
      whatever the peer's targets are. */
  lemma {:induction false} DrainOpened(targets: seq<seq<CodeUnit>>, trace: seq<Notification>)
    ensures Drain(targets, PumpState(map[], trace), [Event(Initialized, 0, Null)])
            == Ok(PumpState(map[], trace + [Opened]))
  {
  }

  /** The Connected event for the peer's first target opens handle 0 to "bob". */
  lemma {:induction false} DrainConnectedToBob(trace: seq<Notification>)
    ensures Drain([Bob], PumpState(map[], trace), [Event(Connected, 0, Null)])
            == Ok(PumpState(map[0 := Bob], trace + [NewConnection(0, Bob)]))
  {
    var q := [Event(Connected, 0, Null)];
    assert q[1..] == [];
    RemoteIdOfPlainTarget(Bob);
  }

  /** Bytes received on an open handle are reported on that handle. */
  lemma {:induction false} DrainReceived(targets: seq<seq<CodeUnit>>, s: PumpState, payload: seq<byte>)
    requires 0 in s.connections
    ensures Drain(targets, s, [Event(Received, 0, Bytes(payload))])
            == Ok(s.(trace := s.trace + [Data(0, payload)]))
  {
  }

  /** The first stage of the loopback: a peer opened on a fresh engine and
      pumped once has reported Opened and holds no connection. */
  method OpenedPeer() returns (peer: Peer)
    ensures fresh(peer) && fresh(peer.backend)
    ensures peer.Valid() && peer.backend.Valid() && peer.peerIndex == 0
    ensures peer.backend.peers == [[]] && peer.backend.queue == []
    ensures peer.State() == PumpState(map[], [Opened])
  {
    var backend := new Backend();
    peer := new Peer(backend, App1, []);
    DrainOpened([], []);
    var _ := peer.Pump();
  }

  /** The second stage: connecting to "bob" and pumping opens handle 0 to "bob". */
  method ConnectedToBob(peer: Peer)
    requires peer.Valid() && peer.backend.Valid() && peer.peerIndex == 0
    requires peer.backend.peers == [[]] && peer.backend.queue == []
    requires peer.State() == PumpState(map[], [Opened])
    modifies peer, peer.backend
    ensures peer.Valid() && peer.backend.Valid()
    ensures peer.backend.peers == [[Bob]] && peer.backend.queue == []
    ensures peer.State() == PumpState(map[0 := Bob], [Opened, NewConnection(0, Bob)])
  {
    var _ := peer.Connect(Bob);
    UntilNulIs(Bob, |Bob|);
    assert Bob[..|Bob|] == Bob;
    assert [] + [UntilNul(Bob)] == [Bob];
    DrainConnectedToBob([Opened]);
    var _ := peer.Pump();
  }

  /** The third stage: three bytes sent on handle 0 come back on it. */
  method SentBack(peer: Peer) returns (trace: seq<Notification>)
    requires peer.Valid() && peer.backend.Valid()
    requires peer.backend.peers == [[Bob]] && peer.backend.queue == [] && peer.peerIndex == 0
    requires peer.State() == PumpState(map[0 := Bob], [Opened, NewConnection(0, Bob)])
    modifies peer, peer.backend
    ensures trace == [Opened, NewConnection(0, Bob), Data(0, [1, 2, 3])]
  {
    assert 0 in peer.State().connections;
    var conn := peer.connections[0];
    var payload := new byte[3];
    payload[0], payload[1], payload[2] := 1, 2, 3;
    assert payload[..] == [1, 2, 3];
    var _ := conn.Send(payload);
    DrainReceived([Bob], peer.State(), [1, 2, 3]);
    var _ := peer.Pump();
    trace := peer.notifications;
    assert [Opened, NewConnection(0, Bob)] + [Data(0, [1, 2, 3])] == [Opened, NewConnection(0, Bob), Data(0, [1, 2, 3])];
  }

  /** Register, connect to "bob", send three bytes, pumping after each
      step: the host sees the peer open, a connection with handle 0 to
      "bob", and the three bytes delivered back on that connection. */
  method LoopbackScenario() returns (trace: seq<Notification>)
    ensures trace == [Opened, NewConnection(0, Bob), Data(0, [1, 2, 3])]
  {
    var peer := OpenedPeer();
    ConnectedToBob(peer);
    trace := SentBack(peer);
  }

  /** The mock's event queue is static: two peers opened one after the
      other get handles 0 and 1, and the first to pump receives both
      Initialized events, leaving none for the second. */
  method SharedQueueScenario() returns (handles: seq<int>, first: seq<Notification>, second: seq<Notification>)
    ensures handles == [0, 1]
    ensures first == [Opened, Opened] && second == []
  {
    var backend := new Backend();
    var a := new Peer(backend, App1, []);
    var b := new Peer(backend, App1, []);
    ghost var init := Event(Initialized, 0, Null);
    DrainOpened([], [Opened]);
    DrainAppend([], PumpState(map[], []), [init], [init]);
    DrainOpened([], []);
    assert [init] + [init] == backend.queue;
    var r := a.Pump();
    r := b.Pump();
    handles := [a.peerIndex, b.peerIndex];
    first, second := a.notifications, b.notifications;
  }
}
