/** The managed side of the shim: a Peer owns a handle in the engine and a
    dictionary of its connections by connection handle, and its Pump drains
    the engine's event queue into host notifications. */
module UnityPeerJS {
  import opened Utf16
  import opened Exceptions
  import opened Boundary
  import opened MockBackend

  /** The size of the buffer Pump lends the engine for a remote identifier. */
  const RemoteIdBufferLength: nat := 256

  /** The size of the buffer Pump lends the engine for an error message. */
  const ErrorBufferLength: nat := 256

  /** The host-visible notifications Pump raises, in the order it raises
      them: OnOpen, OnConnection and a connection's OnData. */
  datatype Notification =
    | Opened
    | NewConnection(conn: int, remoteId: seq<CodeUnit>)
    | Data(conn: int, payload: seq<byte>)

  /** What a Peer exposes: the remote identifier of each connection by
      handle, and the notifications raised so far. */
  datatype PumpState = PumpState(connections: map<int, seq<CodeUnit>>, trace: seq<Notification>)

  /** The remote identifier a connection to `target` ends up with: the
      target up to its first zero code unit, cut to the code units the
      identifier buffer holds. */
  function RemoteIdOf(target: seq<CodeUnit>): (id: seq<CodeUnit>)
    ensures |id| <= RemoteIdBufferLength / 2 && |id| <= |target| && id == target[..|id|]
    ensures forall i :: 0 <= i < |id| ==> id[i] != 0
  {
    Truncate(UntilNul(target), RemoteIdBufferLength / 2)
  }

  /** One turn of Pump's loop on the event `e` at the head of the queue,
      for a peer whose own connections have the targets `targets`. */
  function Step(targets: seq<seq<CodeUnit>>, s: PumpState, e: Event): (r: Outcome<PumpState>)
    ensures r.Ok? ==> s.connections.Keys <= r.value.connections.Keys
    ensures r.Ok? ==> |s.trace| <= |r.value.trace| <= |s.trace| + 1 && r.value.trace[..|s.trace|] == s.trace
    ensures e.kind == None ==> r == Ok(s)
  {
    match e.kind
    case None => Ok(s)
    case Initialized => Ok(s.(trace := s.trace + [Opened]))
    case Connected =>
      if 0 <= e.conn < |targets| then
        var id := RemoteIdOf(targets[e.conn]);
        Ok(PumpState(s.connections[e.conn := id], s.trace + [NewConnection(e.conn, id)]))
      else
        Throws(ArgumentOutOfRange)
    case Received =>
      (match e.data
       case Null => Throws(NullReference)
       case Bytes(d) =>
         if e.conn in s.connections then Ok(s.(trace := s.trace + [Data(e.conn, d)]))
         else Throws(KeyNotFound))
    case ConnClosed => Throws(NotImplemented)
    case PeerDisconnected => Throws(NotImplemented)
    case PeerClosed => Throws(NotImplemented)
    case Error => Throws(NotImplemented)
  }

  /** Pump over the queue `q`: one Step per event, in queue order, until the
      queue is empty or reports None, or a step throws. */
  function Drain(targets: seq<seq<CodeUnit>>, s: PumpState, q: seq<Event>): (r: Outcome<PumpState>)
    ensures r.Ok? ==> s.connections.Keys <= r.value.connections.Keys
    ensures r.Ok? ==> |s.trace| <= |r.value.trace| <= |s.trace| + |q| && r.value.trace[..|s.trace|] == s.trace
    decreases |q|
  {
    if q == [] || q[0].kind == None then Ok(s)
    else
      match Step(targets, s, q[0])
      case Ok(s') => Drain(targets, s', q[1..])
      case Throws(f) => Throws(f)
  }

  /** Whether the event `e` at the head of the queue has already been popped
      when handling it throws: the Connected case pops before it looks the
      handle up in the peer's targets, and the Received case pops before it
      looks the handle up in the connections; the size query of a null
      payload and the unimplemented pops throw before anything is removed. */
  predicate ConsumedWhenFailing(e: Event) {
    e.kind == Connected || (e.kind == Received && e.data.Bytes?)
  }

  /** Where Pump stops: the state it leaves and the events still queued. */
  datatype PumpEnd = PumpEnd(state: PumpState, rest: seq<Event>)

  /** Pump over the queue `q`, as Drain, but keeping the state and the
      queue left behind: when a step throws, the state is the one before
      that step, and the failing event is gone exactly when it was popped. */
  function EndOf(targets: seq<seq<CodeUnit>>, s: PumpState, q: seq<Event>): (h: PumpEnd)
    ensures |h.rest| <= |q|
    decreases |q|
  {
    if q == [] || q[0].kind == None then PumpEnd(s, q)
    else
      match Step(targets, s, q[0])
      case Ok(s') => EndOf(targets, s', q[1..])
      case Throws(_) => PumpEnd(s, if ConsumedWhenFailing(q[0]) then q[1..] else q)
  }

  /** `n` is the notification Pump raises for the event `e`, for a peer
      whose own connections have the targets `targets`. */
  predicate Reports(targets: seq<seq<CodeUnit>>, e: Event, n: Notification) {
    match n
    case Opened => e.kind == Initialized
    case NewConnection(c, id) => e.kind == Connected && e.conn == c && 0 <= c < |targets| && id == RemoteIdOf(targets[c])
    case Data(c, p) => e.kind == Received && e.conn == c && e.data == Bytes(p)
  }

  /** Some Connected event in `q` announces the connection handle `k`. */
  ghost predicate Announces(q: seq<Event>, k: int) {
    exists i :: 0 <= i < |q| && q[i].kind == Connected && q[i].conn == k
  }

  lemma {:induction false} AnnouncesCons(q: seq<Event>, k: int)
    requires q != []
    ensures Announces(q, k) <==> (q[0].kind == Connected && q[0].conn == k) || Announces(q[1..], k)
  {
  }


  /** A step that does not throw raises exactly one notification, about its event. */
  lemma StepReports(targets: seq<seq<CodeUnit>>, s: PumpState, e: Event, s': PumpState)
    requires e.kind != None && Step(targets, s, e) == Ok(s')
    ensures |s'.trace| == |s.trace| + 1 && s'.trace[..|s.trace|] == s.trace
    ensures Reports(targets, e, s'.trace[|s.trace|])
  {
  }

  /** Pump loses, duplicates and reorders nothing: when it does not throw,
      it raises one notification per queued event, in queue order, after
      those raised before. */
  lemma {:induction false} DrainReportsInOrder(targets: seq<seq<CodeUnit>>, s: PumpState, q: seq<Event>, s': PumpState)
    requires forall i :: 0 <= i < |q| ==> q[i].kind != None
    requires Drain(targets, s, q) == Ok(s')
    ensures |s'.trace| == |s.trace| + |q|
    ensures s'.trace[..|s.trace|] == s.trace
    ensures forall i :: 0 <= i < |q| ==> Reports(targets, q[i], s'.trace[|s.trace| + i])
    decreases |q|
  {
    if q != [] {
      var s1 := Step(targets, s, q[0]).value;
      StepReports(targets, s, q[0], s1);
      DrainReportsInOrder(targets, s1, q[1..], s');
      forall i | 0 <= i < |q|
        ensures Reports(targets, q[i], s'.trace[|s.trace| + i])
      {
        if i == 0 {
          assert s'.trace[|s.trace|] == s'.trace[..|s1.trace|][|s.trace|];
        } else {
          assert q[i] == q[1..][i - 1];
        }
      }
      assert s'.trace[..|s.trace|] == s'.trace[..|s1.trace|][..|s.trace|];
    }
  }

  /** Draining two queues one after the other is draining their concatenation:
      the events of an earlier request are handled before those of a later one. */
  lemma {:induction false} DrainAppend(targets: seq<seq<CodeUnit>>, s: PumpState, q1: seq<Event>, q2: seq<Event>)
    requires forall i :: 0 <= i < |q1| ==> q1[i].kind != None
    ensures Drain(targets, s, q1 + q2) ==
      match Drain(targets, s, q1)
      case Ok(s1) => Drain(targets, s1, q2)
      case Throws(f) => Throws(f)
    decreases |q1|
  {
    if q1 == [] {
      assert q1 + q2 == q2;
    } else {
      assert (q1 + q2)[0] == q1[0];
      assert (q1 + q2)[1..] == q1[1..] + q2;
      match Step(targets, s, q1[0])
      case Ok(s1) => DrainAppend(targets, s1, q1[1..], q2);
      case Throws(_) =>
    }
  }

  /** A Pump that does not throw ends in Drain's state with nothing left queued. */
  lemma {:induction false} EndOfDrained(targets: seq<seq<CodeUnit>>, s: PumpState, q: seq<Event>)
    requires forall i :: 0 <= i < |q| ==> q[i].kind != None
    requires Drain(targets, s, q).Ok?
    ensures EndOf(targets, s, q) == PumpEnd(Drain(targets, s, q).value, [])
    decreases |q|
  {
    if q != [] {
      DrainAppend(targets, s, [q[0]], q[1..]);
      assert [q[0]] + q[1..] == q;
      var s1 := Step(targets, s, q[0]).value;
      EndOfDrained(targets, s1, q[1..]);
    }
  }

  /** Whatever Pump leaves queued is the tail of the queue it started on:
      it only ever removes events from the head. */
  lemma {:induction false} EndOfRest(targets: seq<seq<CodeUnit>>, s: PumpState, q: seq<Event>)
    ensures var rest := EndOf(targets, s, q).rest; rest == q[|q| - |rest|..]
    decreases |q|
  {
    if q != [] && q[0].kind != None {
      match Step(targets, s, q[0])
      case Ok(s1) =>
        EndOfRest(targets, s1, q[1..]);
        var rest := EndOf(targets, s1, q[1..]).rest;
        assert q[1..][|q[1..]| - |rest|..] == q[|q| - |rest|..];
      case Throws(_) =>
    }
  }

  /** One successful step at the head: Drain and EndOf go on from its state. */
  lemma StepThenDrain(targets: seq<seq<CodeUnit>>, s: PumpState, q: seq<Event>, s1: PumpState)
    requires q != [] && q[0].kind != None && Step(targets, s, q[0]) == Ok(s1)
    ensures Drain(targets, s, q) == Drain(targets, s1, q[1..])
    ensures EndOf(targets, s, q) == EndOf(targets, s1, q[1..])
  {
  }

  /** Pump over `q` from the state `s` throws `f` at the event `q[j]` and
      ends at `end`: the events in front of `q[j]` drain to `end.state`, the
      step of `q[j]` from there throws `f`, and what is left queued is
      everything behind `q[j]`, with `q[j]` itself unless it had been popped. */
  predicate FailsAt(targets: seq<seq<CodeUnit>>, s: PumpState, q: seq<Event>, j: int, end: PumpEnd, f: Fault) {
    && 0 <= j < |q|
    && Drain(targets, s, q[..j]) == Ok(end.state)
    && Step(targets, end.state, q[j]) == Throws(f)
    && end.rest == (if ConsumedWhenFailing(q[j]) then q[j + 1..] else q[j..])
  }

  /** A failure after one successful step at the head is a failure one
      position further on from the state before that step. */
  lemma FailsAtCons(targets: seq<seq<CodeUnit>>, s: PumpState, q: seq<Event>, s1: PumpState, j1: int, end: PumpEnd, f: Fault)
    requires q != [] && q[0].kind != None && Step(targets, s, q[0]) == Ok(s1)
    requires FailsAt(targets, s1, q[1..], j1, end, f)
    ensures FailsAt(targets, s, q, j1 + 1, end, f)
  {
    var j := j1 + 1;
    assert q[..j][0] == q[0] && q[..j][1..] == q[1..][..j1];
    assert q[1..][j1] == q[j] && q[1..][j1 + 1..] == q[j + 1..] && q[1..][j1..] == q[j..];
  }

  /** A Pump that throws stops at the first event `q[j]` whose step throws,
      in the state that draining the events in front of it gives. That
      event is gone when Pump had popped it; otherwise it is still at the
      head of the queue, so the next Pump throws the same exception before
      handling anything. Either way the events behind it are still queued. */
  lemma {:induction false} EndOfFailing(targets: seq<seq<CodeUnit>>, s: PumpState, q: seq<Event>)
    requires forall i :: 0 <= i < |q| ==> q[i].kind != None
    requires Drain(targets, s, q).Throws?
    ensures exists j :: FailsAt(targets, s, q, j, EndOf(targets, s, q), Drain(targets, s, q).fault)
    decreases |q|
  {
    match Step(targets, s, q[0])
    case Ok(s1) =>
      StepThenDrain(targets, s, q, s1);
      EndOfFailing(targets, s1, q[1..]);
      var j1 :| FailsAt(targets, s1, q[1..], j1, EndOf(targets, s1, q[1..]), Drain(targets, s1, q[1..]).fault);
      FailsAtCons(targets, s, q, s1, j1, EndOf(targets, s1, q[1..]), Drain(targets, s1, q[1..]).fault);
    case Throws(_) =>
      assert q[..0] == [];
      assert FailsAt(targets, s, q, 0, EndOf(targets, s, q), Drain(targets, s, q).fault);
  }

  /** The handle registry after a Pump that does not throw: a handle is
      registered exactly when it was before or a Connected event announced
      it; an announced handle names one of this peer's connections and
      carries that connection's remote identifier; the others keep theirs. */
  lemma {:induction false} DrainRegistersAnnounced(targets: seq<seq<CodeUnit>>, s: PumpState, q: seq<Event>, s': PumpState)
    requires Drain(targets, s, q) == Ok(s')
    requires forall i :: 0 <= i < |q| ==> q[i].kind != None
    ensures forall k :: k in s'.connections <==> k in s.connections || Announces(q, k)
    ensures forall k :: Announces(q, k) ==> 0 <= k < |targets| && s'.connections[k] == RemoteIdOf(targets[k])
    ensures forall k :: k in s.connections && !Announces(q, k) ==> s'.connections[k] == s.connections[k]
    decreases |q|
  {
    if q == [] {
      assert forall k :: !Announces(q, k);
    } else {
      var e := q[0];
      var s1 := Step(targets, s, e).value;
      DrainRegistersAnnounced(targets, s1, q[1..], s');
      forall k
        ensures Announces(q, k) <==> (e.kind == Connected && e.conn == k) || Announces(q[1..], k)
      {
        AnnouncesCons(q, k);
      }
    }
  }

  /** A target of at most RemoteIdBufferLength / 2 code units, none of them
      zero, comes back as the remote identifier unchanged. */
  lemma {:induction false} RemoteIdOfPlainTarget(t: seq<CodeUnit>)
    requires |t| <= RemoteIdBufferLength / 2
    requires forall i :: 0 <= i < |t| ==> t[i] != 0
    ensures RemoteIdOf(t) == t
  {
  }

  /** Loopback: a payload sent on a registered connection, behind whatever
      was queued before it, is delivered last, byte for byte. */
  lemma {:induction false} LoopbackDelivers(targets: seq<seq<CodeUnit>>, s: PumpState, q: seq<Event>, c: int, payload: seq<byte>)
    requires forall i :: 0 <= i < |q| ==> q[i].kind != None
    requires Drain(targets, s, q).Ok? && c in Drain(targets, s, q).value.connections
    ensures var before := Drain(targets, s, q).value;
            Drain(targets, s, q + [Event(Received, c, Bytes(payload))])
            == Ok(before.(trace := before.trace + [Data(c, payload)]))
  {
    DrainAppend(targets, s, q, [Event(Received, c, Bytes(payload))]);
  }

  /** The remote identifier buffer Pump hands to PopConnectedEvent, filled
      with as much of the target as fits, decodes to RemoteIdOf the target. */
  lemma {:induction false} BufferedIdDecodes(target: seq<CodeUnit>, buffer: seq<byte>)
    requires var n := Min(|Encode(target)|, RemoteIdBufferLength);
             buffer == Encode(target)[..n] + Zeros(RemoteIdBufferLength)[n..]
    ensures DecodeZ(buffer) == RemoteIdOf(target)
  {
    var n := Min(|Encode(target)|, RemoteIdBufferLength);
    assert Zeros(RemoteIdBufferLength)[n..] == Zeros(RemoteIdBufferLength - n);
    CopiedIdDecodes(target, RemoteIdBufferLength);
  }

  /** The remote identifiers by handle, after a connection is stored under
      handle `k`, are the old ones with `k` now naming its identifier. */
  lemma RemoteIdsUpdate(m: map<int, Connection>, m': map<int, Connection>, k: int, c: Connection)
    requires m' == m[k := c]
    ensures (map j | j in m' :: m'[j].remoteId) == (map j | j in m :: m[j].remoteId)[k := c.remoteId]
  {
  }

  class Peer {
    /** The engine: the static state of the mock, shared by every Peer. */
    const backend: Backend
    const peerIndex: int
    var connections: map<int, Connection>
    var notifications: seq<Notification>

    /** Every connection sits under its own handle and belongs to this peer. */
    ghost predicate Valid()
      reads this
    {
      forall k :: k in connections ==> connections[k].peer == this && connections[k].connIndex == k
    }

    ghost function State(): PumpState
      reads this
    {
      PumpState(map k | k in connections :: connections[k].remoteId, notifications)
    }

    /** new Peer(key, id): registers with the engine, which hands out the
        handle. Key and id travel as null-terminated UTF-16 strings. */
    constructor (backend: Backend, key: seq<CodeUnit>, id: seq<CodeUnit>)
      requires backend.Valid()
      modifies backend
      ensures Valid() && backend.Valid()
      ensures this.backend == backend
      ensures peerIndex == |old(backend.peers)|
      ensures backend.peers == old(backend.peers) + [[]]
      ensures backend.queue == old(backend.queue) + [Event(Initialized, 0, Null)]
      ensures connections == map[] && notifications == []
    {
      this.backend := backend;
      var handle := backend.OpenPeer(Encode(key) + [0, 0], Encode(id) + [0, 0]);
      peerIndex := handle;
      connections := map[];
      notifications := [];
    }

    /** DecodeUtf16Z: scans whole code units until a zero one or the end of
        the buffer, and decodes what it scanned. */
    static method DecodeUtf16Z(buffer: array<byte>) returns (s: seq<CodeUnit>)
      ensures s == DecodeZ(buffer[..])
    {
      ghost var b := buffer[..];
      var length := 0;
      ghost var k := 0;
      while length + 1 < buffer.Length && (buffer[length] != 0 || buffer[length + 1] != 0)
        invariant 0 <= length <= buffer.Length && length == 2 * k
        invariant forall j :: 0 <= j < k ==> Units(b)[j] != 0
      {
        UnitsAt(b, k);
        length, k := length + 2, k + 1;
      }
      s := Units(buffer[..length]);
      assert b[..length] == buffer[..length];
      ScanDecodes(b, k);
    }

    /** Pump: handles every queued event, in order, until the engine reports
        None; after a run that throws nothing the queue is empty. */
    method Pump() returns (r: Outcome<()>)
      requires Valid() && backend.Valid()
      modifies this, backend
      ensures Valid() && backend.Valid() && backend.peers == old(backend.peers)
      ensures !(0 <= peerIndex < |backend.peers|) ==>
        r == Throws(ArgumentOutOfRange) && State() == old(State()) && backend.queue == old(backend.queue)
      ensures 0 <= peerIndex < |backend.peers| ==>
        var drained := Drain(backend.peers[peerIndex], old(State()), old(backend.queue));
        && (drained.Ok? ==> r == Ok(()) && State() == drained.value && backend.queue == [])
        && (drained.Throws? ==> r == Throws(drained.fault))
      ensures 0 <= peerIndex < |backend.peers| ==>
        var end := EndOf(backend.peers[peerIndex], old(State()), old(backend.queue));
        State() == end.state && backend.queue == end.rest
    {
      ghost var targets := if 0 <= peerIndex < |backend.peers| then backend.peers[peerIndex] else [];
      ghost var drained := Drain(targets, State(), backend.queue);
      ghost var end := EndOf(targets, State(), backend.queue);
      while true
        invariant Valid() && backend.Valid() && backend.peers == old(backend.peers)
        invariant 0 <= peerIndex < |backend.peers| ==> Drain(targets, State(), backend.queue) == drained
        invariant 0 <= peerIndex < |backend.peers| ==> EndOf(targets, State(), backend.queue) == end
        invariant !(0 <= peerIndex < |backend.peers|) ==>
          State() == old(State()) && backend.queue == old(backend.queue)
        decreases |backend.queue|
      {
        var next := backend.NextEventType(peerIndex);
        if next.Throws? {
          return Throws(next.fault);
        }
        if next.value == None {
          break;
        }
        ghost var s, q := State(), backend.queue;
        var handled := HandleEvent(next.value);
        if handled.Throws? {
          return handled;
        }
        assert Drain(targets, s, q) == Drain(targets, State(), backend.queue);
        assert EndOf(targets, s, q) == EndOf(targets, State(), backend.queue);
      }
      r := Ok(());
    }

    /** The body of Pump's switch for the event type at the head of the queue. */
    method HandleEvent(eventType: EventType) returns (r: Outcome<()>)
      requires Valid() && backend.Valid()
      requires 0 <= peerIndex < |backend.peers| && backend.queue != []
      requires eventType == backend.queue[0].kind && eventType != None
      modifies this, backend
      ensures Valid() && backend.Valid() && backend.peers == old(backend.peers)
      ensures var step := Step(backend.peers[peerIndex], old(State()), old(backend.queue[0]));
        && (step.Ok? ==> r == Ok(()) && State() == step.value && backend.queue == old(backend.queue)[1..])
        && (step.Throws? ==>
              && r == Throws(step.fault) && State() == old(State())
              && backend.queue == (if ConsumedWhenFailing(old(backend.queue[0])) then old(backend.queue)[1..] else old(backend.queue)))
    {
      match eventType
      case Initialized =>
        // cannot throw: the handle is valid and the queue is not empty
        var _ := backend.PopInitializedEvent(peerIndex);
        notifications := notifications + [Opened];
        r := Ok(());
      case Connected =>
        r := HandleConnected();
      case Received =>
        r := HandleReceived();
      case ConnClosed =>
        var popped := backend.PopConnClosedEvent(peerIndex);
        r := Throws(popped.fault);
      case PeerDisconnected =>
        var popped := backend.PopPeerDisconnectedEvent(peerIndex);
        r := Throws(popped.fault);
      case PeerClosed =>
        var popped := backend.PopPeerClosedEvent(peerIndex);
        r := Throws(popped.fault);
      case Error =>
        var buffer := new byte[ErrorBufferLength](_ => 0);
        var popped := backend.PopErrorEvent(peerIndex, buffer, buffer.Length);
        r := Throws(popped.fault);
    }

    /** Pump's Connected case: the remote identifier comes back through a
        zero-filled buffer of RemoteIdBufferLength bytes and is stored, with
        a new Connection, under the event's handle. */
    method HandleConnected() returns (r: Outcome<()>)
      requires Valid() && backend.Valid()
      requires 0 <= peerIndex < |backend.peers| && backend.queue != [] && backend.queue[0].kind == Connected
      modifies this, backend
      ensures Valid() && backend.Valid() && backend.peers == old(backend.peers)
      ensures var step := Step(backend.peers[peerIndex], old(State()), old(backend.queue[0]));
        && (step.Ok? ==> r == Ok(()) && State() == step.value && backend.queue == old(backend.queue)[1..])
        && (step.Throws? ==>
              && r == Throws(step.fault) && State() == old(State())
              && backend.queue == (if ConsumedWhenFailing(old(backend.queue[0])) then old(backend.queue)[1..] else old(backend.queue)))
    {
      ghost var targets, e, s0 := backend.peers[peerIndex], backend.queue[0], State();
      var buffer := new byte[RemoteIdBufferLength](_ => 0);
      assert buffer[..] == Zeros(RemoteIdBufferLength);
      var popped := backend.PopConnectedEvent(peerIndex, buffer, buffer.Length);
      if popped.Throws? {
        assert !(0 <= e.conn < |targets|);
        return Throws(popped.fault);
      }
      var connIndex := popped.value;
      var remoteId := DecodeUtf16Z(buffer);
      BufferedIdDecodes(targets[connIndex], buffer[..]);
      assert connIndex == e.conn && remoteId == RemoteIdOf(targets[connIndex]);
      var conn := new Connection(this, connIndex, remoteId);
      ghost var before := connections;
      connections := connections[connIndex := conn];
      RemoteIdsUpdate(before, connections, connIndex, conn);
      notifications := notifications + [NewConnection(connIndex, remoteId)];
      r := Ok(());
    }

    /** Pump's Received case: the payload size is asked first, a buffer of
        exactly that size is filled, and the bytes go to the connection
        stored under the event's handle. */
    method HandleReceived() returns (r: Outcome<()>)
      requires Valid() && backend.Valid()
      requires 0 <= peerIndex < |backend.peers| && backend.queue != [] && backend.queue[0].kind == Received
      modifies this, backend
      ensures Valid() && backend.Valid() && backend.peers == old(backend.peers)
      ensures var step := Step(backend.peers[peerIndex], old(State()), old(backend.queue[0]));
        && (step.Ok? ==> r == Ok(()) && State() == step.value && backend.queue == old(backend.queue)[1..])
        && (step.Throws? ==>
              && r == Throws(step.fault) && State() == old(State())
              && backend.queue == (if ConsumedWhenFailing(old(backend.queue[0])) then old(backend.queue)[1..] else old(backend.queue)))
    {
      var size := backend.PeekReceivedEventSize(peerIndex);
      if size.Throws? {
        return Throws(size.fault);
      }
      var buffer := new byte[size.value];
      // cannot throw: the head carries a payload of exactly `size` bytes
      var popped := backend.PopReceivedEvent(peerIndex, buffer, size.value);
      var connIndex := popped.value;
      assert buffer[..] == old(backend.queue[0]).data.bytes;
      if connIndex !in connections {
        return Throws(KeyNotFound);
      }
      notifications := notifications + [Data(connIndex, buffer[..])];
      r := Ok(());
    }

    /** Connect: asks the engine for a connection to `remoteId`; the handle
        only arrives later, with the Connected event. The engine reads the
        identifier back up to its first zero code unit. */
    method Connect(remoteId: seq<CodeUnit>) returns (r: Outcome<()>)
      requires backend.Valid()
      modifies backend
      ensures backend.Valid()
      ensures 0 <= peerIndex < |old(backend.peers)| ==>
        && r == Ok(())
        && backend.peers == old(backend.peers)[peerIndex := old(backend.peers[peerIndex]) + [UntilNul(remoteId)]]
        && backend.queue == old(backend.queue) + [Event(Connected, |old(backend.peers[peerIndex])|, Null)]
      ensures !(0 <= peerIndex < |old(backend.peers)|) ==>
        r == Throws(ArgumentOutOfRange) && backend.peers == old(backend.peers) && backend.queue == old(backend.queue)
    {
      MarshalledDecodes(remoteId);
      r := backend.Connect(peerIndex, Encode(remoteId) + [0, 0]);
    }

    /** Disconnect and Destroy reach entry points the mock leaves unimplemented. */
    method Disconnect() returns (r: Outcome<()>)
      ensures r == Throws(NotImplemented)
    {
      r := backend.PeerDisconnect(peerIndex);
    }

    method Destroy() returns (r: Outcome<()>)
      ensures r == Throws(NotImplemented)
    {
      r := backend.PeerDestroy(peerIndex);
    }
  }

  class Connection {
    const peer: Peer
    const connIndex: int
    /** RemoteId: fixed when the connection is created. */
    const remoteId: seq<CodeUnit>

    constructor (peer: Peer, connIndex: int, remoteId: seq<CodeUnit>)
      ensures this.peer == peer && this.connIndex == connIndex && this.remoteId == remoteId
    {
      this.peer := peer;
      this.connIndex := connIndex;
      this.remoteId := remoteId;
    }

    /** Send: hands the whole buffer to the engine, which (in the mock)
        enqueues it unchanged as a Received event on this connection. */
    method Send(buffer: array<byte>) returns (r: Outcome<()>)
      requires peer.backend.Valid()
      modifies peer.backend
      ensures peer.backend.Valid() && peer.backend.peers == old(peer.backend.peers)
      ensures 0 <= peer.peerIndex < |peer.backend.peers| ==>
        r == Ok(()) && peer.backend.queue == old(peer.backend.queue) + [Event(Received, connIndex, Bytes(buffer[..]))]
      ensures !(0 <= peer.peerIndex < |peer.backend.peers|) ==>
        r == Throws(ArgumentOutOfRange) && peer.backend.queue == old(peer.backend.queue)
    {
      assert buffer[..buffer.Length] == buffer[..];
      r := peer.backend.Send(peer.peerIndex, connIndex, buffer, buffer.Length);
    }

    /** Close reaches an entry point the mock leaves unimplemented. */
    method Close() returns (r: Outcome<()>)
      ensures r == Throws(NotImplemented)
    {
      r := peer.backend.ConnClose(peer.peerIndex, connIndex);
    }
  }
}
