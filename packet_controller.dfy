/** `PacketController` and its two adapters: the registry `openedSockets` of
    live sessions, outgoing numbering, in-order application of incoming
    packets, the packet handlers, the local socket events, and dispatch of
    incoming messages by packet code. */
module PacketControllers {
  import opened Errors
  import opened BufferManagement
  import opened Topics
  import opened PacketSync
  import LocalPortToMqtt
  import MqttToLocalPort

  /** local-port-to-mqtt (opens sessions for local connections) or
      mqtt-to-local-port (opens sessions for incoming Connect packets). */
  datatype Role = Initiator | Acceptor

  /** One `mqttClient.publish(topic, payload, {qos: 1})`. */
  datatype Publication = Publication(topic: string, payload: seq<byte>)

  /** Where an incoming message goes once its topic and header are read. */
  datatype Route =
    | OpenSession(id: SocketId, packetNumber: int)   // the acceptor's Connect handler
    | Sync(id: SocketId, packet: Packet)             // the Data, End and Close handlers

  /** The `extractSocketId` each role hands to `init`: the initiator reads
      numbered ids from `down` topics, the acceptor names from `up` topics. */
  function ExtractSocketId(role: Role, topic: string, incoming: string): (r: Result<SocketId>)
    ensures r.Err? ==> r.failure == TopicMismatch
    ensures r.Ok? ==> var p := TunnelPrefix(topic, if role.Initiator? then Down else Up);
      |p| <= |incoming| && incoming[..|p|] == p
    ensures r.Ok? ==> (role.Initiator? <==> !r.value.Name?)
  {
    match role
    case Initiator => LocalPortToMqtt.ExtractSocketId(topic, incoming)
    case Acceptor => MqttToLocalPort.ExtractSocketId(topic, incoming)
  }

  /** The message handler installed by `init`: extract the socket id (throws
      on a foreign topic), extract the header (throws on a short buffer), then
      call `this[code]`, which exists for Connect, Data, End and Close only;
      the initiator's Connect handler throws. */
  function RouteMessage(role: Role, topic: string, incoming: string, buffer: seq<byte>): (r: Result<Route>)
    ensures ExtractSocketId(role, topic, incoming).Err? ==> r == Err(TopicMismatch)
    ensures ExtractSocketId(role, topic, incoming).Ok? && |buffer| < 8 ==> r == Err(OutOfRange)
    ensures r.Ok? ==> ExtractSocketId(role, topic, incoming) == Ok(r.value.id) && |buffer| >= 8
    ensures r.Ok? && r.value.OpenSession? ==>
      role.Acceptor? && buffer[..4] == Int32BE(1) && r.value.packetNumber == Int32FromBE(buffer[4..8])
    ensures r.Ok? && r.value.Sync? ==> r.value.packet.number == Int32FromBE(buffer[4..8])
    ensures r.Ok? && r.value.Sync? ==>
      r.value.packet.callback == (match Int32FromBE(buffer[..4])
                                  case 2 => WriteData(buffer[8..])
                                  case 3 => EndSession(r.value.id)
                                  case _ => CloseSession(r.value.id))
    ensures r.Ok? && r.value.Sync? ==> Int32FromBE(buffer[..4]) in {2, 3, 4}
    ensures r.Err? && r.failure.NotAHandler? ==> FromCode(r.failure.code) in {None, Some(Ack)}
    ensures ExtractSocketId(role, topic, incoming).Ok? && |buffer| >= 8 ==>
      var id, code := ExtractSocketId(role, topic, incoming).value, Int32FromBE(buffer[..4]);
      (code == 1 && role.Acceptor? ==> r == Ok(OpenSession(id, Int32FromBE(buffer[4..8])))) &&
      (code == 1 && role.Initiator? ==> r == Err(UnexpectedConnect)) &&
      (code in {2, 3, 4} ==> r.Ok? && r.value.Sync?) &&
      (code !in {1, 2, 3, 4} ==> r == Err(NotAHandler(code)))
    ensures r.Err? && r.failure == UnexpectedConnect ==> role.Initiator?
  {
    match ExtractSocketId(role, topic, incoming)
    case Err(f) => Err(f)
    case Ok(id) =>
      match ExtractHeader(buffer)
      case Err(f) => Err(f)
      case Ok(h) =>
        Int32ReverseRoundTrip(buffer[..4]);
        match FromCode(h.code)
        case Some(Connect) => if role.Initiator? then Err(UnexpectedConnect) else Ok(OpenSession(id, h.packetNumber))
        case Some(Data) => Ok(Sync(id, Packet(h.packetNumber, WriteData(h.data))))
        case Some(End) => Ok(Sync(id, Packet(h.packetNumber, EndSession(id))))
        case Some(Close) => Ok(Sync(id, Packet(h.packetNumber, CloseSession(id))))
        case _ => Err(NotAHandler(h.code))
  }

  /** What the message handler does with an encoded packet on a topic it accepts. */
  lemma RouteOfPacket(role: Role, topic: string, incoming: string, id: SocketId, data: seq<byte>, code: PacketCode, n: int)
    requires ExtractSocketId(role, topic, incoming) == Ok(id) && IsInt32(n)
    ensures RouteMessage(role, topic, incoming, ApplyHeader(data, Code(code), n).value) ==
      match code
      case Connect => if role.Initiator? then Err(UnexpectedConnect) else Ok(OpenSession(id, n))
      case Data => Ok(Sync(id, Packet(n, WriteData(data))))
      case End => Ok(Sync(id, Packet(n, EndSession(id))))
      case Close => Ok(Sync(id, Packet(n, CloseSession(id))))
      case Ack => Err(NotAHandler(5))
  {
    RoundTrip(data, Code(code), n);
  }

  /** Deleting two sets of keys is deleting one set, then the other. */
  lemma RemoveInTurn<K, V>(m: map<K, V>, a: set<K>, b: set<K>)
    ensures m - (a + b) == (m - a) - b
  {
  }

  /** A local TCP socket, with the fields the controller attaches to it and a
      record of the calls the controller makes on it. */
  class Socket {
    const id: SocketId
    const dataTopic: string
    var nextPacketNumber: int
    var nextIncomingPacket: int
    /** The `syncPackets` calls suspended in a wait on this socket, oldest first. */
    var waits: seq<Packet>
    /** The Connect's packet number while the acceptor's local connect callback is pending. */
    var connectNumber: Option<int>
    /** The payloads passed to `socket.write`, in order. */
    var written: seq<seq<byte>>
    var ended: bool
    var destroyed: bool

    constructor (id: SocketId, dataTopic: string, nextIncomingPacket: int, connectNumber: Option<int>)
      ensures this.id == id && this.dataTopic == dataTopic
      ensures nextPacketNumber == 1 && this.nextIncomingPacket == nextIncomingPacket
      ensures waits == [] && this.connectNumber == connectNumber
      ensures written == [] && !ended && !destroyed
    {
      this.id := id;
      this.dataTopic := dataTopic;
      this.nextPacketNumber := 1;
      this.nextIncomingPacket := nextIncomingPacket;
      this.waits := [];
      this.connectNumber := connectNumber;
      this.written := [];
      this.ended := false;
      this.destroyed := false;
    }

    function Receiving(): Inbound
      reads this
    {
      Inbound(nextIncomingPacket, waits)
    }
  }

  class PacketController {
    const role: Role
    const topic: string
    var openedSockets: map<SocketId, Socket>
    var nextSocketId: int
    /** Every `mqttClient.publish` made so far, in order. */
    var published: seq<Publication>

    /** Each registered socket is filed under its own id; the initiator's ids
        are numbers it has already handed out. */
    ghost predicate Valid()
      reads this
    {
      nextSocketId >= 1 &&
      (forall id :: id in openedSockets ==> openedSockets[id].id == id) &&
      (role.Initiator? ==> forall id :: id in openedSockets ==> id.Num? && 1 <= id.n < nextSocketId)
    }

    constructor (role: Role, topic: string)
      ensures Valid() && this.role == role && this.topic == topic
      ensures openedSockets == map[] && nextSocketId == 1 && published == []
    {
      this.role := role;
      this.topic := topic;
      openedSockets := map[];
      nextSocketId := 1;
      published := [];
    }

    /** The socket an incoming packet for `id` is applied to, if registered. */
    function Registered(id: SocketId): set<Socket>
      reads this
    {
      if id in openedSockets then {openedSockets[id]} else {}
    }

    /** `s` went through `step`: its counter and waits are the step's, the
        callbacks that ran were applied to it in order, and the ids they
        delete are gone from the registry. */
    twostate predicate Applied(s: Socket, step: Step)
      reads this, s
    {
      s.Receiving() == step.inbound &&
      s.written == old(s.written) + Written(step.ran) &&
      s.ended == (old(s.ended) || Ends(step.ran)) &&
      s.destroyed == (old(s.destroyed) || Destroys(step.ran)) &&
      openedSockets == old(openedSockets) - Removed(step.ran)
    }

    /** `publishToMqtt(socket, code, data)`: take the socket's next packet
        number, then publish the framed packet on its data topic. */
    method PublishToMqtt(s: Socket, code: PacketCode, data: seq<byte>) returns (r: Result<int>)
      modifies this`published, s`nextPacketNumber
      ensures s.nextPacketNumber == old(s.nextPacketNumber) + 1
      ensures r.Ok? <==> IsInt32(old(s.nextPacketNumber))
      ensures r.Ok? ==> r.value == old(s.nextPacketNumber)
      ensures r.Ok? ==> published == old(published) + [Publication(s.dataTopic, ApplyHeader(data, Code(code), r.value).value)]
      ensures r.Err? ==> r.failure == OutOfRange && published == old(published)
    {
      var packetNumber := s.nextPacketNumber;
      s.nextPacketNumber := s.nextPacketNumber + 1;
      var dataWithHeader := ApplyHeader(data, Code(code), packetNumber);
      if dataWithHeader.Err? {
        return Err(OutOfRange);
      }
      published := published + [Publication(s.dataTopic, dataWithHeader.value)];
      return Ok(packetNumber);
    }

    /** Runs one resumed callback `fn(socket)`: Data writes its payload, End
        ends the socket and Close destroys it, each deleting the session. */
    method RunCallback(s: Socket, p: Packet)
      requires Valid()
      modifies this`openedSockets, s`written, s`ended, s`destroyed
      ensures Valid()
      ensures s.written == old(s.written) + Written([p])
      ensures s.ended == (old(s.ended) || Ends([p]))
      ensures s.destroyed == (old(s.destroyed) || Destroys([p]))
      ensures openedSockets == old(openedSockets) - Removed([p])
    {
      assert [p][..0] == [] && p in [p];
      match p.callback {
        case WriteData(data) =>
          s.written := s.written + [data];
        case EndSession(id) =>
          s.ended := true;
          openedSockets := openedSockets - {id};
        case CloseSession(id) =>
          s.destroyed := true;
          openedSockets := openedSockets - {id};
      }
    }

    /** Runs `fn(socket)` for each packet whose wait resumed, in that order. */
    method RunCallbacks(s: Socket, ran: seq<Packet>)
      requires Valid()
      modifies this`openedSockets, s`written, s`ended, s`destroyed
      ensures Valid()
      ensures s.written == old(s.written) + Written(ran)
      ensures s.ended == (old(s.ended) || Ends(ran))
      ensures s.destroyed == (old(s.destroyed) || Destroys(ran))
      ensures openedSockets == old(openedSockets) - Removed(ran)
    {
      var i := 0;
      while i < |ran|
        invariant 0 <= i <= |ran|
        invariant Valid()
        invariant s.written == old(s.written) + Written(ran[..i])
        invariant s.ended == (old(s.ended) || Ends(ran[..i]))
        invariant s.destroyed == (old(s.destroyed) || Destroys(ran[..i]))
        invariant openedSockets == old(openedSockets) - Removed(ran[..i])
      {
        EffectsOfOneMore(ran, i);
        RemoveInTurn(old(openedSockets), Removed(ran[..i]), Removed([ran[i]]));
        RunCallback(s, ran[i]);
        i := i + 1;
      }
      assert ran[..|ran|] == ran;
    }

    method Apply(s: Socket, step: Step)
      requires Valid()
      modifies this`openedSockets, s`nextIncomingPacket, s`waits, s`written, s`ended, s`destroyed
      ensures Valid() && Applied(s, step)
    {
      s.nextIncomingPacket, s.waits := step.inbound.next, step.inbound.waits;
      RunCallbacks(s, step.ran);
    }

    /** `syncPackets(socketId, packetNumber, fn)`: an unknown id is ignored;
        otherwise the packet goes through the socket's receive side. */
    method SyncPackets(socketId: SocketId, packet: Packet)
      requires Valid()
      modifies this`openedSockets, Registered(socketId)
      ensures Valid()
      ensures socketId !in old(openedSockets) ==> openedSockets == old(openedSockets)
      ensures socketId in old(openedSockets) ==>
        var s := old(openedSockets)[socketId];
        s.connectNumber == old(s.connectNumber) && s.nextPacketNumber == old(s.nextPacketNumber) &&
        Applied(s, Arrive(old(s.Receiving()), packet))
    {
      if socketId !in openedSockets {
        return;
      }
      var s := openedSockets[socketId];
      Apply(s, Arrive(s.Receiving(), packet));
    }

    /** Local socket 'data': forward the bytes as a Data packet. */
    method OnLocalData(s: Socket, data: seq<byte>) returns (r: Result<int>)
      modifies this`published, s`nextPacketNumber
      ensures s.nextPacketNumber == old(s.nextPacketNumber) + 1
      ensures r.Ok? <==> IsInt32(old(s.nextPacketNumber))
      ensures r.Ok? ==> published == old(published) + [Publication(s.dataTopic, ApplyHeader(data, Code(Data), old(s.nextPacketNumber)).value)]
      ensures r.Err? ==> published == old(published)
    {
      r := PublishToMqtt(s, Data, data);
    }

    /** Local socket 'end': forward an End packet, then forget the session. */
    method OnLocalEnd(s: Socket) returns (r: Result<int>)
      requires Valid()
      modifies this`published, this`openedSockets, s`nextPacketNumber
      ensures Valid()
      ensures s.nextPacketNumber == old(s.nextPacketNumber) + 1
      ensures r.Ok? <==> IsInt32(old(s.nextPacketNumber))
      ensures r.Ok? ==> published == old(published) + [Publication(s.dataTopic, ApplyHeader([], Code(End), old(s.nextPacketNumber)).value)]
      ensures r.Ok? ==> openedSockets == old(openedSockets) - {s.id}
      ensures r.Err? ==> published == old(published) && openedSockets == old(openedSockets)
    {
      r := PublishToMqtt(s, End, []);
      if r.Ok? {
        openedSockets := openedSockets - {s.id};
      }
    }

    /** Local socket 'close': forward a Close packet, then forget the session. */
    method OnLocalClose(s: Socket) returns (r: Result<int>)
      requires Valid()
      modifies this`published, this`openedSockets, s`nextPacketNumber
      ensures Valid()
      ensures s.nextPacketNumber == old(s.nextPacketNumber) + 1
      ensures r.Ok? <==> IsInt32(old(s.nextPacketNumber))
      ensures r.Ok? ==> published == old(published) + [Publication(s.dataTopic, ApplyHeader([], Code(Close), old(s.nextPacketNumber)).value)]
      ensures r.Ok? ==> openedSockets == old(openedSockets) - {s.id}
      ensures r.Err? ==> published == old(published) && openedSockets == old(openedSockets)
    {
      r := PublishToMqtt(s, Close, []);
      if r.Ok? {
        openedSockets := openedSockets - {s.id};
      }
    }

    /** `reset()`: destroy every registered socket and empty the registry. */
    method Reset()
      requires Valid()
      modifies this`openedSockets, openedSockets.Values`destroyed
      ensures Valid() && openedSockets == map[]
      ensures forall s :: s in old(openedSockets).Values ==> s.destroyed
    {
      var remaining := openedSockets.Values;
      while remaining != {}
        invariant remaining <= old(openedSockets).Values
        invariant openedSockets == old(openedSockets)
        invariant forall s :: s in old(openedSockets).Values && s !in remaining ==> s.destroyed
        decreases remaining
      {
        var s :| s in remaining;
        s.destroyed := true;
        remaining := remaining - {s};
      }
      openedSockets := map[];
    }

    /** The initiator's `connect(socket)` for a newly accepted local
        connection: number the session, register it, send Connect. */
    method Connect() returns (s: Socket)
      requires Valid() && role.Initiator?
      modifies this`openedSockets, this`nextSocketId, this`published
      ensures Valid() && fresh(s)
      ensures s.id == Num(old(nextSocketId)) && s.id !in old(openedSockets)
      ensures nextSocketId == old(nextSocketId) + 1
      ensures openedSockets == old(openedSockets)[s.id := s]
      ensures s.dataTopic == LocalPortToMqtt.DataTopic(topic, s.id)
      ensures s.nextIncomingPacket == 1 && s.waits == [] && s.connectNumber == None
      ensures s.nextPacketNumber == 2
      ensures s.written == [] && !s.ended && !s.destroyed
      ensures published == old(published) + [Publication(s.dataTopic, [0, 0, 0, 1, 0, 0, 0, 1])]
    {
      var socketId := Num(nextSocketId);
      nextSocketId := nextSocketId + 1;
      s := new Socket(socketId, LocalPortToMqtt.DataTopic(topic, socketId), 1, None);
      openedSockets := openedSockets[socketId := s];
      var r := PublishToMqtt(s, PacketCode.Connect, []);
      ConnectPacketBytes();
    }

    /** The acceptor's Connect handler: open a local connection and register
        it, holding incoming packets until the connection completes. An id
        already registered is replaced. */
    method AcceptConnect(socketId: SocketId, packetNumber: int) returns (s: Socket)
      requires Valid() && role.Acceptor?
      modifies this`openedSockets
      ensures Valid() && fresh(s)
      ensures openedSockets == old(openedSockets)[socketId := s]
      ensures s.id == socketId && s.dataTopic == MqttToLocalPort.DataTopic(topic, socketId)
      ensures s.nextPacketNumber == 1 && s.nextIncomingPacket == packetNumber
      ensures s.connectNumber == Some(packetNumber) && s.waits == []
      ensures s.written == [] && !s.ended && !s.destroyed
    {
      s := new Socket(socketId, MqttToLocalPort.DataTopic(topic, socketId), packetNumber, Some(packetNumber));
      openedSockets := openedSockets[socketId := s];
    }

    /** The acceptor's local connect callback: the counter moves one past the
        Connect's number, and the packets waiting for that resume. */
    method OnLocalConnected(s: Socket)
      requires Valid()
      modifies this`openedSockets, s`nextIncomingPacket, s`waits, s`written, s`ended, s`destroyed, s`connectNumber
      ensures Valid() && s.connectNumber == None
      ensures old(s.connectNumber).None? ==>
        openedSockets == old(openedSockets) && s.Receiving() == old(s.Receiving()) &&
        s.written == old(s.written) && s.ended == old(s.ended) && s.destroyed == old(s.destroyed)
      ensures old(s.connectNumber).Some? ==> Applied(s, Connected(old(s.Receiving()), old(s.connectNumber).value))
    {
      if s.connectNumber.Some? {
        var n := s.connectNumber.value;
        s.connectNumber := None;
        Apply(s, Connected(s.Receiving(), n));
      }
    }

    /** The `retryUntil` of the i-th suspended call on `s` gave up: the call
        re-checks the counter and either runs its callback or throws. */
    method EndWait(s: Socket, i: nat) returns (thrown: Option<Failure>)
      requires Valid() && i < |s.waits|
      modifies this`openedSockets, s`nextIncomingPacket, s`waits, s`written, s`ended, s`destroyed
      ensures Valid()
      ensures var res := WaitEnds(old(s.Receiving()), i);
        thrown == res.thrown && Applied(s, res.step)
    {
      var res := WaitEnds(s.Receiving(), i);
      Apply(s, res.step);
      thrown := res.thrown;
    }

    /** `this[PacketCodes.Data]`, `[End]` and `[Close]`. */
    method DataHandler(socketId: SocketId, data: seq<byte>, packetNumber: int)
      requires Valid()
      modifies this`openedSockets, Registered(socketId)
      ensures Valid()
      ensures socketId !in old(openedSockets) ==> openedSockets == old(openedSockets)
      ensures socketId in old(openedSockets) ==>
        var s := old(openedSockets)[socketId];
        Applied(s, Arrive(old(s.Receiving()), Packet(packetNumber, WriteData(data))))
    {
      SyncPackets(socketId, Packet(packetNumber, WriteData(data)));
    }

    method EndHandler(socketId: SocketId, packetNumber: int)
      requires Valid()
      modifies this`openedSockets, Registered(socketId)
      ensures Valid()
      ensures socketId !in old(openedSockets) ==> openedSockets == old(openedSockets)
      ensures socketId in old(openedSockets) ==>
        var s := old(openedSockets)[socketId];
        Applied(s, Arrive(old(s.Receiving()), Packet(packetNumber, EndSession(socketId))))
    {
      SyncPackets(socketId, Packet(packetNumber, EndSession(socketId)));
    }

    method CloseHandler(socketId: SocketId, packetNumber: int)
      requires Valid()
      modifies this`openedSockets, Registered(socketId)
      ensures Valid()
      ensures socketId !in old(openedSockets) ==> openedSockets == old(openedSockets)
      ensures socketId in old(openedSockets) ==>
        var s := old(openedSockets)[socketId];
        Applied(s, Arrive(old(s.Receiving()), Packet(packetNumber, CloseSession(socketId))))
    {
      SyncPackets(socketId, Packet(packetNumber, CloseSession(socketId)));
    }

    /** The sockets an incoming message can touch. */
    function Addressed(incoming: string, buffer: seq<byte>): set<Socket>
      reads this
    {
      match RouteMessage(role, topic, incoming, buffer)
      case Ok(Sync(id, _)) => Registered(id)
      case _ => {}
    }

    /** The 'message' listener installed by `init`. */
    method OnMessage(incoming: string, buffer: seq<byte>) returns (thrown: Option<Failure>)
      requires Valid()
      modifies this`openedSockets, Addressed(incoming, buffer)
      ensures Valid()
      ensures var route := RouteMessage(role, topic, incoming, buffer);
        match route
        case Err(f) => thrown == Some(f) && openedSockets == old(openedSockets)
        case Ok(OpenSession(id, n)) =>
          thrown == None && id in openedSockets && fresh(openedSockets[id]) &&
          openedSockets == old(openedSockets)[id := openedSockets[id]] &&
          openedSockets[id].Receiving() == Inbound(n, []) && openedSockets[id].connectNumber == Some(n) &&
          openedSockets[id].nextPacketNumber == 1 && openedSockets[id].dataTopic == MqttToLocalPort.DataTopic(topic, id) &&
          openedSockets[id].written == [] && !openedSockets[id].ended && !openedSockets[id].destroyed
        case Ok(Sync(id, packet)) =>
          thrown == None &&
          (id !in old(openedSockets) ==> openedSockets == old(openedSockets)) &&
          (id in old(openedSockets) ==>
            var s := old(openedSockets)[id];
            s.connectNumber == old(s.connectNumber) && s.nextPacketNumber == old(s.nextPacketNumber) &&
            Applied(s, Arrive(old(s.Receiving()), packet)))
    {
      var route := RouteMessage(role, topic, incoming, buffer);
      match route
      case Err(f) =>
        thrown := Some(f);
      case Ok(OpenSession(id, n)) =>
        var s := AcceptConnect(id, n);
        thrown := None;
      case Ok(Sync(id, packet)) =>
        SyncPackets(id, packet);
        thrown := None;
    }
  }
}
