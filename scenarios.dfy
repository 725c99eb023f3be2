/** Whole-session runs of the controller on concrete inputs: the
    repository's test scenarios, stated as what each run ends with. */
module Scenarios {
  import opened Errors
  import opened BufferManagement
  import opened Topics
  import opened PacketSync
  import opened PacketControllers
  import DeliveryOrder
  import LocalPortToMqtt
  import MqttToLocalPort

  /** The ASCII bytes of the payloads the tests send. */
  const SomeData: seq<byte> := [115, 111, 109, 101, 32, 100, 97, 116, 97]  // "some data"
  const Blah: seq<byte> := [98, 108, 97, 104]                                // "blah"
  const Blah2: seq<byte> := [98, 108, 97, 104, 45, 50]                       // "blah-2"
  const Blah3: seq<byte> := [98, 108, 97, 104, 45, 51]                       // "blah-3"
  const SomeDashData: seq<byte> := [115, 111, 109, 101, 32, 45, 32, 100, 97, 116, 97]  // "some - data"

  function Frame(data: seq<byte>, code: PacketCode, n: int): seq<byte>
    requires IsInt32(n)
  {
    ApplyHeader(data, Code(code), n).value
  }

  /** A local client connects to a fresh initiator on "testtopic": session 1
      opens on `testtopic/tunnel/up/1` and Connect 1 is published. */
  method InitiatorConnect() returns (c: PacketController, s: Socket)
    ensures fresh(c) && fresh(s) && c.Valid() && c.role.Initiator? && c.topic == "testtopic"
    ensures c.openedSockets == map[Num(1) := s] && s.id == Num(1) && c.nextSocketId == 2
    ensures s.dataTopic == "testtopic/tunnel/up/1" && s.nextPacketNumber == 2
    ensures c.published == [Publication("testtopic/tunnel/up/1", [0, 0, 0, 1, 0, 0, 0, 1])]
  {
    c := new PacketController(Initiator, "testtopic");
    s := c.Connect();
    assert Decimal(1) == "1";
  }

  /** A local client connects, writes "some data" and ends: the initiator
      publishes Connect 1, Data 2 and End 3 on `testtopic/tunnel/up/1` and
      forgets the session. */
  method InitiatorSession() returns (sent: seq<Publication>, stillOpen: bool)
    ensures sent == [Publication("testtopic/tunnel/up/1", [0, 0, 0, 1, 0, 0, 0, 1]),
                     Publication("testtopic/tunnel/up/1", Frame(SomeData, Data, 2)),
                     Publication("testtopic/tunnel/up/1", Frame([], End, 3))]
    ensures !stillOpen
  {
    var c, s := InitiatorConnect();
    var r := c.OnLocalData(s, SomeData);
    r := c.OnLocalEnd(s);
    sent := c.published;
    stillOpen := s.id in c.openedSockets;
  }

  /** Two local clients connect in turn: they become sessions 1 and 2, each
      announced by a Connect numbered 1 on its own topic. */
  method InitiatorTwoSessions() returns (first: SocketId, second: SocketId, sent: seq<Publication>)
    ensures first == Num(1) && second == Num(2)
    ensures sent == [Publication("testtopic/tunnel/up/1", [0, 0, 0, 1, 0, 0, 0, 1]),
                     Publication("testtopic/tunnel/up/2", [0, 0, 0, 1, 0, 0, 0, 1])]
  {
    var c, s := InitiatorConnect();
    var t := c.Connect();
    assert Decimal(2) == "2";
    assert TunnelTopic("testtopic", Up, Num(2)) == "testtopic/tunnel/up/2";
    first, second, sent := s.id, t.id, c.published;
  }

  /** The initiator throws on a Connect packet and leaves its sessions alone. */
  method InitiatorRejectsConnect() returns (thrown: Option<Failure>, sessions: nat)
    ensures thrown == Some(UnexpectedConnect) && sessions == 0
  {
    var c := new PacketController(Initiator, "testtopic");
    LocalPortToMqtt.ExtractSocketIdOfTopic("testtopic", 1);
    assert TunnelTopic("testtopic", Down, Num(1)) == "testtopic/tunnel/down/1";
    RouteOfPacket(Initiator, "testtopic", "testtopic/tunnel/down/1", Num(1), [], Connect, 1);
    thrown := c.OnMessage("testtopic/tunnel/down/1", Frame([], Connect, 1));
    sessions := |c.openedSockets|;
  }

  /** Sets up an acceptor with session "1" opened by Connect 1 on `testtopic/tunnel/up/1`. */
  method OpenAcceptorSession() returns (c: PacketController, s: Socket)
    ensures fresh(c) && fresh(s) && c.Valid() && c.role.Acceptor? && c.topic == "testtopic"
    ensures c.openedSockets == map[Name("1") := s] && c.published == []
    ensures s.Receiving() == Inbound(1, []) && s.connectNumber == Some(1)
    ensures s.dataTopic == "testtopic/tunnel/down/1" && s.nextPacketNumber == 1
    ensures s.written == [] && !s.ended && !s.destroyed
  {
    c := new PacketController(Acceptor, "testtopic");
    s := Open(c);
  }

  /** Connect 1 on `testtopic/tunnel/up/1` reaching an acceptor with no session. */
  method Open(c: PacketController) returns (s: Socket)
    requires c.Valid() && c.role.Acceptor? && c.topic == "testtopic" && c.openedSockets == map[]
    modifies c`openedSockets
    ensures fresh(s) && c.Valid() && c.openedSockets == map[Name("1") := s] && c.published == old(c.published)
    ensures s.Receiving() == Inbound(1, []) && s.connectNumber == Some(1)
    ensures s.dataTopic == "testtopic/tunnel/down/1" && s.nextPacketNumber == 1
    ensures s.written == [] && !s.ended && !s.destroyed
  {
    UpTopic();
    assert TunnelTopic("testtopic", Down, Name("1")) == "testtopic/tunnel/down/1";
    RouteOfPacket(Acceptor, "testtopic", "testtopic/tunnel/up/1", Name("1"), [], Connect, 1);
    var thrown := c.OnMessage("testtopic/tunnel/up/1", Frame([], Connect, 1));
    s := c.openedSockets[Name("1")];
  }

  /** The acceptor's local socket sends "some - data": it goes out as Data
      numbered 1 on `testtopic/tunnel/down/1`. */
  method AcceptorFirstData() returns (sent: seq<Publication>)
    ensures sent == [Publication("testtopic/tunnel/down/1", Frame(SomeDashData, Data, 1))]
  {
    var c, s := OpenAcceptorSession();
    var r := c.OnLocalData(s, SomeDashData);
    sent := c.published;
  }

  lemma UpTopic()
    ensures ExtractSocketId(Acceptor, "testtopic", "testtopic/tunnel/up/1") == Ok(Name("1"))
  {
    MqttToLocalPort.ExtractSocketIdOfTopic("testtopic", "1");
    assert TunnelTopic("testtopic", Up, Name("1")) == "testtopic/tunnel/up/1";
  }

  /** Data "blah" 2, End 3 and Close 4 for session "1" on `testtopic/tunnel/up/1`. */
  const P2 := Packet(2, WriteData(Blah))
  const P3 := Packet(3, EndSession(Name("1")))
  const P4 := Packet(4, CloseSession(Name("1")))

  /** Data "blah-2" 2 and "blah-3" 3 for session "1". */
  const Q2 := Packet(2, WriteData(Blah2))
  const Q3 := Packet(3, WriteData(Blah3))

  /** The callback the acceptor's handler for `code` schedules for session "1". */
  function ForSessionOne(code: PacketCode, data: seq<byte>): Callback
  {
    match code
    case Data => WriteData(data)
    case End => EndSession(Name("1"))
    case _ => CloseSession(Name("1"))
  }

  /** One packet for session "1" reaching an acceptor on `testtopic/tunnel/up/1`. */
  method Receive(c: PacketController, s: Socket, data: seq<byte>, code: PacketCode, n: int)
    requires c.Valid() && c.role.Acceptor? && c.topic == "testtopic" && c.openedSockets == map[Name("1") := s]
    requires code != Connect && code != Ack && IsInt32(n)
    modifies c`openedSockets, s
    ensures c.Valid() && s.connectNumber == old(s.connectNumber)
    ensures c.Applied(s, Arrive(old(s.Receiving()), Packet(n, ForSessionOne(code, data))))
  {
    UpTopic();
    RouteOfPacket(Acceptor, "testtopic", "testtopic/tunnel/up/1", Name("1"), data, code, n);
    var thrown := c.OnMessage("testtopic/tunnel/up/1", Frame(data, code, n));
  }

  /** A packet ahead of the counter is only queued. */
  method ReceiveEarly(c: PacketController, s: Socket, data: seq<byte>, code: PacketCode, n: int)
    requires c.Valid() && c.role.Acceptor? && c.topic == "testtopic" && c.openedSockets == map[Name("1") := s]
    requires code != Connect && code != Ack && IsInt32(n) && n > s.nextIncomingPacket
    modifies c`openedSockets, s
    ensures c.Valid() && c.openedSockets == old(c.openedSockets) && s.connectNumber == old(s.connectNumber)
    ensures s.Receiving() == Inbound(old(s.nextIncomingPacket), old(s.waits) + [Packet(n, ForSessionOne(code, data))])
    ensures s.written == old(s.written) && s.ended == old(s.ended) && s.destroyed == old(s.destroyed)
  {
    Receive(c, s, data, code, n);
  }

  /** Connect 1, then Data "blah" 2, End 3 and Close 4 before the local
      connection completes: all three wait on the counter, which stays at 1. */
  method QueuedSession() returns (c: PacketController, s: Socket)
    ensures fresh(c) && fresh(s) && c.Valid() && c.openedSockets == map[Name("1") := s]
    ensures s.Receiving() == Inbound(1, [P2, P3, P4]) && s.connectNumber == Some(1)
    ensures s.written == [] && !s.ended && !s.destroyed
  {
    c, s := OpenAcceptorSession();
    ReceiveEarly(c, s, Blah, Data, 2);
    ReceiveEarly(c, s, [], End, 3);
    ReceiveEarly(c, s, [], Close, 4);
  }

  lemma QueuedConnected()
    ensures Connected(Inbound(1, [P2, P3, P4]), 1) == Step(Inbound(5, []), [P2, P3, P4])
  {
    var waits := [P2, P3, P4];
    assert Consecutive(waits, 2) by {
      forall k | 0 <= k < |waits| ensures waits[k].number == 2 + k {
        assert k == 0 || k == 1 || k == 2;
      }
    }
    DrainConsecutive(Inbound(2, waits));
    assert Connected(Inbound(1, waits), 1) == Drain(Inbound(2, waits));
  }

  lemma QueuedWritten()
    ensures Written([P2, P3, P4]) == [Blah]
  {
    assert [P2][..0] == [];
    assert Written([P2]) == [Blah];
    assert [P2, P3][..1] == [P2];
    assert Written([P2, P3]) == [Blah];
    assert [P2, P3, P4][..2] == [P2, P3];
  }

  lemma QueuedRemoved()
    ensures Ends([P2, P3, P4]) && Removed([P2, P3, P4]) == {Name("1")}
  {
    assert P3 in [P2, P3, P4];
  }

  /** Once the local connection completes, the queued packets run in order:
      the socket receives "blah", is ended, and the session is gone. */
  method AcceptorSession() returns (written: seq<seq<byte>>, ended: bool, stillOpen: bool)
    ensures written == [Blah] && ended && !stillOpen
  {
    var c, s := QueuedSession();
    QueuedConnected();
    QueuedWritten();
    QueuedRemoved();
    c.OnLocalConnected(s);
    written, ended, stillOpen := s.written, s.ended, Name("1") in c.openedSockets;
  }

  lemma NothingQueuedConnected()
    ensures Connected(Inbound(1, []), 1) == Step(Inbound(2, []), [])
  {
    DrainConsecutive(Inbound(2, []));
  }

  lemma GapFilled()
    ensures Arrive(Inbound(2, [Q3]), Q2) == Step(Inbound(4, []), [Q2, Q3])
  {
    DrainConsecutive(Inbound(3, [Q3]));
    ArriveInOrder(Inbound(2, [Q3]), Q2);
  }

  lemma GapWritten()
    ensures Written([Q2, Q3]) == [Blah2, Blah3]
  {
    assert [Q2][..0] == [];
    assert Written([Q2]) == [Blah2];
    assert [Q2, Q3][..1] == [Q2];
  }

  /** The local connection of session "1" completes, then Data "blah-3" 3
      arrives: it waits for packet 2. */
  method ConnectedWithGap() returns (c: PacketController, s: Socket)
    ensures fresh(c) && fresh(s) && c.Valid() && c.role.Acceptor? && c.topic == "testtopic"
    ensures c.openedSockets == map[Name("1") := s]
    ensures s.Receiving() == Inbound(2, [Q3]) && s.written == []
  {
    c, s := ConnectedSession();
    ReceiveEarly(c, s, Blah3, Data, 3);
  }

  /** After the connection completes, Data 3 arrives before Data 2: the
      socket receives "blah-2" then "blah-3". */
  method AcceptorOutOfOrder() returns (written: seq<seq<byte>>)
    ensures written == [Blah2, Blah3]
  {
    var c, s := ConnectedWithGap();
    GapFilled();
    GapWritten();
    Receive(c, s, Blah2, Data, 2);
    written := s.written;
  }

  /** A packet at the counter with nothing waiting runs alone. */
  lemma ArriveAlone(r: Inbound, p: Packet)
    requires r.waits == [] && p.number == r.next
    ensures Arrive(r, p) == Step(Inbound(r.next + 1, []), [p])
  {
    DrainConsecutive(Inbound(r.next + 1, []));
    ArriveInOrder(r, p);
  }

  /** On a connected session, Data 2, End 3 and Close 4 arrive in turn: End
      deletes the session, so Close finds no socket and is dropped. */
  lemma LateCloseDropped()
    ensures DeliveryOrder.Run(Inbound(2, []), [P2, P3, P4]) == Step(Inbound(4, []), [P2, P3])
  {
    ArriveAlone(Inbound(2, []), P2);
    ArriveAlone(Inbound(3, []), P3);
    assert [P2, P3, P4][..2] == [P2, P3] && [P2, P3][..1] == [P2] && [P2][..0] == [];
    assert DeliveryOrder.Run(Inbound(2, []), [P2]) == Step(Inbound(3, []), [P2]);
    assert P3 in [P2] + [P3];
    assert DeliveryOrder.Deleted([P2] + [P3]);
  }

  /** Session "1" whose local connection has completed, with nothing received yet. */
  method ConnectedSession() returns (c: PacketController, s: Socket)
    ensures fresh(c) && fresh(s) && c.Valid() && c.role.Acceptor? && c.topic == "testtopic"
    ensures c.openedSockets == map[Name("1") := s] && s.connectNumber == None
    ensures s.Receiving() == Inbound(2, []) && s.written == [] && !s.ended && !s.destroyed
  {
    c, s := OpenAcceptorSession();
    NothingQueuedConnected();
    c.OnLocalConnected(s);
  }

  /** Data "blah" 2 on a connected session is written at once. */
  method DataArrived() returns (c: PacketController, s: Socket)
    ensures fresh(c) && fresh(s) && c.Valid() && c.role.Acceptor? && c.topic == "testtopic"
    ensures c.openedSockets == map[Name("1") := s]
    ensures s.Receiving() == Inbound(3, []) && s.written == [Blah] && !s.ended && !s.destroyed
  {
    c, s := ConnectedSession();
    ArriveAlone(Inbound(2, []), P2);
    assert [P2][..0] == [] && Written([P2]) == [Blah];
    Receive(c, s, Blah, Data, 2);
  }

  /** Data "blah" 2, then End 3, on a connected session: "blah" is written,
      the socket is ended and the session deleted. */
  method DataThenEnd() returns (c: PacketController, s: Socket)
    ensures fresh(c) && c.Valid() && c.role.Acceptor? && c.topic == "testtopic" && c.openedSockets == map[]
    ensures s.written == [Blah] && s.ended && !s.destroyed
  {
    c, s := DataArrived();
    ArriveAlone(Inbound(3, []), P3);
    assert P3 in [P3] && [P3][..0] == [] && Written([P3]) == [];
    Receive(c, s, [], End, 3);
  }

  /** Data "blah" 2, End 3 and Close 4 arrive on a connected session, each
      handled after the previous one's callback has run: Close 4 finds the
      session already deleted, so the socket is ended but never destroyed. */
  method AcceptorLateClose() returns (written: seq<seq<byte>>, ended: bool, destroyed: bool, stillOpen: bool)
    ensures written == [Blah] && ended && !destroyed && !stillOpen
  {
    var c, s := DataThenEnd();
    UpTopic();
    RouteOfPacket(Acceptor, "testtopic", "testtopic/tunnel/up/1", Name("1"), [], Close, 4);
    var thrown := c.OnMessage("testtopic/tunnel/up/1", Frame([], Close, 4));
    written, ended, destroyed, stillOpen := s.written, s.ended, s.destroyed, Name("1") in c.openedSockets;
  }

  /** Data "blah" numbered `n` reaching an acceptor with no session is dropped. */
  method DropBeforeSession(n: int) returns (c: PacketController)
    requires IsInt32(n)
    ensures fresh(c) && c.Valid() && c.role.Acceptor? && c.topic == "testtopic"
    ensures c.openedSockets == map[] && c.published == []
  {
    c := new PacketController(Acceptor, "testtopic");
    UpTopic();
    RouteOfPacket(Acceptor, "testtopic", "testtopic/tunnel/up/1", Name("1"), Blah, Data, n);
    var thrown := c.OnMessage("testtopic/tunnel/up/1", Frame(Blah, Data, n));
  }

  /** Data "blah" 5 when no session is open: nothing throws, no session
      opens and nothing is published in reply. */
  method DataWithoutSession() returns (thrown: Option<Failure>, sessions: nat, sent: seq<Publication>)
    ensures thrown == None && sessions == 0 && sent == []
  {
    var c := new PacketController(Acceptor, "testtopic");
    UpTopic();
    RouteOfPacket(Acceptor, "testtopic", "testtopic/tunnel/up/1", Name("1"), Blah, Data, 5);
    thrown := c.OnMessage("testtopic/tunnel/up/1", Frame(Blah, Data, 5));
    sessions, sent := |c.openedSockets|, c.published;
  }

  /** Data 2 arrives before Connect 1: it is dropped (no session yet), so the
      End 3 that follows waits for a packet 2 that never comes; nothing is
      written and the session stays open until that wait gives up. */
  method AcceptorDataBeforeConnect() returns (written: seq<seq<byte>>, ended: bool, stillOpen: bool, thrown: Option<Failure>)
    ensures written == [] && !ended && stillOpen
    ensures thrown == Some(OutOfOrder(2, 3))
  {
    var c := DropBeforeSession(2);
    var s := Open(c);
    NothingQueuedConnected();
    c.OnLocalConnected(s);
    ReceiveEarly(c, s, [], End, 3);
    assert s.Receiving() == Inbound(2, [P3]);
    thrown := c.EndWait(s, 0);
    written, ended, stillOpen := s.written, s.ended, Name("1") in c.openedSockets;
  }

  /** The topic "testtopic/some-message" is not a tunnel topic. */
  lemma ForeignRoute(buffer: seq<byte>)
    ensures RouteMessage(Acceptor, "testtopic", "testtopic/some-message", buffer) == Err(TopicMismatch)
  {
    assert "testtopic/some-message"[10] != TunnelPrefix("testtopic", Up)[10];
  }

  /** A message on a topic outside the tunnel pattern throws and writes nothing. */
  method ForeignTopic() returns (thrown: Option<Failure>, written: seq<seq<byte>>)
    ensures thrown == Some(TopicMismatch) && written == []
  {
    var c, s := ConnectedSession();
    ForeignRoute(Frame(Blah2, Data, 2));
    thrown := c.OnMessage("testtopic/some-message", Frame(Blah2, Data, 2));
    written := s.written;
  }
}
