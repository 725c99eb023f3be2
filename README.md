# mqtt-port-forward: the packet protocol, modelled in Dafny

mqtt-port-forward tunnels TCP connections over MQTT. Two programs are
involved:

- **local-port-to-mqtt** (the *initiator*) accepts local TCP connections.
- **mqtt-to-local-port** (the *acceptor*) opens a local TCP connection for each
  session that the initiator announces.

Each session's traffic travels as packets on topics of the form
`${topic}/tunnel/up/${id}` (initiator to acceptor) and
`${topic}/tunnel/down/${id}` (acceptor to initiator).

This project models the protocol core of the two programs.

**Packet framing** (`BufferManagement`). A packet is an 8-byte header followed
by the payload. The header holds a big-endian signed 32-bit type code (Connect
1, Data 2, End 3, Close 4, Ack 5), then a big-endian signed 32-bit packet
number. Both encoding and decoding are total functions that return a `Result`.
Writing a value outside the int32 range fails, and so does reading past the
end of the buffer; both are `RangeError` in Node. The model proves round trips
in both directions and gives the concrete Connect packet.

**The bounded poll** (`PromiseHelpers.RetryUntil`). This is a counted `while`
loop over the successive results of a predicate. The pause between polls is
abstracted away.

**Session ids and topics** (`Topics`, `LocalPortToMqtt`, `MqttToLocalPort`).
The two sides read session ids differently:

- The initiator numbers its sessions and parses the number back out of `down`
  topics.
- The acceptor keys a session by the raw text after `up/`.

`MqttToLocalPort.SessionIdsAgree` proves that the two sides agree on a
session.

**The receive side of a socket** (`PacketSync`, `DeliveryOrder`). These are
pure functions on the socket's `nextIncomingPacket` counter and on the
`syncPackets` calls suspended in their wait.

- A duplicate packet is dropped.
- An in-order packet runs its callback, and so does every suspended call it
  unblocks.
- A packet that arrives early waits on the socket.

`DeliveryOrder.InOrder` proves the delivery guarantee over any sequence of
arrivals, including reordered and repeated ones. Callbacks run exactly once
each, in ascending order from the counter, with the payload they were sent
with. They run up to the first number still missing, unless an End or Close
has deleted the session first. Each `syncPackets` call looks the socket up
again, so arrivals handled after the deletion are dropped. Calls that were
already suspended still poll the socket they captured, and they still run. A
stream of Data packets never deletes the session. Each arrival is handled
after the previous one's callbacks have run; "Left out" says what this
schedule does not capture.

**The controller** (`PacketControllers`). `PacketController` is a class with:

- the registry `openedSockets: map<SocketId, Socket>`;
- the initiator's `nextSocketId`;
- the log of MQTT publications.

`Socket` is a class carrying:

- the fields the controller attaches to a `net.Socket`: `id`, `dataTopic`,
  `nextPacketNumber` and `nextIncomingPacket`;
- the calls suspended on it;
- a record of what was written to it, and whether it was ended or destroyed.

One class with a `role` (initiator or acceptor) stands for the two
`Controllers` subclasses.

The methods are the controller's operations and the events it reacts to:

- the `publishToMqtt` numbering;
- `syncPackets`;
- the Data, End and Close handlers;
- `reset`;
- the local socket's `data`, `end` and `close` events;
- the initiator's `connect`;
- the acceptor's Connect handler and its local connect callback;
- the end of a wait;
- the `message` listener that `init` installs, which dispatches on the packet
  code.

A method that applies incoming packets is proved against `PacketSync`'s
functions.

**Scenarios** (`Scenarios`) replay the repository's test scenarios against
the controller.

## Model

| member | source | states |
|---|---|---|
| BufferManagement.Code | src/lib/buffer-management.js:2-9 | each packet type's wire value is one of 1 to 5, within the int32 range the header can carry |
| BufferManagement.FromCode | src/lib/buffer-management.js:2-9 | a code names a packet type exactly when it is that type's value; every other code, including the commented-out Reset, names none |
| BufferManagement.CodesDistinct | src/lib/buffer-management.js:2-9 | the five codes are pairwise distinct, so each code reads back as its own type |
| BufferManagement.Int32BE | src/lib/buffer-management.js:13-14 | writing an int32 gives four bytes whose unsigned big-endian value is its two's-complement form |
| BufferManagement.Int32FromBE | src/lib/buffer-management.js:20-21 | reading four bytes always gives a value in the int32 range |
| BufferManagement.Int32RoundTrip | src/lib/buffer-management.js:13-21 | reading back what `writeInt32BE` wrote gives the original int32 |
| BufferManagement.Int32ReverseRoundTrip | src/lib/buffer-management.js:20-21 | any four bytes are the encoding of the value they decode to |
| BufferManagement.ApplyHeader | src/lib/buffer-management.js:11-17 | succeeds exactly when code and number are int32 (otherwise a range error); the output is 8 + payload length bytes, bytes 0-3 decode to the code, bytes 4-7 to the number, and the payload follows unchanged |
| BufferManagement.ExtractHeader | src/lib/buffer-management.js:19-25 | succeeds exactly when the buffer has at least 8 bytes (otherwise a range error); code and number are int32 and the data is the buffer from offset 8 |
| BufferManagement.RoundTrip | src/lib/buffer-management.js:11-25 | decoding an encoded packet gives back its code, number and payload, for any int32 code and number |
| BufferManagement.ReverseRoundTrip | src/lib/buffer-management.js:19-25 | any buffer of at least 8 bytes is re-encoded exactly from what it decodes to |
| BufferManagement.ConnectPacketBytes | tests/local-port-to-mqtt_spec.js:8 | Connect with number 1 and no payload is the bytes 0,0,0,1,0,0,0,1 |
| PromiseHelpers.RetryUntil | src/lib/promise_helpers.js:3-14 | evaluates the predicate at most `period` times (never if `period` <= 0); returns true exactly when one of the first `period` evaluations holds, stopping at the first that does; on false every evaluation failed and all `period` were made |
| PromiseHelpers.RetryUntilDefault | src/lib/promise_helpers.js:3-5 | with the default period of 4000 polls of one millisecond, at most 4000 evaluations, true exactly when one of them holds |
| Topics.Decimal | src/local-port-to-mqtt.js:16 | a session number prints as a non-empty digit run without a leading zero |
| Topics.ParseDecimalOfDecimal | src/local-port-to-mqtt.js:29 | `parseInt` of a number's decimal text is that number |
| Topics.TunnelTopic | src/local-port-to-mqtt.js:16 | a data topic is `${topic}/tunnel/${direction}/` followed by the id's text |
| LocalPortToMqtt.DataTopic | src/local-port-to-mqtt.js:16 | the initiator's data topic is the `${topic}/tunnel/up/` prefix followed by the session id's text |
| LocalPortToMqtt.ExtractSocketId | src/local-port-to-mqtt.js:28-29 | succeeds exactly when the topic is the `down` prefix followed by digits only; the id is NaN exactly for an empty digit run, and otherwise the decimal value of the digits (`07` gives 7); any other topic throws |
| LocalPortToMqtt.ExtractSocketIdOfTopic | src/local-port-to-mqtt.js:28-29 | the id read from `${topic}/tunnel/down/${n}` is n |
| MqttToLocalPort.DataTopic | src/mqtt-to-local-port.js:21 | the acceptor's data topic is the `${topic}/tunnel/down/` prefix followed by the session id's text |
| MqttToLocalPort.ExtractSocketId | src/mqtt-to-local-port.js:27-28 | succeeds exactly when the topic is the `up` prefix followed by a rest without line terminators, and the id is that rest; any other topic throws |
| MqttToLocalPort.ExtractSocketIdOfTopic | src/mqtt-to-local-port.js:27-28 | the id read from `${topic}/tunnel/up/${s}` is s, for any one-line s |
| MqttToLocalPort.SessionIdsAgree | src/mqtt-to-local-port.js:16-28 | the acceptor reads the initiator's session n as the name "n", and the initiator reads replies on that name's down topic as n |
| PacketSync.Drain | src/lib/packet-controller.js:42-47 | after the ready waits resume, none is left ready; those that ran are numbered consecutively from the counter, and the counter moved past them |
| PacketSync.DrainConsecutive | src/lib/packet-controller.js:42-47 | waits already numbered consecutively from the counter all run, in that order, and the counter moves past them all |
| PacketSync.DrainKeeps | src/lib/packet-controller.js:42-47 | resuming loses and duplicates no suspended call: each one either ran or still waits |
| PacketSync.Arrive | src/lib/packet-controller.js:34-47 | a packet below the counter changes nothing; one above it only waits; one at the counter runs first; what runs is consecutive from the counter, which moves past it; no ready wait is left behind |
| PacketSync.ArriveInOrder | src/lib/packet-controller.js:42-47 | an in-order packet runs, the counter moves on by one, then the waits it unblocks run |
| PacketSync.ArriveKeeps | src/lib/packet-controller.js:39-47 | a packet that is not a duplicate is run or queued exactly once, and no suspended call is lost or repeated |
| PacketSync.Connected | src/mqtt-to-local-port.js:12-14 | when the local connection completes, the counter is one past the Connect's number, and the waits it unblocks run consecutively from there |
| PacketSync.ConnectedKeeps | src/mqtt-to-local-port.js:12-14 | the connect callback loses and duplicates no suspended call |
| PacketSync.WaitEnds | src/lib/packet-controller.js:42-47 | a call whose wait gives up runs if the counter now matches; otherwise it throws "Expected next but got number" and changes nothing else; with nothing ready it always throws |
| PacketSync.WaitEndsKeeps | src/lib/packet-controller.js:42-47 | when a wait ends, every other suspended call is kept; the ended call either ran or is gone |
| PacketSync.RunThenDrain | src/lib/packet-controller.js:45-47 | the in-order callback runs first, the counter moves past it and the unblocked waits, and nothing is left ready |
| DeliveryOrder.Run | src/lib/packet-controller.js:34-47 | `syncPackets` for each arrival in turn, dropping arrivals once an End or Close has deleted the session; the callbacks that run are consecutive from the starting counter, which ends just past them |
| DeliveryOrder.DrainReachesGap | src/lib/packet-controller.js:42-47 | resuming stops at the first number no wait carries, runs only waits, and keeps every later wait |
| DeliveryOrder.ArriveDelivers | src/lib/packet-controller.js:34-47 | one arrival keeps the delivery invariant: the counter is at the first missing number, every later arrived number waits, and each callback carries its packet's payload |
| DeliveryOrder.RunDelivers | src/lib/packet-controller.js:34-47 | after any sequence of arrivals, reordered or repeated: every number below the counter has arrived, and every wait holds an arrived packet with its payload; unless the session was deleted, the whole delivery invariant also holds |
| DeliveryOrder.InOrder | src/lib/packet-controller.js:34-47 | every number from the start up to the counter has arrived and runs exactly once, in ascending order, with the payload it was sent with, and nothing else runs; unless an End or Close deleted the session, the counter is at the first number that has not arrived; with only Data packets the session is never deleted |
| PacketControllers.ExtractSocketId | src/local-port-to-mqtt.js:28-32 | the extractor the initiator hands to `init` accepts only `down` topics and yields numeric ids (or NaN); the acceptor's (src/mqtt-to-local-port.js:27-31) accepts only `up` topics and yields names; a rejected topic throws |
| PacketControllers.RouteMessage | src/lib/packet-controller.js:16-20 | a foreign topic throws first, then a short buffer throws; otherwise code 1 opens a session with the header's number on the acceptor and throws on the initiator; codes 2, 3 and 4 always go to `syncPackets` with the id, the header's number and the Data, End or Close callback; any other code, Ack included, has no handler and throws with that code |
| PacketControllers.RouteOfPacket | src/lib/packet-controller.js:16-20 | an encoded packet on an accepted topic goes to the handler of its code, with its number and payload |
| PacketControllers.Socket.constructor | src/mqtt-to-local-port.js:16-18 | a new session socket has `nextPacketNumber` 1, the given `nextIncomingPacket`, nothing written and nothing waiting |
| PacketControllers.PacketController.constructor | src/lib/packet-controller.js:8-13 | a new controller has no sessions, `nextSocketId` 1 and nothing published |
| PacketControllers.PacketController.PublishToMqtt | src/lib/packet-controller.js:27-32 | takes the socket's number and increments it by one; publishes exactly `applyHeader(data, code, n)` on the socket's data topic and returns n; a number outside int32 throws after the increment and publishes nothing |
| PacketControllers.PacketController.RunCallback | src/lib/packet-controller.js:82-103 | Data writes its payload; End ends the socket and Close destroys it, and each of those deletes the session id |
| PacketControllers.PacketController.RunCallbacks | src/lib/packet-controller.js:45-47 | running callbacks in turn writes their payloads in order, ends or destroys the socket if any of them does, and deletes exactly the ids they delete |
| PacketControllers.PacketController.SyncPackets | src/lib/packet-controller.js:34-48 | an unknown id changes nothing; otherwise the socket goes through `Arrive`, and its callbacks' effects are applied to it and to the registry |
| PacketControllers.PacketController.OnLocalData | src/lib/packet-controller.js:51-54 | local data is published as the socket's next Data packet |
| PacketControllers.PacketController.OnLocalEnd | src/lib/packet-controller.js:56-60 | a local end publishes the next End packet, then deletes the session |
| PacketControllers.PacketController.OnLocalClose | src/lib/packet-controller.js:62-66 | a local close publishes the next Close packet, then deletes the session |
| PacketControllers.PacketController.Reset | src/lib/packet-controller.js:69-80 | every registered socket is destroyed and the registry is left empty |
| PacketControllers.PacketController.Connect | src/local-port-to-mqtt.js:9-20 | the new session takes id `nextSocketId`, which was not yet in use, and the counter moves on by one; the session starts with both counters at 1 and is registered with every other entry unchanged; its topic is `${topic}/tunnel/up/${id}`; the Connect packet 0,0,0,1,0,0,0,1 is published, so the session's next number is 2 |
| PacketControllers.PacketController.AcceptConnect | src/mqtt-to-local-port.js:9-23 | registers a fresh socket under the id, replacing any entry already there; `nextPacketNumber` is 1, `nextIncomingPacket` is the Connect's number, and the topic is `${topic}/tunnel/down/${id}` |
| PacketControllers.PacketController.OnLocalConnected | src/mqtt-to-local-port.js:12-14 | the counter becomes the Connect's number plus one and the waits this unblocks run (`Connected`); a second call does nothing |
| PacketControllers.PacketController.EndWait | src/lib/packet-controller.js:42-47 | the socket goes through `WaitEnds`, and the method throws exactly what that throws |
| PacketControllers.PacketController.DataHandler | src/lib/packet-controller.js:98-103 | `syncPackets` with a callback that writes the data |
| PacketControllers.PacketController.EndHandler | src/lib/packet-controller.js:82-88 | `syncPackets` with a callback that ends the socket and deletes the id |
| PacketControllers.PacketController.CloseHandler | src/lib/packet-controller.js:90-96 | `syncPackets` with a callback that destroys the socket and deletes the id |
| PacketControllers.PacketController.OnMessage | src/lib/packet-controller.js:16-20 | a message that does not route throws and leaves the registry alone; an acceptor Connect registers a fresh session; a Data, End or Close packet is applied through `syncPackets` to its socket only |
| Scenarios.InitiatorConnect | tests/local-port-to-mqtt_spec.js:35-38 | the first local connection becomes session 1 and publishes Connect 1 on `testtopic/tunnel/up/1` |
| Scenarios.InitiatorSession | tests/local-port-to-mqtt_spec.js:27-48 | connect, "some data" and end publish Connect 1, Data 2 and End 3 on `testtopic/tunnel/up/1`, and the session is gone |
| Scenarios.InitiatorTwoSessions | src/local-port-to-mqtt.js:10-18 | two local connections become sessions 1 and 2, each announced by Connect 1 on its own topic |
| Scenarios.InitiatorRejectsConnect | src/local-port-to-mqtt.js:22-24 | a Connect received by the initiator throws and opens no session |
| Scenarios.OpenAcceptorSession | tests/mqtt-to-local-port_spec.js:107-111 | Connect 1 on `testtopic/tunnel/up/1` opens session "1" with data topic `testtopic/tunnel/down/1`, counter 1 and nothing published |
| Scenarios.AcceptorFirstData | tests/mqtt-to-local-port_spec.js:113-119 | the acceptor's first outgoing packet is Data 1 on `testtopic/tunnel/down/1` |
| Scenarios.QueuedSession | tests/mqtt-to-local-port_spec.js:62-68 | Data 2, End 3 and Close 4 arriving before the local connection completes all wait, with the counter at 1 |
| Scenarios.AcceptorSession | tests/mqtt-to-local-port_spec.js:62-77 | once connected, the socket receives exactly "blah", is ended, and the session is gone |
| Scenarios.GapFilled | tests/mqtt-to-local-port_spec.js:153-163 | Data 2 arriving while Data 3 waits runs 2 and then 3 |
| Scenarios.AcceptorOutOfOrder | tests/mqtt-to-local-port_spec.js:153-163 | Data "blah-3" then "blah-2" reach the socket as "blah-2" then "blah-3" |
| Scenarios.DataWithoutSession | tests/mqtt-to-local-port_spec.js:98-104 | Data 5 for a session that is not open is dropped: nothing throws, no session opens and nothing is published in reply |
| Scenarios.LateCloseDropped | src/lib/packet-controller.js:34-37 | on a connected session, Data 2, End 3 and Close 4 arriving in turn run Data and End only: Close finds the session deleted |
| Scenarios.AcceptorLateClose | src/lib/packet-controller.js:34-37 | on a connected session, Data "blah" 2, End 3 and Close 4, each packet handled after the previous one: "blah" is written and the socket ended; Close 4 finds the session deleted (lines 82-96) and is dropped, so the socket is never destroyed |
| Scenarios.AcceptorDataBeforeConnect | tests/mqtt-to-local-port_spec.js:80-95 | with Data 2 before Connect 1, Data is dropped and End 3 waits for 2; nothing is written, the session stays open, and the wait ends by throwing "Expected 2 but got 3" |
| Scenarios.ForeignTopic | tests/mqtt-to-local-port_spec.js:141-151 | a message on `testtopic/some-message` throws and writes nothing |

## Where the code and its tests differ

- The test at tests/mqtt-to-local-port_spec.js:80-95 sends Data 2 before
  Connect 1 and expects "blah" on the socket. The code at
  src/lib/packet-controller.js:35-37 drops a packet for an unknown session.
  The model follows the code: `Scenarios.AcceptorDataBeforeConnect` shows
  that nothing is written.
- Several tests rely on behaviour the code does not have:
  - an Ack reply, in tests/mqtt-to-local-port_spec.js:121-138 and 169-170;
  - a Terminate code, in tests/mqtt-to-local-port_spec.js:13, 103-104 and
    182-187;
  - retransmission, in tests/mqtt-to-local-port_spec.js:131-138;
  - an idle timeout, in tests/mqtt-to-local-port_spec.js:175-180.

  `PacketCodes` has no Terminate, and the controller has no Ack handler. The
  model follows the code: an Ack packet has no handler and throws. For Data
  with no open session, `Scenarios.DataWithoutSession` shows that the code
  publishes nothing, where the test expects a Terminate reply.

## Left out

- The subscription and the Reset broadcast in `init`
  (src/lib/packet-controller.js:22-24) are left out. `PacketCodes.Reset` is
  commented out, so the broadcast's code is `undefined`. Also,
  src/mqtt-to-local-port.js:31 calls `init` without a direction, so the
  acceptor subscribes to `${topic}/tunnel/undefined/+`. Only the `message`
  listener is modelled, as `OnMessage`.
- `reset()` (src/lib/packet-controller.js:69-71) looks up the handler under
  the key `undefined`, and that handler exists. `PacketController.Reset`
  models the handler's effect.
- Network I/O is not modelled:
  - `net.createServer`, `server.listen`, `socket.connect` and the MQTT client;
  - the event plumbing of `manageSocketEvents`.

  The local socket's events are methods the environment calls:
  `OnLocalData`, `OnLocalEnd`, `OnLocalClose` and `OnLocalConnected`. A
  `socket.write`, `end` or `destroy` is only recorded on the `Socket`. The
  `close` event that follows a `destroy` is not raised automatically, and a
  write after `end` is recorded like any other.
- Debug logging is not modelled, nor is the port number passed to the
  handlers. Other files are not part of this model:
  - the AWS provisioning, in src/lib/aws.js and src/lib/aws-iot-access.js;
  - the MQTT client wrappers, in src/lib/mqtt.js and
    src/lib/mqtt-with-debug.js;
  - src/lib/debug.js and src/lib/id-generator.js.
- Time and concurrency are abstracted. The wait in `syncPackets` is an
  asynchronous 1 ms poll (src/lib/packet-controller.js:42). The model keeps
  suspended calls on the socket they poll, because the closure captures the
  socket and not the map. They are resumed as soon as the counter reaches
  their number. This is one admissible schedule of the polls, and it is the
  one in which every wait that can succeed does.
- PacketSync.Arrive / DeliveryOrder.Run: each arrival is handled after the
  previous arrival's callbacks have run. In the source, the callback, the
  re-check and the increment come only after `await retryUntil(...)`
  (src/lib/packet-controller.js:42-47), so messages emitted in the same tick
  interleave. The model does not capture two consequences of this:
  - (a) Data 2, End 3 and Close 4 emitted back to back on a connected
    session. Close 4's lookup (line 35) runs before End's callback deletes the
    session, so Close waits on the socket it captured and later destroys it.
    The model drops Close instead, as `Scenarios.AcceptorLateClose` shows.
  - (b) A copy of the in-order packet n emitted twice in one tick. Both copies
    pass the duplicate check (line 39), and the second copy's re-check
    (line 43) throws "Expected n+1 but got n". The model drops the second
    copy silently.
- DeliveryOrder.Run: handles arrivals on the same one-after-another schedule
  as `PacketSync.Arrive`, so (a) and (b) above are not captured either.
- PacketControllers.PacketController.Connect: ids are unbounded integers. In
  the source, `nextSocketId++` (src/local-port-to-mqtt.js:10) acts on a
  JavaScript number, which stops increasing at 2^53. From then on every new
  session gets the same id, and `openedSockets.set` (line 15) replaces the
  live session. The model's promise that the new id is not yet registered
  holds only for the first 2^53 sessions.
- PacketControllers.PacketController.EndWait: the end of a wait is an event
  the environment may raise at any time. The model does not tie it to 4000
  polls having passed.
- PromiseHelpers.RetryUntil: `period` is an integer here. In JavaScript,
  `period / pausePeriod` could be fractional, which would give one extra
  evaluation. The predicate is modelled as a pure function of the evaluation
  index rather than as an awaited call.
- LocalPortToMqtt.ExtractSocketId: the topic is matched literally, although
  the source interpolates it into a regular expression without escaping it.
  The digits are parsed exactly; `parseInt` loses precision above 2^53.
- MqttToLocalPort.ExtractSocketId: the topic is matched literally, for the
  same reason.
- Ack handling, retransmission, the flow-control window, idle timeouts and
  Terminate are not modelled, because the code does not implement them.
