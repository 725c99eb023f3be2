/** The receive side of one socket as `syncPackets` drives it: the counter
    `nextIncomingPacket` and the `syncPackets` calls suspended in their wait
    for that counter to reach their packet number. A suspended call resumes as
    soon as the counter equals its number (its `retryUntil` predicate holds);
    the callback then runs and the counter moves on by one. */
module PacketSync {
  import opened BufferManagement
  import opened Topics
  import opened Errors

  /** The callback `fn(socket)` a packet handler hands to `syncPackets`. */
  datatype Callback =
    | WriteData(data: seq<byte>)   // Data: socket.write(data)
    | EndSession(id: SocketId)     // End: socket.end(); openedSockets.delete(id)
    | CloseSession(id: SocketId)   // Close: socket.destroy(); openedSockets.delete(id)

  /** A packet number with the callback to run once that packet is in order. */
  datatype Packet = Packet(number: int, callback: Callback)

  /** `nextIncomingPacket` and the suspended calls waiting on it, oldest first. */
  datatype Inbound = Inbound(next: int, waits: seq<Packet>)

  /** The receive side after a step, and the callbacks that ran, in the order they ran. */
  datatype Step = Step(inbound: Inbound, ran: seq<Packet>)

  /** No suspended call is ready: each one's wait predicate is false. */
  predicate Settled(r: Inbound) {
    forall p :: p in r.waits ==> p.number != r.next
  }

  /** The callbacks of `ran` were run in packet order, one per number, starting at `from`. */
  predicate Consecutive(ran: seq<Packet>, from: int) {
    forall k :: 0 <= k < |ran| ==> ran[k].number == from + k
  }

  /** The oldest suspended call whose packet number has come up, or |waits|. */
  function FirstReady(waits: seq<Packet>, next: int): (i: nat)
    ensures i <= |waits|
    ensures i < |waits| ==> waits[i].number == next
    ensures forall j :: 0 <= j < i ==> waits[j].number != next
  {
    if waits == [] then 0
    else if waits[0].number == next then 0
    else 1 + FirstReady(waits[1..], next)
  }

  function Without(waits: seq<Packet>, i: nat): (w: seq<Packet>)
    requires i < |waits|
    ensures multiset(w) + multiset{waits[i]} == multiset(waits)
    ensures |w| == |waits| - 1
    ensures forall p :: p in w ==> p in waits
  {
    assert waits == waits[..i] + [waits[i]] + waits[i + 1..];
    waits[..i] + waits[i + 1..]
  }

  /** The suspended calls resume one after the other while the counter matches one of them. */
  function Drain(r: Inbound): (s: Step)
    decreases |r.waits|
    ensures Settled(s.inbound)
    ensures Consecutive(s.ran, r.next)
    ensures s.inbound.next == r.next + |s.ran|
  {
    var i := FirstReady(r.waits, r.next);
    if i == |r.waits| then Step(r, [])
    else
      var rest := Drain(Inbound(r.next + 1, Without(r.waits, i)));
      ConsecutiveCons(r.waits[i], rest.ran, r.next);
      Step(rest.inbound, [r.waits[i]] + rest.ran)
  }

  lemma ConsecutiveCons(p: Packet, ran: seq<Packet>, from: int)
    requires p.number == from && Consecutive(ran, from + 1)
    ensures Consecutive([p] + ran, from)
  {
    forall k | 0 <= k < |[p] + ran| ensures ([p] + ran)[k].number == from + k {
      if k > 0 {
        assert ([p] + ran)[k] == ran[k - 1];
      }
    }
  }

  /** The oldest ready wait resumes first, then the ones it unblocks. */
  lemma DrainReady(r: Inbound)
    requires FirstReady(r.waits, r.next) < |r.waits|
    ensures var i := FirstReady(r.waits, r.next);
      var rest := Drain(Inbound(r.next + 1, Without(r.waits, i)));
      Drain(r).inbound == rest.inbound && Drain(r).ran == [r.waits[i]] + rest.ran
  {
  }

  /** A consecutive run without its first packet is consecutive from the next number. */
  lemma ConsecutiveTail(ran: seq<Packet>, from: int)
    requires ran != [] && Consecutive(ran, from)
    ensures ran[0].number == from && Consecutive(ran[1..], from + 1)
  {
    forall k | 0 <= k < |ran[1..]| ensures ran[1..][k].number == from + 1 + k {
      assert ran[1..][k] == ran[k + 1];
    }
  }

  /** When the oldest wait is the ready one and the rest all resume after
      it, all of them resume, in order. */
  lemma DrainHead(r: Inbound)
    requires r.waits != [] && r.waits[0].number == r.next
    requires Drain(Inbound(r.next + 1, r.waits[1..])) == Step(Inbound(r.next + |r.waits|, []), r.waits[1..])
    ensures Drain(r) == Step(Inbound(r.next + |r.waits|, []), r.waits)
  {
    assert FirstReady(r.waits, r.next) == 0;
    assert Without(r.waits, 0) == r.waits[1..];
    DrainReady(r);
    HeadThenTail(r.waits);
  }

  lemma HeadThenTail<T>(s: seq<T>)
    requires s != []
    ensures s == [s[0]] + s[1..]
  {
  }

  /** Waits that are already consecutive from the counter all resume, in order. */
  lemma {:induction false} DrainConsecutive(r: Inbound)
    requires Consecutive(r.waits, r.next)
    decreases |r.waits|
    ensures Drain(r) == Step(Inbound(r.next + |r.waits|, []), r.waits)
  {
    if r.waits != [] {
      ConsecutiveTail(r.waits, r.next);
      DrainConsecutive(Inbound(r.next + 1, r.waits[1..]));
      DrainHead(r);
    }
  }

  /** `syncPackets(socketId, p.number, p.callback)` on a registered socket. */
  function Arrive(r: Inbound, p: Packet): (s: Step)
    ensures p.number < r.next ==> s == Step(r, [])
    ensures p.number > r.next ==> s.ran == [] && s.inbound.next == r.next
    ensures p.number == r.next ==> |s.ran| >= 1 && s.ran[0] == p
    ensures Consecutive(s.ran, r.next)
    ensures s.inbound.next == r.next + |s.ran|
    ensures Settled(r) ==> Settled(s.inbound)
  {
    if p.number < r.next then Step(r, [])
    else if p.number == r.next then RunThenDrain(r, p)
    else
      Step(Inbound(r.next, r.waits + [p]), [])
  }

  /** An in-order packet runs first, then the waits it unblocks. */
  lemma ArriveInOrder(r: Inbound, p: Packet)
    requires p.number == r.next
    ensures var rest := Drain(Inbound(r.next + 1, r.waits));
      Arrive(r, p) == Step(rest.inbound, [p] + rest.ran)
  {
    var rest := Drain(Inbound(r.next + 1, r.waits));
    var s := RunThenDrain(r, p);
    assert s.inbound == rest.inbound && s.ran == [p] + rest.ran;
    assert Arrive(r, p) == s;
  }

  /** The local connection completed: the acceptor's callback sets the counter
      one past the Connect packet's number, and the calls it unblocks resume. */
  function Connected(r: Inbound, connectNumber: int): (s: Step)
    ensures Settled(s.inbound)
    ensures Consecutive(s.ran, connectNumber + 1)
    ensures s.inbound.next == connectNumber + 1 + |s.ran|
  {
    Drain(Inbound(connectNumber + 1, r.waits))
  }

  /** The outcome of a wait's end: the step, and what the resumed call threw. */
  datatype Resumed = Resumed(step: Step, thrown: Option<Failure>)

  /** The i-th suspended call's `retryUntil` gave up: the call re-checks the
      counter, runs its callback if the counter now matches, and otherwise
      throws "Expected ${next} but got ${number}". */
  function WaitEnds(r: Inbound, i: nat): (res: Resumed)
    requires i < |r.waits|
    ensures r.waits[i].number == r.next ==> res.thrown == None && |res.step.ran| >= 1 && res.step.ran[0] == r.waits[i]
    ensures r.waits[i].number != r.next ==> res.thrown == Some(OutOfOrder(r.next, r.waits[i].number))
    ensures r.waits[i].number != r.next ==> res.step.ran == [] && res.step.inbound.next == r.next
    ensures Consecutive(res.step.ran, r.next)
    ensures res.step.inbound.next == r.next + |res.step.ran|
    ensures Settled(r) ==> Settled(res.step.inbound)
    ensures Settled(r) ==> res.thrown.Some?
  {
    var w := r.waits[i];
    var rest := Without(r.waits, i);
    if w.number == r.next then Resumed(RunThenDrain(Inbound(r.next, rest), w), None)
    else Resumed(Step(Inbound(r.next, rest), []), Some(OutOfOrder(r.next, w.number)))
  }

  /** The callback of an in-order packet runs, the counter moves on, and the calls it unblocks resume. */
  function RunThenDrain(r: Inbound, p: Packet): (s: Step)
    requires p.number == r.next
    ensures |s.ran| >= 1 && s.ran[0] == p
    ensures Consecutive(s.ran, r.next)
    ensures s.inbound.next == r.next + |s.ran|
    ensures Settled(s.inbound)
  {
    var rest := Drain(Inbound(r.next + 1, r.waits));
    ConsecutiveCons(p, rest.ran, r.next);
    Step(rest.inbound, [p] + rest.ran)
  }

  /** Draining loses and duplicates nothing: each wait either ran once or still waits. */
  lemma {:induction false} DrainKeeps(r: Inbound)
    decreases |r.waits|
    ensures var s := Drain(r);
      multiset(s.inbound.waits) + multiset(s.ran) == multiset(r.waits)
  {
    var i := FirstReady(r.waits, r.next);
    if i < |r.waits| {
      var w := r.waits[i];
      var inner := Inbound(r.next + 1, Without(r.waits, i));
      var rest := Drain(inner);
      var s := Drain(r);
      DrainReady(r);
      DrainKeeps(inner);
      calc {
        multiset(s.inbound.waits) + multiset(s.ran);
        multiset(rest.inbound.waits) + multiset(rest.ran) + multiset{w};
        multiset(inner.waits) + multiset{w};
        multiset(r.waits);
      }
    }
  }

  /** A packet that is not a duplicate is queued or run exactly once, and no
      suspended call is lost or run twice. */
  lemma ArriveKeeps(r: Inbound, p: Packet)
    ensures var s := Arrive(r, p);
      p.number >= r.next ==> multiset(s.inbound.waits) + multiset(s.ran) == multiset(r.waits) + multiset{p}
  {
    if p.number == r.next {
      DrainKeeps(Inbound(r.next + 1, r.waits));
      ArriveInOrder(r, p);
      var rest := Drain(Inbound(r.next + 1, r.waits));
      assert multiset([p] + rest.ran) == multiset{p} + multiset(rest.ran);
    }
  }

  /** The completed connection resumes waits without losing or repeating any. */
  lemma ConnectedKeeps(r: Inbound, connectNumber: int)
    ensures var s := Connected(r, connectNumber);
      multiset(s.inbound.waits) + multiset(s.ran) == multiset(r.waits)
  {
    DrainKeeps(Inbound(connectNumber + 1, r.waits));
  }

  /** When a wait ends, its call either runs (with the calls it unblocks) or
      throws and is gone; the other waits are kept. */
  lemma WaitEndsKeeps(r: Inbound, i: nat)
    requires i < |r.waits|
    ensures var res := WaitEnds(r, i);
      (r.waits[i].number == r.next ==> multiset(res.step.inbound.waits) + multiset(res.step.ran) == multiset(r.waits)) &&
      (r.waits[i].number != r.next ==> multiset(res.step.inbound.waits) + multiset{r.waits[i]} == multiset(r.waits))
  {
    var w := r.waits[i];
    var rest := Without(r.waits, i);
    if w.number == r.next {
      var inner := Inbound(r.next + 1, rest);
      DrainKeeps(inner);
      var d := Drain(inner);
      assert WaitEnds(r, i).step == Step(d.inbound, [w] + d.ran);
      assert multiset([w] + d.ran) == multiset{w} + multiset(d.ran);
    }
  }

  /** The payloads a run of callbacks writes to the socket, in order. */
  function Written(ran: seq<Packet>): seq<seq<byte>> {
    if ran == [] then []
    else
      var last := ran[|ran| - 1];
      Written(ran[..|ran| - 1]) + (if last.callback.WriteData? then [last.callback.data] else [])
  }

  /** The ids a run of callbacks deletes from `openedSockets`. */
  function Removed(ran: seq<Packet>): set<SocketId> {
    set p | p in ran && !p.callback.WriteData? :: p.callback.id
  }

  predicate Ends(ran: seq<Packet>) {
    exists p :: p in ran && p.callback.EndSession?
  }

  predicate Destroys(ran: seq<Packet>) {
    exists p :: p in ran && p.callback.CloseSession?
  }

  /** Running one more callback adds exactly its own effect. */
  lemma EffectsOfOneMore(ran: seq<Packet>, i: nat)
    requires i < |ran|
    ensures Written(ran[..i + 1]) == Written(ran[..i]) + Written([ran[i]])
    ensures Ends(ran[..i + 1]) == (Ends(ran[..i]) || Ends([ran[i]]))
    ensures Destroys(ran[..i + 1]) == (Destroys(ran[..i]) || Destroys([ran[i]]))
    ensures Removed(ran[..i + 1]) == Removed(ran[..i]) + Removed([ran[i]])
  {
    var p := ran[i];
    assert ran[..i + 1] == ran[..i] + [p];
    assert ran[..i + 1][..i] == ran[..i];
    assert [p][..0] == [];
    assert forall q :: q in ran[..i + 1] <==> q in ran[..i] || q in [p];
  }
}
