/** In-order, at-most-once delivery: whatever order the channel delivers a
    session's packets in, and however often it repeats them, `syncPackets`
    runs their callbacks once each, in ascending consecutive packet order, up
    to the first packet number that has not arrived yet, or until an End or
    Close callback has deleted the session. */
module DeliveryOrder {
  import opened PacketSync

  /** An End or Close callback ran, deleting the session from `openedSockets`. */
  predicate Deleted(ran: seq<Packet>) {
    Ends(ran) || Destroys(ran)
  }

  /** `syncPackets` for each arriving packet of one session in turn. Each call
      looks the socket up afresh, so once the session is deleted, later
      arrivals find no socket and are dropped; calls already suspended keep
      polling the socket they captured, and `Arrive` runs them. */
  function Run(r: Inbound, arrivals: seq<Packet>): (s: Step)
    ensures Consecutive(s.ran, r.next)
    ensures s.inbound.next == r.next + |s.ran|
  {
    if arrivals == [] then Step(r, [])
    else
      var before := Run(r, arrivals[..|arrivals| - 1]);
      if Deleted(before.ran) then before
      else
        var last := Arrive(before.inbound, arrivals[|arrivals| - 1]);
        Step(last.inbound, before.ran + last.ran)
  }

  function Numbers(arrivals: seq<Packet>): set<int> {
    set p | p in arrivals :: p.number
  }

  function WaitNumbers(r: Inbound): set<int> {
    set p | p in r.waits :: p.number
  }

  /** After the packets numbered `seen` have arrived, without regard to
      order: every number from `start` up to the counter has arrived, every
      wait is for an arrived number, and each wait carries its packet's payload. */
  ghost predicate Received(start: int, seen: set<int>, r: Inbound, payload: int -> Callback) {
    start <= r.next &&
    (forall k :: start <= k < r.next ==> k in seen) &&
    WaitNumbers(r) <= seen &&
    (forall p :: p in r.waits ==> p.callback == payload(p.number))
  }

  /** `Received`, and moreover the counter stands at the first number from
      `start` on that has not arrived, and every later number that has
      arrived is waiting. */
  ghost predicate Delivered(start: int, seen: set<int>, r: Inbound, payload: int -> Callback) {
    Received(start, seen, r, payload) && r.next !in seen &&
    (forall k :: k in seen && k > r.next ==> k in WaitNumbers(r))
  }

  /** Draining only moves waits: each one either ran or still waits. */
  lemma DrainMoves(r: Inbound)
    ensures var s := Drain(r);
      (forall p :: p in s.ran ==> p in r.waits) &&
      (forall p :: p in s.inbound.waits ==> p in r.waits) &&
      (forall p :: p in r.waits ==> p in s.ran || p in s.inbound.waits)
  {
    var s := Drain(r);
    DrainKeeps(r);
    forall p | p in s.ran || p in s.inbound.waits || p in r.waits
      ensures (p in r.waits) == (p in s.ran || p in s.inbound.waits)
    {
      assert multiset(r.waits)[p] == multiset(s.inbound.waits)[p] + multiset(s.ran)[p];
    }
  }

  /** Draining runs exactly the waits numbered from the counter up to the first gap. */
  lemma DrainReachesGap(r: Inbound)
    ensures var s := Drain(r);
      s.inbound.next !in WaitNumbers(r) &&
      (forall k :: r.next <= k < s.inbound.next ==> k in WaitNumbers(r)) &&
      (forall p :: p in s.ran ==> p in r.waits) &&
      (forall p :: p in s.inbound.waits ==> p in r.waits) &&
      (forall p :: p in r.waits && p.number > s.inbound.next ==> p in s.inbound.waits)
  {
    var s := Drain(r);
    DrainMoves(r);
    forall p | p in s.ran ensures p.number < s.inbound.next {
      var k :| 0 <= k < |s.ran| && s.ran[k] == p;
    }
    forall k | r.next <= k < s.inbound.next ensures k in WaitNumbers(r) {
      var q := s.ran[k - r.next];
      assert q in s.ran && q.number == k;
    }
    forall p | p in r.waits ensures p.number != s.inbound.next {
      if p in s.ran {
        var k :| 0 <= k < |s.ran| && s.ran[k] == p;
      }
    }
  }

  /** One arrival keeps `Delivered`, and what it runs carries the right payloads. */
  lemma ArriveDelivers(start: int, seen: set<int>, r: Inbound, p: Packet, payload: int -> Callback)
    requires Delivered(start, seen, r, payload)
    requires p.callback == payload(p.number)
    ensures var s := Arrive(r, p);
      Delivered(start, seen + {p.number}, s.inbound, payload) &&
      (forall q :: q in s.ran ==> q.callback == payload(q.number))
  {
    if p.number < r.next {
      assert start <= p.number ==> p.number in seen;
      assert seen + {p.number} == seen || p.number < start;
    } else if p.number > r.next {
      ArriveEarlyDelivers(start, seen, r, p, payload);
    } else {
      ArriveInOrderDelivers(start, seen, r, p, payload);
    }
  }

  lemma ArriveEarlyDelivers(start: int, seen: set<int>, r: Inbound, p: Packet, payload: int -> Callback)
    requires Delivered(start, seen, r, payload)
    requires p.callback == payload(p.number) && p.number > r.next
    ensures Delivered(start, seen + {p.number}, Arrive(r, p).inbound, payload)
  {
    var w := Arrive(r, p).inbound;
    assert w == Inbound(r.next, r.waits + [p]);
    assert WaitNumbers(w) == WaitNumbers(r) + {p.number};
  }

  lemma ArriveInOrderDelivers(start: int, seen: set<int>, r: Inbound, p: Packet, payload: int -> Callback)
    requires Delivered(start, seen, r, payload)
    requires p.callback == payload(p.number) && p.number == r.next
    ensures var s := Arrive(r, p);
      Delivered(start, seen + {p.number}, s.inbound, payload) &&
      (forall q :: q in s.ran ==> q.callback == payload(q.number))
  {
    var r1 := Inbound(r.next + 1, r.waits);
    assert WaitNumbers(r1) == WaitNumbers(r);
    DrainDelivers(start, seen + {p.number}, r1, payload);
    var d := Drain(r1);
    ArriveInOrder(r, p);
    forall q | q in [p] + d.ran ensures q.callback == payload(q.number) {
      assert q == p || q in d.ran;
    }
  }

  /** Draining from a counter whose every later arrived number is waiting stops at the first gap. */
  lemma DrainDelivers(start: int, seen: set<int>, r: Inbound, payload: int -> Callback)
    requires start <= r.next
    requires forall k :: start <= k < r.next ==> k in seen
    requires forall k :: k in seen && k >= r.next ==> k in WaitNumbers(r)
    requires WaitNumbers(r) <= seen
    requires forall p :: p in r.waits ==> p.callback == payload(p.number)
    ensures Delivered(start, seen, Drain(r).inbound, payload)
    ensures forall q :: q in Drain(r).ran ==> q.callback == payload(q.number)
  {
    var d := Drain(r);
    DrainReachesGap(r);
    forall k | k in seen && k > d.inbound.next ensures k in WaitNumbers(d.inbound) {
      var q :| q in r.waits && q.number == k;
      assert q in d.inbound.waits;
    }
    forall k | k in WaitNumbers(d.inbound) ensures k in seen {
      var q :| q in d.inbound.waits && q.number == k;
      assert q in r.waits;
    }
  }

  /** Each packet number from `start` up to the counter has arrived and had
      its callback run exactly once, in ascending order, with the payload it
      was sent with; nothing else runs. Unless an End or Close deleted the
      session, the counter stands at the first number that has not arrived;
      a stream of Data packets never deletes it. */
  lemma {:induction false} InOrder(start: int, arrivals: seq<Packet>, payload: int -> Callback)
    requires forall p :: p in arrivals ==> p.callback == payload(p.number)
    ensures var s := Run(Inbound(start, []), arrivals);
      start <= s.inbound.next &&
      (forall k :: start <= k < s.inbound.next ==> k in Numbers(arrivals)) &&
      (forall k :: 0 <= k < |s.ran| ==> s.ran[k] == Packet(start + k, payload(start + k))) &&
      (!Deleted(s.ran) ==> s.inbound.next !in Numbers(arrivals))
    ensures (forall p :: p in arrivals ==> p.callback.WriteData?) ==>
      var s := Run(Inbound(start, []), arrivals);
      !Deleted(s.ran) && s.inbound.next !in Numbers(arrivals)
  {
    var s := Run(Inbound(start, []), arrivals);
    RunDelivers(start, arrivals, payload);
    RanInOrder(start, Numbers(arrivals), s, payload);
    if forall p :: p in arrivals ==> p.callback.WriteData? {
      DataOnly(start, arrivals, s.ran, payload);
    }
  }

  /** What ran, consecutively from `start`, ran with the payloads sent. */
  lemma RanInOrder(start: int, seen: set<int>, s: Step, payload: int -> Callback)
    requires Consecutive(s.ran, start)
    requires forall q :: q in s.ran ==> q.callback == payload(q.number)
    ensures forall k :: 0 <= k < |s.ran| ==> s.ran[k] == Packet(start + k, payload(start + k))
  {
    forall k | 0 <= k < |s.ran| ensures s.ran[k] == Packet(start + k, payload(start + k)) {
      assert s.ran[k] in s.ran;
    }
  }

  /** Callbacks run for arrived numbers, with the payloads sent, are all
      writes when every arrival is a Data packet. */
  lemma DataOnly(start: int, arrivals: seq<Packet>, ran: seq<Packet>, payload: int -> Callback)
    requires forall p :: p in arrivals ==> p.callback == payload(p.number) && p.callback.WriteData?
    requires forall q :: q in ran ==> q.number in Numbers(arrivals) && q.callback == payload(q.number)
    ensures !Deleted(ran)
  {
    forall q | q in ran ensures q.callback.WriteData? {
      var a :| a in arrivals && a.number == q.number;
    }
  }

  lemma {:induction false} RunDelivers(start: int, arrivals: seq<Packet>, payload: int -> Callback)
    requires forall p :: p in arrivals ==> p.callback == payload(p.number)
    ensures var s := Run(Inbound(start, []), arrivals);
      Received(start, Numbers(arrivals), s.inbound, payload) &&
      (!Deleted(s.ran) ==> Delivered(start, Numbers(arrivals), s.inbound, payload)) &&
      (forall q :: q in s.ran ==> q.callback == payload(q.number))
  {
    if arrivals == [] {
      assert Numbers(arrivals) == {};
    } else {
      var n := |arrivals| - 1;
      var prefix, p := arrivals[..n], arrivals[n];
      assert arrivals == prefix + [p];
      assert forall q :: q in prefix ==> q in arrivals;
      assert Numbers(arrivals) == Numbers(prefix) + {p.number};
      RunDelivers(start, prefix, payload);
      var before := Run(Inbound(start, []), prefix);
      if !Deleted(before.ran) {
        ArriveDelivers(start, Numbers(prefix), before.inbound, p, payload);
        var last := Arrive(before.inbound, p);
        assert Run(Inbound(start, []), arrivals) == Step(last.inbound, before.ran + last.ran);
        forall q | q in before.ran + last.ran ensures q.callback == payload(q.number) {
          assert q in before.ran || q in last.ran;
        }
      }
    }
  }
}
