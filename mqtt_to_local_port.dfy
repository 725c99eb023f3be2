/** The acceptor's view of topics: it writes on `down` and reads on `up`,
    and its session ids are the raw suffix of the incoming topic. */
module MqttToLocalPort {
  import opened Topics
  import opened Errors
  import LocalPortToMqtt

  /** `${topic}/tunnel/down/${socketId}`: where the acceptor publishes a session's packets. */
  function DataTopic(topic: string, id: SocketId): (t: string)
    ensures var p := TunnelPrefix(topic, Down);
      |p| <= |t| && t[..|p|] == p && t[|p|..] == IdText(id)
  {
    TunnelTopic(topic, Down, id)
  }

  /** JavaScript line terminators, which `.` in a regular expression does not match. */
  predicate IsLineTerminator(c: char) {
    c == '\n' || c == '\r' || c == '\U{2028}' || c == '\U{2029}'
  }

  predicate OneLine(s: string) {
    forall i :: 0 <= i < |s| ==> !IsLineTerminator(s[i])
  }

  /** `/^${topic}\/tunnel\/up\/(.*)$/.exec(str)[1]`: the rest of the line after the prefix; no match throws. */
  function ExtractSocketId(topic: string, incoming: string): (r: Result<SocketId>)
    ensures r.Ok? <==> (exists rest :: OneLine(rest) && incoming == TunnelPrefix(topic, Up) + rest)
    ensures r.Err? ==> r.failure == TopicMismatch
    ensures r.Ok? ==> r.value.Name? && incoming == TunnelPrefix(topic, Up) + r.value.s
  {
    var prefix := TunnelPrefix(topic, Up);
    match Suffix(prefix, incoming)
    case None =>
      Err(TopicMismatch)
    case Some(rest) =>
      if OneLine(rest) then Ok(Name(rest))
      else
        Err(TopicMismatch)
  }

  /** Any one-line id the acceptor publishes under is read back unchanged. */
  lemma ExtractSocketIdOfTopic(topic: string, s: string)
    requires OneLine(s)
    ensures ExtractSocketId(topic, TunnelTopic(topic, Up, Name(s))) == Ok(Name(s))
  {
    assert Suffix(TunnelPrefix(topic, Up), TunnelTopic(topic, Up, Name(s))) == Some(s);
  }

  /** Both ends agree on a session: the acceptor reads the initiator's number n
      as the name "n", and the initiator reads the acceptor's replies for that
      name as the number n. */
  lemma SessionIdsAgree(topic: string, n: nat)
    ensures ExtractSocketId(topic, LocalPortToMqtt.DataTopic(topic, Num(n))) == Ok(Name(Decimal(n)))
    ensures LocalPortToMqtt.ExtractSocketId(topic, DataTopic(topic, Name(Decimal(n)))) == Ok(Num(n))
  {
    var d := Decimal(n);
    assert OneLine(d) by {
      forall i | 0 <= i < |d| ensures !IsLineTerminator(d[i]) {
        assert IsDigit(d[i]);
      }
    }
    ExtractSocketIdOfTopic(topic, d);
    assert TunnelTopic(topic, Down, Name(d)) == TunnelTopic(topic, Down, Num(n));
    LocalPortToMqtt.ExtractSocketIdOfTopic(topic, n);
  }
}
