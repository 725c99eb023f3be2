/** The initiator's view of topics: it writes on `up` and reads on `down`,
    and its session ids are decimal numbers. */
module LocalPortToMqtt {
  import opened Topics
  import opened Errors

  /** `${topic}/tunnel/up/${socketId}`: where the initiator publishes a session's packets. */
  function DataTopic(topic: string, id: SocketId): (t: string)
    ensures var p := TunnelPrefix(topic, Up);
      |p| <= |t| && t[..|p|] == p && t[|p|..] == IdText(id)
  {
    TunnelTopic(topic, Up, id)
  }

  /** `parseInt(/^${topic}\/tunnel\/down\/(\d*)$/.exec(str)[1])`: a digit run
      after the prefix; an empty run parses to NaN; no match throws. */
  function ExtractSocketId(topic: string, incoming: string): (r: Result<SocketId>)
    ensures r.Ok? <==> (exists digits :: IsDigits(digits) && incoming == TunnelPrefix(topic, Down) + digits)
    ensures r.Err? ==> r.failure == TopicMismatch
    ensures r.Ok? ==>
      var digits := incoming[|TunnelPrefix(topic, Down)|..];
      IsDigits(digits) && r.value == (if digits == "" then NaN else Num(ParseDecimal(digits)))
  {
    var prefix := TunnelPrefix(topic, Down);
    match Suffix(prefix, incoming)
    case None =>
      Err(TopicMismatch)
    case Some(rest) =>
      if !IsDigits(rest) then
        Err(TopicMismatch)
      else if rest == "" then Ok(NaN)
      else Ok(Num(ParseDecimal(rest)))
  }

  /** The id read back from the topic the acceptor answers on is the number the session was given. */
  lemma ExtractSocketIdOfTopic(topic: string, n: nat)
    ensures ExtractSocketId(topic, TunnelTopic(topic, Down, Num(n))) == Ok(Num(n))
  {
    var t := TunnelTopic(topic, Down, Num(n));
    var prefix := TunnelPrefix(topic, Down);
    assert t == prefix + Decimal(n);
    assert Suffix(prefix, t) == Some(Decimal(n));
    ParseDecimalOfDecimal(n);
  }
}
