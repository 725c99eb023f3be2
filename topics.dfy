/** Session ids and the topic names `${topic}/tunnel/{up|down}/${id}` that
    carry a session's packets. */
module Topics {
  import opened Errors

  /** A session id: the initiator numbers its sessions (and `parseInt` of an
      empty digit run is NaN); the acceptor keys sessions by the raw topic suffix. */
  datatype SocketId = Num(n: nat) | NaN | Name(s: string)

  datatype Direction = Up | Down

  function DirectionName(d: Direction): string {
    match d
    case Up => "up"
    case Down => "down"
  }

  predicate IsDigit(c: char) {
    '0' <= c <= '9'
  }

  predicate IsDigits(s: string) {
    forall i :: 0 <= i < |s| ==> IsDigit(s[i])
  }

  function DigitChar(d: nat): (c: char)
    requires d < 10
    ensures IsDigit(c) && c as int - '0' as int == d
  {
    ('0' as int + d) as char
  }

  /** The decimal text of a natural number, as `${n}` prints it. */
  function Decimal(n: nat): (s: string)
    ensures |s| > 0 && IsDigits(s)
    ensures |s| > 1 ==> s[0] != '0'
  {
    if n < 10 then [DigitChar(n)] else Decimal(n / 10) + [DigitChar(n % 10)]
  }

  /** `parseInt` of a non-empty run of decimal digits. */
  function ParseDecimal(s: string): nat
    requires IsDigits(s)
  {
    if s == [] then 0 else ParseDecimal(s[..|s| - 1]) * 10 + (s[|s| - 1] as int - '0' as int)
  }

  lemma {:induction false} ParseDecimalOfDecimal(n: nat)
    ensures ParseDecimal(Decimal(n)) == n
  {
    if n >= 10 {
      var s := Decimal(n);
      assert s[..|s| - 1] == Decimal(n / 10);
      ParseDecimalOfDecimal(n / 10);
    }
  }

  /** The text a template literal gives for an id. */
  function IdText(id: SocketId): string {
    match id
    case Num(n) => Decimal(n)
    case NaN => "NaN"
    case Name(s) => s
  }

  /** The topic prefix `${topic}/tunnel/${direction}/` of one direction. */
  function TunnelPrefix(topic: string, d: Direction): string {
    topic + "/tunnel/" + DirectionName(d) + "/"
  }

  function TunnelTopic(topic: string, d: Direction, id: SocketId): (t: string)
    ensures |t| >= |TunnelPrefix(topic, d)| && t[..|TunnelPrefix(topic, d)|] == TunnelPrefix(topic, d)
    ensures t[|TunnelPrefix(topic, d)|..] == IdText(id)
  {
    var p := TunnelPrefix(topic, d);
    assert (p + IdText(id))[..|p|] == p;
    p + IdText(id)
  }

  /** The suffix of `incoming` after `prefix`, when `incoming` starts with it. */
  function Suffix(prefix: string, incoming: string): (r: Option<string>)
    ensures r.Some? <==> |prefix| <= |incoming| && incoming[..|prefix|] == prefix
    ensures r.Some? ==> incoming == prefix + r.value
  {
    if |prefix| <= |incoming| && incoming[..|prefix|] == prefix then
      assert incoming == prefix + incoming[|prefix|..];
      Some(incoming[|prefix|..])
    else None
  }
}
