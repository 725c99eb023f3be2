/** Packet framing: an 8-byte header (big-endian signed 32-bit type code,
    then big-endian signed 32-bit packet number) in front of the payload. */
module BufferManagement {
  import opened Errors

  newtype byte = x: int | 0 <= x < 256

  const TwoTo31: int := 0x8000_0000
  const TwoTo32: int := 0x1_0000_0000

  /** The range `Buffer.writeInt32BE` accepts. */
  predicate IsInt32(v: int) {
    -TwoTo31 <= v < TwoTo31
  }

  /** The closed set of packet type codes. */
  datatype PacketCode = Connect | Data | End | Close | Ack

  /** The `PacketCodes` table: each type's value on the wire. */
  function Code(p: PacketCode): (c: int)
    ensures 1 <= c <= 5 && IsInt32(c)
  {
    match p
    case Connect => 1
    case Data => 2
    case End => 3
    case Close => 4
    case Ack => 5
  }

  function FromCode(code: int): (r: Option<PacketCode>)
    ensures r.Some? ==> Code(r.value) == code
    ensures r.None? ==> forall p: PacketCode :: Code(p) != code
  {
    if code == 1 then Some(Connect)
    else if code == 2 then Some(Data)
    else if code == 3 then Some(End)
    else if code == 4 then Some(Close)
    else if code == 5 then Some(Ack)
    else None
  }

  /** The type codes are pairwise distinct, so a code names exactly one packet type. */
  lemma CodesDistinct(p: PacketCode, q: PacketCode)
    ensures Code(p) == Code(q) <==> p == q
    ensures FromCode(Code(p)) == Some(p)
  {
  }

  /** The unsigned big-endian value of a byte string. */
  function Unsigned(b: seq<byte>): (u: nat)
    ensures u < Pow256(|b|)
  {
    if |b| == 0 then 0 else Unsigned(b[..|b| - 1]) * 256 + b[|b| - 1] as int
  }

  function Pow256(n: nat): (p: nat)
    ensures p > 0
  {
    if n == 0 then 1 else 256 * Pow256(n - 1)
  }

  /** Two's-complement reading of four big-endian bytes (`readInt32BE`). */
  function Int32FromBE(b: seq<byte>): (v: int)
    requires |b| == 4
    ensures IsInt32(v)
  {
    assert Pow256(4) == TwoTo32;
    var u := Unsigned(b);
    if u < TwoTo31 then u else u - TwoTo32
  }

  /** Two's-complement writing of an int32 as four big-endian bytes (`writeInt32BE`). */
  function Int32BE(v: int): (b: seq<byte>)
    requires IsInt32(v)
    ensures |b| == 4
    ensures Unsigned(b) == (if v < 0 then v + TwoTo32 else v)
  {
    var u := if v < 0 then v + TwoTo32 else v;
    var b := [(u / 0x100_0000) as byte, (u / 0x1_0000 % 256) as byte, (u / 0x100 % 256) as byte, (u % 256) as byte];
    UnsignedOfFour(b);
    DigitsOfFour(u);
    b
  }

  lemma UnsignedOfFour(b: seq<byte>)
    requires |b| == 4
    ensures Unsigned(b) == ((b[0] as int * 256 + b[1] as int) * 256 + b[2] as int) * 256 + b[3] as int
  {
    assert b[..3][..2] == b[..2] && b[..2][..1] == b[..1] && b[..1][..0] == [];
    assert Unsigned(b[..1]) == b[0] as int;
    assert Unsigned(b[..2]) == b[0] as int * 256 + b[1] as int;
    assert Unsigned(b[..3]) == (b[0] as int * 256 + b[1] as int) * 256 + b[2] as int;
  }

  lemma DigitsOfFour(u: int)
    requires 0 <= u < TwoTo32
    ensures u == ((u / 0x100_0000 * 256 + u / 0x1_0000 % 256) * 256 + u / 0x100 % 256) * 256 + u % 256
  {
    assert u / 0x100_0000 == u / 0x1_0000 / 256;
    assert u / 0x1_0000 == u / 0x100 / 256;
  }

  lemma {:induction false} Int32RoundTrip(v: int)
    requires IsInt32(v)
    ensures Int32FromBE(Int32BE(v)) == v
  {
  }

  /** Four bytes are determined by their unsigned value. */
  lemma {:induction false} UnsignedInjective(a: seq<byte>, b: seq<byte>)
    requires |a| == |b| && Unsigned(a) == Unsigned(b)
    ensures a == b
  {
    if |a| > 0 {
      var n := |a| - 1;
      assert Unsigned(a) == Unsigned(a[..n]) * 256 + a[n] as int;
      assert Unsigned(b) == Unsigned(b[..n]) * 256 + b[n] as int;
      assert a[n] == b[n] && Unsigned(a[..n]) == Unsigned(b[..n]);
      UnsignedInjective(a[..n], b[..n]);
      assert a == a[..n] + [a[n]] && b == b[..n] + [b[n]];
    }
  }

  lemma Int32ReverseRoundTrip(b: seq<byte>)
    requires |b| == 4
    ensures Int32BE(Int32FromBE(b)) == b
  {
    UnsignedInjective(Int32BE(Int32FromBE(b)), b);
  }

  /** `applyHeader(buffer, code, packetNumber)`: the header, then the payload.
      `writeInt32BE` throws a RangeError for a value outside the int32 range. */
  function ApplyHeader(data: seq<byte>, code: int, packetNumber: int): (r: Result<seq<byte>>)
    ensures r.Ok? <==> IsInt32(code) && IsInt32(packetNumber)
    ensures r.Err? ==> r.failure == OutOfRange
    ensures r.Ok? ==> |r.value| == 8 + |data|
    ensures r.Ok? ==> Int32FromBE(r.value[..4]) == code && Int32FromBE(r.value[4..8]) == packetNumber
    ensures r.Ok? ==> r.value[8..] == data
  {
    if !IsInt32(code) || !IsInt32(packetNumber) then Err(OutOfRange)
    else
      var b := Int32BE(code) + Int32BE(packetNumber) + data;
      assert b[..4] == Int32BE(code) && b[4..8] == Int32BE(packetNumber);
      Int32RoundTrip(code);
      Int32RoundTrip(packetNumber);
      Ok(b)
  }

  datatype Header = Header(code: int, packetNumber: int, data: seq<byte>)

  /** `extractHeader(buffer)`: reading an int32 past the end is a RangeError. */
  function ExtractHeader(buffer: seq<byte>): (r: Result<Header>)
    ensures r.Ok? <==> |buffer| >= 8
    ensures r.Err? ==> r.failure == OutOfRange
    ensures r.Ok? ==> IsInt32(r.value.code) && IsInt32(r.value.packetNumber)
    ensures r.Ok? ==> r.value.data == buffer[8..] && |r.value.data| == |buffer| - 8
  {
    if |buffer| < 8 then Err(OutOfRange)
    else Ok(Header(Int32FromBE(buffer[..4]), Int32FromBE(buffer[4..8]), buffer[8..]))
  }

  /** Decoding an encoded packet gives back its code, number and payload. */
  lemma RoundTrip(data: seq<byte>, code: int, packetNumber: int)
    requires IsInt32(code) && IsInt32(packetNumber)
    ensures ApplyHeader(data, code, packetNumber).Ok?
    ensures ExtractHeader(ApplyHeader(data, code, packetNumber).value) == Ok(Header(code, packetNumber, data))
  {
  }

  /** Every buffer of at least 8 bytes is the encoding of what it decodes to. */
  lemma ReverseRoundTrip(buffer: seq<byte>)
    requires |buffer| >= 8
    ensures var h := ExtractHeader(buffer).value;
            ApplyHeader(h.data, h.code, h.packetNumber) == Ok(buffer)
  {
    var h := ExtractHeader(buffer).value;
    Int32ReverseRoundTrip(buffer[..4]);
    Int32ReverseRoundTrip(buffer[4..8]);
    assert buffer == buffer[..4] + buffer[4..8] + buffer[8..];
  }

  /** The Connect packet the initiator sends first: code 1, number 1, no payload. */
  lemma ConnectPacketBytes()
    ensures ApplyHeader([], Code(Connect), 1) == Ok([0, 0, 0, 1, 0, 0, 0, 1])
  {
    var one: seq<byte> := [0, 0, 0, 1];
    UnsignedOfFour(one);
    UnsignedInjective(Int32BE(1), one);
    assert ApplyHeader([], 1, 1) == Ok(Int32BE(1) + Int32BE(1) + []);
    assert one + one + [] == [0, 0, 0, 1, 0, 0, 0, 1];
  }
}
