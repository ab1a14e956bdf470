/** Packets on the wire, logic/ngx_c_slogic.cpp: how the send helpers build them, how the
    receiver checks them, and that what is sent is what is received. */
module Wire {
  import opened Bits
  import opened Common
  import opened Crc32
  import opened Framing

  type Code = n: nat | n < 0x1_0000

  datatype Message = Message(msgCode: Code, body: seq<Byte>)

  // ---- Network byte order ----

  function Short(n: nat): (b: seq<Byte>)
    requires n < 0x1_0000
    ensures |b| == 2
  {
    [n / 256, n % 256]
  }

  function ByteOf(b: BitString): Byte
    requires |b| == 8
  {
    ToBitsValue(b);
    assert Pow2(8) == 256;
    Value(b)
  }

  /** htonl: the highest byte first. */
  function Long(w: Word): (b: seq<Byte>)
    ensures |b| == 4
  {
    [ByteOf(w[24..]), ByteOf(w[16..24]), ByteOf(w[8..16]), ByteOf(w[..8])]
  }

  /** ntohl */
  function ReadLong(b: seq<Byte>): Word
    requires |b| == 4
  {
    ToBits(b[3], 8) + ToBits(b[2], 8) + ToBits(b[1], 8) + ToBits(b[0], 8)
  }

  lemma ByteRoundTrip(b: BitString)
    requires |b| == 8
    ensures ToBits(ByteOf(b), 8) == b
  {
    ToBitsValue(b);
  }

  lemma LongRoundTrip(w: Word)
    ensures ReadLong(Long(w)) == w
  {
    ByteRoundTrip(w[..8]);
    ByteRoundTrip(w[8..16]);
    ByteRoundTrip(w[16..24]);
    ByteRoundTrip(w[24..]);
    var b := Long(w);
    assert ToBits(b[3], 8) == w[..8] && ToBits(b[2], 8) == w[8..16];
    assert ToBits(b[1], 8) == w[16..24] && ToBits(b[0], 8) == w[24..];
    assert w == w[..8] + w[8..16] + w[16..24] + w[24..];
  }

  lemma LongOfRead(b: seq<Byte>)
    requires |b| == 4
    ensures Long(ReadLong(b)) == b
  {
    var w := ReadLong(b);
    assert Pow2(8) == 256;
    assert w[..8] == ToBits(b[3], 8) && w[8..16] == ToBits(b[2], 8) && w[16..24] == ToBits(b[1], 8) && w[24..] == ToBits(b[0], 8);
    forall i | 0 <= i < 4
      ensures Value(ToBits(b[i], 8)) == b[i]
    {
      ValueToBits(b[i], 8);
    }
  }

  lemma ValueBehindByte(a: BitString, b: BitString)
    requires |a| == 8
    ensures Value(a + b) == ByteOf(a) + 256 * Value(b)
  {
    assert Pow2(8) == 256;
    ValueAppend(a, b);
  }

  /** The four bytes are the digits of the word in base 256, highest first. */
  lemma LongIsBigEndian(w: Word)
    ensures var b := Long(w);
            Value(w) == 0x100_0000 * (b[0] as int) + 0x1_0000 * (b[1] as int) + 0x100 * (b[2] as int) + b[3] as int
  {
    hide Value;
    var p0, p1, p2, p3 := w[..8], w[8..16], w[16..24], w[24..];
    assert w == p0 + (p1 + (p2 + (p3 + [])));
    ValueBehindByte(p3, []);
    ValueBehindByte(p2, p3 + []);
    ValueBehindByte(p1, p2 + (p3 + []));
    ValueBehindByte(p0, p1 + (p2 + (p3 + [])));
    ValueOfNothing();
  }

  lemma ValueOfNothing()
    ensures Value([]) == 0
  {
  }

  // ---- Sending and checking ----

  /** A packet header followed by a body. */
  function Frame(length: nat, msgCode: Code, crc: Word, body: seq<Byte>): (p: Packet)
    requires length < 0x1_0000
    ensures |p| == HEADER_LENGTH + |body|
    ensures PacketLength(p) == length && 256 * (p[2] as int) + p[3] as int == msgCode
    ensures p[4..8] == Long(crc) && p[HEADER_LENGTH..] == body
  {
    Short(length) + Short(msgCode) + Long(crc) + body
  }

  /** The crc32 field for a body, for a given reflected polynomial. */
  function Checksum(poly: Word, body: seq<Byte>): Word {
    if body == [] then Zeros(32) else CrcWith(poly, body)
  }

  /** The packet built by SendPkgWithBodyToClient, or by SendNoBodyPkgToClient when the body is empty.
      The length field has 16 bits. */
  function Encode(poly: Word, m: Message): (p: Packet)
    ensures |p| == HEADER_LENGTH + |m.body|
  {
    Frame((HEADER_LENGTH + |m.body|) % 0x1_0000, m.msgCode, Checksum(poly, m.body), m.body)
  }

  /** The length and checksum checks of threadRecvProcFunc; None when the packet is dropped. */
  function Check(poly: Word, p: Packet): Option<Message>
    requires |p| >= HEADER_LENGTH && |p| == PacketLength(p)
  {
    var crc, msgCode, body := ReadLong(p[4..8]), 256 * (p[2] as int) + p[3] as int, p[HEADER_LENGTH..];
    if |p| == HEADER_LENGTH then
      if crc != Zeros(32) then None else Some(Message(msgCode, []))
    else
      if CrcWith(poly, body) != crc then None else Some(Message(msgCode, body))
  }

  predicate Sendable(m: Message) {
    HEADER_LENGTH + |m.body| <= MAX_LENGTH
  }

  /** Every packet built by the send helpers passes the checks with its code and body intact. */
  lemma {:induction false} CheckEncode(poly: Word, m: Message)
    requires Sendable(m)
    ensures PacketLength(Encode(poly, m)) == |Encode(poly, m)|
    ensures Check(poly, Encode(poly, m)) == Some(m)
  {
    LongRoundTrip(Checksum(poly, m.body));
  }

  /** The send thread sends what the length field declares: the whole packet exactly when the field did
      not wrap, and never more than the packet. */
  lemma DeclaredWhole(poly: Word, m: Message)
    ensures WellSized(Encode(poly, m))
    ensures Declared(Encode(poly, m)) == Encode(poly, m) <==> |m.body| <= 65527
  {
    var p := Encode(poly, m);
    assert PacketLength(p) == |p| % 0x1_0000 <= |p|;
    assert |p| < 0x1_0000 ==> p[..|p|] == p;
    assert |Declared(p)| == PacketLength(p);
  }

  /** What the sender must have written into the crc32 field: zero without a body, else the CRC of the body. */
  predicate GoodChecksum(poly: Word, p: Packet)
    requires |p| >= HEADER_LENGTH
  {
    if p[HEADER_LENGTH..] == [] then p[4..8] == [0, 0, 0, 0]
    else p[4..8] == Long(CrcWith(poly, p[HEADER_LENGTH..]))
  }

  lemma ZeroBytes(b: seq<Byte>)
    requires |b| == 4
    ensures ReadLong(b) == Zeros(32) <==> b == [0, 0, 0, 0]
  {
    ZeroBits(0, 8);
    assert ReadLong([0, 0, 0, 0]) == Zeros(32);
    LongOfRead(b);
    LongOfRead([0, 0, 0, 0]);
  }

  lemma {:induction false} ZeroBits(n: nat, width: nat)
    requires n == 0
    ensures ToBits(n, width) == Zeros(width)
  {
    if width > 0 {
      ZeroBits(0, width - 1);
    }
  }

  /** A received packet is accepted exactly when its checksum is good, and then as the message with the
      code behind the length and the body behind the header. */
  lemma CheckExact(poly: Word, p: Packet)
    requires HEADER_LENGTH <= |p| == PacketLength(p)
    ensures Check(poly, p).Some? <==> GoodChecksum(poly, p)
    ensures Check(poly, p).Some? ==> Check(poly, p) == Some(Message(256 * (p[2] as int) + p[3] as int, p[8..]))
  {
    ZeroBytes(p[4..8]);
    LongOfRead(p[4..8]);
    if |p| > HEADER_LENGTH {
      LongRoundTrip(CrcWith(poly, p[HEADER_LENGTH..]));
    }
  }

  /** Any damage to the crc32 field alone is noticed. */
  lemma FieldDamageRejected(poly: Word, m: Message, field: seq<Byte>)
    requires Sendable(m) && |field| == 4 && field != Encode(poly, m)[4..8]
    ensures var sent := Encode(poly, m);
            var p := sent[..4] + field + sent[8..];
            |p| == PacketLength(p) && Check(poly, p) == None
  {
    var sent := Encode(poly, m);
    var p := sent[..4] + field + sent[8..];
    CheckEncode(poly, m);
    CheckExact(poly, sent);
    CheckExact(poly, p);
    assert p[4..8] == field && p[8..] == sent[8..];
  }

  function EncodeAll(poly: Word, ms: seq<Message>): (ps: seq<Packet>)
    ensures |ps| == |ms| && forall i :: 0 <= i < |ms| ==> ps[i] == Encode(poly, ms[i])
  {
    seq(|ms|, i requires 0 <= i < |ms| => Encode(poly, ms[i]))
  }

  /** The received packets carry exactly the given messages and pass the checks. */
  predicate Carries(poly: Word, received: seq<Packet>, ms: seq<Message>) {
    |received| == |ms| &&
    forall i :: 0 <= i < |ms| ==>
      |received[i]| >= HEADER_LENGTH && |received[i]| == PacketLength(received[i]) &&
      Check(poly, received[i]) == Some(ms[i])
  }

  /** Messages sent back to back and cut into arbitrary receives arrive exactly as sent, in order,
      each passing the checks, and leave the receiver ready for the next header. */
  lemma {:induction false} WireRoundTrip(poly: Word, ms: seq<Message>, chunks: seq<seq<Byte>>)
    requires forall i :: 0 <= i < |ms| ==> Sendable(ms[i])
    requires Fits(INITIAL, chunks) && Flatten(chunks) == Flatten(EncodeAll(poly, ms))
    ensures FeedAll(INITIAL, chunks).0 == INITIAL
    ensures Carries(poly, FeedAll(INITIAL, chunks).1, ms)
  {
    FragmentationIndependent(INITIAL, chunks);
    assert [] + Flatten(chunks) == Flatten(chunks);
    forall i | 0 <= i < |ms|
      ensures WholePacket(Encode(poly, ms[i])) && PacketLength(Encode(poly, ms[i])) == |Encode(poly, ms[i])|
      ensures Check(poly, Encode(poly, ms[i])) == Some(ms[i])
    {
      CheckEncode(poly, ms[i]);
    }
    PacketsOfFlatten(EncodeAll(poly, ms));
  }

  /** A packet damaged inside at most four consecutive bytes of its body is dropped, for every
      polynomial with constant coefficient 1. */
  lemma {:induction false} DamageRejected(poly: Word, msgCode: Code, before: seq<Byte>, a: seq<Byte>, b: seq<Byte>, after: seq<Byte>)
    requires poly[31] && |a| == |b| <= 4 && a != b
    requires Sendable(Message(msgCode, before + a + after))
    ensures var p := Encode(poly, Message(msgCode, before + a + after))[..HEADER_LENGTH] + (before + b + after);
            PacketLength(p) == |p| && Check(poly, p) == None
  {
    var sent := Encode(poly, Message(msgCode, before + a + after));
    var p := sent[..HEADER_LENGTH] + (before + b + after);
    CheckEncode(poly, Message(msgCode, before + a + after));
    assert p[4..8] == sent[4..8];
    assert p[HEADER_LENGTH..] == before + b + after;
    assert sent[HEADER_LENGTH..] == before + a + after;
    FourByteBurst(poly, before, a, b, after);
  }

  /** The send helpers: a message is its header, copied from the request, and the packet. */
  method SendPackage(crcTable: CrcTable, msgHeader: seq<Byte>, m: Message) returns (sendbuf: array<Byte>)
    requires crcTable.Valid() && |msgHeader| == MESSAGE_HEADER_LENGTH
    ensures fresh(sendbuf) && sendbuf[..] == msgHeader + Encode(Reverse(crcTable.polynomial), m)
  {
    var length := (HEADER_LENGTH + |m.body|) % 0x1_0000;
    sendbuf := new Byte[MESSAGE_HEADER_LENGTH + HEADER_LENGTH + |m.body|](_ => 0);
    FillHeaders(sendbuf, msgHeader, length, m.msgCode);
    var crc := BodyCrc(crcTable, m.body);
    Copy(m.body, sendbuf, MESSAGE_HEADER_LENGTH + HEADER_LENGTH);
    assert sendbuf[..MESSAGE_HEADER_LENGTH + 4] == msgHeader + Short(length) + Short(m.msgCode);
    assert sendbuf[MESSAGE_HEADER_LENGTH + HEADER_LENGTH..] == m.body;
    Copy(Long(crc), sendbuf, MESSAGE_HEADER_LENGTH + 4);
    FrameParts(msgHeader, length, m.msgCode, crc, m.body);
  }

  lemma FrameParts(msgHeader: seq<Byte>, length: nat, msgCode: Code, crc: Word, body: seq<Byte>)
    requires length < 0x1_0000
    ensures msgHeader + Short(length) + Short(msgCode) + Long(crc) + body == msgHeader + Frame(length, msgCode, crc, body)
  {
  }

  method FillHeaders(sendbuf: array<Byte>, msgHeader: seq<Byte>, length: nat, msgCode: Code)
    requires |msgHeader| == MESSAGE_HEADER_LENGTH && length < 0x1_0000
    requires sendbuf.Length >= MESSAGE_HEADER_LENGTH + HEADER_LENGTH
    modifies sendbuf
    ensures sendbuf[..MESSAGE_HEADER_LENGTH + 4] == msgHeader + Short(length) + Short(msgCode)
  {
    Copy(msgHeader, sendbuf, 0);
    assert sendbuf[..MESSAGE_HEADER_LENGTH] == msgHeader;
    Copy(Short(msgCode), sendbuf, MESSAGE_HEADER_LENGTH + 2);
    assert sendbuf[..MESSAGE_HEADER_LENGTH] == msgHeader;
    assert sendbuf[MESSAGE_HEADER_LENGTH + 2..MESSAGE_HEADER_LENGTH + 4] == Short(msgCode);
    Copy(Short(length), sendbuf, MESSAGE_HEADER_LENGTH);
  }

  method BodyCrc(crcTable: CrcTable, body: seq<Byte>) returns (crc: Word)
    requires crcTable.Valid()
    ensures crc == Checksum(Reverse(crcTable.polynomial), body)
  {
    if |body| > 0 {
      var buffer := new Byte[|body|](_ => 0);
      Copy(body, buffer, 0);
      assert buffer[..|body|] == body;
      crc := crcTable.GetCrc(buffer, |body|);
    } else {
      crc := Zeros(32);
    }
  }
}
