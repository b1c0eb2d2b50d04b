/** The mock peer's encoders, against parsers for the two framings they imitate: Nasdaq
    MoldUDP64 (downstream packet header and message blocks) and Nasdaq SoupBinTCP (logical
    packets on a byte stream). */
module Framing {
  import opened Core

  // ---------------------------------------------------------------- big-endian integers

  function Pow256(width: nat): (p: nat)
    ensures p > 0
  {
    if width == 0 then 1 else 256 * Pow256(width - 1)
  }

  /** The low `width` bytes of `n`, most significant first: an `as` cast, then `to_be_bytes`. */
  function BigEndian(n: nat, width: nat): (bytes: seq<Byte>)
    ensures |bytes| == width
  {
    if width == 0 then [] else BigEndian(n / 256, width - 1) + [(n % 256) as Byte]
  }

  function FromBigEndian(bytes: seq<Byte>): nat {
    if bytes == [] then 0 else 256 * FromBigEndian(bytes[..|bytes| - 1]) + bytes[|bytes| - 1]
  }

  lemma ModOfStep(n: nat, p: nat)
    requires p > 0
    ensures n % (256 * p) == 256 * ((n / 256) % p) + n % 256
    ensures n / (256 * p) == n / 256 / p
  {
    var q, a, b := n / 256 / p, (n / 256) % p, n % 256;
    assert n == 256 * (p * q + a) + b;
    assert n == (256 * p) * q + (256 * a + b) by {
      assert 256 * (p * q) == (256 * p) * q;
    }
    assert 256 * a + b < 256 * p;
    ModIs(n, 256 * p, q, 256 * a + b);
  }

  lemma ModIs(n: nat, m: nat, q: nat, r: nat)
    requires n == m * q + r && r < m
    ensures n % m == r && n / m == q
  {
    var d := n / m - q;
    assert m * d == r - n % m by {
      assert m * (n / m) == m * q + m * d;
    }
    ProductIsFar(m, d);
  }

  lemma ProductIsFar(m: nat, d: int)
    ensures d >= 1 ==> m * d >= m
    ensures d <= -1 ==> m * d + m <= 0
  {
    assert m * d == m + m * (d - 1);
    assert m * d + m == m * (d + 1);
  }

  /** Decoding gives back the value modulo the field's range, so exactly when it fits. */
  lemma {:induction false} BigEndianRoundTrip(n: nat, width: nat)
    ensures FromBigEndian(BigEndian(n, width)) == n % Pow256(width)
    ensures FromBigEndian(BigEndian(n, width)) == n <==> n < Pow256(width)
  {
    if width > 0 {
      BigEndianRoundTrip(n / 256, width - 1);
      ModOfStep(n, Pow256(width - 1));
      assert BigEndian(n, width)[..width - 1] == BigEndian(n / 256, width - 1);
    }
    assert n < Pow256(width) ==> n % Pow256(width) == n;
  }

  /** Byte `k` of `width`, counted from the most significant. */
  lemma {:induction false} BigEndianAt(n: nat, width: nat, k: nat)
    requires k < width
    ensures BigEndian(n, width)[k] == n / Pow256(width - 1 - k) % 256
  {
    if k == width - 1 {
      assert Pow256(0) == 1;
    } else {
      BigEndianAt(n / 256, width - 1, k);
      ModOfStep(n, Pow256(width - 2 - k));
    }
  }

  lemma BigEndian2(n: nat)
    ensures BigEndian(n, 2) == [n / 0x100 % 256, n % 256]
  {
    BigEndianAt(n, 2, 0);
    BigEndianAt(n, 2, 1);
    assert Pow256(1) == 0x100 && Pow256(0) == 1;
  }

  lemma BigEndian8(n: nat)
    ensures BigEndian(n, 8)
            == [n / 0x100_0000_0000_0000 % 256, n / 0x1_0000_0000_0000 % 256, n / 0x100_0000_0000 % 256,
                n / 0x1_0000_0000 % 256, n / 0x100_0000 % 256, n / 0x1_0000 % 256, n / 0x100 % 256, n % 256]
  {
    forall k | 0 <= k < 8
      ensures BigEndian(n, 8)[k] == n / Pow256(7 - k) % 256
    {
      BigEndianAt(n, 8, k);
    }
    assert Pow256(0) == 1 && Pow256(1) == 0x100 && Pow256(2) == 0x1_0000;
    assert Pow256(3) == 0x100_0000 && Pow256(4) == 0x1_0000_0000;
    assert Pow256(5) == 0x100_0000_0000 && Pow256(6) == 0x1_0000_0000_0000;
    assert Pow256(7) == 0x100_0000_0000_0000;
  }

  const U16_RANGE := 0x1_0000
  const U64_RANGE := 0x1_0000_0000_0000_0000

  type U64 = n: int | 0 <= n < U64_RANGE

  lemma FieldRanges()
    ensures Pow256(2) == U16_RANGE && Pow256(8) == U64_RANGE
  {
    assert Pow256(4) == 0x1_0000_0000;
  }

  // ---------------------------------------------------------------- MoldUDP64

  /** "MOCKPEER01" */
  const MOCK_SESSION: seq<Byte> := [0x4D, 0x4F, 0x43, 0x4B, 0x50, 0x45, 0x45, 0x52, 0x30, 0x31]

  const END_OF_SESSION := 0xFFFF

  /** No messages is a heartbeat. */
  datatype Mold =
    | Mold(session: seq<Byte>, sequence: nat, messages: seq<seq<Byte>>)
    | EndOfSession(session: seq<Byte>, sequence: nat)

  /** Exactly `count` message blocks and nothing after them. */
  function ParseBlocks(bytes: seq<Byte>, count: nat): Option<seq<seq<Byte>>>
    decreases count
  {
    if count == 0 then (if bytes == [] then Some([]) else None)
    else if |bytes| < 2 then None
    else
      var len := FromBigEndian(bytes[..2]);
      if |bytes| < 2 + len then None
      else match ParseBlocks(bytes[2 + len..], count - 1)
        case None => None
        case Some(rest) => Some([bytes[2..2 + len]] + rest)
  }

  function ParseMold(bytes: seq<Byte>): Option<Mold> {
    if |bytes| < 20 then None
    else
      var session, sequence, count := bytes[..10], FromBigEndian(bytes[10..18]), FromBigEndian(bytes[18..20]);
      if count == END_OF_SESSION then (if |bytes| == 20 then Some(EndOfSession(session, sequence)) else None)
      else match ParseBlocks(bytes[20..], count)
        case None => None
        case Some(messages) => Some(Mold(session, sequence, messages))
  }

  function Header(sequence: nat, count: nat): (bytes: seq<Byte>)
    ensures |bytes| == 20
  {
    MOCK_SESSION + BigEndian(sequence, 8) + BigEndian(count, 2)
  }

  function Block(payload: seq<Byte>): (bytes: seq<Byte>)
    ensures |bytes| == 2 + |payload|
  {
    BigEndian(|payload|, 2) + payload
  }

  /** The ten bytes of the session name. */
  lemma SessionName()
    ensures |MOCK_SESSION| == 10 && forall k | 0 <= k < 10 :: MOCK_SESSION[k] == "MOCKPEER01"[k] as int
  {
  }

  method EncodeMoldData(sequence: U64, payload: seq<Byte>) returns (buf: seq<Byte>)
    ensures buf == Header(sequence, 1) + Block(payload)
    ensures |buf| == 22 + |payload| && forall k | 0 <= k < 10 :: buf[k] == "MOCKPEER01"[k] as int
    ensures buf[10..18]
            == [sequence / 0x100_0000_0000_0000 % 256, sequence / 0x1_0000_0000_0000 % 256,
                sequence / 0x100_0000_0000 % 256, sequence / 0x1_0000_0000 % 256,
                sequence / 0x100_0000 % 256, sequence / 0x1_0000 % 256, sequence / 0x100 % 256, sequence % 256]
    ensures buf[18..22] == [0, 1, |payload| / 0x100 % 256, |payload| % 256] && buf[22..] == payload
  {
    SessionName();
    BigEndian8(sequence);
    BigEndian2(1);
    BigEndian2(|payload|);
    buf := [];
    buf := buf + MOCK_SESSION;
    buf := buf + BigEndian(sequence, 8);
    buf := buf + BigEndian(1, 2);
    assert buf == Header(sequence, 1);
    buf := buf + BigEndian(|payload|, 2);
    buf := buf + payload;
    hide BigEndian;
  }

  method EncodeMoldHeartbeat() returns (buf: seq<Byte>)
    ensures buf == Header(0, 0)
    ensures |buf| == 20 && forall k | 0 <= k < 20 :: buf[k] == if k < 10 then "MOCKPEER01"[k] as int else 0
  {
    SessionName();
    BigEndian8(0);
    BigEndian2(0);
    buf := [];
    buf := buf + MOCK_SESSION;
    buf := buf + BigEndian(0, 8);
    buf := buf + BigEndian(0, 2);
  }

  lemma HeaderFields(sequence: U64, count: nat, body: seq<Byte>)
    requires count < U16_RANGE
    ensures var bytes := Header(sequence, count) + body;
            && bytes[..10] == MOCK_SESSION && bytes[20..] == body
            && FromBigEndian(bytes[10..18]) == sequence && FromBigEndian(bytes[18..20]) == count
  {
    var bytes := Header(sequence, count) + body;
    assert bytes[10..18] == BigEndian(sequence, 8);
    assert bytes[18..20] == BigEndian(count, 2);
    BigEndianRoundTrip(sequence, 8);
    BigEndianRoundTrip(count, 2);
    FieldRanges();
  }

  lemma BlockField(payload: seq<Byte>)
    ensures FromBigEndian(Block(payload)[..2]) == |payload| % U16_RANGE
    ensures Block(payload)[2..] == payload
  {
    assert Block(payload)[..2] == BigEndian(|payload|, 2);
    BigEndianRoundTrip(|payload|, 2);
    FieldRanges();
  }

  /** A data packet parses back to its one message exactly when the payload fits the 16-bit
      length field. Past that the field holds the length modulo 65536, and a parser that
      accounts for every byte refuses the packet. */
  lemma MoldDataRoundTrip(sequence: U64, payload: seq<Byte>)
    ensures var bytes := Header(sequence, 1) + Block(payload);
            && |bytes| == 22 + |payload|
            && FromBigEndian(bytes[20..][..2]) == |payload| % U16_RANGE
            && ParseMold(bytes)
               == if |payload| < U16_RANGE then Some(Mold(MOCK_SESSION, sequence, [payload])) else None
  {
    HeaderFields(sequence, 1, Block(payload));
    BlockField(payload);
    OneBlock(payload);
    hide ParseBlocks;
    hide Header;
    hide Block;
  }

  /** A body of one block parses as one message exactly when its payload fits. */
  lemma OneBlock(payload: seq<Byte>)
    ensures ParseBlocks(Block(payload), 1) == if |payload| < U16_RANGE then Some([payload]) else None
  {
    BlockField(payload);
    var body, len := Block(payload), |payload| % U16_RANGE;
    hide Block;
    NoBlocks(body[2 + len..]);
    if |payload| < U16_RANGE {
      assert body[2..2 + len] == payload;
      assert [payload] + [] == [payload];
    }
  }

  lemma NoBlocks(bytes: seq<Byte>)
    ensures ParseBlocks(bytes, 0) == if bytes == [] then Some([]) else None
  {
  }

  lemma MoldHeartbeatParses()
    ensures |Header(0, 0)| == 20 && ParseMold(Header(0, 0)) == Some(Mold(MOCK_SESSION, 0, []))
  {
    assert Header(0, 0) + [] == Header(0, 0);
    HeaderFields(0, 0, []);
  }

  // ---------------------------------------------------------------- SoupBinTCP

  datatype Soup = Soup(ty: Byte, payload: seq<Byte>)

  /** The complete packets at the front of a stream, and what could not be parsed. */
  datatype Parsed = Parsed(packets: seq<Soup>, rest: seq<Byte>)

  /** The length field counts the type byte, so zero is malformed. */
  function ParseSoup(bytes: seq<Byte>): Parsed
    decreases |bytes|
  {
    if |bytes| < 2 then Parsed([], bytes)
    else
      var len := FromBigEndian(bytes[..2]);
      if len == 0 || |bytes| < 2 + len then Parsed([], bytes)
      else
        var later := ParseSoup(bytes[2 + len..]);
        Parsed([Soup(bytes[2], bytes[3..2 + len])] + later.packets, later.rest)
  }

  function Wire(p: Soup): (bytes: seq<Byte>)
    ensures |bytes| == 3 + |p.payload|
  {
    BigEndian(1 + |p.payload|, 2) + [p.ty] + p.payload
  }

  method EncodeSoup(ty: Byte, payload: seq<Byte>) returns (buf: seq<Byte>)
    ensures buf == Wire(Soup(ty, payload))
    ensures |buf| == 3 + |payload| && buf[..3] == [(1 + |payload|) / 0x100 % 256, (1 + |payload|) % 256, ty]
    ensures buf[3..] == payload
  {
    BigEndian2(1 + |payload|);
    var len := 1 + |payload|;
    buf := [];
    buf := buf + BigEndian(len, 2);
    buf := buf + [ty];
    buf := buf + payload;
  }

  function Stream(ps: seq<Soup>): seq<Byte> {
    if ps == [] then [] else Wire(ps[0]) + Stream(ps[1..])
  }

  /** The payload and the type byte fit the 16-bit length field. */
  predicate Fits(p: Soup) {
    |p.payload| <= 65534
  }

  lemma WireField(p: Soup, rest: seq<Byte>)
    ensures var bytes := Wire(p) + rest;
            && FromBigEndian(bytes[..2]) == (1 + |p.payload|) % U16_RANGE
            && bytes[2] == p.ty
            && bytes[3..3 + |p.payload|] == p.payload
            && bytes[3 + |p.payload|..] == rest
  {
    var bytes := Wire(p) + rest;
    assert bytes[..2] == BigEndian(1 + |p.payload|, 2);
    BigEndianRoundTrip(1 + |p.payload|, 2);
    FieldRanges();
  }

  lemma PacketParses(p: Soup, rest: seq<Byte>)
    ensures Fits(p) ==> ParseSoup(Wire(p) + rest) == Parsed([p] + ParseSoup(rest).packets, ParseSoup(rest).rest)
    ensures !Fits(p) ==> var ps := ParseSoup(Wire(p) + rest).packets; ps == [] || ps[0] != p
  {
    WireField(p, rest);
    var bytes, len := Wire(p) + rest, (1 + |p.payload|) % U16_RANGE;
    if Fits(p) {
      assert len == 1 + |p.payload|;
      assert bytes[2 + len..] == rest;
    } else if len > 0 {
      assert len <= 1 + |p.payload| - U16_RANGE;
      assert |bytes[3..2 + len]| == len - 1 < |p.payload|;
    }
  }

  /** The concatenated packets parse back, in order and with nothing left over, exactly when
      every payload fits. */
  lemma {:induction false} SoupRoundTrip(ps: seq<Soup>)
    ensures ParseSoup(Stream(ps)) == Parsed(ps, []) <==> forall p | p in ps :: Fits(p)
  {
    if ps != [] {
      PacketParses(ps[0], Stream(ps[1..]));
      SoupRoundTrip(ps[1..]);
      assert ps == [ps[0]] + ps[1..];
      var later := ParseSoup(Stream(ps[1..]));
      if Fits(ps[0]) {
        assert ([ps[0]] + later.packets)[1..] == later.packets;
      } else {
        assert ps[0] in ps;
      }
    }
  }

  lemma {:induction false} StreamAppends(ps: seq<Soup>, p: Soup)
    ensures Stream(ps + [p]) == Stream(ps) + Wire(p)
  {
    if ps == [] {
      assert ps + [p] == [p];
      assert Stream([p]) == Wire(p) + Stream([]);
    } else {
      StreamAppends(ps[1..], p);
      assert (ps + [p])[1..] == ps[1..] + [p];
      assert Wire(ps[0]) + (Stream(ps[1..]) + Wire(p)) == Wire(ps[0]) + Stream(ps[1..]) + Wire(p);
    }
  }
}
