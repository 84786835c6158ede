/** The bytes a packet's flow is identified by: the IPv4 header of section 3.1 of RFC 791 and the ports after it. */
module FlowKey {
  import opened Words

  type Bytes = seq<uint8>

  const SRC_ADDR := 12
  const TRG_ADDR := 16
  const SRC_PORT := 20
  const TRG_PORT := 22

  /** `Err` is the returned error and `Panics` an index out of range. */
  datatype Result<+T> = Ok(value: T) | Err | Panics

  /** The sixteen-byte form of an IPv4 address. */
  function IPv4(a: Bytes): (r: Bytes)
    requires |a| == 4
    ensures |r| == 16 && r[12..] == a
  {
    [0, 0, 0, 0, 0, 0, 0, 0, 0, 0, 255, 255] + a
  }

  /** The guard lets a packet of nineteen bytes through, one short of the bytes read. */
  function GetIPs(pkt: Bytes): Result<(Bytes, Bytes)> {
    if |pkt| < TRG_ADDR + 3 then Err
    else if |pkt| < TRG_ADDR + 4 then Panics
    else Ok((IPv4(pkt[SRC_ADDR..SRC_ADDR + 4]), IPv4(pkt[TRG_ADDR..TRG_ADDR + 4])))
  }

  function Word(pkt: Bytes, at: nat): (w: uint16)
    requires at + 1 < |pkt|
  {
    var high: int := pkt[at];
    high * 256 + pkt[at + 1]
  }

  function GetPorts(pkt: Bytes): Result<(uint16, uint16)> {
    if |pkt| < 4 then Err
    else if |pkt| < TRG_PORT + 2 then Panics
    else Ok((Word(pkt, SRC_PORT), Word(pkt, TRG_PORT)))
  }

  function WordBytes(w: uint16): (b: Bytes)
    ensures |b| == 2
  {
    [w / 256, w % 256]
  }

  /** What is fed to the checksum: twelve zero bytes, both addresses and both ports. */
  function Key(pkt: Bytes): Result<Bytes> {
    var ips := GetIPs(pkt);
    if ips.Err? then Err
    else if ips.Panics? then Panics
    else
      var ports := GetPorts(pkt);
      if ports.Err? then Err
      else if ports.Panics? then Panics
      else Ok([0, 0, 0, 0, 0, 0, 0, 0, 0, 0, 0, 0] + ips.value.0 + ips.value.1 +
              WordBytes(ports.value.0) + WordBytes(ports.value.1))
  }

  /** The checksum is any function of the key. */
  function PktCrc16(pkt: Bytes, crc: Bytes -> uint16): Result<uint16> {
    match Key(pkt)
    case Ok(k) => Ok(crc(k))
    case Err => Err
    case Panics => Panics
  }

  lemma WordRoundTrip(pkt: Bytes, at: nat)
    requires at + 1 < |pkt|
    ensures WordBytes(Word(pkt, at)) == pkt[at..at + 2]
  {
  }

  /** The key is the twelve bytes from the source address to the target port, padded. */
  lemma KeyBytes(pkt: Bytes)
    ensures Key(pkt).Err? <==> |pkt| < 19
    ensures Key(pkt).Panics? <==> 19 <= |pkt| < 24
    ensures Key(pkt).Ok? ==>
              && |Key(pkt).value| == 48
              && Key(pkt).value[24..28] == pkt[12..16]
              && Key(pkt).value[40..44] == pkt[16..20]
              && Key(pkt).value[44..48] == pkt[20..24]
  {
  }

  /** The bytes fed to the checksum, written out. */
  function KeyOf(pkt: Bytes): Bytes
    requires |pkt| >= 24
  {
    [0, 0, 0, 0, 0, 0, 0, 0, 0, 0, 0, 0] +
    [0, 0, 0, 0, 0, 0, 0, 0, 0, 0, 255, 255] + pkt[12..16] +
    [0, 0, 0, 0, 0, 0, 0, 0, 0, 0, 255, 255] + pkt[16..20] +
    pkt[20..24]
  }

  lemma Regroup(zeros: Bytes, prefix: Bytes, src: Bytes, trg: Bytes, srcPort: Bytes, trgPort: Bytes)
    ensures zeros + (prefix + src) + (prefix + trg) + srcPort + trgPort ==
            zeros + prefix + src + prefix + trg + (srcPort + trgPort)
  {
  }

  lemma KeyWritten(pkt: Bytes)
    requires |pkt| >= 24
    ensures Key(pkt) == Ok(KeyOf(pkt))
  {
    WordRoundTrip(pkt, SRC_PORT);
    WordRoundTrip(pkt, TRG_PORT);
    assert pkt[20..24] == pkt[20..22] + pkt[22..24];
    Regroup([0, 0, 0, 0, 0, 0, 0, 0, 0, 0, 0, 0], [0, 0, 0, 0, 0, 0, 0, 0, 0, 0, 255, 255],
            pkt[12..16], pkt[16..20], pkt[20..22], pkt[22..24]);
  }

  /** The flow identifier is the checksum of exactly these bytes, an error or a panic. */
  lemma CrcOfKey(pkt: Bytes, crc: Bytes -> uint16)
    ensures PktCrc16(pkt, crc) == if |pkt| < 19 then Err else if |pkt| < 24 then Panics else Ok(crc(KeyOf(pkt)))
  {
    if |pkt| >= 24 {
      KeyWritten(pkt);
    }
  }

  predicate SameFlow(a: Bytes, b: Bytes)
    requires |a| >= 24 && |b| >= 24
  {
    && a[SRC_ADDR..SRC_ADDR + 4] == b[SRC_ADDR..SRC_ADDR + 4]
    && a[TRG_ADDR..TRG_ADDR + 4] == b[TRG_ADDR..TRG_ADDR + 4]
    && Word(a, SRC_PORT) == Word(b, SRC_PORT)
    && Word(a, TRG_PORT) == Word(b, TRG_PORT)
  }

  /** Two packets have one key exactly when addresses and ports agree; nothing else in them matters. */
  lemma KeyExact(a: Bytes, b: Bytes, crc: Bytes -> uint16)
    requires |a| >= 24 && |b| >= 24
    ensures Key(a) == Key(b) <==> SameFlow(a, b)
    ensures SameFlow(a, b) ==> PktCrc16(a, crc) == PktCrc16(b, crc)
  {
    KeyBytes(a);
    KeyBytes(b);
    WordRoundTrip(a, SRC_PORT);
    WordRoundTrip(b, SRC_PORT);
    WordRoundTrip(a, TRG_PORT);
    WordRoundTrip(b, TRG_PORT);
    if Key(a) == Key(b) {
      assert a[20..24] == b[20..24];
      assert a[20..24][..2] == a[20..22] && b[20..24][..2] == b[20..22];
      assert a[20..24][2..] == a[22..24] && b[20..24][2..] == b[22..24];
      assert a[20] == a[20..22][0] && a[21] == a[20..22][1] && b[20] == b[20..22][0] && b[21] == b[20..22][1];
      assert a[22] == a[22..24][0] && a[23] == a[22..24][1] && b[22] == b[22..24][0] && b[23] == b[22..24][1];
    }
  }

  /** Where the checksum tells two keys apart, two packets get one identifier exactly when they are of one flow. */
  lemma CrcExact(a: Bytes, b: Bytes, crc: Bytes -> uint16)
    requires |a| >= 24 && |b| >= 24 && (KeyOf(a) != KeyOf(b) ==> crc(KeyOf(a)) != crc(KeyOf(b)))
    ensures PktCrc16(a, crc) == PktCrc16(b, crc) <==> SameFlow(a, b)
  {
    CrcOfKey(a, crc);
    CrcOfKey(b, crc);
    KeyWritten(a);
    KeyWritten(b);
    KeyExact(a, b, crc);
  }

  /** The header length field of section 3.1 of RFC 791, in bytes; the ports are read as if it were always 20. */
  function HeaderLength(pkt: Bytes): nat
    requires |pkt| >= 1
  {
    4 * (pkt[0] % 16)
  }

  /** The ports where the header length says they are. */
  function PortsBehindHeader(pkt: Bytes): (uint16, uint16)
    requires |pkt| >= 1 && |pkt| >= HeaderLength(pkt) + 4
  {
    (Word(pkt, HeaderLength(pkt)), Word(pkt, HeaderLength(pkt) + 2))
  }

  /** Without options the key tells flows apart as it should: by addresses and ports, and by nothing else. */
  lemma KeyExactWithoutOptions(a: Bytes, b: Bytes)
    requires |a| >= 24 && |b| >= 24 && HeaderLength(a) == HeaderLength(b) == 20
    ensures Key(a) == Key(b) <==> a[12..20] == b[12..20] && PortsBehindHeader(a) == PortsBehindHeader(b)
  {
    KeyExact(a, b, _ => 0);
    assert a[12..20] == a[12..16] + a[16..20] && b[12..20] == b[12..16] + b[16..20];
    assert a[12..16] == a[12..20][..4] && a[16..20] == a[12..20][4..];
    assert b[12..16] == b[12..20][..4] && b[16..20] == b[12..20][4..];
  }

  /** Packets with header options: equal addresses and equal ports behind the header, yet different keys. */
  lemma OptionsSplitFlow() returns (a: Bytes, b: Bytes)
    ensures |a| == |b| == 28 && HeaderLength(a) == HeaderLength(b) == 24
    ensures a[12..20] == b[12..20] && a[24..28] == b[24..28]
    ensures Key(a).Ok? && Key(b).Ok? && Key(a) != Key(b)
  {
    a := [0x46] + seq(27, i => 0);
    b := a[20 := 1];
    KeyExact(a, b, _ => 0);
    KeyBytes(a);
    KeyBytes(b);
    assert Word(a, 20) != Word(b, 20);
  }
}
