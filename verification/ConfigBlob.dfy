/** The per-device config blob: the bytes the browser writes
    (frontend/src/lib/hardware/config-blob.ts) and the gate the firmware passes
    them through before parsing (firmware/src/config.cpp). */
module ConfigBlob {
  import opened Powers
  import opened Wrappers
  import opened Crc32

  const HEADER_SIZE: nat := 16
  const BLOB_VERSION: nat := 1
  const MAX_U32: nat := 0x1_0000_0000
  const U16_WIDTH: nat := 16
  const U32_WIDTH: nat := 32

  // ---- Numbers as bits ---------------------------------------------------------

  function Value(b: Bits): nat {
    if b == [] then 0 else (if b[0] then 1 else 0) + 2 * Value(b[1..])
  }

  function ToBits(n: nat, width: nat): (b: Bits)
    ensures |b| == width
    decreases width
  {
    if width == 0 then [] else [n % 2 == 1] + ToBits(n / 2, width - 1)
  }

  lemma {:induction false} ValueOfBits(n: nat, width: nat)
    requires n < Pow2(width)
    ensures Value(ToBits(n, width)) == n
    decreases width
  {
    if width > 0 {
      ValueOfBits(n / 2, width - 1);
    }
  }

  lemma PowerValues()
    ensures Pow2(U16_WIDTH) == 0x1_0000 && Pow2(U32_WIDTH) == MAX_U32
  {
    assert Pow2(4) == 16;
    PowerSum(4, 4);
    PowerSum(8, 8);
    PowerSum(16, 16);
  }

  function ByteOf(n: nat): Byte {
    ToBits(n, BITS)
  }

  function U16(n: nat): (b: Bits)
    ensures |b| == 16
  {
    ToBits(n, U16_WIDTH)
  }

  function U32(n: nat): Word {
    ToBits(n, U32_WIDTH)
  }

  /** Bytes of a word, low byte first. */
  function Bytes16(b: Bits): (r: seq<Byte>)
    requires |b| == 16
    ensures |r| == 2
  {
    [b[..8], b[8..]]
  }

  function Bytes32(w: Word): (r: seq<Byte>)
    ensures |r| == 4
  {
    [w[..8], w[8..16], w[16..24], w[24..]]
  }

  /** `high << |low| | low`. */
  function Above(high: Bits, low: Bits): Bits {
    low + high
  }

  /** `readU16` and `readU32`: the low byte ors into the low end. */
  function ReadU16(p: seq<Byte>): (b: Bits)
    requires |p| >= 2
    ensures |b| == 16
  {
    Above(p[1], p[0])
  }

  function ReadU32(p: seq<Byte>): Word
    requires |p| >= 4
  {
    Above(p[3], Above(p[2], Above(p[1], p[0])))
  }

  lemma ReadBack(w: Word, b: Bits)
    requires |b| == 16
    ensures ReadU32(Bytes32(w)) == w && ReadU16(Bytes16(b)) == b
  {
  }

  // ---- Writing -------------------------------------------------------------------

  /** "IOCF". */
  const MAGIC: seq<Byte> := [ByteOf(0x49), ByteOf(0x4F), ByteOf(0x43), ByteOf(0x46)]

  function HeaderWith(length: nat, checksum: Word): (h: seq<Byte>)
    ensures |h| == HEADER_SIZE
  {
    MAGIC + Bytes16(U16(BLOB_VERSION)) + Bytes16(U16(0)) + Bytes32(U32(length)) + Bytes32(checksum)
  }

  function Header(body: seq<Byte>): (h: seq<Byte>)
    ensures |h| == HEADER_SIZE
  {
    HeaderWith(|body|, Crc(body))
  }

  function Padding(n: nat): (r: seq<Byte>)
    ensures |r| == n
  {
    seq(n, _ => ByteOf(0xFF))
  }

  /** `blob.set(bytes, offset)`. */
  method SetBytes<T>(blob: array<T>, offset: nat, bytes: seq<T>)
    requires offset + |bytes| <= blob.Length
    modifies blob
    ensures blob[..] == old(blob[..offset]) + bytes + old(blob[offset + |bytes|..])
  {
    forall i | 0 <= i < |bytes| {
      blob[offset + i] := bytes[i];
    }
  }

  /** A buffer filled with padding, then set twice. */
  method FillAndSet<T>(padding: seq<T>, header: seq<T>, body: seq<T>) returns (bytes: seq<T>)
    requires |header| + |body| <= |padding|
    ensures bytes == header + body + padding[|header| + |body|..]
  {
    var blob := new T[|padding|](i requires 0 <= i < |padding| => padding[i]);
    assert blob[..] == padding;
    SetBytes(blob, 0, header);
    SetBytes(blob, |header|, body);
    bytes := blob[..];
  }

  /** `encodeConfigBlob`, given the JSON bytes. */
  method EncodeConfigBlob(json: seq<Byte>, partitionSize: nat) returns (r: Result<seq<Byte>, nat>)
    ensures HEADER_SIZE + |json| > partitionSize ==> r == Err(|json|)
    ensures HEADER_SIZE + |json| <= partitionSize ==>
      r == Ok(Header(json) + json + Padding(partitionSize)[HEADER_SIZE + |json|..])
  {
    if HEADER_SIZE + |json| > partitionSize {
      return Err(|json|);
    }
    var checksum := Crc32Table(json);
    var blob := FillAndSet(Padding(partitionSize), HeaderWith(|json|, checksum), json);
    r := Ok(blob);
  }

  // ---- Reading -------------------------------------------------------------------

  datatype LoadError =
    | NoPartition
    | HeaderUnreadable
    | NoConfig
    | NewerFormat(version: nat)
    | LengthOutOfRange
    | BodyUnreadable
    | ChecksumMismatch

  /** The `cfg` partition and whether the flash answers each of the two reads. */
  datatype Flash = Flash(part: seq<Byte>, headerReads: bool, bodyReads: bool)

  /** What the gate makes of a partition. */
  function Gate(flash: Option<Flash>): Result<seq<Byte>, LoadError> {
    match flash
    case None => Err(NoPartition)
    case Some(Flash(p, headerReads, bodyReads)) =>
      if !headerReads || |p| < HEADER_SIZE then Err(HeaderUnreadable)
      else if p[..4] != MAGIC then Err(NoConfig)
      else if Value(ReadU16(p[4..])) != BLOB_VERSION then Err(NewerFormat(Value(ReadU16(p[4..]))))
      else
        var length := Value(ReadU32(p[8..]));
        if length == 0 || length > |p| - HEADER_SIZE then Err(LengthOutOfRange)
        else if !bodyReads then Err(BodyUnreadable)
        else
          var body := p[HEADER_SIZE..HEADER_SIZE + length];
          if Crc(body) != ReadU32(p[12..]) then Err(ChecksumMismatch) else Ok(body)
  }

  /** The top of `loadConfig`, buffer by buffer. */
  method LoadConfig(flash: Option<Flash>) returns (r: Result<seq<Byte>, LoadError>)
    ensures r == Gate(flash)
  {
    hide Crc;
    hide Value;
    hide ReadU16;
    hide ReadU32;
    if flash.None? {
      return Err(NoPartition);
    }
    var part := flash.value.part;
    if !flash.value.headerReads || |part| < HEADER_SIZE {
      return Err(HeaderUnreadable);
    }
    var header := new Byte[HEADER_SIZE](i requires 0 <= i < HEADER_SIZE => part[i]);
    assert header[..] == part[..HEADER_SIZE] && header[..][..HEADER_SIZE] == header[..];
    SameHeader(header[..], part);
    assert header[..][..4] == header[..4] && header[..][4..] == header[4..];
    assert header[..][8..] == header[8..] && header[..][12..] == header[12..];
    if header[..4] != MAGIC {
      return Err(NoConfig);
    }
    if Value(ReadU16(header[4..])) != BLOB_VERSION {
      return Err(NewerFormat(Value(ReadU16(header[4..]))));
    }
    var length := Value(ReadU32(header[8..]));
    if length == 0 || length > |part| - HEADER_SIZE {
      return Err(LengthOutOfRange);
    }
    if !flash.value.bodyReads {
      return Err(BodyUnreadable);
    }
    var json := new Byte[length](i requires 0 <= i < length => part[HEADER_SIZE + i]);
    assert json[..] == part[HEADER_SIZE..HEADER_SIZE + length];
    var checksum := Crc32Ieee(json);
    if checksum != ReadU32(header[12..]) {
      return Err(ChecksumMismatch);
    }
    r := Ok(json[..]);
  }

  // ---- The two together -----------------------------------------------------------

  /** The layout config.h writes down; the reserved field is free. */
  ghost predicate LaidOut(part: seq<Byte>, body: seq<Byte>) {
    && 0 < |body| && HEADER_SIZE + |body| <= |part|
    && part[..4] == MAGIC
    && Value(ReadU16(part[4..])) == BLOB_VERSION
    && Value(ReadU32(part[8..])) == |body|
    && ReadU32(part[12..]) == Crc(body)
    && part[HEADER_SIZE..HEADER_SIZE + |body|] == body
  }

  /** The gate lets exactly the bodies of well laid-out partitions through. */
  lemma GateAcceptsLayout(part: seq<Byte>, body: seq<Byte>)
    ensures Gate(Some(Flash(part, true, true))) == Ok(body) <==> LaidOut(part, body)
  {
    hide Crc, Value, ReadU16, ReadU32, ToBits, Pow2;
  }

  lemma Fields<T>(m: seq<T>, v: seq<T>, z: seq<T>, l: seq<T>, c: seq<T>)
    requires |m| == 4 && |v| == 2 && |z| == 2 && |l| == 4 && |c| == 4
    ensures var h := m + v + z + l + c;
      && h[..4] == m && h[4] == v[0] && h[5] == v[1]
      && h[8] == l[0] && h[9] == l[1] && h[10] == l[2] && h[11] == l[3]
      && h[12] == c[0] && h[13] == c[1] && h[14] == c[2] && h[15] == c[3]
  {
  }

  lemma HeaderFields(body: seq<Byte>)
    requires |body| < MAX_U32
    ensures var h := Header(body);
      && h[..4] == MAGIC
      && Value(ReadU16(h[4..])) == BLOB_VERSION
      && Value(ReadU32(h[8..])) == |body|
      && ReadU32(h[12..]) == Crc(body)
  {
    var v, z, l, c := Bytes16(U16(BLOB_VERSION)), Bytes16(U16(0)), Bytes32(U32(|body|)), Bytes32(Crc(body));
    Fields(MAGIC, v, z, l, c);
    PowerValues();
    ValueOfBits(|body|, U32_WIDTH);
    ValueOfBits(BLOB_VERSION, U16_WIDTH);
    ReadBack(U32(|body|), U16(BLOB_VERSION));
    ReadBack(Crc(body), U16(BLOB_VERSION));
    var h := Header(body);
    SameStart16(h[4..], v);
    SameStart32(h[8..], l);
    SameStart32(h[12..], c);
  }

  lemma SameStart16(p: seq<Byte>, q: seq<Byte>)
    requires |p| >= 2 && |q| >= 2 && p[0] == q[0] && p[1] == q[1]
    ensures ReadU16(p) == ReadU16(q)
  {
  }

  lemma SameStart32(p: seq<Byte>, q: seq<Byte>)
    requires |p| >= 4 && |q| >= 4 && p[0] == q[0] && p[1] == q[1] && p[2] == q[2] && p[3] == q[3]
    ensures ReadU32(p) == ReadU32(q)
  {
  }

  lemma SameHeader(a: seq<Byte>, b: seq<Byte>)
    requires |a| >= HEADER_SIZE && |b| >= HEADER_SIZE && a[..HEADER_SIZE] == b[..HEADER_SIZE]
    ensures a[..4] == b[..4]
    ensures ReadU16(a[4..]) == ReadU16(b[4..])
    ensures ReadU32(a[8..]) == ReadU32(b[8..])
    ensures ReadU32(a[12..]) == ReadU32(b[12..])
  {
    forall i | 0 <= i < HEADER_SIZE ensures a[i] == b[i] {
      assert a[..HEADER_SIZE][i] == b[..HEADER_SIZE][i];
    }
  }

  /** A partition that starts with a header and some body. */
  lemma HeaderOf(body: seq<Byte>, stored: seq<Byte>, part: seq<Byte>)
    requires |body| < MAX_U32 && HEADER_SIZE + |stored| <= |part|
    requires part[..HEADER_SIZE + |stored|] == Header(body) + stored
    ensures part[..4] == MAGIC
    ensures Value(ReadU16(part[4..])) == BLOB_VERSION
    ensures Value(ReadU32(part[8..])) == |body|
    ensures ReadU32(part[12..]) == Crc(body)
    ensures part[HEADER_SIZE..HEADER_SIZE + |stored|] == stored
  {
    HeaderFields(body);
    StartsWith(part, Header(body), stored);
    SameHeader(Header(body), part);
  }

  lemma StartsWith<T>(part: seq<T>, h: seq<T>, stored: seq<T>)
    requires |h| + |stored| <= |part| && part[..|h| + |stored|] == h + stored
    ensures part[..|h|] == h[..|h|] && part[|h|..|h| + |stored|] == stored
  {
    assert part[..|h|] == part[..|h| + |stored|][..|h|];
    assert part[|h|..|h| + |stored|] == part[..|h| + |stored|][|h|..];
  }

  /** What the browser writes, the firmware reads back — unless the body is empty,
      which the gate refuses. */
  lemma RoundTrip(body: seq<Byte>, part: seq<Byte>)
    requires |body| < MAX_U32 && HEADER_SIZE + |body| <= |part|
    requires part[..HEADER_SIZE + |body|] == Header(body) + body
    ensures Gate(Some(Flash(part, true, true))) == Ok(body) <==> body != []
    ensures body == [] ==> Gate(Some(Flash(part, true, true))) == Err(LengthOutOfRange)
  {
    HeaderOf(body, body, part);
  }

  /** A written blob whose body was altered within 32 consecutive bits — four
      consecutive bytes, say — is refused for its checksum. */
  lemma TamperedBodyRefused(body: seq<Byte>, altered: seq<Byte>, part: seq<Byte>, from: nat)
    requires 0 < |body| < MAX_U32 && HEADER_SIZE + |body| <= |part|
    requires DifferOnlyInBurst(body, altered, from) && altered != body
    requires part[..HEADER_SIZE + |body|] == Header(body) + altered
    ensures Gate(Some(Flash(part, true, true))) == Err(ChecksumMismatch)
  {
    HeaderOf(body, altered, part);
    BurstDetected(body, altered, from);
  }
}
