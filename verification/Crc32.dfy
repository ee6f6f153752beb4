/** CRC-32 (IEEE 802.3) as the firmware computes it bit by bit
    (firmware/src/crc32.h) and as the browser computes it from a table
    (frontend/src/lib/hardware/config-blob.ts). Machine words are written out as
    their bits, least significant first. */
module Crc32 {
  type Bits = seq<bool>

  function Repeat(bit: bool, n: nat): (r: Bits)
    ensures |r| == n && forall i | 0 <= i < n :: r[i] == bit
  {
    seq(n, _ => bit)
  }

  type Word = w: Bits | |w| == 32 witness Repeat(false, 32)

  type Byte = b: Bits | |b| == 8 witness Repeat(false, 8)

  /** Turns per byte. */
  const BITS: nat := 8

  const ZERO: Word := Repeat(false, 32)
  const ONES: Word := Repeat(true, 32)

  /** 0xEDB88320. */
  const POLYNOMIAL: Word := [
    false, false, false, false, false, true, false, false,
    true, true, false, false, false, false, false, true,
    false, false, false, true, true, true, false, true,
    true, false, true, true, false, true, true, true]

  // ---- Word arithmetic -------------------------------------------------------

  function Xor(a: Bits, b: Bits): (r: Bits)
    requires |a| == |b|
    ensures |r| == |a| && forall i | 0 <= i < |a| :: r[i] == (a[i] != b[i])
  {
    seq(|a|, i requires 0 <= i < |a| => a[i] != b[i])
  }

  function And(a: Word, b: Word): (r: Word)
    ensures forall i | 0 <= i < 32 :: r[i] == (a[i] && b[i])
  {
    seq(32, i requires 0 <= i < 32 => a[i] && b[i])
  }

  function Not(a: Word): (r: Word)
    ensures forall i | 0 <= i < 32 :: r[i] == !a[i]
  {
    seq(32, i requires 0 <= i < 32 => !a[i])
  }

  /** `w >> n`. */
  function ShiftRight(w: Word, n: nat): (r: Word)
    requires n <= 32
    ensures forall i | 0 <= i < 32 - n :: r[i] == w[i + n]
    ensures forall i | 32 - n <= i < 32 :: !r[i]
  {
    w[n..] + Repeat(false, n)
  }

  /** `0 - (w & 1)`: all ones when the low bit is set. */
  function LowBitMask(w: Word): (r: Word)
    ensures forall i | 0 <= i < 32 :: r[i] == w[0]
  {
    Repeat(w[0], 32)
  }

  /** A short run of bits in the low end of a word. */
  function Widen(u: Bits): (r: Word)
    requires |u| <= 32
    ensures forall i | 0 <= i < 32 :: r[i] == (i < |u| && u[i])
  {
    u + Repeat(false, 32 - |u|)
  }

  // ---- The checksum -----------------------------------------------------------

  /** One turn of the inner loop. */
  function Shift(crc: Word): Word {
    Xor(ShiftRight(crc, 1), And(POLYNOMIAL, LowBitMask(crc)))
  }

  function Iterate<T>(f: T -> T, x: T, n: nat): T
    decreases n
  {
    if n == 0 then x else Iterate(f, f(x), n - 1)
  }

  lemma {:induction false} IterateExtend<T>(f: T -> T, x: T, n: nat)
    ensures Iterate(f, x, n + 1) == f(Iterate(f, x, n))
    decreases n
  {
    if n > 0 {
      IterateExtend(f, f(x), n - 1);
    }
  }

  function ShiftBy(crc: Word, n: nat): Word {
    Iterate(Shift, crc, n)
  }

  /** The register after one more byte. */
  function ByteStep(crc: Word, b: Byte): Word {
    ShiftBy(Xor(crc, Widen(b)), BITS)
  }

  function ByteRun(crc: Word, data: seq<Byte>): Word
    decreases data
  {
    if data == [] then crc else ByteRun(ByteStep(crc, data[0]), data[1..])
  }

  function Crc(data: seq<Byte>): Word {
    Not(ByteRun(ONES, data))
  }

  lemma {:induction false} ByteRunExtend(crc: Word, data: seq<Byte>, b: Byte)
    ensures ByteRun(crc, data + [b]) == ByteStep(ByteRun(crc, data), b)
    decreases data
  {
    if data == [] {
      assert [b][1..] == [];
      assert data + [b] == [b];
    } else {
      assert (data + [b])[1..] == data[1..] + [b];
      ByteRunExtend(ByteStep(crc, data[0]), data[1..], b);
    }
  }

  /** `crc32Ieee`. */
  method Crc32Ieee(data: array<Byte>) returns (crc: Word)
    ensures crc == Crc(data[..])
  {
    hide Shift;
    hide Xor;
    hide Widen;
    crc := ONES;
    for i := 0 to data.Length
      invariant crc == ByteRun(ONES, data[..i])
    {
      crc := Xor(crc, Widen(data[i]));
      ghost var loaded := crc;
      for k := 0 to BITS
        invariant crc == ShiftBy(loaded, k)
      {
        IterateExtend(Shift, loaded, k);
        crc := Shift(crc);
      }
      assert data[..i + 1] == data[..i] + [data[i]];
      ByteRunExtend(ONES, data[..i], data[i]);
    }
    assert data[..data.Length] == data[..];
    crc := Not(crc);
  }

  // ---- The browser's table ---------------------------------------------------

  function Table(n: Byte): Word {
    ShiftBy(Widen(n), BITS)
  }

  /** One entry of `CRC_TABLE`, the step written with a branch. */
  method TableEntry(n: Byte) returns (c: Word)
    ensures c == Table(n)
  {
    c := Widen(n);
    for k := 0 to BITS
      invariant c == ShiftBy(Widen(n), k)
    {
      IterateExtend(Shift, Widen(n), k);
      BranchIsShift(c);
      c := Branch(c);
    }
  }

  function Branch(c: Word): Word {
    if c[0] then Xor(POLYNOMIAL, ShiftRight(c, 1)) else ShiftRight(c, 1)
  }

  lemma BranchIsShift(c: Word)
    ensures Branch(c) == Shift(c)
  {
  }

  /** The entry a byte selects. */
  function Index(crc: Word, b: Byte): Byte {
    Xor(crc, Widen(b))[..8]
  }

  /** The browser's `crc32`: one table look-up per byte. */
  method Crc32Table(bytes: seq<Byte>) returns (crc: Word)
    ensures crc == Crc(bytes)
  {
    crc := ONES;
    for i := 0 to |bytes|
      invariant crc == ByteRun(ONES, bytes[..i])
    {
      TableRunExtend(bytes, i);
      var entry := TableEntry(Index(crc, bytes[i]));
      crc := Xor(entry, ShiftRight(crc, 8));
    }
    assert bytes[..|bytes|] == bytes;
    XorOnes(crc);
    crc := Xor(crc, ONES);
  }

  lemma XorOnes(w: Word)
    ensures Xor(w, ONES) == Not(w)
  {
  }

  /** Bits that don't reach the low end only move down. */
  lemma ShiftHigh(x: Word, y: Word)
    requires !y[0]
    ensures Shift(Xor(x, y)) == Xor(Shift(x), ShiftRight(y, 1))
  {
  }

  lemma {:induction false} ShiftByHigh(x: Word, y: Word, n: nat)
    requires n <= 32 && forall i | 0 <= i < n :: !y[i]
    ensures ShiftBy(Xor(x, y), n) == Xor(ShiftBy(x, n), ShiftRight(y, n))
    decreases n
  {
    if n == 0 {
      assert ShiftRight(y, 0) == y;
    } else {
      ShiftHigh(x, y);
      ShiftByHigh(Shift(x), ShiftRight(y, 1), n - 1);
      assert ShiftRight(ShiftRight(y, 1), n - 1) == ShiftRight(y, n);
    }
  }

  /** A word is its low byte and, apart from that, its high bits. */
  function HighPart(x: Word): Word {
    Repeat(false, 8) + x[8..]
  }

  lemma SplitLow(x: Word)
    ensures x == Xor(Widen(x[..8]), HighPart(x))
  {
  }

  lemma HighPartDown(crc: Word, b: Byte)
    ensures ShiftRight(HighPart(Xor(crc, Widen(b))), 8) == ShiftRight(crc, 8)
  {
  }

  /** "Matches it bit for bit": a look-up does the eight turns. */
  lemma TableStep(crc: Word, b: Byte)
    ensures Xor(Table(Index(crc, b)), ShiftRight(crc, 8)) == ByteStep(crc, b)
  {
    var x := Xor(crc, Widen(b));
    SplitLow(x);
    ShiftByHigh(Widen(x[..8]), HighPart(x), BITS);
    HighPartDown(crc, b);
  }

  lemma TableRunExtend(bytes: seq<Byte>, i: nat)
    requires i < |bytes|
    ensures var crc := ByteRun(ONES, bytes[..i]);
            Xor(Table(Index(crc, bytes[i])), ShiftRight(crc, 8)) == ByteRun(ONES, bytes[..i + 1])
  {
    assert bytes[..i + 1] == bytes[..i] + [bytes[i]];
    ByteRunExtend(ONES, bytes[..i], bytes[i]);
    TableStep(ByteRun(ONES, bytes[..i]), bytes[i]);
  }

  // ---- Bit by bit --------------------------------------------------------------

  /** The register after one more message bit. */
  function BitStep(crc: Word, bit: bool): Word {
    Shift(Xor(crc, Widen([bit])))
  }

  function BitRun(crc: Word, bits: Bits): Word
    decreases bits
  {
    if bits == [] then crc else BitRun(BitStep(crc, bits[0]), bits[1..])
  }

  /** The message bits in the order the register takes them. */
  function Stream(data: seq<Byte>): Bits {
    if data == [] then [] else data[0] + Stream(data[1..])
  }

  lemma {:induction false} StreamLength(data: seq<Byte>)
    ensures |Stream(data)| == 8 * |data|
  {
    if data != [] {
      StreamLength(data[1..]);
    }
  }

  lemma {:induction false} BitRunAppend(crc: Word, a: Bits, b: Bits)
    ensures BitRun(crc, a + b) == BitRun(BitRun(crc, a), b)
    decreases a
  {
    if a == [] {
      assert a + b == b;
    } else {
      assert (a + b)[1..] == a[1..] + b;
      BitRunAppend(BitStep(crc, a[0]), a[1..], b);
    }
  }

  lemma {:induction false} ShortRunIsBits(crc: Word, u: Bits)
    requires |u| <= 32
    ensures ShiftBy(Xor(crc, Widen(u)), |u|) == BitRun(crc, u)
    decreases u
  {
    if u == [] {
      assert Xor(crc, Widen(u)) == crc;
    } else {
      var rest: Word := [false] + Widen(u)[1..];
      assert Xor(crc, Widen(u)) == Xor(Xor(crc, Widen([u[0]])), rest);
      ShiftHigh(Xor(crc, Widen([u[0]])), rest);
      assert ShiftRight(rest, 1) == Widen(u[1..]);
      ShortRunIsBits(BitStep(crc, u[0]), u[1..]);
    }
  }

  lemma {:induction false} BytesAreBits(crc: Word, data: seq<Byte>)
    ensures ByteRun(crc, data) == BitRun(crc, Stream(data))
    decreases data
  {
    if data != [] {
      ShortRunIsBits(crc, data[0]);
      BytesAreBits(ByteStep(crc, data[0]), data[1..]);
      BitRunAppend(crc, data[0], Stream(data[1..]));
    }
  }

  // ---- What it detects ---------------------------------------------------------

  lemma ShiftLinear(x: Word, y: Word)
    ensures Shift(Xor(x, y)) == Xor(Shift(x), Shift(y))
  {
  }

  lemma {:induction false} RunLinear(x: Word, y: Word, u: Bits, v: Bits)
    requires |u| == |v|
    ensures BitRun(Xor(x, y), Xor(u, v)) == Xor(BitRun(x, u), BitRun(y, v))
    decreases |u|
  {
    if u != [] {
      var a, b := Xor(x, Widen([u[0]])), Xor(y, Widen([v[0]]));
      assert Xor(u, v)[1..] == Xor(u[1..], v[1..]);
      assert Xor(Xor(x, y), Widen([u[0] != v[0]])) == Xor(a, b);
      ShiftLinear(a, b);
      RunLinear(Shift(a), Shift(b), u[1..], v[1..]);
    }
  }

  /** A step's top bit tells what left at the low end. */
  lemma ShiftBack(z: Word)
    requires !Shift(z)[31]
    ensures !z[0] && Shift(z) == ShiftRight(z, 1)
  {
    assert Shift(z)[31] == z[0];
  }

  /** The register a step came from. */
  function Unshift(z: Word): Word {
    seq(32, i requires 0 <= i < 32 => if i == 0 then z[31] else z[i - 1] != (z[31] && POLYNOMIAL[i - 1]))
  }

  /** The register map is a bijection: `Unshift` undoes it on both sides. */
  lemma ShiftBijection(x: Word, y: Word)
    ensures Unshift(Shift(x)) == x && Shift(Unshift(x)) == x
    ensures Shift(x) == Shift(y) ==> x == y
  {
    UnshiftUndoes(x);
    UnshiftUndoes(y);
  }

  lemma UnshiftUndoes(x: Word)
    ensures Unshift(Shift(x)) == x && Shift(Unshift(x)) == x
  {
    assert POLYNOMIAL[31] && Shift(x)[31] == x[0];
    forall i | 0 <= i < 32 ensures Unshift(Shift(x))[i] == x[i] && Shift(Unshift(x))[i] == x[i] {}
  }

  lemma ShiftOneToOne(d: Word)
    requires d != ZERO
    ensures Shift(d) != ZERO
  {
    var i :| 0 <= i < 32 && d[i];
    if d[0] {
      assert Shift(d)[31];
    } else {
      assert Shift(d)[i - 1];
    }
  }

  /** Only one register state leads to zero through at most 32 bits: those bits. */
  lemma {:induction false} BackFromZero(d: Word, w: Bits)
    requires |w| <= 32 && BitRun(d, w) == ZERO
    ensures d == Widen(w)
    decreases w
  {
    if w != [] {
      BackFromZero(BitStep(d, w[0]), w[1..]);
      var z := Xor(d, Widen([w[0]]));
      ShiftBack(z);
      forall i | 0 <= i < 32 ensures d[i] == Widen(w)[i] {
        if i > 0 {
          assert Shift(z)[i - 1] == z[i];
          assert Widen(w[1..])[i - 1] == Widen(w)[i];
        }
      }
    }
  }

  /** A difference in the register never dies out over equal bits. */
  lemma {:induction false} DifferenceStays(d: Word, w: Bits)
    requires d != ZERO && forall i | 0 <= i < |w| :: !w[i]
    ensures BitRun(d, w) != ZERO
    decreases w
  {
    if w != [] {
      assert Xor(d, Widen([w[0]])) == d;
      ShiftOneToOne(d);
      DifferenceStays(Shift(d), w[1..]);
    }
  }

  lemma SameXor(x: Bits)
    ensures Xor(x, x) == Repeat(false, |x|)
  {
  }

  /** Two streams that differ only inside a burst of at most 32 bits end in
      different registers. */
  lemma BurstChangesRegister(crc: Word, p: Bits, u: Bits, v: Bits, s: Bits)
    requires |u| == |v| <= 32 && u != v
    ensures BitRun(crc, p + u + s) != BitRun(crc, p + v + s)
  {
    var c := BitRun(crc, p);
    BitRunAppend(crc, p + u, s);
    BitRunAppend(crc, p, u);
    BitRunAppend(crc, p + v, s);
    BitRunAppend(crc, p, v);
    var a, b := BitRun(c, u), BitRun(c, v);
    RunLinear(c, c, u, v);
    SameXor(c);
    var w := Xor(u, v);
    var i :| 0 <= i < |u| && u[i] != v[i];
    assert w[i] && Widen(w)[i] && Widen(w) != ZERO;
    if Xor(a, b) == ZERO {
      BackFromZero(ZERO, w);
      assert false;
    }
    RunLinear(a, b, s, s);
    SameXor(s);
    DifferenceStays(Xor(a, b), Xor(s, s));
    SameXor(BitRun(a, s));
  }

  lemma {:induction false} StreamInjective(a: seq<Byte>, b: seq<Byte>)
    requires |a| == |b| && Stream(a) == Stream(b)
    ensures a == b
  {
    if a != [] {
      assert a[0] == Stream(a)[..8] && b[0] == Stream(b)[..8];
      assert Stream(a[1..]) == Stream(a)[8..] && Stream(b[1..]) == Stream(b)[8..];
      StreamInjective(a[1..], b[1..]);
    }
  }

  /** The bodies agree on every bit outside `from` to `from` + 32. */
  ghost predicate DifferOnlyInBurst(a: seq<Byte>, b: seq<Byte>, from: nat) {
    && |a| == |b|
    && |Stream(a)| == |Stream(b)|
    && forall i | 0 <= i < |Stream(a)| :: i < from || i >= from + 32 ==> Stream(a)[i] == Stream(b)[i]
  }

  /** Any burst error of up to 32 bits, on byte boundaries or not, is detected. */
  lemma BurstDetected(a: seq<Byte>, b: seq<Byte>, from: nat)
    requires DifferOnlyInBurst(a, b, from) && a != b
    ensures Crc(a) != Crc(b)
  {
    var x, y := Stream(a), Stream(b);
    var lo := if from <= |x| then from else |x|;
    var hi := if from + 32 <= |x| then from + 32 else |x|;
    CutOut(x, y, lo, hi);
    if x[lo..hi] == y[lo..hi] {
      StreamInjective(a, b);
    }
    BurstChangesRegister(ONES, x[..lo], x[lo..hi], y[lo..hi], x[hi..]);
    BytesAreBits(ONES, a);
    BytesAreBits(ONES, b);
    NotOneToOne(ByteRun(ONES, a), ByteRun(ONES, b));
  }

  lemma CutOut(x: Bits, y: Bits, lo: nat, hi: nat)
    requires |x| == |y| && lo <= hi <= |x|
    requires forall i | 0 <= i < |x| :: i < lo || i >= hi ==> x[i] == y[i]
    ensures x == x[..lo] + x[lo..hi] + x[hi..]
    ensures y == x[..lo] + y[lo..hi] + x[hi..]
  {
  }

  lemma NotOneToOne(a: Word, b: Word)
    requires a != b
    ensures Not(a) != Not(b)
  {
    var i :| 0 <= i < 32 && a[i] != b[i];
    assert Not(a)[i] != Not(b)[i];
  }

  /** In particular, any change within four consecutive bytes. */
  lemma FourBytesDetected(pre: seq<Byte>, u: seq<Byte>, v: seq<Byte>, post: seq<Byte>)
    requires |u| == |v| <= 4 && u != v
    ensures Crc(pre + u + post) != Crc(pre + v + post)
  {
    var a, b := pre + u + post, pre + v + post;
    StreamOfParts(pre, u, post);
    StreamOfParts(pre, v, post);
    StreamLength(pre);
    StreamLength(u);
    StreamLength(v);
    assert a[|pre|..|pre| + |u|] == u && b[|pre|..|pre| + |u|] == v;
    BurstDetected(a, b, 8 * |pre|);
  }

  lemma StreamOfParts(a: seq<Byte>, b: seq<Byte>, c: seq<Byte>)
    ensures Stream(a + b + c) == Stream(a) + Stream(b) + Stream(c)
  {
    StreamAppend(a + b, c);
    StreamAppend(a, b);
  }

  lemma {:induction false} StreamAppend(a: seq<Byte>, b: seq<Byte>)
    ensures Stream(a + b) == Stream(a) + Stream(b)
  {
    if a == [] {
      assert a + b == b;
    } else {
      assert (a + b)[1..] == a[1..] + b;
      StreamAppend(a[1..], b);
    }
  }
}
