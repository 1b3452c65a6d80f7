/** The CRC of firmware blocks: the table-driven loop, the division it computes, and which changes
    to a block it is sure to notice. Generator of section 3.2.9 of IEEE Std 802.3, most significant
    bit first, initial value 0. A 32-bit or 8-bit machine word is the sequence of its bits, most
    significant first, so that every operation is one on polynomials over GF(2). */
module Crc32 {
  type Vec = seq<bool>
  type Word = w: Vec | |w| == 32 witness Zeros(32)
  type Byte = b: Vec | |b| == 8 witness Zeros(8)

  const POLYNOMIAL: Word := ToBits(0x04C11DB7, 32)

  // ------------------------------------------------------------- machine words

  function Zeros(n: nat): (z: Vec)
    ensures |z| == n && forall i :: 0 <= i < n ==> !z[i]
  {
    seq(n, i => false)
  }

  function Xor(a: Vec, b: Vec): (c: Vec)
    requires |a| == |b|
    ensures |c| == |a| && forall i :: 0 <= i < |a| ==> c[i] == (a[i] != b[i])
  {
    seq(|a|, i requires 0 <= i < |a| => a[i] != b[i])
  }

  /** The k-bit word with value n. */
  function ToBits(n: nat, k: nat): (b: Vec)
    ensures |b| == k
  {
    if k == 0 then [] else ToBits(n / 2, k - 1) + [n % 2 == 1]
  }

  /** The value of a word, which indexes the table. */
  function Value(b: Vec): nat {
    if b == [] then 0 else 2 * Value(b[..|b| - 1]) + (if b[|b| - 1] then 1 else 0)
  }

  function Power2(k: nat): (p: nat)
    ensures p >= 1
  {
    if k == 0 then 1 else 2 * Power2(k - 1)
  }

  function Shl(r: Vec, k: nat): (s: Vec)
    requires k <= |r|
    ensures |s| == |r|
  {
    r[k..] + Zeros(k)
  }

  lemma {:induction false} ValueRange(b: Vec)
    ensures Value(b) < Power2(|b|)
  {
    if b != [] { ValueRange(b[..|b| - 1]); }
  }

  lemma {:induction false} BitsOfValue(b: Vec)
    ensures ToBits(Value(b), |b|) == b
  {
    if b != [] {
      BitsOfValue(b[..|b| - 1]);
      assert b == b[..|b| - 1] + [b[|b| - 1]];
    }
  }

  // -------------------------------------------------------------- the generator

  /** x^32 + x^26 + x^23 + x^22 + x^16 + x^12 + x^11 + x^10 + x^8 + x^7 + x^5 + x^4 + x^2 + x + 1 without x^32 */
  const TERMS_OF_G: set<nat> := {0, 1, 2, 4, 5, 7, 8, 10, 11, 12, 16, 22, 23, 26}

  /** Bit e of a number */
  function Bit(n: nat, e: nat): bool { if e == 0 then n % 2 == 1 else Bit(n / 2, e - 1) }

  lemma {:induction false} BitAt(n: nat, k: nat, e: nat)
    requires e < k
    ensures ToBits(n, k)[k - 1 - e] == Bit(n, e)
  {
    if e > 0 { BitAt(n / 2, k - 1, e - 1); }
  }

  lemma BitUp(n: nat, e: nat)
    ensures Bit(n, e + 8) == Bit(n / 0x100, e)
  {
    assert Bit(n, e + 8) == Bit(n / 2, e + 7) == Bit(n / 2 / 2, e + 6) == Bit(n / 2 / 2 / 2, e + 5);
    var m := n / 2 / 2 / 2;
    assert Bit(m, e + 5) == Bit(m / 2, e + 4) == Bit(m / 2 / 2, e + 3) == Bit(m / 2 / 2 / 2, e + 2);
    var l := m / 2 / 2 / 2;
    assert Bit(l, e + 2) == Bit(l / 2, e + 1) == Bit(l / 2 / 2, e);
  }

  lemma LowTerms(e: nat)
    requires e < 8
    ensures Bit(0x04C11DB7, e) == (e in TERMS_OF_G)
  {
    assert Bit(0x04C11DB7, 0) && Bit(0x04C11DB7, 1) && Bit(0x04C11DB7, 2) && !Bit(0x04C11DB7, 3);
    assert Bit(0x04C11DB7, 4) && Bit(0x04C11DB7, 5) && !Bit(0x04C11DB7, 6) && Bit(0x04C11DB7, 7);
  }

  lemma SecondTerms(e: nat)
    requires e < 8
    ensures Bit(0x04C11D, e) == (e + 8 in TERMS_OF_G)
  {
    assert Bit(0x04C11D, 0) && !Bit(0x04C11D, 1) && Bit(0x04C11D, 2) && Bit(0x04C11D, 3);
    assert Bit(0x04C11D, 4) && !Bit(0x04C11D, 5) && !Bit(0x04C11D, 6) && !Bit(0x04C11D, 7);
  }

  lemma ThirdTerms(e: nat)
    requires e < 8
    ensures Bit(0x04C1, e) == (e + 16 in TERMS_OF_G)
  {
    assert Bit(0x04C1, 0) && !Bit(0x04C1, 1) && !Bit(0x04C1, 2) && !Bit(0x04C1, 3);
    assert !Bit(0x04C1, 4) && !Bit(0x04C1, 5) && Bit(0x04C1, 6) && Bit(0x04C1, 7);
  }

  lemma HighTerms(e: nat)
    requires e < 8
    ensures Bit(0x04, e) == (e + 24 in TERMS_OF_G)
  {
    assert !Bit(0x04, 0) && !Bit(0x04, 1) && Bit(0x04, 2) && !Bit(0x04, 3);
    assert !Bit(0x04, 4) && !Bit(0x04, 5) && !Bit(0x04, 6) && !Bit(0x04, 7);
  }

  /** The word is the generator of the standard, its highest term left out: coefficient by coefficient. */
  lemma GeneratorTerms(e: nat)
    requires e < 32
    ensures POLYNOMIAL[31 - e] == (e in TERMS_OF_G)
  {
    BitAt(0x04C11DB7, 32, e);
    if e < 8 { LowTerms(e); }
    else if e < 16 { SecondTerms(e - 8); }
    else if e < 24 { ThirdTerms(e - 16); }
    else { HighTerms(e - 24); }
    if e >= 8 { BitUp(0x04C11DB7, e - 8); }
    if e >= 16 { BitUp(0x04C11D, e - 16); }
    if e >= 24 { BitUp(0x04C1, e - 24); }
  }

  // ------------------------------------------------- polynomial division, bit by bit

  /** Multiply by x and reduce by the generator. */
  function Shift(r: Word): Word {
    if r[0] then Xor(Shl(r, 1), POLYNOMIAL) else Shl(r, 1)
  }

  function Shifts(r: Word, n: nat): Word
    decreases n
  {
    if n == 0 then r else Shifts(Shift(r), n - 1)
  }

  function Top(bit: bool): Word { [bit] + Zeros(31) }

  /** One step of long division: the next message bit enters at the top of the remainder. */
  function FeedBit(r: Word, bit: bool): Word { Shift(Xor(r, Top(bit))) }

  /** The remainder after dividing the message bits, from a starting remainder. */
  function Divide(r: Word, bits: Vec): Word
    decreases |bits|
  {
    if bits == [] then r else Divide(FeedBit(r, bits[0]), bits[1..])
  }

  function Bits(msg: seq<Byte>): (s: Vec)
    ensures |s| == 8 * |msg|
  {
    if msg == [] then [] else msg[0] + Bits(msg[1..])
  }

  /** The CRC of a message. */
  function Crc(r: Word, msg: seq<Byte>): Word { Divide(r, Bits(msg)) }

  // ------------------------------------------------------------------- algebra

  lemma XorIsZero(a: Vec, b: Vec)
    requires |a| == |b|
    ensures Xor(a, b) == Zeros(|a|) <==> a == b
  {
    assert Xor(a, b) == Zeros(|a|) <==> forall i :: 0 <= i < |a| ==> a[i] == b[i] by {
      assert forall i :: 0 <= i < |a| ==> (Xor(a, b)[i] <==> a[i] != b[i]);
    }
  }

  lemma ShiftLinear(a: Word, b: Word)
    ensures Shift(Xor(a, b)) == Xor(Shift(a), Shift(b))
  {}

  lemma {:induction false} ShiftsLinear(a: Word, b: Word, n: nat)
    ensures Shifts(Xor(a, b), n) == Xor(Shifts(a, n), Shifts(b, n))
    decreases n
  {
    if n > 0 {
      ShiftLinear(a, b);
      ShiftsLinear(Shift(a), Shift(b), n - 1);
    }
  }

  lemma LastBit(n: nat, k: nat)
    ensures ToBits(n, k + 1)[k] == (n % 2 == 1)
  {}

  lemma XorLast(s: Word, p: Word)
    requires !s[31] && p[31]
    ensures Xor(s, p) != Zeros(32)
  {
    assert Xor(s, p)[31];
  }

  /** The generator has a constant term, so no nonzero remainder ever dies out. */
  lemma ShiftKeepsNonzero(r: Word)
    ensures Shift(r) == Zeros(32) <==> r == Zeros(32)
  {
    if r[0] {
      LastBit(0x04C11DB7, 31);
      XorLast(Shl(r, 1), POLYNOMIAL);
    } else {
      assert r == [false] + Shl(r, 1)[..31];
      assert Zeros(32) == [false] + Zeros(32)[..31];
      assert Shl(r, 1) == Shl(r, 1)[..31] + [false];
    }
  }

  lemma {:induction false} ShiftsKeepNonzero(r: Word, n: nat)
    ensures Shifts(r, n) == Zeros(32) <==> r == Zeros(32)
    decreases n
  {
    if n > 0 {
      ShiftKeepsNonzero(r);
      ShiftsKeepNonzero(Shift(r), n - 1);
    }
  }

  lemma {:induction false} ShiftsClear(r: Word, n: nat)
    requires n <= 32 && forall i :: 0 <= i < n ==> !r[i]
    ensures Shifts(r, n) == Shl(r, n)
    decreases n
  {
    if n == 0 {
      assert Shl(r, 0) == r;
    } else {
      ShiftsClear(Shift(r), n - 1);
      assert Shl(Shl(r, 1), n - 1) == Shl(r, n);
    }
  }

  /** Up to 32 bits as the top bits of a word. */
  function Pack(bits: Vec): Word
    requires |bits| <= 32
  {
    bits + Zeros(32 - |bits|)
  }

  lemma FeedPacked(r: Word, bits: Vec)
    requires 1 <= |bits| <= 32
    ensures Xor(FeedBit(r, bits[0]), Pack(bits[1..])) == Shift(Xor(r, Pack(bits)))
  {
    var rest: Word := [false] + bits[1..] + Zeros(32 - |bits|);
    assert Xor(r, Pack(bits)) == Xor(Xor(r, Top(bits[0])), rest);
    ShiftLinear(Xor(r, Top(bits[0])), rest);
    assert Shift(rest) == Pack(bits[1..]);
  }

  /** Up to 32 bits fed one by one are one word added at once and shifted through. */
  lemma {:induction false} DividePacked(r: Word, bits: Vec)
    requires |bits| <= 32
    ensures Divide(r, bits) == Shifts(Xor(r, Pack(bits)), |bits|)
    decreases |bits|
  {
    if bits == [] {
      assert Xor(r, Pack(bits)) == r;
    } else {
      DividePacked(FeedBit(r, bits[0]), bits[1..]);
      FeedPacked(r, bits);
    }
  }

  lemma {:induction false} DivideAppend(r: Word, a: Vec, b: Vec)
    ensures Divide(r, a + b) == Divide(Divide(r, a), b)
    decreases |a|
  {
    if a == [] {
      assert a + b == b;
    } else {
      assert (a + b)[1..] == a[1..] + b;
      DivideAppend(FeedBit(r, a[0]), a[1..], b);
    }
  }

  lemma {:induction false} DivideZeros(r: Word, n: nat)
    ensures Divide(r, Zeros(n)) == Shifts(r, n)
    decreases n
  {
    if n > 0 {
      assert Xor(r, Top(false)) == r;
      assert Zeros(n)[1..] == Zeros(n - 1);
      DivideZeros(Shift(r), n - 1);
    }
  }

  /** Division is linear in the remainder and the message together. */
  lemma {:induction false} DivideLinear(r: Word, a: Vec, s: Word, b: Vec)
    requires |a| == |b|
    ensures Divide(Xor(r, s), Xor(a, b)) == Xor(Divide(r, a), Divide(s, b))
    decreases |a|
  {
    if a != [] {
      assert Xor(Xor(r, s), Top(a[0] != b[0])) == Xor(Xor(r, Top(a[0])), Xor(s, Top(b[0])));
      ShiftLinear(Xor(r, Top(a[0])), Xor(s, Top(b[0])));
      assert Xor(a, b)[1..] == Xor(a[1..], b[1..]);
      DivideLinear(FeedBit(r, a[0]), a[1..], FeedBit(s, b[0]), b[1..]);
    }
  }

  // ------------------------------------------------------------- the fast form

  /** An entry of the table: eight division steps on the index as the top byte. */
  function Entry(i: nat): Word
    requires i < 256
  {
    Shifts(Pack(ToBits(i, 8)), 8)
  }

  predicate IsTable(t: seq<Word>) {
    |t| == 256 && forall i :: 0 <= i < 256 ==> t[i] == Entry(i)
  }

  function Data(r: Word, b: Byte): Byte { Xor(b, r[..8]) }

  /** The byte that is divided out, and the rest of the remainder */
  lemma DataAndRest(r: Word, b: Byte, low: Word)
    requires low == Zeros(8) + r[8..]
    ensures Xor(r, Pack(b)) == Xor(Pack(Data(r, b)), low)
  {}

  lemma RestShifts(r: Word, low: Word)
    requires low == Zeros(8) + r[8..]
    ensures Shifts(low, 8) == Shl(r, 8)
  {
    ShiftsClear(low, 8);
    assert Shl(low, 8) == Shl(r, 8);
  }

  lemma EntryOfData(data: Byte)
    ensures Value(data) < 256 && Entry(Value(data)) == Shifts(Pack(data), 8)
  {
    ValueRange(data);
    assert Power2(8) == 256;
    BitsOfValue(data);
  }

  /** The table-driven step is eight division steps. */
  lemma FeedByte(r: Word, b: Byte)
    ensures Value(Data(r, b)) < 256
    ensures Divide(r, b) == Xor(Entry(Value(Data(r, b))), Shl(r, 8))
  {
    var low: Word := Zeros(8) + r[8..];
    EntryOfData(Data(r, b));
    DividePacked(r, b);
    DataAndRest(r, b, low);
    ShiftsLinear(Pack(Data(r, b)), low, 8);
    RestShifts(r, low);
  }

  /** One entry of the table, bit by bit */
  method DivideIndex(dividend: nat) returns (remainder: Word)
    requires dividend < 256
    ensures remainder == Entry(dividend)
  {
    remainder := Pack(ToBits(dividend, 8));  // dividend << 24
    var bit := 0;
    while true
      invariant 0 <= bit < 8
      invariant Shifts(remainder, 8 - bit) == Entry(dividend)
      decreases 8 - bit
    {
      if remainder[0] {
        remainder := Shl(remainder, 1);
        remainder := Xor(remainder, POLYNOMIAL);
      } else {
        remainder := Shl(remainder, 1);
      }
      bit := bit + 1;
      if !(bit < 8) { break; }
    }
  }

  /** `init_crc` */
  method InitCrc(crctable: array<Word>)
    requires crctable.Length == 256
    modifies crctable
    ensures IsTable(crctable[..])
  {
    var dividend := 0;
    while true
      invariant 0 <= dividend < 256
      invariant forall i :: 0 <= i < dividend ==> crctable[i] == Entry(i)
      decreases 256 - dividend
    {
      crctable[dividend] := DivideIndex(dividend);
      dividend := dividend + 1;
      if !(dividend < 256) { break; }
    }
  }

  /** `do_crc`: the table-driven loop computes the division, for every message and every starting
      remainder. */
  method DoCrc(crctable: array<Word>, initial: Word, p: seq<Byte>) returns (remainder: Word)
    requires IsTable(crctable[..])
    ensures remainder == Crc(initial, p)
  {
    remainder := initial;
    var i := 0;
    while i < |p|
      invariant 0 <= i <= |p|
      invariant Crc(remainder, p[i..]) == Crc(initial, p)
    {
      FeedByte(remainder, p[i]);
      DivideAppend(remainder, p[i], Bits(p[i..][1..]));
      assert p[i..][1..] == p[i + 1..];
      var data: Byte := Xor(p[i], remainder[..8]);
      assert crctable[..][Value(data)] == Entry(Value(data));
      remainder := Xor(crctable[Value(data)], Shl(remainder, 8));
      i := i + 1;
    }
  }

  // ------------------------------------------------------------- what it promises

  lemma {:induction false} BitsAppend(m: seq<Byte>, n: seq<Byte>)
    ensures Bits(m + n) == Bits(m) + Bits(n)
  {
    if m == [] {
      assert m + n == n;
    } else {
      assert (m + n)[1..] == m[1..] + n;
      BitsAppend(m[1..], n);
    }
  }

  /** A message can be fed in pieces. */
  lemma CrcComposes(r: Word, m: seq<Byte>, n: seq<Byte>)
    ensures Crc(r, m + n) == Crc(Crc(r, m), n)
  {
    BitsAppend(m, n);
    DivideAppend(r, Bits(m), Bits(n));
  }

  function XorBytes(m: seq<Byte>, n: seq<Byte>): (x: seq<Byte>)
    requires |m| == |n|
    ensures |x| == |m|
  {
    if m == [] then [] else [Xor(m[0], n[0])] + XorBytes(m[1..], n[1..])
  }

  lemma XorOfConcat(a: Vec, b: Vec, c: Vec, d: Vec)
    requires |a| == |b| && |c| == |d|
    ensures Xor(a + c, b + d) == Xor(a, b) + Xor(c, d)
  {}

  lemma {:induction false} BitsOfXor(m: seq<Byte>, n: seq<Byte>)
    requires |m| == |n|
    ensures Bits(XorBytes(m, n)) == Xor(Bits(m), Bits(n))
  {
    if m != [] {
      BitsOfXor(m[1..], n[1..]);
      XorOfConcat(m[0], n[0], Bits(m[1..]), Bits(n[1..]));
      assert XorBytes(m, n)[1..] == XorBytes(m[1..], n[1..]);
    }
  }

  /** From remainder 0 the CRC is linear over exclusive or. */
  lemma CrcLinear(m: seq<Byte>, n: seq<Byte>)
    requires |m| == |n|
    ensures Crc(Zeros(32), XorBytes(m, n)) == Xor(Crc(Zeros(32), m), Crc(Zeros(32), n))
  {
    BitsOfXor(m, n);
    DivideLinear(Zeros(32), Bits(m), Zeros(32), Bits(n));
    assert Xor(Zeros(32), Zeros(32)) == Zeros(32);
  }

  /** The bytes of a word in big-endian order. */
  function BigEndian(w: Word): seq<Byte> { [w[..8], w[8..16], w[16..24], w[24..]] }

  lemma BigEndianBits(w: Word)
    ensures Bits(BigEndian(w)) == w
  {
    var m := BigEndian(w);
    assert m[1..] == [w[8..16], w[16..24], w[24..]] && m[1..][1..] == [w[16..24], w[24..]];
    assert m[1..][1..][1..] == [w[24..]];
    assert Bits([w[24..]]) == w[24..] + Bits([]);
    assert Bits(m[1..][1..]) == w[16..24] + Bits(m[1..][1..][1..]) == w[16..];
    assert Bits(m[1..]) == w[8..16] + Bits(m[1..][1..]) == w[8..];
  }

  lemma WordResidue(r: Word, w: Word)
    ensures Divide(r, w) == Zeros(32) <==> w == r
  {
    DividePacked(r, w);
    assert Pack(w) == w;
    ShiftsKeepNonzero(Xor(r, w), 32);
    XorIsZero(r, w);
  }

  /** A message with four bytes behind it has residue 0 exactly when those bytes are its CRC in
      big-endian order. */
  lemma ResidueZeroIff(r: Word, m: seq<Byte>, tail: Word)
    ensures Crc(r, m + BigEndian(tail)) == Zeros(32) <==> tail == Crc(r, m)
  {
    CrcComposes(r, m, BigEndian(tail));
    BigEndianBits(tail);
    WordResidue(Crc(r, m), tail);
  }

  /** The two bit strings agree outside the 32 positions from `a` on. */
  predicate AgreeOutside(x: Vec, y: Vec, a: nat) {
    |x| == |y| && forall i :: 0 <= i < |x| && !(a <= i < a + 32) ==> x[i] == y[i]
  }

  lemma XorZeros(w: Word)
    ensures Xor(Zeros(32), w) == w
  {}

  lemma BurstAlone(burst: Vec)
    requires |burst| <= 32 && burst != Zeros(|burst|)
    ensures Divide(Zeros(32), burst) != Zeros(32)
  {
    DividePacked(Zeros(32), burst);
    XorZeros(Pack(burst));
    PackNonzero(burst);
    ShiftsKeepNonzero(Pack(burst), |burst|);
  }

  lemma SetBit(v: Vec) returns (i: nat)
    requires v != Zeros(|v|)
    ensures i < |v| && v[i]
  {
    i :| 0 <= i < |v| && v[i] != Zeros(|v|)[i];
  }

  lemma PackNonzero(burst: Vec)
    requires |burst| <= 32 && burst != Zeros(|burst|)
    ensures Pack(burst) != Zeros(32)
  {
    var i := SetBit(burst);
    assert Pack(burst)[i] == burst[i];
  }

  /** Zeros, then up to 32 bits, then zeros: the remainder is zero only if all the bits are. */
  lemma BurstRemainder(before: nat, burst: Vec, after: nat)
    requires |burst| <= 32 && burst != Zeros(|burst|)
    ensures Divide(Zeros(32), Zeros(before) + burst + Zeros(after)) != Zeros(32)
  {
    var r := Divide(Zeros(32), burst);
    BurstAlone(burst);
    DivideAppend(Zeros(32), Zeros(before) + burst, Zeros(after));
    DivideAppend(Zeros(32), Zeros(before), burst);
    DivideZeros(Zeros(32), before);
    ShiftsKeepNonzero(Zeros(32), before);
    DivideZeros(r, after);
    ShiftsKeepNonzero(r, after);
  }

  /** Burst detection: two messages of one length that differ, and differ only within 32
      consecutive bits, have different CRCs; so a block that checks out no longer does after any
      such change. */
  lemma BurstDetected(r: Word, m: seq<Byte>, n: seq<Byte>, a: nat)
    requires AgreeOutside(Bits(m), Bits(n), a) && Bits(m) != Bits(n)
    ensures Crc(r, m) != Crc(r, n)
    ensures Crc(r, m) == Zeros(32) ==> Crc(r, n) != Zeros(32)
  {
    var e := Xor(Bits(m), Bits(n));
    XorIsZero(Bits(m), Bits(n));
    var lo, hi := BurstShape(e, a);
    BurstRemainder(lo, e[lo..hi], |e| - hi);
    DivideLinear(r, Bits(m), r, Bits(n));
    XorIsZero(r, r);
    XorIsZero(Crc(r, m), Crc(r, n));
  }

  lemma BurstShape(e: Vec, a: nat) returns (lo: nat, hi: nat)
    requires forall i :: 0 <= i < |e| && !(a <= i < a + 32) ==> !e[i]
    requires e != Zeros(|e|)
    ensures lo <= hi <= |e| && hi - lo <= 32 && e[lo..hi] != Zeros(hi - lo)
    ensures e == Zeros(lo) + e[lo..hi] + Zeros(|e| - hi)
  {
    lo, hi := a, if a + 32 <= |e| then a + 32 else |e|;
    assert e == Zeros(lo) + e[lo..hi] + Zeros(|e| - hi);
    assert Zeros(lo) + Zeros(hi - lo) + Zeros(|e| - hi) == Zeros(|e|);
  }
}
