/**
 * CRC-32 (IEEE 802.3 clause 3.2.9), reflected form: the 256-entry table and the
 * incremental hasher against the definition that shifts in one message bit at a
 * time, and the bursts the checksum is guaranteed to notice.
 */
module Crc {

  const POLY: bv32 := 0xEDB88320
  const ONES: bv32 := 0xFFFFFFFF

  // ------------------------------------------------------------ bit by bit

  function Xor(a: bv32, b: bv32): bv32 { a ^ b }

  function LowBit(b: bv32): bv32 { b & 1 }

  function Half(b: bv32): bv32 { b >> 1 }

  function Wide(b: bv8): bv32 { b as bv32 }

  /** One shift of the reflected register, dividing by the generator. */
  function Shift(crc: bv32): bv32 {
    if LowBit(crc) == 1 then Xor(Half(crc), POLY) else Half(crc)
  }

  /** The register after the `n` low bits of `b` went in, lowest bit first. */
  function FeedBits(crc: bv32, b: bv32, n: nat): bv32
    decreases n, crc
  {
    if n == 0 then crc else FeedBits(Shift(Xor(crc, LowBit(b))), Half(b), n - 1)
  }

  /** The register after all message bits, lowest bit of each octet first. */
  function FeedMessage(crc: bv32, data: seq<bv8>): bv32
    decreases |data|
  {
    if data == [] then crc else FeedMessage(FeedBits(crc, Wide(data[0]), 8), data[1..])
  }

  /** The checksum: all-ones start, complemented end. */
  function BitSerial(data: seq<bv8>): bv32 {
    Xor(FeedMessage(ONES, data), ONES)
  }

  // ------------------------------------------------------ iterating a register

  function Iter<T>(f: T -> T, x: T, n: nat): T
    decreases n, x
  {
    if n == 0 then x else Iter(f, f(x), n - 1)
  }

  lemma {:induction false} IterAdds<T>(f: T -> T, x: T, m: nat, n: nat)
    ensures Iter(f, Iter(f, x, m), n) == Iter(f, x, m + n)
    decreases m
  {
    if m > 0 {
      IterAdds(f, f(x), m - 1, n);
    }
  }

  lemma {:induction false} IterDistributes<T(!new)>(f: T -> T, g: (T, T) -> T, x: T, y: T, n: nat)
    requires forall a, b :: f(g(a, b)) == g(f(a), f(b))
    ensures Iter(f, g(x, y), n) == g(Iter(f, x, n), Iter(f, y, n))
    decreases n
  {
    if n > 0 {
      IterDistributes(f, g, f(x), f(y), n - 1);
    }
  }

  lemma {:induction false} IterInjective<T(!new)>(f: T -> T, x: T, y: T, n: nat)
    requires forall a, b :: f(a) == f(b) ==> a == b
    requires Iter(f, x, n) == Iter(f, y, n)
    ensures x == y
    decreases n
  {
    if n > 0 {
      IterInjective(f, f(x), f(y), n - 1);
    }
  }

  function Shifts(crc: bv32, n: nat): bv32 {
    Iter(Shift, crc, n)
  }

  // ------------------------------------------- the register is linear over GF(2)

  lemma XorGroup(a: bv32, b: bv32)
    ensures Xor(a, a) == 0 && Xor(a, 0) == a && Xor(0, a) == a && Xor(a, b) == Xor(b, a)
    ensures Xor(a, b) == 0 <==> a == b
  {
  }

  lemma XorAssociates(a: bv32, b: bv32, c: bv32)
    ensures Xor(a, Xor(b, c)) == Xor(Xor(a, b), c)
  {
    assert a ^ (b ^ c) == (a ^ b) ^ c;
  }

  lemma XorLaws(a: bv32, b: bv32, c: bv32)
    ensures Xor(Xor(a, b), c) == Xor(Xor(a, c), b) && Xor(a, Xor(b, c)) == Xor(Xor(a, b), c)
    ensures Xor(a, a) == 0 && Xor(a, 0) == a && Xor(0, a) == a && Xor(a, b) == Xor(b, a)
    ensures Xor(a, b) == 0 <==> a == b
  {
    hide Xor;
    XorGroup(a, b);
    XorGroup(b, c);
    XorAssociates(a, b, c);
    XorAssociates(a, c, b);
  }

  lemma ThreeXors(a: bv32, b: bv32, p: bv32)
    ensures Xor(Xor(a, b), p) == Xor(Xor(a, p), b) == Xor(a, Xor(b, p))
    ensures Xor(Xor(a, p), Xor(b, p)) == Xor(a, b)
  {
    hide Xor;
    XorLaws(a, b, p);
    XorLaws(Xor(a, p), b, p);
    XorLaws(Xor(a, b), p, p);
    XorLaws(p, p, 0);
    XorLaws(Xor(a, b), 0, 0);
  }

  lemma XorCancels(a: bv32, b: bv32, c: bv32)
    ensures Xor(a, c) == Xor(b, c) <==> a == b
  {
  }

  lemma XorBits(x: bv32, y: bv32)
    ensures Half(Xor(x, y)) == Xor(Half(x), Half(y))
    ensures LowBit(Xor(x, y)) == 1 <==> (LowBit(x) == 1 <==> LowBit(y) != 1)
  {
  }

  lemma ShiftLinear(x: bv32, y: bv32)
    ensures Shift(Xor(x, y)) == Xor(Shift(x), Shift(y))
  {
    hide Xor, Half, LowBit;
    XorBits(x, y);
    ThreeXors(Half(x), Half(y), POLY);
  }

  lemma ShiftsLinear(x: bv32, y: bv32, n: nat)
    ensures Shifts(Xor(x, y), n) == Xor(Shifts(x, n), Shifts(y, n))
  {
    hide Xor, Shift, Raise;
    forall a, b ensures Shift(Xor(a, b)) == Xor(Shift(a), Shift(b)) {
      ShiftLinear(a, b);
    }
    IterDistributes(Shift, Xor, x, y, n);
  }

  lemma ShiftBranch(x: bv32)
    ensures Xor(Half(x), POLY) & 0x80000000 != 0
    ensures Half(x) & 0x80000000 == 0
  {
  }

  lemma SameHalves(x: bv32, y: bv32)
    requires Half(x) == Half(y) && (LowBit(x) == 1 <==> LowBit(y) == 1)
    ensures x == y
  {
  }

  /** The generator's top coefficient tells which branch was taken, so a shift loses nothing. */
  lemma ShiftInjective(x: bv32, y: bv32)
    requires Shift(x) == Shift(y)
    ensures x == y
  {
    hide Xor, Half, LowBit;
    ShiftBranch(x);
    ShiftBranch(y);
    XorCancels(Half(x), Half(y), POLY);
    SameHalves(x, y);
  }

  lemma ShiftsInjective(x: bv32, y: bv32, n: nat)
    requires Shifts(x, n) == Shifts(y, n)
    ensures x == y
  {
    hide Shift;
    forall a, b ensures Shift(a) == Shift(b) ==> a == b {
      if Shift(a) == Shift(b) {
        ShiftInjective(a, b);
      }
    }
    IterInjective(Shift, x, y, n);
  }

  lemma {:induction false} ShiftsZero(n: nat)
    ensures Shifts(0, n) == 0
  {
    if n > 0 {
      ShiftsZero(n - 1);
    }
  }

  // --------------------------------------------------------- octets at a time

  /** A word without its low bit. */
  function Even(b: bv32): bv32 { b & 0xFFFFFFFE }

  lemma EvenFacts(b: bv32)
    ensures b == Xor(LowBit(b), Even(b)) && LowBit(Even(b)) != 1 && Half(Even(b)) == Half(b)
  {
  }

  lemma ShiftSplit(c: bv32, b: bv32)
    ensures Shift(Xor(c, b)) == Xor(Shift(Xor(c, LowBit(b))), Half(b))
  {
    hide Xor, Half, LowBit, Even;
    EvenFacts(b);
    XorLaws(c, LowBit(b), Even(b));
    ShiftLinear(Xor(c, LowBit(b)), Even(b));
  }

  /** Feeding bits one by one is xoring them all in first, up to the bits not yet fed. */
  lemma {:induction false} FeedIsXorThenShift(c: bv32, b: bv32, n: nat)
    ensures Shifts(Xor(c, b), n) == Xor(FeedBits(c, b, n), Iter(Half, b, n))
    decreases n
  {
    hide Xor, Half, LowBit, Shift;
    if n > 0 {
      ShiftSplit(c, b);
      FeedIsXorThenShift(Shift(Xor(c, LowBit(b))), Half(b), n - 1);
    }
  }

  lemma OctetHalves(b: bv8)
    ensures Iter(Half, Wide(b), 8) == 0
  {
    var x := Wide(b);
    assert Half(Half(Half(Half(Half(Half(Half(Half(x)))))))) == 0;
    assert Iter(Half, x, 8) == Iter(Half, Half(x), 7); x := Half(x);
    assert Iter(Half, x, 7) == Iter(Half, Half(x), 6); x := Half(x);
    assert Iter(Half, x, 6) == Iter(Half, Half(x), 5); x := Half(x);
    assert Iter(Half, x, 5) == Iter(Half, Half(x), 4); x := Half(x);
    assert Iter(Half, x, 4) == Iter(Half, Half(x), 3); x := Half(x);
    assert Iter(Half, x, 3) == Iter(Half, Half(x), 2); x := Half(x);
    assert Iter(Half, x, 2) == Iter(Half, Half(x), 1); x := Half(x);
    assert Iter(Half, x, 1) == Half(x);
  }

  lemma FeedOctet(c: bv32, b: bv8)
    ensures FeedBits(c, Wide(b), 8) == Shifts(Xor(c, Wide(b)), 8)
  {
    hide Xor, Shift, Raise;
    FeedIsXorThenShift(c, Wide(b), 8);
    OctetHalves(b);
    XorLaws(FeedBits(c, Wide(b), 8), 0, 0);
  }

  lemma Peel(z: bv32, x: bv32, n: nat)
    requires x <= 0x7FFFFFFF && z == x << 1
    ensures Shifts(z, n + 1) == Shifts(x, n)
  {
    assert LowBit(z) == 0 && Half(z) == x;
  }

  function Raise(z: bv32): bv32 { z << 8 }

  lemma RaiseIsEightDoublings(z: bv32)
    ensures Raise(z) == z << 1 << 1 << 1 << 1 << 1 << 1 << 1 << 1
  {
  }

  lemma Double(z: bv32, k: bv32)
    requires z <= k <= 0x3FFFFFFF
    ensures z << 1 <= k << 1 <= 0x7FFFFFFF
  {
  }

  /** Eight shifts of a register with a clear low octet just move it down. */
  lemma Unshift8(z: bv32)
    requires z <= 0xFFFFFF
    ensures Shifts(Raise(z), 8) == z
  {
    hide Shift, Raise;
    RaiseIsEightDoublings(z);
    var g := z << 1; Double(z, 0xFFFFFF);
    var f := g << 1; Double(g, 0x1FFFFFE);
    var e := f << 1; Double(f, 0x3FFFFFC);
    var d := e << 1; Double(e, 0x7FFFFF8);
    var c := d << 1; Double(d, 0xFFFFFF0);
    var b := c << 1; Double(c, 0x1FFFFFE0);
    var a := b << 1; Double(b, 0x3FFFFFC0);
    Peel(Raise(z), a, 7);
    Peel(a, b, 6);
    Peel(b, c, 5);
    Peel(c, d, 4);
    Peel(d, e, 3);
    Peel(e, f, 2);
    Peel(f, g, 1);
    Peel(g, z, 0);
  }

  // -------------------------------------------------------------- the table

  /** The entry the table builder computes for one index. */
  function Entry(i: bv32): bv32 {
    Shifts(i, 8)
  }

  /** What the 256-entry table must hold. */
  ghost predicate IsTable(table: seq<bv32>) {
    |table| == 256 && forall i :: 0 <= i < 256 ==> table[i] == Entry(i as bv32)
  }

  lemma OctetParts(x: bv32)
    ensures x == Xor(Raise(x >> 8), x & 0xFF) && x >> 8 <= 0xFFFFFF
    ensures x & 0xFF <= 0xFF
  {
  }

  lemma IndexOf(v: bv32)
    requires v <= 0xFF
    ensures 0 <= v as int < 256 && (v as int) as bv32 == v
  {
  }

  /** One table step equals eight bit steps. */
  lemma TableStep(crc: bv32, b: bv8)
    ensures FeedBits(crc, Wide(b), 8) == Xor(crc >> 8, Entry(Xor(crc, Wide(b)) & 0xFF))
  {
    hide Xor, Shift, Raise;
    FeedOctet(crc, b);
    var x := Xor(crc, Wide(b));
    OctetParts(x);
    ShiftsLinear(Raise(x >> 8), x & 0xFF, 8);
    Unshift8(x >> 8);
    HighOctets(crc, b);
  }

  lemma HighOctets(crc: bv32, b: bv8)
    ensures Xor(crc, Wide(b)) >> 8 == crc >> 8
  {
  }

  method NewTable() returns (table: array<bv32>)
    ensures fresh(table) && IsTable(table[..])
  {
    table := new bv32[256];
    var i := 0;
    while i < 256
      invariant 0 <= i <= 256
      invariant forall k :: 0 <= k < i ==> table[k] == Entry(k as bv32)
    {
      var crc := i as bv32;
      var j := 0;
      while j < 8
        invariant 0 <= j <= 8
        invariant Shifts(crc, 8 - j) == Entry(i as bv32)
      {
        if LowBit(crc) == 1 {
          crc := Xor(Half(crc), POLY);
        } else {
          crc := Half(crc);
        }
        j := j + 1;
      }
      table[i] := crc;
      i := i + 1;
    }
  }

  /** The table loop of both entry points: fold `data` into `start`. */
  method Fold(table: array<bv32>, start: bv32, data: seq<bv8>) returns (crc: bv32)
    requires IsTable(table[..])
    ensures crc == FeedMessage(start, data)
  {
    crc := start;
    var k := 0;
    while k < |data|
      invariant 0 <= k <= |data|
      invariant FeedMessage(start, data) == FeedMessage(crc, data[k..])
    {
      var v := Xor(crc, Wide(data[k])) & 0xFF;
      OctetParts(Xor(crc, Wide(data[k])));
      IndexOf(v);
      TableStep(crc, data[k]);
      assert data[k..][1..] == data[k + 1..];
      assert table[..][v as int] == Entry(v);
      crc := Xor(crc >> 8, table[v as int]);
      k := k + 1;
    }
  }

  method Crc32(table: array<bv32>, data: seq<bv8>) returns (r: bv32)
    requires IsTable(table[..])
    ensures r == BitSerial(data)
  {
    var crc := Fold(table, ONES, data);
    r := Xor(crc, ONES);
  }

  lemma {:induction false} FeedAppend(crc: bv32, a: seq<bv8>, b: seq<bv8>)
    ensures FeedMessage(crc, a + b) == FeedMessage(FeedMessage(crc, a), b)
    decreases |a|
  {
    if a == [] {
      assert a + b == b;
    } else {
      assert (a + b)[1..] == a[1..] + b;
      FeedAppend(FeedBits(crc, Wide(a[0]), 8), a[1..], b);
    }
  }

  /** The incremental hasher; `fed` is everything it was given so far. */
  class Crc32Hasher {
    var crc: bv32
    ghost var fed: seq<bv8>

    ghost predicate Valid()
      reads this
    {
      crc == FeedMessage(ONES, fed)
    }

    constructor ()
      ensures Valid() && fed == []
    {
      crc, fed := ONES, [];
    }

    method Update(table: array<bv32>, data: seq<bv8>)
      requires Valid() && IsTable(table[..])
      modifies this
      ensures Valid() && fed == old(fed) + data
    {
      FeedAppend(ONES, fed, data);
      crc := Fold(table, crc, data);
      fed := fed + data;
    }

    method Finish() returns (r: bv32)
      requires Valid()
      ensures r == BitSerial(fed)
    {
      r := Xor(crc, ONES);
    }
  }

  // ------------------------------------------------------- burst detection

  function Difference(a: seq<bv8>, b: seq<bv8>): (d: seq<bv8>)
    requires |a| == |b|
    ensures |d| == |a|
    ensures forall k :: 0 <= k < |d| ==> (d[k] == 0 <==> a[k] == b[k])
  {
    if a == [] then [] else [a[0] ^ b[0]] + Difference(a[1..], b[1..])
  }

  lemma WideXor(a: bv8, b: bv8)
    ensures Wide(a ^ b) == Xor(Wide(a), Wide(b))
  {
  }

  lemma XorShuffle(c: bv32, d: bv32, a: bv32, b: bv32)
    ensures Xor(Xor(c, d), Xor(a, b)) == Xor(Xor(c, a), Xor(d, b))
  {
    hide Xor;
    XorLaws(Xor(c, d), a, b);
    XorLaws(c, d, a);
    XorLaws(Xor(c, a), d, b);
  }

  lemma OctetSuperposes(c: bv32, d: bv32, a: bv8, b: bv8)
    ensures FeedBits(Xor(c, d), Wide(a ^ b), 8) == Xor(FeedBits(c, Wide(a), 8), FeedBits(d, Wide(b), 8))
  {
    hide Xor, Shift, Raise;
    FeedOctet(Xor(c, d), a ^ b);
    FeedOctet(c, a);
    FeedOctet(d, b);
    WideXor(a, b);
    XorShuffle(c, d, Wide(a), Wide(b));
    ShiftsLinear(Xor(c, Wide(a)), Xor(d, Wide(b)), 8);
  }

  /** The difference of two registers evolves like a register fed the difference of the messages. */
  lemma {:induction false} Superposition(c: bv32, d: bv32, a: seq<bv8>, b: seq<bv8>)
    requires |a| == |b|
    ensures FeedMessage(Xor(c, d), Difference(a, b)) == Xor(FeedMessage(c, a), FeedMessage(d, b))
    decreases |a|
  {
    hide Xor, Shift, Raise;
    if a != [] {
      OctetSuperposes(c, d, a[0], b[0]);
      Superposition(FeedBits(c, Wide(a[0]), 8), FeedBits(d, Wide(b[0]), 8), a[1..], b[1..]);
    }
  }

  ghost predicate Quiet(w: seq<bv8>) {
    forall k :: 0 <= k < |w| ==> w[k] == 0
  }

  lemma {:induction false} FeedQuiet(c: bv32, w: seq<bv8>)
    requires Quiet(w)
    ensures FeedMessage(c, w) == Shifts(c, 8 * |w|)
    decreases |w|
  {
    hide Xor, Shift, Raise;
    if w != [] {
      FeedOctet(c, w[0]);
      XorLaws(c, 0, 0);
      FeedQuiet(FeedBits(c, Wide(w[0]), 8), w[1..]);
      IterAdds(Shift, c, 8, 8 * |w[1..]|);
    }
  }

  /** Up to four octets as one little-endian word. */
  function Word(w: seq<bv8>): bv32 {
    if w == [] then 0 else Xor(Wide(w[0]), Raise(Word(w[1..])))
  }

  lemma WordGrows(b: bv8, z: bv32)
    ensures z == 0 ==> Xor(Wide(b), Raise(z)) <= 0xFF
    ensures z <= 0xFF ==> Xor(Wide(b), Raise(z)) <= 0xFFFF
    ensures z <= 0xFFFF ==> Xor(Wide(b), Raise(z)) <= 0xFFFFFF
    ensures z <= 0xFFFFFF ==> (Xor(Wide(b), Raise(z)) == 0 <==> b == 0 && z == 0)
  {
  }

  lemma {:induction false} WordFacts(w: seq<bv8>)
    requires |w| <= 4
    ensures |w| <= 1 ==> Word(w) <= 0xFF
    ensures |w| <= 2 ==> Word(w) <= 0xFFFF
    ensures |w| <= 3 ==> Word(w) <= 0xFFFFFF
    ensures Word(w) == 0 <==> Quiet(w)
  {
    if w != [] {
      WordFacts(w[1..]);
      WordGrows(w[0], Word(w[1..]));
      assert Quiet(w) <==> w[0] == 0 && Quiet(w[1..]);
    }
  }

  /** Four octets enter the register like one 32-bit word followed by 32 shifts. */
  lemma {:induction false} FeedWord(c: bv32, w: seq<bv8>)
    requires |w| <= 4
    ensures FeedMessage(c, w) == Shifts(Xor(c, Word(w)), 8 * |w|)
    decreases |w|
  {
    hide Xor, Shift, Raise;
    if w == [] {
      XorLaws(c, 0, 0);
    } else {
      var rest, z := w[1..], Word(w[1..]);
      WordFacts(rest);
      FeedOctet(c, w[0]);
      FeedWord(FeedBits(c, Wide(w[0]), 8), rest);
      XorLaws(c, Wide(w[0]), Raise(z));
      ShiftsLinear(Xor(c, Wide(w[0])), Raise(z), 8);
      Unshift8(z);
      IterAdds(Shift, Xor(c, Word(w)), 8, 8 * |rest|);
    }
  }

  /** A register fed from zero notices any burst of at most four octets, however much silence follows. */
  lemma BurstLeavesTrace(before: seq<bv8>, burst: seq<bv8>, after: seq<bv8>)
    requires Quiet(before) && |burst| <= 4 && !Quiet(burst) && Quiet(after)
    ensures FeedMessage(0, before + burst + after) != 0
  {
    hide Xor, Shift, Raise;
    FeedAppend(0, before + burst, after);
    FeedAppend(0, before, burst);
    FeedQuiet(0, before);
    ShiftsZero(8 * |before|);
    FeedWord(0, burst);
    WordFacts(burst);
    XorLaws(Word(burst), 0, 0);
    FeedQuiet(FeedMessage(0, burst), after);
    if FeedMessage(0, before + burst + after) == 0 {
      ShiftsZero(8 * |after|);
      ShiftsInjective(FeedMessage(0, burst), 0, 8 * |after|);
      ShiftsZero(8 * |burst|);
      ShiftsInjective(Word(burst), 0, 8 * |burst|);
    }
  }

  /** Where messages differ within four octets, their difference is quiet around a burst. */
  lemma SplitBurst(a: seq<bv8>, b: seq<bv8>, d: seq<bv8>, at: nat) returns (before: seq<bv8>, burst: seq<bv8>,
                   after: seq<bv8>)
    requires |a| == |b| == |d| && a != b
    requires forall k :: 0 <= k < |d| ==> (d[k] == 0 <==> a[k] == b[k])
    requires forall k :: 0 <= k < |a| && a[k] != b[k] ==> at <= k < at + 4
    ensures d == before + burst + after
    ensures Quiet(before) && |burst| <= 4 && !Quiet(burst) && Quiet(after)
  {
    var k :| 0 <= k < |a| && a[k] != b[k];
    var end := if at + 4 <= |d| then at + 4 else |d|;
    before, burst, after := d[..at], d[at..end], d[end..];
    assert d[k] != 0 && burst[k - at] == d[k];
    forall j | 0 <= j < |before| ensures before[j] == 0 {
      assert a[j] == b[j] && before[j] == d[j];
    }
    forall j | 0 <= j < |after| ensures after[j] == 0 {
      assert a[end + j] == b[end + j] && after[j] == d[end + j];
    }
  }

  /**
   * Two messages of equal length that differ, and differ only inside four
   * consecutive octets, never share a checksum.
   */
  lemma BurstDetected(a: seq<bv8>, b: seq<bv8>, at: nat)
    requires |a| == |b| && a != b
    requires forall k :: 0 <= k < |a| && a[k] != b[k] ==> at <= k < at + 4
    ensures BitSerial(a) != BitSerial(b)
  {
    hide Xor, Shift, Raise, Quiet;
    var d := Difference(a, b);
    var before, burst, after := SplitBurst(a, b, d, at);
    BurstLeavesTrace(before, burst, after);
    Superposition(ONES, ONES, a, b);
    XorLaws(ONES, ONES, ONES);
    XorLaws(FeedMessage(ONES, a), FeedMessage(ONES, b), ONES);
    XorCancels(FeedMessage(ONES, a), FeedMessage(ONES, b), ONES);
  }

  /** The published values for the empty message and for the single letter `a`. */
  lemma KnownValues()
    ensures BitSerial([]) == 0
    ensures BitSerial([0x61]) == 0xE8B7BE43
  {
    assert FeedBits(0xFFFFFFFF, 0x61, 8) == FeedBits(0x7FFFFFFF, 0x30, 7);
    assert FeedBits(0x7FFFFFFF, 0x30, 7) == FeedBits(0xD2477CDF, 0x18, 6);
    assert FeedBits(0xD2477CDF, 0x18, 6) == FeedBits(0x849B3D4F, 0x0C, 5);
    assert FeedBits(0x849B3D4F, 0x0C, 5) == FeedBits(0xAFF51D87, 0x06, 4);
    assert FeedBits(0xAFF51D87, 0x06, 4) == FeedBits(0xBA420DE3, 0x03, 3);
    assert FeedBits(0xBA420DE3, 0x03, 3) == FeedBits(0x5D2106F1, 0x01, 2);
    assert FeedBits(0x5D2106F1, 0x01, 2) == FeedBits(0x2E908378, 0x00, 1);
    assert FeedBits(0x2E908378, 0x00, 1) == FeedBits(0x174841BC, 0x00, 0);
    assert FeedMessage(ONES, [0x61]) == FeedBits(ONES, Wide(0x61), 8);
    assert FeedBits(ONES, Wide(0x61), 8) == 0x174841BC;
  }
}
