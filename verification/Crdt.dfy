/**
 * Conflict-free replicated counters and registers: the replicas' state, its
 * merge, and its binary form.
 */
module Crdt {
  import opened Base
  import opened Codec

  const MAX_U64 := TWO_64 - 1
  const MAX_I64 := 0x7FFF_FFFF_FFFF_FFFF
  const MIN_I64 := -0x8000_0000_0000_0000

  type Node = bytes
  type Counts = map<Node, nat>

  /** Saturating at 64 bits. */
  function Sat(n: nat): nat { if n > MAX_U64 then MAX_U64 else n }

  // ------------------------------------------------------------ operations

  function Get(c: Counts, n: Node): nat { if n in c then c[n] else 0 }

  function Incremented(c: Counts, n: Node, amount: nat): Counts {
    c[n := Sat(Get(c, n) + amount)]
  }

  function Merged(a: Counts, b: Counts): Counts {
    map n | n in a.Keys + b.Keys :: Max(Get(a, n), Get(b, n))
  }

  lemma MergedAt(a: Counts, b: Counts, n: Node)
    ensures n in Merged(a, b) <==> n in a || n in b
    ensures Get(Merged(a, b), n) == Max(Get(a, n), Get(b, n))
  {
  }

  lemma SameCounts(a: Counts, b: Counts)
    requires forall n :: (n in a <==> n in b) && Get(a, n) == Get(b, n)
    ensures a == b
  {
    forall n | n in a ensures n in b && a[n] == b[n] {
      assert Get(a, n) == Get(b, n);
    }
    assert forall n :: n in b ==> n in a;
  }

  /** Merging is a join: the order, grouping and repetition of merges do not matter. */
  lemma MergeIsJoin(a: Counts, b: Counts, c: Counts)
    ensures Merged(a, b) == Merged(b, a)
    ensures Merged(Merged(a, b), c) == Merged(a, Merged(b, c))
    ensures Merged(a, a) == a
    ensures Merged(a, Merged(a, b)) == Merged(a, b)
  {
    hide Merged, Get;
    var ab, bc := Merged(a, b), Merged(b, c);
    forall n
      ensures (n in Merged(ab, c) <==> n in Merged(a, bc)) && Get(Merged(ab, c), n) == Get(Merged(a, bc), n)
      ensures (n in ab <==> n in Merged(b, a)) && Get(ab, n) == Get(Merged(b, a), n)
      ensures (n in Merged(a, a) <==> n in a) && Get(Merged(a, a), n) == Get(a, n)
      ensures (n in Merged(a, ab) <==> n in ab) && Get(Merged(a, ab), n) == Get(ab, n)
    {
      MergedAt(a, b, n);
      MergedAt(b, a, n);
      MergedAt(b, c, n);
      MergedAt(ab, c, n);
      MergedAt(a, bc, n);
      MergedAt(a, a, n);
      MergedAt(a, ab, n);
    }
    SameCounts(Merged(ab, c), Merged(a, bc));
    SameCounts(ab, Merged(b, a));
    SameCounts(Merged(a, a), a);
    SameCounts(Merged(a, ab), ab);
  }

  /** The sum over all nodes. */
  ghost function Total(c: Counts): nat
    decreases |c|
  {
    if c == map[] then 0
    else
      var n :| n in c;
      c[n] + Total(c - {n})
  }

  /** It does not matter which node is counted first. */
  lemma {:induction false} TotalPick(c: Counts, n: Node)
    requires n in c
    ensures Total(c) == c[n] + Total(c - {n})
    decreases |c|
  {
    var m :| m in c && Total(c) == c[m] + Total(c - {m});
    if m != n {
      TotalPick(c - {m}, n);
      TotalPick(c - {n}, m);
      assert c - {m} - {n} == c - {n} - {m};
    }
  }

  lemma TotalNone()
    ensures Total(map[]) == 0
  {
  }

  lemma TotalUpdate(c: Counts, n: Node, v: nat)
    ensures Total(c[n := v]) == Total(c) - Get(c, n) + v
    ensures Get(c, n) <= Total(c)
  {
    var d := c[n := v];
    TotalPick(d, n);
    assert d - {n} == c - {n};
    if n in c {
      TotalPick(c, n);
    } else {
      assert c - {n} == c;
    }
  }

  class GCounter {
    var counts: Counts

    constructor ()
      ensures counts == map[]
    {
      counts := map[];
    }

    method Incr(node: Node, amount: nat)
      modifies this
      ensures counts == Incremented(old(counts), node, amount)
    {
      var e := if node in counts then counts[node] else 0;
      counts := counts[node := if e + amount > MAX_U64 then MAX_U64 else e + amount];
    }

    /** The saturating fold over the entries, in whatever order the table gives them. */
    method Value() returns (r: nat)
      ensures r == Sat(Total(counts))
    {
      hide Total;
      r := 0;
      var rest := counts;
      while rest != map[]
        invariant r <= MAX_U64 && Sat(r + Total(rest)) == Sat(Total(counts))
        decreases |rest|
      {
        var n :| n in rest;
        TotalPick(rest, n);
        TotalNone();
        r := if r + rest[n] > MAX_U64 then MAX_U64 else r + rest[n];
        rest := rest - {n};
      }
      TotalNone();
    }

    method Merge(other: Counts)
      modifies this
      ensures counts == Merged(old(counts), other)
    {
      ghost var start := counts;
      ghost var taken: Counts := map[];
      var rest := other;
      hide Merged;
      MergeNone(start);
      while rest != map[]
        invariant counts == Merged(start, taken)
        invariant taken + rest == other && taken.Keys !! rest.Keys
        decreases |rest|
      {
        var n :| n in rest;
        MergeOne(start, taken, n, rest[n]);
        TakeOver(taken, rest, other, n);
        var e := if n in counts then counts[n] else 0;
        counts := counts[n := if e < rest[n] then rest[n] else e];
        taken := taken[n := rest[n]];
        rest := rest - {n};
      }
      assert taken + rest == taken;
    }
  }

  lemma TakeOver(taken: Counts, rest: Counts, all: Counts, n: Node)
    requires taken + rest == all && taken.Keys !! rest.Keys && n in rest
    ensures taken[n := rest[n]] + (rest - {n}) == all && taken[n := rest[n]].Keys !! (rest - {n}).Keys
    ensures n !in taken
  {
  }

  lemma MergeNone(c: Counts)
    ensures Merged(c, map[]) == c
  {
  }

  lemma MergeOne(c: Counts, taken: Counts, n: Node, v: nat)
    requires n !in taken
    ensures var m := Merged(c, taken); Merged(c, taken[n := v]) == m[n := Max(Get(m, n), v)]
  {
  }

  class PnCounter {
    var p: Counts
    var n: Counts

    constructor ()
      ensures p == map[] && n == map[]
    {
      p, n := map[], map[];
    }

    method Incr(node: Node, amount: nat)
      modifies this
      ensures p == Incremented(old(p), node, amount) && n == old(n)
    {
      var c := new GCounter();
      c.counts := p;
      c.Incr(node, amount);
      p := c.counts;
    }

    method Decr(node: Node, amount: nat)
      modifies this
      ensures n == Incremented(old(n), node, amount) && p == old(p)
    {
      var c := new GCounter();
      c.counts := n;
      c.Incr(node, amount);
      n := c.counts;
    }

    method Merge(otherP: Counts, otherN: Counts)
      modifies this
      ensures p == Merged(old(p), otherP) && n == Merged(old(n), otherN)
    {
      var c := new GCounter();
      c.counts := p;
      c.Merge(otherP);
      p := c.counts;
      c.counts := n;
      c.Merge(otherN);
      n := c.counts;
    }

    method Value() returns (r: int)
      ensures r == Clamp(Sat(Total(p)) - Sat(Total(n)))
    {
      var c := new GCounter();
      c.counts := p;
      var plus := c.Value();
      c.counts := n;
      var minus := c.Value();
      r := Clamp(plus as int - minus as int);
    }
  }

  function Clamp(i: int): int {
    if i < MIN_I64 then MIN_I64 else if i > MAX_I64 then MAX_I64 else i
  }

  /** When the two saturated halves still give the clamped true difference. */
  lemma ClampedDifference(p: nat, n: nat)
    ensures Clamp(Sat(p) - Sat(n)) == Clamp(p - n) <==>
      || (p <= MAX_U64 && n <= MAX_U64)
      || (p > MAX_U64 && n <= MAX_U64 - MAX_I64)
      || (n > MAX_U64 && p <= MAX_U64 + MIN_I64)
      || p == n
  {
  }

  // ------------------------------------------------------------ registers

  datatype Register = Register(value: bytes, ts: nat, node: Node) {
    /** Later by (timestamp, node). */
    predicate After(that: Register) {
      ts > that.ts || (ts == that.ts && Less(that.node, node))
    }

    predicate SameKey(that: Register) { ts == that.ts && node == that.node }
  }

  function Later(a: Register, b: Register): Register { if b.After(a) then b else a }

  class LwwRegister {
    var r: Register

    constructor (value: bytes, ts: nat, node: Node)
      ensures r == Register(value, ts, node)
    {
      r := Register(value, ts, node);
    }

    method Set(value: bytes, ts: nat, node: Node)
      modifies this
      ensures r == Later(old(r), Register(value, ts, node))
      ensures r == Register(value, ts, node) || r == old(r)
      ensures ts > old(r).ts || (ts == old(r).ts && Less(old(r).node, node)) ==> r == Register(value, ts, node)
      ensures ts < old(r).ts || (ts == old(r).ts && !Less(old(r).node, node)) ==> r == old(r)
    {
      if ts > r.ts || (ts == r.ts && Less(r.node, node)) {
        r := Register(value, ts, node);
      }
    }

    method Merge(other: Register)
      modifies this
      ensures r == Later(old(r), other)
    {
      if other.ts > r.ts || (other.ts == r.ts && Less(r.node, other.node)) {
        r := r.(value := other.value, ts := other.ts, node := other.node);
      }
    }
  }

  lemma RegistersOrdered(a: Register, b: Register)
    ensures a.After(b) || b.After(a) || a.SameKey(b)
    ensures !(a.After(b) && b.After(a)) && !(a.After(b) && a.SameKey(b))
  {
    LessTotal(a.node, b.node);
  }

  lemma AfterTransitive(a: Register, b: Register, c: Register)
    requires a.After(b) && b.After(c)
    ensures a.After(c)
  {
    if a.ts == b.ts && b.ts == c.ts {
      LessTransitive(c.node, b.node, a.node);
    }
  }

  /** Merging two registers commutes exactly when equal keys carry equal values. */
  lemma LaterCommutes(a: Register, b: Register)
    ensures Later(a, b) == Later(b, a) <==> (a.SameKey(b) ==> a == b)
  {
    RegistersOrdered(a, b);
    hide Less;
  }

  lemma LaterAssociates(a: Register, b: Register, c: Register)
    ensures Later(Later(a, b), c) == Later(a, Later(b, c))
    ensures Later(a, a) == a
  {
    RegistersOrdered(a, b);
    RegistersOrdered(b, c);
    RegistersOrdered(a, c);
    RegistersOrdered(a, a);
    LessTotal(a.node, c.node);
    if c.After(b) && b.After(a) {
      AfterTransitive(c, b, a);
    }
    if !c.After(b) && !b.After(a) && c.After(a) {
      if b.After(c) {
        AfterTransitive(b, c, a);
      }
    }
    hide Less;
  }

  // ------------------------------------------------------------ binary forms

  function PutEntry(n: Node, count: nat): bytes {
    PutLen(|n|) + n + PutU64(count)
  }

  function PutEntries(order: seq<Node>, c: Counts): bytes
    requires forall n :: n in order ==> n in c
  {
    if order == [] then [] else PutEntry(order[0], c[order[0]]) + PutEntries(order[1..], c)
  }

  /** The number of nodes, then every node in byte order with its count. */
  ghost function EncodeCounts(c: Counts): bytes {
    PutLen(|c|) + PutEntries(InOrder(c.Keys), c)
  }

  /** The fields fit their widths. */
  predicate Encodable(c: Counts) {
    |c| < TWO_32 && forall n :: n in c ==> |n| < TWO_32
  }

  /** Node names are text and counts 64-bit, as their types promise. */
  predicate WellTyped(c: Counts) {
    forall n :: n in c ==> Utf8(n) && c[n] < TWO_64
  }

  lemma {:induction false} PutEntriesSnoc(order: seq<Node>, n: Node, c: Counts)
    requires forall m :: m in order + [n] ==> m in c
    ensures PutEntries(order + [n], c) == PutEntries(order, c) + PutEntry(n, c[n])
    decreases |order|
  {
    hide PutEntry;
    assert n in order + [n];
    if order == [] {
      assert PutEntries([n], c) == PutEntry(n, c[n]) + PutEntries([], c);
    } else {
      assert (order + [n])[1..] == order[1..] + [n];
      PutEntriesSnoc(order[1..], n, c);
    }
  }

  method ToBytes(c: Counts) returns (out: bytes)
    ensures out == EncodeCounts(c)
  {
    hide PutLen, PutU64, InOrder, Ordering;
    var order := SortKeys(c.Keys);
    OrderingHas(order, c.Keys);
    OrderingCounts(order, c.Keys);
    assert |c| == |c.Keys|;
    out := PutLen(|order|);
    ghost var head := out;
    for i := 0 to |order|
      invariant forall n :: n in order[..i] ==> n in c
      invariant out == head + PutEntries(order[..i], c)
    {
      var n := order[i];
      assert order[..i + 1] == order[..i] + [n];
      assert n in order;
      PutEntriesSnoc(order[..i], n, c);
      ghost var before := out;
      out := out + PutLen(|n|);
      out := out + n;
      out := out + PutU64(c[n]);
      Regroup3(before, PutLen(|n|), n, PutU64(c[n]));
      Assoc(head, PutEntries(order[..i], c), PutEntry(n, c[n]));
    }
    assert order[..|order|] == order;
  }

  function GetEntry(s: bytes): Option<(Node, nat, bytes)> {
    match GetBytes(s)
    case None => None
    case Some((n, rest)) =>
      if !Utf8(n) then None
      else match GetU64(rest) case Some((count, rest')) => Some((n, count, rest')) case None => None
  }

  function GetEntries(s: bytes, k: nat, c: Counts): Option<(Counts, bytes)>
    decreases k
  {
    if k == 0 then Some((c, s))
    else match GetEntry(s)
      case Some((n, count, rest)) => GetEntries(rest, k - 1, c[n := count])
      case None => None
  }

  /** A counter at the front of `s`, and what follows it. */
  function ReadCounts(s: bytes): Option<(Counts, bytes)> {
    match GetU32(s) case Some((k, rest)) => GetEntries(rest, k, map[]) case None => None
  }

  /** The whole input must be one counter. */
  function CountsFromBytes(b: bytes): Option<Counts> {
    match ReadCounts(b) case Some((c, rest)) => (if rest == [] then Some(c) else None) case None => None
  }

  /** Two counters, one behind the other. */
  function PairFromBytes(b: bytes): Option<(Counts, Counts)> {
    match ReadCounts(b)
    case None => None
    case Some((p, rest)) =>
      match ReadCounts(rest)
      case None => None
      case Some((n, rest')) => if rest' == [] then Some((p, n)) else None
  }

  method FromBytes(b: bytes) returns (r: Option<Counts>)
    ensures r == CountsFromBytes(b)
  {
    hide GetBytes, GetU32, GetU64, Utf8;
    var head := GetU32(b);
    if head.None? {
      return None;
    }
    var (k, rest) := head.value;
    var counts: Counts := map[];
    for i := 0 to k
      invariant GetEntries(rest, k - i, counts) == GetEntries(head.value.1, k, map[])
    {
      var name := GetBytes(rest);
      if name.None? || !Utf8(name.value.0) {
        return None;
      }
      var count := GetU64(name.value.1);
      if count.None? {
        return None;
      }
      counts, rest := counts[name.value.0 := count.value.0], count.value.1;
    }
    return if rest == [] then Some(counts) else None;
  }

  lemma EntryReads(n: Node, count: nat, rest: bytes)
    requires |n| < TWO_32 && Utf8(n) && count < TWO_64
    ensures GetEntry(PutEntry(n, count) + rest) == Some((n, count, rest))
  {
    hide GetBytes, GetU64, PutLen, PutU64, Utf8;
    DataReads(n, PutU64(count) + rest);
    U64Reads(count, rest);
    Assoc(PutLen(|n|) + n, PutU64(count), rest);
  }

  lemma {:induction false} EntriesRead(order: seq<Node>, c: Counts, acc: Counts, rest: bytes)
    requires forall n :: n in order ==> n in c && |n| < TWO_32
    requires WellTyped(c)
    ensures GetEntries(PutEntries(order, c) + rest, |order|, acc) == Some((acc + Only(c, order), rest))
    decreases |order|
  {
    hide GetEntry, PutEntry, Utf8, Only;
    if order == [] {
      OnlyNone(c, acc);
      assert PutEntries(order, c) + rest == rest;
    } else {
      var n := order[0];
      assert n in order;
      EntryReads(n, c[n], PutEntries(order[1..], c) + rest);
      Assoc(PutEntry(n, c[n]), PutEntries(order[1..], c), rest);
      EntriesRead(order[1..], c, acc[n := c[n]], rest);
      OnlyCons(order, c, acc);
    }
  }

  /** A counter reads back with whatever follows it untouched, so two can be written one behind the other. */
  lemma CountsRead(c: Counts, rest: bytes)
    requires WellTyped(c) && Encodable(c)
    ensures ReadCounts(EncodeCounts(c) + rest) == Some((c, rest))
  {
    hide GetEntries, PutEntries, GetU32, PutLen, Utf8, Ordering, Only, InOrder;
    var order := InOrder(c.Keys);
    OrderingHas(order, c.Keys);
    OrderingCounts(order, c.Keys);
    assert |c| == |c.Keys|;
    var body := PutEntries(order, c);
    EntriesRead(order, c, map[], rest);
    OnlyAll(order, c);
    LenReads(|c|, body + rest);
    Assoc(PutLen(|c|), body, rest);
  }

  lemma EntryFits(s: bytes)
    requires GetEntry(s).Some?
    ensures var (n, count, _) := GetEntry(s).value; Utf8(n) && |n| < TWO_32 && count < TWO_64
  {
    hide GetBytes, GetU64, Utf8;
    BytesFit(s);
    U64Fits(GetBytes(s).value.1);
  }

  ghost predicate EntriesFine(c: Counts) {
    forall n :: n in c ==> Utf8(n) && |n| < TWO_32 && c[n] < TWO_64
  }

  lemma {:induction false} EntriesFit(s: bytes, k: nat, c: Counts)
    requires GetEntries(s, k, c).Some? && EntriesFine(c)
    ensures EntriesFine(GetEntries(s, k, c).value.0) && |GetEntries(s, k, c).value.0| <= |c| + k
    decreases k
  {
    hide GetEntry, Utf8;
    if k > 0 {
      EntryFits(s);
      var (n, count, rest) := GetEntry(s).value;
      assert c[n := count].Keys == c.Keys + {n};
      assert |c[n := count]| <= |c| + 1;
      EntriesFit(rest, k - 1, c[n := count]);
    }
  }

  lemma ReadIsEncodable(s: bytes)
    requires ReadCounts(s).Some?
    ensures WellTyped(ReadCounts(s).value.0) && Encodable(ReadCounts(s).value.0)
  {
    U32Fits(s);
    hide GetU32, GetEntries, Utf8;
    EntriesFit(GetU32(s).value.1, GetU32(s).value.0, map[]);
  }

  lemma CounterRoundTrip(c: Counts)
    requires WellTyped(c)
    ensures CountsFromBytes(EncodeCounts(c)) == Some(c) <==> Encodable(c)
  {
    hide EncodeCounts, ReadCounts, WellTyped, Encodable;
    var e := EncodeCounts(c);
    assert e + [] == e;
    if Encodable(c) {
      CountsRead(c, []);
    }
    if ReadCounts(e).Some? {
      ReadIsEncodable(e);
    }
  }

  lemma PairRoundTrip(p: Counts, n: Counts)
    requires WellTyped(p) && WellTyped(n)
    ensures PairFromBytes(EncodeCounts(p) + EncodeCounts(n)) == Some((p, n)) <==> Encodable(p) && Encodable(n)
  {
    hide EncodeCounts, ReadCounts, WellTyped, Encodable;
    var e := EncodeCounts(p) + EncodeCounts(n);
    if Encodable(p) && Encodable(n) {
      CountsRead(p, EncodeCounts(n));
      CountsRead(n, []);
      assert EncodeCounts(n) + [] == EncodeCounts(n);
    } else if PairFromBytes(e).Some? {
      ReadIsEncodable(e);
      ReadIsEncodable(ReadCounts(e).value.1);
    }
  }

  // ---- registers

  function EncodeRegister(r: Register): bytes {
    PutU64(r.ts) + PutLen(|r.node|) + r.node + r.value
  }

  function RegisterFromBytes(b: bytes): Option<Register> {
    match GetU64(b)
    case None => None
    case Some((ts, rest)) =>
      match GetBytes(rest)
      case None => None
      case Some((node, value)) => if Utf8(node) then Some(Register(value, ts, node)) else None
  }

  lemma RegisterRoundTrip(r: Register)
    requires r.ts < TWO_64 && Utf8(r.node)
    ensures RegisterFromBytes(EncodeRegister(r)) == Some(r) <==> |r.node| < TWO_32
  {
    hide GetU64, GetBytes, PutU64, PutLen, Utf8;
    var name := PutLen(|r.node|) + r.node;
    U64Reads(r.ts, name + r.value);
    Assoc(PutU64(r.ts), PutLen(|r.node|), r.node);
    Assoc(PutU64(r.ts), name, r.value);
    if |r.node| < TWO_32 {
      DataReads(r.node, r.value);
    }
    if GetBytes(name + r.value).Some? {
      BytesFit(name + r.value);
    }
  }

  lemma EightBytes(n: byte)
    ensures PutU64(n) == [n, 0, 0, 0, 0, 0, 0, 0]
  {
    FourBytes(0);
    assert Le(0, 5) == [0] + Le(0, 4);
    assert Le(0, 6) == [0] + Le(0, 5);
    assert Le(0, 7) == [0] + Le(0, 6);
    assert Le(n, 8) == [n] + Le(0, 7);
  }

  lemma OneName(c: Counts)
    requires c == map[[98] := 5]
    ensures InOrder(c.Keys) == [[98]] && |c| == 1
  {
    assert c.Keys == {[98]} && |c| == |c.Keys|;
    hide InOrder, Less;
    OrderingUnique(InOrder(c.Keys), [[98]], c.Keys);
  }

  /** What is sent, byte by byte: a count of names, then each name behind its length and in front of its count. */
  lemma KnownCounts(c: Counts)
    requires c == map[[98] := 5]
    ensures EncodeCounts(c) == [1, 0, 0, 0] + ([1, 0, 0, 0] + [98] + [5, 0, 0, 0, 0, 0, 0, 0])
  {
    FourBytes(1);
    EightBytes(5);
    OneName(c);
    hide PutLen, PutU64, PutU32, InOrder, Ordering;
    assert PutEntries([[98]], c) == PutEntry([98], 5) + PutEntries([], c);
    assert PutEntry([98], 5) + [] == PutEntry([98], 5);
  }

  /** A register is its timestamp, its node behind the length, and the value to the end. */
  lemma KnownRegister()
    ensures EncodeRegister(Register([7, 7], 9, [98])) == [9, 0, 0, 0, 0, 0, 0, 0] + [1, 0, 0, 0, 98] + [7, 7]
  {
    FourBytes(1);
    EightBytes(9);
    hide PutLen, PutU64;
  }
}
