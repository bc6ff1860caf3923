/**
 * What the binary encodings share: little-endian integers, length-prefixed
 * strings, UTF-8, and names in byte order.
 */
module Codec {
  import opened Base

  // ------------------------------------------------------------ integers

  function Pow256(w: nat): (p: nat)
    ensures p >= 1
  {
    if w == 0 then 1 else 256 * Pow256(w - 1)
  }

  /** The low `w` bytes of `n`, least significant first. */
  function Le(n: nat, w: nat): (r: bytes)
    ensures |r| == w
  {
    if w == 0 then [] else [n % 256] + Le(n / 256, w - 1)
  }

  function FromLe(b: bytes): nat {
    if b == [] then 0 else b[0] + 256 * FromLe(b[1..])
  }

  lemma {:induction false} LeReadsBack(n: nat, w: nat)
    requires n < Pow256(w)
    ensures FromLe(Le(n, w)) == n
  {
    if w > 0 {
      LeReadsBack(n / 256, w - 1);
      assert Le(n, w)[1..] == Le(n / 256, w - 1);
    }
  }

  lemma {:induction false} FromLeFits(b: bytes)
    ensures FromLe(b) < Pow256(|b|)
  {
    if b != [] {
      FromLeFits(b[1..]);
    }
  }

  lemma Widths()
    ensures Pow256(4) == TWO_32 && Pow256(8) == TWO_64
  {
    assert Pow256(2) == 65536;
    assert Pow256(4) == 65536 * 65536;
    assert Pow256(6) == 65536 * Pow256(4);
    assert Pow256(8) == 65536 * Pow256(6);
  }

  // ------------------------------------------------------------ reading

  /** The next `n` bytes and what follows. */
  function TakeN(s: bytes, n: nat): Option<(bytes, bytes)> {
    if n <= |s| then Some((s[..n], s[n..])) else None
  }

  function GetU32(s: bytes): Option<(nat, bytes)> {
    match TakeN(s, 4) case Some((b, rest)) => Some((FromLe(b), rest)) case None => None
  }

  function GetU64(s: bytes): Option<(nat, bytes)> {
    match TakeN(s, 8) case Some((b, rest)) => Some((FromLe(b), rest)) case None => None
  }

  /** A string behind its 32-bit length. */
  function GetBytes(s: bytes): Option<(bytes, bytes)> {
    match GetU32(s) case Some((n, rest)) => TakeN(rest, n) case None => None
  }

  function PutU32(n: nat): bytes { Le(n, 4) }

  function PutU64(n: nat): bytes { Le(n, 8) }

  function PutBytes(b: bytes): bytes { PutU32(|b|) + b }

  /** A length cast to 32 bits. */
  function PutLen(n: nat): bytes { PutU32(n % TWO_32) }

  /** The low byte comes first. */
  lemma FourBytes(n: nat)
    requires n < 65536
    ensures PutU32(n) == [n % 256, n / 256, 0, 0] && (n < TWO_32 ==> PutLen(n) == PutU32(n))
  {
    assert Le(n, 4) == [n % 256] + Le(n / 256, 3);
    assert Le(n / 256, 3) == [n / 256] + Le(0, 2);
    assert Le(0, 2) == [0, 0] by {
      assert Le(0, 1) == [0] + Le(0, 0);
    }
  }

  lemma Assoc(a: bytes, b: bytes, c: bytes)
    ensures a + b + c == a + (b + c)
  {
  }

  lemma Regroup(a: bytes, b: bytes, c: bytes, d: bytes, e: bytes)
    ensures a + b + c + d + e == a + (b + c + d + e)
  {
  }

  lemma Regroup3(a: bytes, b: bytes, c: bytes, d: bytes)
    ensures a + b + c + d == a + (b + c + d)
  {
  }

  lemma TakeNReads(a: bytes, rest: bytes)
    ensures TakeN(a + rest, |a|) == Some((a, rest))
  {
  }

  lemma U32Reads(n: nat, rest: bytes)
    requires n < TWO_32
    ensures GetU32(PutU32(n) + rest) == Some((n, rest))
  {
    Widths();
    LeReadsBack(n, 4);
    hide Le, FromLe;
    TakeNReads(PutU32(n), rest);
  }

  lemma U64Reads(n: nat, rest: bytes)
    requires n < TWO_64
    ensures GetU64(PutU64(n) + rest) == Some((n, rest))
  {
    Widths();
    LeReadsBack(n, 8);
    hide Le, FromLe;
    TakeNReads(PutU64(n), rest);
  }

  lemma BytesRead(b: bytes, rest: bytes)
    requires |b| < TWO_32
    ensures GetBytes(PutBytes(b) + rest) == Some((b, rest))
  {
    U32Reads(|b|, b + rest);
    TakeNReads(b, rest);
    hide PutU32, GetU32, TakeN;
    assert PutBytes(b) + rest == PutU32(|b|) + (b + rest);
  }

  lemma LenReads(n: nat, rest: bytes)
    requires n < TWO_32
    ensures GetU32(PutLen(n) + rest) == Some((n, rest))
  {
    U32Reads(n, rest);
  }

  lemma DataReads(data: bytes, rest: bytes)
    requires |data| < TWO_32
    ensures GetBytes(PutLen(|data|) + data + rest) == Some((data, rest))
  {
    BytesRead(data, rest);
    hide GetBytes, PutU32;
    assert PutLen(|data|) == PutU32(|data|);
  }

  /** What is read does not change when more follows. */
  lemma TakeNMore(s: bytes, n: nat, more: bytes)
    requires TakeN(s, n).Some?
    ensures TakeN(s + more, n) == Some((TakeN(s, n).value.0, TakeN(s, n).value.1 + more))
  {
    assert (s + more)[..n] == s[..n];
    assert (s + more)[n..] == s[n..] + more;
  }

  lemma U32More(s: bytes, more: bytes)
    requires GetU32(s).Some?
    ensures GetU32(s + more) == Some((GetU32(s).value.0, GetU32(s).value.1 + more))
  {
    hide FromLe;
    TakeNMore(s, 4, more);
  }

  lemma U64More(s: bytes, more: bytes)
    requires GetU64(s).Some?
    ensures GetU64(s + more) == Some((GetU64(s).value.0, GetU64(s).value.1 + more))
  {
    hide FromLe;
    TakeNMore(s, 8, more);
  }

  lemma BytesMore(s: bytes, more: bytes)
    requires GetBytes(s).Some?
    ensures GetBytes(s + more) == Some((GetBytes(s).value.0, GetBytes(s).value.1 + more))
  {
    U32More(s, more);
    hide GetU32;
    TakeNMore(GetU32(s).value.1, GetU32(s).value.0, more);
  }

  lemma U32Fits(s: bytes)
    requires GetU32(s).Some?
    ensures GetU32(s).value.0 < TWO_32
  {
    Widths();
    FromLeFits(s[..4]);
  }

  lemma U64Fits(s: bytes)
    requires GetU64(s).Some?
    ensures GetU64(s).value.0 < TWO_64
  {
    Widths();
    FromLeFits(s[..8]);
  }

  lemma BytesFit(s: bytes)
    requires GetBytes(s).Some?
    ensures |GetBytes(s).value.0| < TWO_32
  {
    U32Fits(s);
  }

  // ------------------------------------------------------------ UTF-8

  predicate Continuation(b: byte) { 0x80 <= b <= 0xBF }

  /** Well-formed UTF-8 (table 3-7 of the Unicode Standard). */
  predicate Utf8(s: bytes)
    decreases |s|
  {
    if s == [] then true
    else if s[0] < 0x80 then Utf8(s[1..])
    else if 0xC2 <= s[0] <= 0xDF then |s| >= 2 && Continuation(s[1]) && Utf8(s[2..])
    else if 0xE0 <= s[0] <= 0xEF then
      && |s| >= 3 && Continuation(s[1]) && Continuation(s[2])
      && (s[0] == 0xE0 ==> 0xA0 <= s[1]) && (s[0] == 0xED ==> s[1] <= 0x9F)
      && Utf8(s[3..])
    else if 0xF0 <= s[0] <= 0xF4 then
      && |s| >= 4 && Continuation(s[1]) && Continuation(s[2]) && Continuation(s[3])
      && (s[0] == 0xF0 ==> 0x90 <= s[1]) && (s[0] == 0xF4 ==> s[1] <= 0x8F)
      && Utf8(s[4..])
    else false
  }

  // ------------------------------------------------------------ byte order

  /** Strings compare byte by byte; a prefix comes first. */
  predicate Less(a: bytes, b: bytes) {
    b != [] && (a == [] || a[0] < b[0] || (a[0] == b[0] && Less(a[1..], b[1..])))
  }

  /** They share what comes before `k`, where the first one ends or has the smaller byte. */
  ghost predicate DifferAt(a: bytes, b: bytes, k: nat) {
    k <= |a| && k < |b| && a[..k] == b[..k] && (k == |a| || a[k] < b[k])
  }

  lemma {:induction false} LessMeans(a: bytes, b: bytes)
    ensures Less(a, b) <==> exists k: nat :: DifferAt(a, b, k)
    decreases |a|
  {
    if Less(a, b) && a != [] && a[0] == b[0] {
      LessMeans(a[1..], b[1..]);
      var k: nat :| DifferAt(a[1..], b[1..], k);
      assert a[..k + 1] == [a[0]] + a[1..][..k] && b[..k + 1] == [b[0]] + b[1..][..k];
      assert DifferAt(a, b, k + 1);
    } else if Less(a, b) {
      assert DifferAt(a, b, 0);
    }
    if k: nat :| DifferAt(a, b, k) {
      if k > 0 {
        assert a[0] == a[..k][0] && b[0] == b[..k][0];
        assert a[1..][..k - 1] == a[..k][1..] && b[1..][..k - 1] == b[..k][1..];
        assert DifferAt(a[1..], b[1..], k - 1);
        LessMeans(a[1..], b[1..]);
      }
    }
  }

  lemma {:induction false} LessTotal(a: bytes, b: bytes)
    ensures Less(a, b) || a == b || Less(b, a)
    ensures !(Less(a, b) && Less(b, a)) && !Less(a, a)
    decreases |a| + |b|
  {
    if a != [] && b != [] && a[0] == b[0] {
      LessTotal(a[1..], b[1..]);
      assert a == [a[0]] + a[1..] && b == [b[0]] + b[1..];
    }
    if a != [] {
      LessIrreflexive(a);
    }
  }

  lemma {:induction false} LessIrreflexive(a: bytes)
    ensures !Less(a, a)
    decreases |a|
  {
    if a != [] {
      LessIrreflexive(a[1..]);
    }
  }

  lemma {:induction false} LessTransitive(a: bytes, b: bytes, c: bytes)
    requires Less(a, b) && Less(b, c)
    ensures Less(a, c)
    decreases |a|
  {
    if a != [] && a[0] == b[0] && b[0] == c[0] {
      LessTransitive(a[1..], b[1..], c[1..]);
    }
  }

  ghost predicate Sorted(order: seq<bytes>) {
    forall i, k :: 0 <= i < k < |order| ==> Less(order[i], order[k])
  }

  /** The keys, each once, in byte order. */
  ghost predicate Ordering(order: seq<bytes>, keys: set<bytes>) {
    Sorted(order) && forall n :: n in order <==> n in keys
  }

  function Insert(order: seq<bytes>, n: bytes): seq<bytes> {
    if order == [] || Less(n, order[0]) then [n] + order else [order[0]] + Insert(order[1..], n)
  }

  lemma {:induction false} InsertHas(order: seq<bytes>, n: bytes, m: bytes)
    ensures m in Insert(order, n) <==> m == n || m in order
    decreases |order|
  {
    if !(order == [] || Less(n, order[0])) {
      InsertHas(order[1..], n, m);
      assert order == [order[0]] + order[1..];
    }
  }

  lemma {:induction false} InsertSorts(order: seq<bytes>, n: bytes)
    requires Sorted(order) && n !in order
    ensures Sorted(Insert(order, n))
    decreases |order|
  {
    if order == [] {
    } else if Less(n, order[0]) {
      forall k | 0 <= k < |order| ensures Less(n, order[k]) {
        if k > 0 {
          LessTransitive(n, order[0], order[k]);
        }
      }
      SortedCons(n, order);
    } else {
      LessTotal(n, order[0]);
      var tail := Insert(order[1..], n);
      InsertSorts(order[1..], n);
      forall k | 0 <= k < |tail| ensures Less(order[0], tail[k]) {
        InsertHas(order[1..], n, tail[k]);
      }
      SortedCons(order[0], tail);
    }
  }

  lemma SortedCons(n: bytes, order: seq<bytes>)
    requires Sorted(order) && forall k :: 0 <= k < |order| ==> Less(n, order[k])
    ensures Sorted([n] + order)
  {
    var r := [n] + order;
    forall i, k | 0 <= i < k < |r| ensures Less(r[i], r[k]) {
      if i > 0 {
        assert r[i] == order[i - 1] && r[k] == order[k - 1];
      }
    }
  }

  ghost function InOrder(keys: set<bytes>): (order: seq<bytes>)
    ensures Ordering(order, keys)
    decreases |keys|
  {
    if keys == {} then []
    else
      var n :| n in keys;
      var rest := InOrder(keys - {n});
      InsertOrders(rest, keys - {n}, n);
      Insert(rest, n)
  }

  lemma InsertOrders(order: seq<bytes>, keys: set<bytes>, n: bytes)
    requires Ordering(order, keys) && n !in keys
    ensures Ordering(Insert(order, n), keys + {n})
    ensures forall all: set<bytes> :: n in all && keys == all - {n} ==> Ordering(Insert(order, n), all)
  {
    InsertSorts(order, n);
    forall m ensures m in Insert(order, n) <==> m in keys + {n} {
      InsertHas(order, n, m);
    }
  }

  lemma OrderingEmpty(order: seq<bytes>, keys: set<bytes>)
    requires Ordering(order, keys)
    ensures order == [] <==> keys == {}
  {
    if order != [] {
      assert order[0] in keys;
    }
  }

  /** There is one order only, so equal maps are written the same way. */
  lemma {:induction false} OrderingUnique(a: seq<bytes>, b: seq<bytes>, keys: set<bytes>)
    requires Ordering(a, keys) && Ordering(b, keys)
    ensures a == b
    decreases |a|
  {
    hide Less;
    OrderingEmpty(a, keys);
    OrderingEmpty(b, keys);
    if a != [] && b != [] {
      FirstIsLeast(a, keys, b[0]);
      FirstIsLeast(b, keys, a[0]);
      LessTotal(a[0], b[0]);
      RestOrders(a, keys);
      RestOrders(b, keys);
      OrderingUnique(a[1..], b[1..], keys - {a[0]});
      assert a == [a[0]] + a[1..] && b == [b[0]] + b[1..];
    }
  }

  lemma FirstIsLeast(a: seq<bytes>, keys: set<bytes>, n: bytes)
    requires Ordering(a, keys) && a != [] && (n in keys || n in a)
    ensures n == a[0] || Less(a[0], n)
  {
    hide Less;
    var k :| 0 <= k < |a| && a[k] == n;
  }

  lemma RestOrders(a: seq<bytes>, keys: set<bytes>)
    requires Ordering(a, keys) && a != []
    ensures Ordering(a[1..], keys - {a[0]})
  {
    forall n ensures n in a[1..] <==> n in keys - {a[0]} {
      assert a == [a[0]] + a[1..];
      if n in a[1..] {
        var k :| 0 <= k < |a[1..]| && a[1..][k] == n;
        assert Less(a[0], a[k + 1]);
        LessIrreflexive(n);
      }
    }
    hide Less;
    var t := a[1..];
    forall i, k | 0 <= i < k < |t| ensures Less(t[i], t[k]) {
      assert t[i] == a[i + 1] && t[k] == a[k + 1];
    }
  }

  lemma {:induction false} OrderingCounts(order: seq<bytes>, keys: set<bytes>)
    requires Ordering(order, keys)
    ensures |order| == |keys|
    decreases |order|
  {
    hide Less;
    if order == [] {
      assert keys == {};
    } else {
      assert order[0] in keys;
      RestOrders(order, keys);
      OrderingCounts(order[1..], keys - {order[0]});
    }
  }

  lemma OrderingHas(order: seq<bytes>, keys: set<bytes>)
    requires Ordering(order, keys)
    ensures forall n :: n in order <==> n in keys
  {
  }

  /** Sort a set of names, one insertion at a time. */
  method SortKeys(keys: set<bytes>) returns (order: seq<bytes>)
    ensures Ordering(order, keys) && order == InOrder(keys)
  {
    order := [];
    var rest := keys;
    while rest != {}
      invariant rest <= keys && Ordering(order, keys - rest)
      decreases |rest|
    {
      var n :| n in rest;
      InsertOrders(order, keys - rest, n);
      assert keys - (rest - {n}) == (keys - rest) + {n};
      order := Insert(order, n);
      rest := rest - {n};
    }
    assert keys - {} == keys;
    OrderingUnique(order, InOrder(keys), keys);
  }

  // ---- the part of a map a list of names covers

  function Only<T>(m: map<bytes, T>, names: seq<bytes>): map<bytes, T> {
    map k | k in m && k in names :: m[k]
  }

  lemma OnlyNone<T>(m: map<bytes, T>, acc: map<bytes, T>)
    ensures acc + Only(m, []) == acc
  {
  }

  lemma OnlyAll<T>(order: seq<bytes>, m: map<bytes, T>)
    requires forall n :: n in order <==> n in m.Keys
    ensures map[] + Only(m, order) == m
  {
  }

  lemma OnlyCons<T>(order: seq<bytes>, m: map<bytes, T>, acc: map<bytes, T>)
    requires order != [] && order[0] in m
    ensures acc[order[0] := m[order[0]]] + Only(m, order[1..]) == acc + Only(m, order)
  {
    assert order == [order[0]] + order[1..];
  }
}
