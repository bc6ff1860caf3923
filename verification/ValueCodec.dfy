/**
 * Stored values: a one-byte tag, then length-prefixed little-endian contents.
 */
module ValueCodec {
  import opened Base
  import opened Codec

  const T_BYTES: byte := 1
  const T_INT: byte := 2
  const T_VECTOR: byte := 3
  const T_ROW: byte := 4
  const T_TOMB: byte := 5
  const T_FLOAT: byte := 6
  const T_META: byte := 7

  const TWO_63 := 0x8000_0000_0000_0000

  /** Floating-point numbers are their bit patterns: 64 bits in Float, 32 in Vector. */
  datatype Value =
    | Bytes(data: bytes)
    | Int(i: int)
    | Float(bits: nat)
    | Vector(elems: seq<nat>)
    | Row(columns: map<bytes, bytes>)
    | Tombstone
    | Meta(data: bytes)

  /** Every field is of the width, and every column name the text, its type promises. */
  predicate WellTyped(v: Value) {
    match v
    case Int(i) => -TWO_63 <= i < TWO_63
    case Float(bits) => bits < TWO_64
    case Vector(elems) => forall i :: 0 <= i < |elems| ==> elems[i] < TWO_32
    case Row(columns) => forall k :: k in columns ==> Utf8(k)
    case _ => true
  }

  /** Every length fits its 32-bit prefix. */
  predicate Encodable(v: Value) {
    match v
    case Bytes(data) => |data| < TWO_32
    case Vector(elems) => |elems| < TWO_32
    case Row(columns) =>
      |columns| < TWO_32 && forall k :: k in columns ==> |k| < TWO_32 && |columns[k]| < TWO_32
    case Meta(data) => |data| < TWO_32
    case _ => true
  }

  // ------------------------------------------------------------ encoding

  /** Two's complement. */
  function PutI64(i: int): bytes { PutU64(i % TWO_64) }

  function PutElems(elems: seq<nat>): bytes {
    if elems == [] then [] else PutU32(elems[0]) + PutElems(elems[1..])
  }

  function PutColumn(k: bytes, v: bytes): bytes {
    PutLen(|k|) + k + PutLen(|v|) + v
  }

  function PutColumns(order: seq<bytes>, columns: map<bytes, bytes>): bytes
    requires forall k :: k in order ==> k in columns
  {
    if order == [] then [] else PutColumn(order[0], columns[order[0]]) + PutColumns(order[1..], columns)
  }

  function Tag(v: Value): byte {
    match v
    case Bytes(_) => T_BYTES
    case Int(_) => T_INT
    case Float(_) => T_FLOAT
    case Vector(_) => T_VECTOR
    case Row(_) => T_ROW
    case Tombstone => T_TOMB
    case Meta(_) => T_META
  }

  ghost function Body(v: Value): bytes {
    match v
    case Bytes(data) => PutLen(|data|) + data
    case Int(i) => PutI64(i)
    case Float(bits) => PutU64(bits)
    case Vector(elems) => PutLen(|elems|) + PutElems(elems)
    case Row(columns) => PutLen(|columns|) + PutColumns(InOrder(columns.Keys), columns)
    case Tombstone => []
    case Meta(data) => PutLen(|data|) + data
  }

  ghost function Encode(v: Value): bytes {
    [Tag(v)] + Body(v)
  }

  lemma {:induction false} PutElemsSnoc(elems: seq<nat>, e: nat)
    ensures PutElems(elems + [e]) == PutElems(elems) + PutU32(e)
    decreases |elems|
  {
    hide PutU32;
    if elems == [] {
      assert PutElems([e]) == PutU32(e) + PutElems([]);
    } else {
      assert (elems + [e])[1..] == elems[1..] + [e];
      PutElemsSnoc(elems[1..], e);
    }
  }

  lemma {:induction false} PutColumnsSnoc(order: seq<bytes>, k: bytes, columns: map<bytes, bytes>)
    requires forall n :: n in order + [k] ==> n in columns
    ensures PutColumns(order + [k], columns) == PutColumns(order, columns) + PutColumn(k, columns[k])
    decreases |order|
  {
    hide PutColumn;
    assert k in order + [k];
    if order == [] {
      assert PutColumns([k], columns) == PutColumn(k, columns[k]) + PutColumns([], columns);
    } else {
      assert (order + [k])[1..] == order[1..] + [k];
      PutColumnsSnoc(order[1..], k, columns);
    }
  }

  method EncodeVector(elems: seq<nat>) returns (out: bytes)
    ensures out == Encode(Vector(elems))
  {
    hide PutU32, PutLen;
    out := [T_VECTOR] + PutLen(|elems|);
    ghost var head := out;
    for i := 0 to |elems|
      invariant out == head + PutElems(elems[..i])
    {
      assert elems[..i + 1] == elems[..i] + [elems[i]];
      PutElemsSnoc(elems[..i], elems[i]);
      Assoc(head, PutElems(elems[..i]), PutU32(elems[i]));
      out := out + PutU32(elems[i]);
    }
    assert elems[..|elems|] == elems;
  }

  method EncodeRow(columns: map<bytes, bytes>) returns (out: bytes)
    ensures out == Encode(Row(columns))
  {
    hide PutLen, InOrder, Ordering;
    out := [T_ROW] + PutLen(|columns|);
    ghost var head := out;
    var order := SortKeys(columns.Keys);
    OrderingHas(order, columns.Keys);
    for i := 0 to |order|
      invariant forall n :: n in order[..i] ==> n in columns
      invariant out == head + PutColumns(order[..i], columns)
    {
      var k := order[i];
      assert order[..i + 1] == order[..i] + [k];
      assert k in order;
      PutColumnsSnoc(order[..i], k, columns);
      ghost var before := out;
      out := out + PutLen(|k|);
      out := out + k;
      out := out + PutLen(|columns[k]|);
      out := out + columns[k];
      Regroup(before, PutLen(|k|), k, PutLen(|columns[k]|), columns[k]);
      Assoc(head, PutColumns(order[..i], columns), PutColumn(k, columns[k]));
    }
    assert order[..|order|] == order;
  }

  method EncodeValue(v: Value) returns (out: bytes)
    ensures out == Encode(v)
  {
    hide PutU32, PutU64;
    match v {
      case Bytes(data) =>
        out := [T_BYTES];
        out := out + PutLen(|data|);
        out := out + data;
      case Int(i) =>
        out := [T_INT] + PutI64(i);
      case Float(bits) =>
        out := [T_FLOAT] + PutU64(bits);
      case Vector(elems) =>
        out := EncodeVector(elems);
      case Row(columns) =>
        out := EncodeRow(columns);
      case Tombstone =>
        out := [T_TOMB];
      case Meta(data) =>
        out := [T_META];
        out := out + PutLen(|data|);
        out := out + data;
    }
  }

  // ------------------------------------------------------------ decoding

  function ToI64(n: nat): int { if n < TWO_63 then n else n - TWO_64 }

  function GetElems(s: bytes, n: nat, elems: seq<nat>): Option<(seq<nat>, bytes)>
    decreases n
  {
    if n == 0 then Some((elems, s))
    else match GetU32(s)
      case Some((e, rest)) => GetElems(rest, n - 1, elems + [e])
      case None => None
  }

  function GetColumn(s: bytes): Option<(bytes, bytes, bytes)> {
    match GetBytes(s)
    case None => None
    case Some((k, rest)) =>
      if !Utf8(k) then None
      else match GetBytes(rest)
        case None => None
        case Some((v, rest')) => Some((k, v, rest'))
  }

  /** A column that comes twice keeps the later value. */
  function GetColumns(s: bytes, n: nat, columns: map<bytes, bytes>): Option<(map<bytes, bytes>, bytes)>
    decreases n
  {
    if n == 0 then Some((columns, s))
    else match GetColumn(s)
      case Some((k, v, rest)) => GetColumns(rest, n - 1, columns[k := v])
      case None => None
  }

  /** What follows the tag, and the bytes behind it. */
  function DecodeBody(tag: byte, body: bytes): Option<(Value, bytes)> {
    if tag == T_BYTES then
      (match GetBytes(body) case Some((b, rest)) => Some((Bytes(b), rest)) case None => None)
    else if tag == T_INT then
      (match GetU64(body) case Some((n, rest)) => Some((Int(ToI64(n)), rest)) case None => None)
    else if tag == T_FLOAT then
      (match GetU64(body) case Some((n, rest)) => Some((Float(n), rest)) case None => None)
    else if tag == T_VECTOR then
      (match GetU32(body)
       case None => None
       case Some((n, rest)) =>
         match GetElems(rest, n, []) case Some((elems, rest')) => Some((Vector(elems), rest')) case None => None)
    else if tag == T_ROW then
      (match GetU32(body)
       case None => None
       case Some((n, rest)) =>
         match GetColumns(rest, n, map[]) case Some((columns, rest')) => Some((Row(columns), rest')) case None => None)
    else if tag == T_TOMB then Some((Tombstone, body))
    else if tag == T_META then
      (match GetBytes(body) case Some((b, rest)) => Some((Meta(b), rest)) case None => None)
    else None
  }

  /** A value and the bytes behind it. */
  function DecodeFrom(s: bytes): Option<(Value, bytes)> {
    if s == [] then None else DecodeBody(s[0], s[1..])
  }

  function Decode(s: bytes): Option<Value> {
    match DecodeFrom(s) case Some((v, _)) => Some(v) case None => None
  }

  /** A cursor over the input, moved past what is read. */
  class Cursor {
    const buf: bytes
    var pos: nat

    ghost predicate Valid()
      reads this
    {
      pos <= |buf|
    }

    ghost function Rest(): bytes
      reads this
      requires Valid()
    {
      buf[pos..]
    }

    constructor (buf: bytes, pos: nat)
      requires pos <= |buf|
      ensures Valid() && Rest() == buf[pos..] && this.buf == buf && this.pos == pos
    {
      this.buf, this.pos := buf, pos;
    }

    method Take(n: nat) returns (r: Option<bytes>)
      requires Valid()
      modifies this`pos
      ensures Valid()
      ensures match TakeN(old(Rest()), n)
        case Some((b, rest)) => r == Some(b) && Rest() == rest
        case None => r == None && pos == old(pos)
    {
      if |buf| < pos + n {
        return None;
      }
      r := Some(buf[pos..pos + n]);
      assert buf[pos..][..n] == buf[pos..pos + n] && buf[pos..][n..] == buf[pos + n..];
      pos := pos + n;
    }

    method U32() returns (r: Option<nat>)
      requires Valid()
      modifies this`pos
      ensures Valid()
      ensures match GetU32(old(Rest()))
        case Some((n, rest)) => r == Some(n) && Rest() == rest
        case None => r == None
    {
      hide FromLe, TakeN;
      var b := Take(4);
      match b {
        case Some(four) => return Some(FromLe(four));
        case None => return None;
      }
    }

    method LengthPrefixed() returns (r: Option<bytes>)
      requires Valid()
      modifies this`pos
      ensures Valid()
      ensures match GetBytes(old(Rest()))
        case Some((b, rest)) => r == Some(b) && Rest() == rest
        case None => r == None
    {
      hide GetU32, TakeN;
      var n := U32();
      match n {
        case Some(len) => r := Take(len);
        case None => return None;
      }
    }
  }

  method DecodeValue(buf: bytes) returns (r: Option<Value>)
    ensures r == Decode(buf)
  {
    hide GetBytes, GetU32, TakeN, FromLe, Utf8, GetElems, GetColumns;
    if buf == [] {
      return None;
    }
    var tag := buf[0];
    var c := new Cursor(buf, 1);
    if tag == T_BYTES || tag == T_META {
      var b := c.LengthPrefixed();
      match b {
        case Some(data) => return Some(if tag == T_BYTES then Bytes(data) else Meta(data));
        case None => return None;
      }
    } else if tag == T_INT || tag == T_FLOAT {
      var b := c.Take(8);
      match b {
        case Some(eight) => return Some(if tag == T_INT then Int(ToI64(FromLe(eight))) else Float(FromLe(eight)));
        case None => return None;
      }
    } else if tag == T_VECTOR {
      var n := c.U32();
      if n.None? {
        return None;
      }
      var elems := Elems(c, n.value);
      return match elems case Some(e) => Some(Vector(e)) case None => None;
    } else if tag == T_ROW {
      var n := c.U32();
      if n.None? {
        return None;
      }
      var columns := Columns(c, n.value);
      return match columns case Some(m) => Some(Row(m)) case None => None;
    } else if tag == T_TOMB {
      return Some(Tombstone);
    }
    return None;
  }

  method Elems(c: Cursor, n: nat) returns (r: Option<seq<nat>>)
    requires c.Valid()
    modifies c`pos
    ensures c.Valid()
    ensures match GetElems(old(c.Rest()), n, [])
      case Some((elems, rest)) => r == Some(elems) && c.Rest() == rest
      case None => r == None
  {
    hide GetU32;
    var elems: seq<nat> := [];
    for i := 0 to n
      invariant c.Valid() && GetElems(c.Rest(), n - i, elems) == GetElems(old(c.Rest()), n, [])
    {
      var e := c.U32();
      if e.None? {
        return None;
      }
      elems := elems + [e.value];
    }
    return Some(elems);
  }

  method Columns(c: Cursor, n: nat) returns (r: Option<map<bytes, bytes>>)
    requires c.Valid()
    modifies c`pos
    ensures c.Valid()
    ensures match GetColumns(old(c.Rest()), n, map[])
      case Some((columns, rest)) => r == Some(columns) && c.Rest() == rest
      case None => r == None
  {
    hide GetBytes, Utf8;
    var columns: map<bytes, bytes> := map[];
    for i := 0 to n
      invariant c.Valid() && GetColumns(c.Rest(), n - i, columns) == GetColumns(old(c.Rest()), n, map[])
    {
      var k := c.LengthPrefixed();
      if k.None? || !Utf8(k.value) {
        return None;
      }
      var v := c.LengthPrefixed();
      if v.None? {
        return None;
      }
      columns := columns[k.value := v.value];
    }
    return Some(columns);
  }

  // ------------------------------------------------------------ the round trip

  lemma I64Reads(i: int, rest: bytes)
    requires -TWO_63 <= i < TWO_63
    ensures match GetU64(PutI64(i) + rest) case Some((n, after)) => ToI64(n) == i && after == rest case None => false
  {
    U64Reads(i % TWO_64, rest);
  }

  lemma {:induction false} ElemsRead(elems: seq<nat>, acc: seq<nat>, rest: bytes)
    requires forall i :: 0 <= i < |elems| ==> elems[i] < TWO_32
    ensures GetElems(PutElems(elems) + rest, |elems|, acc) == Some((acc + elems, rest))
    decreases |elems|
  {
    hide GetU32, PutU32;
    if elems == [] {
      assert acc + elems == acc && PutElems(elems) + rest == rest;
    } else {
      U32Reads(elems[0], PutElems(elems[1..]) + rest);
      assert PutElems(elems) + rest == PutU32(elems[0]) + (PutElems(elems[1..]) + rest);
      ElemsRead(elems[1..], acc + [elems[0]], rest);
      assert acc + elems == (acc + [elems[0]]) + elems[1..];
    }
  }

  lemma ColumnReads(k: bytes, v: bytes, rest: bytes)
    requires |k| < TWO_32 && |v| < TWO_32 && Utf8(k)
    ensures GetColumn(PutColumn(k, v) + rest) == Some((k, v, rest))
  {
    DataReads(k, PutLen(|v|) + v + rest);
    DataReads(v, rest);
    hide GetBytes, PutLen, Utf8;
    Assoc(PutLen(|k|) + k, PutLen(|v|), v);
    Assoc(PutLen(|k|) + k, PutLen(|v|) + v, rest);
  }

  lemma {:induction false} ColumnsRead(order: seq<bytes>, columns: map<bytes, bytes>, acc: map<bytes, bytes>,
                                       rest: bytes)
    requires forall k :: k in order ==> k in columns && Utf8(k) && |k| < TWO_32 && |columns[k]| < TWO_32
    ensures GetColumns(PutColumns(order, columns) + rest, |order|, acc) == Some((acc + Only(columns, order), rest))
    decreases |order|
  {
    hide GetColumn, PutColumn, Utf8, Only;
    if order == [] {
      OnlyNone(columns, acc);
      assert PutColumns(order, columns) + rest == rest;
    } else {
      var k := order[0];
      assert k in order;
      ColumnReads(k, columns[k], PutColumns(order[1..], columns) + rest);
      Assoc(PutColumn(k, columns[k]), PutColumns(order[1..], columns), rest);
      ColumnsRead(order[1..], columns, acc[k := columns[k]], rest);
      OnlyCons(order, columns, acc);
    }
  }

  lemma RowReads(columns: map<bytes, bytes>, rest: bytes)
    requires WellTyped(Row(columns)) && Encodable(Row(columns))
    ensures DecodeBody(T_ROW, Body(Row(columns)) + rest) == Some((Row(columns), rest))
  {
    hide GetColumns, PutColumns, GetU32, PutLen, Utf8, Ordering, Only, InOrder;
    var order := InOrder(columns.Keys);
    OrderingCounts(order, columns.Keys);
    OrderingHas(order, columns.Keys);
    var body := PutColumns(order, columns);
    assert |columns| == |columns.Keys|;
    ColumnsRead(order, columns, map[], rest);
    OnlyAll(order, columns);
    LenReads(|columns|, body + rest);
    assert Body(Row(columns)) + rest == PutLen(|columns|) + (body + rest);
  }

  lemma DataValueReads(v: Value, rest: bytes)
    requires (v.Bytes? || v.Meta?) && Encodable(v)
    ensures DecodeBody(Tag(v), Body(v) + rest) == Some((v, rest))
  {
    DataReads(v.data, rest);
    hide GetBytes, PutLen;
  }

  lemma FixedReads(v: Value, rest: bytes)
    requires (v.Int? || v.Float? || v.Tombstone?) && WellTyped(v)
    ensures DecodeBody(Tag(v), Body(v) + rest) == Some((v, rest))
  {
    match v
    case Int(i) => I64Reads(i, rest);
    case Float(bits) => U64Reads(bits, rest);
    case Tombstone => assert Body(v) + rest == rest;
  }

  lemma VectorReads(elems: seq<nat>, rest: bytes)
    requires WellTyped(Vector(elems)) && Encodable(Vector(elems))
    ensures DecodeBody(T_VECTOR, Body(Vector(elems)) + rest) == Some((Vector(elems), rest))
  {
    LenReads(|elems|, PutElems(elems) + rest);
    ElemsRead(elems, [], rest);
    hide GetElems, PutElems, GetU32, PutLen;
    assert Body(Vector(elems)) + rest == PutLen(|elems|) + (PutElems(elems) + rest);
    assert [] + elems == elems;
  }

  lemma BodyReads(v: Value, rest: bytes)
    requires WellTyped(v) && Encodable(v)
    ensures DecodeBody(Tag(v), Body(v) + rest) == Some((v, rest))
  {
    hide WellTyped, Encodable, Body, DecodeBody;
    match v
    case Row(columns) => RowReads(columns, rest);
    case Vector(elems) => VectorReads(elems, rest);
    case Bytes(_) => DataValueReads(v, rest);
    case Meta(_) => DataValueReads(v, rest);
    case Int(_) => FixedReads(v, rest);
    case Float(_) => FixedReads(v, rest);
    case Tombstone => FixedReads(v, rest);
  }

  /** Decoding an encoded value gives it back and stops exactly where it ends. */
  lemma ValueReads(v: Value, rest: bytes)
    requires WellTyped(v) && Encodable(v)
    ensures DecodeFrom(Encode(v) + rest) == Some((v, rest))
  {
    hide WellTyped, Encodable, Body, DecodeBody, Tag;
    BodyReads(v, rest);
    assert (Encode(v) + rest)[1..] == Body(v) + rest;
  }

  // ---- what can be decoded at all

  lemma {:induction false} ElemsFit(s: bytes, n: nat, elems: seq<nat>)
    requires GetElems(s, n, elems).Some? && forall i :: 0 <= i < |elems| ==> elems[i] < TWO_32
    ensures var r := GetElems(s, n, elems).value.0;
      |r| == |elems| + n && forall i :: 0 <= i < |r| ==> r[i] < TWO_32
    decreases n
  {
    hide GetU32;
    if n > 0 {
      U32Fits(s);
      ElemsFit(GetU32(s).value.1, n - 1, elems + [GetU32(s).value.0]);
    }
  }

  ghost predicate ColumnsFine(columns: map<bytes, bytes>) {
    forall k :: k in columns ==> Utf8(k) && |k| < TWO_32 && |columns[k]| < TWO_32
  }

  lemma ColumnFits(s: bytes)
    requires GetColumn(s).Some?
    ensures var (k, v, _) := GetColumn(s).value; Utf8(k) && |k| < TWO_32 && |v| < TWO_32
  {
    hide GetBytes, Utf8;
    BytesFit(s);
    BytesFit(GetBytes(s).value.1);
  }

  lemma {:induction false} ColumnsFit(s: bytes, n: nat, columns: map<bytes, bytes>)
    requires GetColumns(s, n, columns).Some? && ColumnsFine(columns)
    ensures var r := GetColumns(s, n, columns).value.0; ColumnsFine(r) && |r| <= |columns| + n
    decreases n
  {
    hide GetColumn, Utf8;
    if n > 0 {
      ColumnFits(s);
      var (k, v, rest) := GetColumn(s).value;
      assert |columns[k := v]| <= |columns| + 1 by {
        assert columns[k := v].Keys == columns.Keys + {k};
      }
      ColumnsFit(rest, n - 1, columns[k := v]);
    }
  }

  /** Nothing but well-typed values with 32-bit lengths ever comes out. */
  lemma DecodedIsEncodable(s: bytes)
    requires Decode(s).Some?
    ensures WellTyped(Decode(s).value) && Encodable(Decode(s).value)
  {
    hide GetU32, GetU64, GetBytes, GetElems, GetColumns, Utf8;
    var tag, body := s[0], s[1..];
    if tag == T_BYTES || tag == T_META {
      BytesFit(body);
    } else if tag == T_INT || tag == T_FLOAT {
      U64Fits(body);
    } else if tag == T_VECTOR {
      U32Fits(body);
      ElemsFit(GetU32(body).value.1, GetU32(body).value.0, []);
    } else if tag == T_ROW {
      U32Fits(body);
      ColumnsFit(GetU32(body).value.1, GetU32(body).value.0, map[]);
    }
  }

  /** The round trip, exactly: whatever bytes follow, a value comes back if and only if its lengths fit 32 bits. */
  lemma RoundTrip(v: Value, rest: bytes)
    requires WellTyped(v)
    ensures Decode(Encode(v) + rest) == Some(v) <==> Encodable(v)
  {
    hide WellTyped, Encodable, Encode, DecodeFrom;
    if Encodable(v) {
      ValueReads(v, rest);
    } else if Decode(Encode(v) + rest) == Some(v) {
      DecodedIsEncodable(Encode(v) + rest);
    }
  }

  // ---- prefixes

  lemma {:induction false} ElemsMore(s: bytes, n: nat, elems: seq<nat>, more: bytes)
    requires GetElems(s, n, elems).Some?
    ensures var (r, rest) := GetElems(s, n, elems).value; GetElems(s + more, n, elems) == Some((r, rest + more))
    decreases n
  {
    hide GetU32;
    if n > 0 {
      U32More(s, more);
      ElemsMore(GetU32(s).value.1, n - 1, elems + [GetU32(s).value.0], more);
    }
  }

  lemma ColumnMore(s: bytes, more: bytes)
    requires GetColumn(s).Some?
    ensures var (k, v, rest) := GetColumn(s).value; GetColumn(s + more) == Some((k, v, rest + more))
  {
    hide GetBytes, Utf8;
    BytesMore(s, more);
    BytesMore(GetBytes(s).value.1, more);
  }

  lemma {:induction false} ColumnsMore(s: bytes, n: nat, columns: map<bytes, bytes>, more: bytes)
    requires GetColumns(s, n, columns).Some?
    ensures var (r, rest) := GetColumns(s, n, columns).value;
      GetColumns(s + more, n, columns) == Some((r, rest + more))
    decreases n
  {
    hide GetColumn;
    if n > 0 {
      ColumnMore(s, more);
      var (k, v, rest) := GetColumn(s).value;
      ColumnsMore(rest, n - 1, columns[k := v], more);
    }
  }

  /** A successful decode is not changed by more input. */
  lemma DecodeMore(s: bytes, more: bytes)
    requires DecodeFrom(s).Some?
    ensures var (v, rest) := DecodeFrom(s).value; DecodeFrom(s + more) == Some((v, rest + more))
  {
    hide GetU32, GetU64, GetBytes, GetElems, GetColumns, Utf8, ToI64;
    var tag, body := s[0], s[1..];
    assert (s + more)[0] == tag && (s + more)[1..] == body + more;
    if tag == T_BYTES || tag == T_META {
      BytesMore(body, more);
    } else if tag == T_INT || tag == T_FLOAT {
      U64More(body, more);
    } else if tag == T_VECTOR {
      U32More(body, more);
      ElemsMore(GetU32(body).value.1, GetU32(body).value.0, [], more);
    } else if tag == T_ROW {
      U32More(body, more);
      ColumnsMore(GetU32(body).value.1, GetU32(body).value.0, map[], more);
    }
  }

  /** A truncated value is never taken for a value. */
  lemma PrefixRejected(v: Value, n: nat)
    requires WellTyped(v) && Encodable(v) && n < |Encode(v)|
    ensures Decode(Encode(v)[..n]) == None
  {
    hide WellTyped, Encodable, Encode, DecodeFrom;
    var e := Encode(v);
    ValueReads(v, []);
    assert e + [] == e;
    assert e[..n] + e[n..] == e && |e[n..]| > 0;
    if DecodeFrom(e[..n]).Some? {
      DecodeMore(e[..n], e[n..]);
    }
  }

  /** No encoding is the beginning of another one's. */
  lemma PrefixFree(v: Value, w: Value)
    requires WellTyped(v) && Encodable(v) && WellTyped(w) && Encodable(w) && Encode(v) <= Encode(w)
    ensures v == w
  {
    hide WellTyped, Encodable, Encode, DecodeFrom;
    var e, f := Encode(v), Encode(w);
    assert f == e + f[|e|..] && f + [] == f;
    ValueReads(v, f[|e|..]);
    ValueReads(w, []);
  }

  // ------------------------------------------------------------ the layout on disk

  /** Eight bytes that are all ones but for the low one. */
  lemma OnesAbove(low: byte)
    ensures PutU64(TWO_64 - 256 + low) == [low, 255, 255, 255, 255, 255, 255, 255]
  {
    assert Le(0, 0) == [];
    assert Le(255, 1) == [255] + Le(0, 0);
    assert Le(0xFFFF, 2) == [255] + Le(255, 1);
    assert Le(0xFF_FFFF, 3) == [255] + Le(0xFFFF, 2);
    assert Le(0xFFFF_FFFF, 4) == [255] + Le(0xFF_FFFF, 3);
    assert Le(0xFF_FFFF_FFFF, 5) == [255] + Le(0xFFFF_FFFF, 4);
    assert Le(0xFFFF_FFFF_FFFF, 6) == [255] + Le(0xFF_FFFF_FFFF, 5);
    assert Le(0xFF_FFFF_FFFF_FFFF, 7) == [255] + Le(0xFFFF_FFFF_FFFF, 6);
    assert Le(TWO_64 - 256 + low, 8) == [low] + Le(0xFF_FFFF_FFFF_FFFF, 7);
  }

  /** What is stored, byte by byte: the tag, lengths low byte first, the contents. */
  lemma KnownStrings()
    ensures Encode(Bytes([9, 8])) == [1, 2, 0, 0, 0, 9, 8]
    ensures Encode(Tombstone) == [5]
    ensures Encode(Meta([7])) == [7, 1, 0, 0, 0, 7]
  {
    FourBytes(1);
    FourBytes(2);
    hide PutLen;
  }

  /** Minus two in two's complement, and a number by its bits. */
  lemma KnownNumbers()
    ensures Encode(Int(-2)) == [2, 254, 255, 255, 255, 255, 255, 255, 255]
    ensures Encode(Float(TWO_64 - 255)) == [6, 1, 255, 255, 255, 255, 255, 255, 255]
  {
    OnesAbove(254);
    OnesAbove(1);
    hide PutU64;
    assert (-2) % TWO_64 == TWO_64 - 2;
  }

  lemma KnownVector()
    ensures Encode(Vector([258, 3])) == [3, 2, 0, 0, 0, 2, 1, 0, 0, 3, 0, 0, 0]
  {
    FourBytes(2);
    FourBytes(3);
    FourBytes(258);
    hide PutU32, PutLen;
    assert PutElems([3]) == PutU32(3) + PutElems([]);
    assert PutElems([258, 3]) == PutU32(258) + PutElems([3]);
  }

  lemma OrderOfTwo(keys: set<bytes>)
    requires keys == {[98], [97, 97]}
    ensures InOrder(keys) == [[97, 97], [98]]
  {
    var order: seq<bytes> := [[97, 97], [98]];
    assert Less([97, 97], [98]);
    hide Less, InOrder;
    assert order[0] in order && order[1] in order;
    assert Ordering(order, keys);
    hide Ordering;
    OrderingUnique(order, InOrder(keys), keys);
  }

  lemma KnownColumns(columns: map<bytes, bytes>)
    requires [98] in columns && columns[[98]] == [1] && [97, 97] in columns && columns[[97, 97]] == []
    ensures forall n :: n in [[97, 97], [98]] ==> n in columns
    ensures PutColumns([[97, 97], [98]], columns) ==
      [2, 0, 0, 0, 97, 97, 0, 0, 0, 0] + [1, 0, 0, 0, 98, 1, 0, 0, 0, 1]
  {
    FourBytes(0);
    FourBytes(1);
    FourBytes(2);
    hide PutLen;
    assert PutColumn([97, 97], []) == [2, 0, 0, 0, 97, 97, 0, 0, 0, 0];
    assert PutColumn([98], [1]) == [1, 0, 0, 0, 98, 1, 0, 0, 0, 1];
    hide PutColumn;
    var order: seq<bytes> := [[97, 97], [98]];
    assert order[1..] == [[98]];
    assert PutColumns([[98]], columns) == PutColumn([98], [1]) + PutColumns([], columns);
  }

  /** The columns of a row follow their number in byte order of their names, each as name and contents. */
  lemma KnownRow(columns: map<bytes, bytes>)
    requires columns == map[[98] := [1], [97, 97] := []]
    ensures Encode(Row(columns)) ==
      [4] + ([2, 0, 0, 0] + ([2, 0, 0, 0, 97, 97, 0, 0, 0, 0] + [1, 0, 0, 0, 98, 1, 0, 0, 0, 1]))
  {
    TwoColumns(columns);
    FourBytes(2);
    hide InOrder, Ordering, PutLen, PutColumns, PutU32;
    OrderOfTwo(columns.Keys);
    KnownColumns(columns);
  }

  lemma TwoColumns(columns: map<bytes, bytes>)
    requires columns == map[[98] := [1], [97, 97] := []]
    ensures columns.Keys == {[98], [97, 97]} && |columns| == 2
  {
    assert columns.Keys == {[98], [97, 97]};
    assert |columns| == |columns.Keys|;
  }
}
