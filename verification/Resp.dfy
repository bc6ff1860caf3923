/**
 * The wire protocol: incremental parsing of one client command from the bytes
 * received so far. A command is an array of bulk strings, or an inline line of
 * words.
 */
module Resp {
  import opened Base

  const LF: byte := 10
  const CR: byte := 13
  const SPACE: byte := 32
  const DOLLAR: byte := 36
  const ASTERISK: byte := 42
  const PLUS: byte := 43
  const MINUS: byte := 45
  const ZERO: byte := 48

  const MAX_LINE: nat := 64 * 1024
  const MAX_ARGS: nat := 1024 * 1024
  const MAX_BULK_LEN: nat := 512 * 1024 * 1024
  const MAX_I64: int := 0x7FFF_FFFF_FFFF_FFFF

  datatype Error =
    | TooBigLine
    | BadArrayHeader
    | InvalidMultibulkLength
    | ExpectedBulk
    | BadBulkLen
    | InvalidBulkLength
    | NotTerminated

  type Args = seq<bytes>

  /** More bytes needed; a command and the bytes it used; or a protocol error. */
  datatype Frame = Incomplete | Command(args: Args, used: nat) | Malformed(error: Error)

  // -------------------------------------------------------------------- lines

  /** The first line feed at or after `from`. */
  function Newline(buf: bytes, from: nat): (r: Option<nat>)
    requires from <= |buf|
    ensures r.Some? ==> from <= r.value < |buf| && buf[r.value] == LF
    ensures r.Some? ==> forall i :: from <= i < r.value ==> buf[i] != LF
    ensures r.None? ==> forall i :: from <= i < |buf| ==> buf[i] != LF
    decreases |buf| - from
  {
    if from == |buf| then None
    else if buf[from] == LF then Some(from)
    else Newline(buf, from + 1)
  }

  /** The end of the line starting at `from`; an endless line is an error. */
  function LineEnd(buf: bytes, from: nat): (r: Result<Option<nat>, Error>)
    requires from <= |buf|
    ensures r.Ok? ==> r.value == Newline(buf, from)
  {
    match Newline(buf, from)
    case Some(i) => Ok(Some(i))
    case None => if |buf| - from > MAX_LINE then Err(TooBigLine) else Ok(None)
  }

  method FindLineEnd(buf: bytes, from: nat) returns (r: Result<Option<nat>, Error>)
    requires from <= |buf|
    ensures r == LineEnd(buf, from)
  {
    var i := from;
    while i < |buf| && buf[i] != LF
      invariant from <= i <= |buf|
      invariant Newline(buf, from) == Newline(buf, i)
    {
      i := i + 1;
    }
    if i < |buf| {
      return Ok(Some(i));
    }
    if |buf| - from > MAX_LINE {
      return Err(TooBigLine);
    }
    return Ok(None);
  }

  // ------------------------------------------------------------------ numbers

  /** The width of the white-space character (UTF-8) that `s` starts with; 0 if none. */
  function BlankAtStart(s: bytes): (w: nat)
    ensures w <= |s|
  {
    if |s| >= 1 && (9 <= s[0] <= 13 || s[0] == SPACE) then 1
    else if |s| >= 2 && s[0] == 0xC2 && (s[1] == 0x85 || s[1] == 0xA0) then 2
    else if |s| >= 3 && WideBlank(s[0], s[1], s[2]) then 3
    else 0
  }

  function BlankAtEnd(s: bytes): (w: nat)
    ensures w <= |s|
  {
    var n := |s|;
    if n >= 1 && (9 <= s[n - 1] <= 13 || s[n - 1] == SPACE) then 1
    else if n >= 2 && s[n - 2] == 0xC2 && (s[n - 1] == 0x85 || s[n - 1] == 0xA0) then 2
    else if n >= 3 && WideBlank(s[n - 3], s[n - 2], s[n - 1]) then 3
    else 0
  }

  predicate WideBlank(a: byte, b: byte, c: byte) {
    || (a == 0xE1 && b == 0x9A && c == 0x80)
    || (a == 0xE2 && b == 0x80 && (0x80 <= c <= 0x8A || c == 0xA8 || c == 0xA9 || c == 0xAF))
    || (a == 0xE2 && b == 0x81 && c == 0x9F)
    || (a == 0xE3 && b == 0x80 && c == 0x80)
  }

  function TrimStart(s: bytes): bytes
    decreases |s|
  {
    if BlankAtStart(s) == 0 then s else TrimStart(s[BlankAtStart(s)..])
  }

  function TrimEnd(s: bytes): bytes
    decreases |s|
  {
    if BlankAtEnd(s) == 0 then s else TrimEnd(s[..|s| - BlankAtEnd(s)])
  }

  predicate IsDigit(b: byte) { ZERO <= b <= ZERO + 9 }

  predicate AllDigits(s: bytes) { forall i :: 0 <= i < |s| ==> IsDigit(s[i]) }

  function DigitsValue(s: bytes): nat
    requires AllDigits(s)
  {
    if s == [] then 0 else DigitsValue(s[..|s| - 1]) * 10 + (s[|s| - 1] - ZERO)
  }

  /** A decimal i64 with optional sign; None if it is not one or does not fit. */
  function ParseI64(s: bytes): Option<int> {
    var negative := s != [] && s[0] == MINUS;
    var digits := if s != [] && (s[0] == MINUS || s[0] == PLUS) then s[1..] else s;
    if digits == [] || !AllDigits(digits) then None
    else
      var n: int := DigitsValue(digits);
      var v := if negative then -n else n;
      if -MAX_I64 - 1 <= v <= MAX_I64 then Some(v) else None
  }

  function WithoutCr(line: bytes): bytes {
    if line != [] && line[|line| - 1] == CR then line[..|line| - 1] else line
  }

  /** A count or length header after its prefix byte; -1 is the null form. */
  function ParseLen(header: bytes, what: Error): Result<Option<nat>, Error> {
    match ParseI64(TrimEnd(TrimStart(WithoutCr(header))))
    case None => Err(what)
    case Some(n) => if n == -1 then Ok(None) else if n < 0 then Err(what) else Ok(Some(n))
  }

  // ------------------------------------------------------------------- frames

  /** One `$len CRLF data CRLF` item. */
  datatype Bulk = Short | Item(data: bytes, next: nat) | Bad(error: Error)

  function BulkAt(buf: bytes, pos: nat): (r: Bulk)
    requires pos <= |buf|
    ensures r.Item? ==> pos < r.next <= |buf|
  {
    if pos >= |buf| then Short
    else if buf[pos] != DOLLAR then Bad(ExpectedBulk)
    else match LineEnd(buf, pos)
      case Err(e) => Bad(e)
      case Ok(None) => Short
      case Ok(Some(nl)) =>
        match ParseLen(buf[pos + 1..nl], BadBulkLen)
        case Err(e) => Bad(e)
        case Ok(None) => Bad(InvalidBulkLength)
        case Ok(Some(len)) =>
          if len > MAX_BULK_LEN then Bad(InvalidBulkLength)
          else
            var start := nl + 1;
            var end := start + len + 2;
            if end > |buf| then Short
            else if buf[start + len..end] != [CR, LF] then Bad(NotTerminated)
            else Item(buf[start..start + len], end)
  }

  function ParseArgs(buf: bytes, pos: nat, count: nat, args: Args): (r: Frame)
    requires pos <= |buf|
    ensures r.Command? ==> pos <= r.used <= |buf| && |r.args| == |args| + count
    decreases count
  {
    if count == 0 then Command(args, pos)
    else match BulkAt(buf, pos)
      case Short => Incomplete
      case Bad(e) => Malformed(e)
      case Item(data, next) => ParseArgs(buf, next, count - 1, args + [data])
  }

  /** Maximal runs of non-space bytes. */
  function Words(line: bytes, word: bytes): (r: Args)
    decreases |line|
  {
    if line == [] then (if word == [] then [] else [word])
    else if line[0] == SPACE then (if word == [] then [] else [word]) + Words(line[1..], [])
    else Words(line[1..], word + [line[0]])
  }

  /** The command at the start of `buf`. */
  function ParseFrame(buf: bytes): (r: Frame)
    ensures r.Command? ==> 0 < r.used <= |buf|
  {
    if buf == [] then Incomplete
    else match LineEnd(buf, 0)
      case Err(e) => Malformed(e)
      case Ok(None) => Incomplete
      case Ok(Some(nl)) =>
        if buf[0] != ASTERISK then Command(Words(WithoutCr(buf[..nl]), []), nl + 1)
        else match ParseLen(buf[1..nl], BadArrayHeader)
          case Err(e) => Malformed(e)
          case Ok(None) => Command([], nl + 1)
          case Ok(Some(count)) =>
            if count > MAX_ARGS then Malformed(InvalidMultibulkLength)
            else ParseArgs(buf, nl + 1, count, [])
  }

  method SplitWords(line: bytes) returns (words: Args)
    ensures words == Words(line, [])
  {
    words := [];
    var word: bytes := [];
    var i := 0;
    assert line[0..] == line;
    while i < |line|
      invariant 0 <= i <= |line|
      invariant words + Words(line[i..], word) == Words(line, [])
    {
      assert line[i..][1..] == line[i + 1..] && line[i..][0] == line[i];
      if line[i] == SPACE {
        assert words + ((if word == [] then [] else [word]) + Words(line[i + 1..], []))
            == (words + if word == [] then [] else [word]) + Words(line[i + 1..], []);
        if word != [] {
          words := words + [word];
        }
        word := [];
      } else {
        word := word + [line[i]];
      }
      i := i + 1;
    }
    if word != [] {
      words := words + [word];
    }
  }

  /** Read one bulk item: header line, bounds, data, terminator. */
  method ReadBulk(buf: bytes, pos: nat) returns (r: Bulk)
    requires pos <= |buf|
    ensures r == BulkAt(buf, pos)
  {
    if pos >= |buf| {
      return Short;
    }
    if buf[pos] != DOLLAR {
      return Bad(ExpectedBulk);
    }
    var line := FindLineEnd(buf, pos);
    if line.Err? {
      return Bad(line.error);
    }
    if line.value.None? {
      return Short;
    }
    var nl := line.value.value;
    var header := ParseLen(buf[pos + 1..nl], BadBulkLen);
    if header.Err? {
      return Bad(header.error);
    }
    if header.value.None? || header.value.value > MAX_BULK_LEN {
      return Bad(InvalidBulkLength);
    }
    var len := header.value.value;
    var start := nl + 1;
    var end := start + len + 2;
    if end > |buf| {
      return Short;
    }
    if buf[start + len..end] != [CR, LF] {
      return Bad(NotTerminated);
    }
    return Item(buf[start..start + len], end);
  }

  /** Parse one command without blocking. */
  method TryParse(buf: bytes) returns (r: Frame)
    ensures r == ParseFrame(buf)
  {
    hide ParseLen, Words, WithoutCr, ParseArgs;
    if buf == [] {
      return Incomplete;
    }
    var line := FindLineEnd(buf, 0);
    if line.Err? {
      return Malformed(line.error);
    }
    if line.value.None? {
      return Incomplete;
    }
    var nl := line.value.value;
    if buf[0] != ASTERISK {
      var words := SplitWords(WithoutCr(buf[..nl]));
      return Command(words, nl + 1);
    }
    var header := ParseLen(buf[1..nl], BadArrayHeader);
    if header.Err? {
      return Malformed(header.error);
    }
    var pos: nat := nl + 1;
    if header.value.None? {
      return Command([], pos);
    }
    var count := header.value.value;
    if count > MAX_ARGS {
      return Malformed(InvalidMultibulkLength);
    }
    r := ReadArgs(buf, pos, count);
  }

  /** Read `count` bulk items. */
  method ReadArgs(buf: bytes, start: nat, count: nat) returns (r: Frame)
    requires start <= |buf|
    ensures r == ParseArgs(buf, start, count, [])
  {
    hide BulkAt;
    var args: Args := [];
    var pos: nat := start;
    for i := 0 to count
      invariant pos <= |buf|
      invariant ParseArgs(buf, pos, count - i, args) == ParseArgs(buf, start, count, [])
    {
      var bulk := ReadBulk(buf, pos);
      match bulk {
        case Short =>
          return Incomplete;
        case Bad(e) =>
          return Malformed(e);
        case Item(data, next) =>
          args := args + [data];
          pos := next;
      }
    }
    return Command(args, pos);
  }
}
