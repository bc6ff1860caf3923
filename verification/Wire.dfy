/**
 * The command frames a client sends, and the two parsers that read them: the
 * incremental one over a buffer and the blocking one over a stream.
 */
module Wire {
  import opened Base
  import opened Resp
  import opened Chunks

  // ------------------------------------------------------------------ encoding

  /** A number in decimal, without leading zeros. */
  function Decimal(n: nat): (d: bytes)
    ensures d != []
  {
    if n < 10 then [ZERO + n] else Decimal(n / 10) + [ZERO + n % 10]
  }

  const CRLF: bytes := [CR, LF]

  function Header(tag: byte, n: nat): bytes {
    [tag] + Decimal(n) + CRLF
  }

  function EncodeItem(data: bytes): bytes {
    Header(DOLLAR, |data|) + data + CRLF
  }

  function EncodeItems(args: Args): bytes {
    if args == [] then [] else EncodeItem(args[0]) + EncodeItems(args[1..])
  }

  /** The frame of a command: an array header and one bulk string per argument. */
  function EncodeCommand(args: Args): bytes {
    Header(ASTERISK, |args|) + EncodeItems(args)
  }

  lemma {:induction false} EncodeItemsAppend(a: Args, b: Args)
    ensures EncodeItems(a + b) == EncodeItems(a) + EncodeItems(b)
    decreases |a|
  {
    if a == [] {
      assert a + b == b;
    } else {
      assert (a + b)[1..] == a[1..] + b;
      EncodeItemsAppend(a[1..], b);
    }
  }

  /** The client's side: build the frame in one buffer. */
  method BuildFrame(args: Args) returns (out: bytes)
    ensures out == EncodeCommand(args)
  {
    hide Header, Decimal;
    out := Header(ASTERISK, |args|);
    var i := 0;
    while i < |args|
      invariant 0 <= i <= |args|
      invariant out == Header(ASTERISK, |args|) + EncodeItems(args[..i])
    {
      assert args[..i + 1] == args[..i] + [args[i]];
      EncodeItemsAppend(args[..i], [args[i]]);
      EncodeOne(args[i]);
      ghost var before := EncodeItems(args[..i]);
      out := out + Header(DOLLAR, |args[i]|);
      out := out + args[i];
      out := out + CRLF;
      assert out == Header(ASTERISK, |args|) + (before + EncodeItem(args[i]));
      i := i + 1;
    }
    assert args[..|args|] == args;
  }

  lemma EncodeOne(data: bytes)
    ensures EncodeItems([data]) == EncodeItem(data)
  {
    assert EncodeItems([data]) == EncodeItem(data) + EncodeItems([]);
  }

  // --------------------------------------------------------- numbers read back

  lemma {:induction false} DecimalDigits(n: nat)
    ensures AllDigits(Decimal(n)) && DigitsValue(Decimal(n)) == n
  {
    if n >= 10 {
      DecimalDigits(n / 10);
      assert Decimal(n)[..|Decimal(n)| - 1] == Decimal(n / 10);
    } else {
      assert Decimal(n)[..0] == [];
    }
  }

  lemma {:induction false} DecimalShort(n: nat, k: nat)
    requires n < Pow10(k) && k > 0
    ensures |Decimal(n)| <= k
  {
    if n >= 10 {
      assert k > 1;
      DecimalShort(n / 10, k - 1);
    }
  }

  function Pow10(k: nat): nat {
    if k == 0 then 1 else 10 * Pow10(k - 1)
  }

  lemma NoBlanksInDigits(s: bytes)
    requires AllDigits(s)
    ensures TrimEnd(TrimStart(s)) == s
  {
  }

  lemma ParseDecimal(n: nat, what: Error)
    ensures ParseLen(Decimal(n) + [CR], what) == if n <= MAX_I64 then Ok(Some(n)) else Err(what)
  {
    DecimalDigits(n);
    assert WithoutCr(Decimal(n) + [CR]) == Decimal(n);
    NoBlanksInDigits(Decimal(n));
  }

  lemma Slice(a: bytes, b: bytes, c: bytes)
    ensures (a + b + c)[|a|..|a| + |b|] == b
    ensures (a + b + c)[|a| + |b|..] == c
    ensures a + b + c == a + (b + c)
  {
  }

  lemma NewlineIs(buf: bytes, from: nat, nl: nat)
    requires from <= nl < |buf| && buf[nl] == LF && forall i :: from <= i < nl ==> buf[i] != LF
    ensures Newline(buf, from) == Some(nl)
  {
  }

  /** A header line ends right after its CR LF. */
  lemma HeaderLine(pre: bytes, tag: byte, n: nat, post: bytes)
    requires tag != LF
    ensures var buf, nl := pre + Header(tag, n) + post, |pre| + |Decimal(n)| + 2;
      && nl + 1 == |pre| + |Header(tag, n)| <= |buf|
      && Newline(buf, |pre|) == Some(nl) && buf[|pre|] == tag && buf[|pre| + 1..nl] == Decimal(n) + [CR]
  {
    var d := Decimal(n);
    DecimalDigits(n);
    hide Decimal, DigitsValue, Newline;
    var h := Header(tag, n);
    var buf := pre + h + post;
    var nl := |pre| + |d| + 2;
    Slice(pre, h, post);
    var mid := buf[|pre|..|pre| + |h|];
    assert h == [tag] + d + [CR] + [LF];
    assert mid[1..|d| + 2] == d + [CR];
    assert buf[|pre| + 1..nl] == mid[1..|d| + 2];
    assert buf[nl] == mid[|d| + 2];
    forall i | |pre| <= i < nl ensures buf[i] != LF {
      assert buf[i] == mid[i - |pre|];
      assert i > |pre| ==> buf[i] == (d + [CR])[i - |pre| - 1];
    }
    NewlineIs(buf, |pre|, nl);
  }

  // ------------------------------------------------------ frames parsed back

  lemma ItemParses(pre: bytes, data: bytes, post: bytes)
    ensures var buf := pre + EncodeItem(data) + post;
      && (|data| <= MAX_BULK_LEN ==>
            BulkAt(buf, |pre|) == Item(data, |pre| + |EncodeItem(data)|) && LineFits(buf, |pre|))
      && (|data| > MAX_BULK_LEN ==> BulkAt(buf, |pre|).Bad?)
  {
    hide Decimal, ParseLen, Newline, Header;
    var h := Header(DOLLAR, |data|);
    var tail := data + CRLF + post;
    var buf := pre + EncodeItem(data) + post;
    assert buf == pre + h + tail;
    HeaderLine(pre, DOLLAR, |data|, tail);
    ParseDecimal(|data|, BadBulkLen);
    var start := |pre| + |h|;
    assert buf == (pre + h) + data + (CRLF + post);
    Slice(pre + h, data, CRLF + post);
    assert buf == (pre + h + data) + CRLF + post;
    Slice(pre + h + data, CRLF, post);
    if |data| <= MAX_BULK_LEN {
      DecimalShort(|data|, 9);
    }
  }

  predicate ItemsFit(args: Args) {
    forall i :: 0 <= i < |args| ==> |args[i]| <= MAX_BULK_LEN
  }

  /** What the server accepts from a client. */
  predicate Sendable(args: Args) {
    |args| <= MAX_ARGS && ItemsFit(args)
  }

  lemma {:induction false} ItemsParse(pre: bytes, args: Args, post: bytes, acc: Args)
    ensures var buf := pre + EncodeItems(args) + post;
      && (ItemsFit(args) ==>
            ParseArgs(buf, |pre|, |args|, acc) == Command(acc + args, |pre| + |EncodeItems(args)|)
            && ArgsFit(buf, |pre|, |args|))
      && (!ItemsFit(args) ==> ParseArgs(buf, |pre|, |args|, acc).Malformed?)
    decreases |args|
  {
    hide EncodeItem, BulkAt, LineFits;
    if args == [] {
      assert acc + args == acc;
    } else {
      var e, rest := EncodeItem(args[0]), EncodeItems(args[1..]);
      var buf := pre + EncodeItems(args) + post;
      assert buf == pre + e + (rest + post);
      ItemParses(pre, args[0], rest + post);
      assert buf == (pre + e) + rest + post;
      ItemsParse(pre + e, args[1..], post, acc + [args[0]]);
      assert acc + args == (acc + [args[0]]) + args[1..];
      assert ItemsFit(args) <==> |args[0]| <= MAX_BULK_LEN && ItemsFit(args[1..]);
      if |args[0]| <= MAX_BULK_LEN {
        BadHasDollar(buf, |pre|);
      }
    }
  }

  lemma HeaderParses(tag: byte, n: nat, post: bytes)
    requires tag != LF
    ensures var buf, nl := Header(tag, n) + post, |Decimal(n)| + 2;
      && nl + 1 == |Header(tag, n)| && Newline(buf, 0) == Some(nl) && buf[0] == tag
      && ParseLen(buf[1..nl], BadArrayHeader) == if n <= MAX_I64 then Ok(Some(n)) else Err(BadArrayHeader)
  {
    hide Decimal, ParseLen, Newline, Header;
    assert [] + Header(tag, n) + post == Header(tag, n) + post;
    HeaderLine([], tag, n, post);
    ParseDecimal(n, BadArrayHeader);
  }

  /**
   * The incremental parser recovers exactly the arguments and the length of a
   * client's frame, whatever follows it, if and only if the frame respects the
   * server's limits.
   */
  lemma FrameRoundTrip(args: Args, post: bytes)
    ensures ParseFrame(EncodeCommand(args) + post) == Command(args, |EncodeCommand(args)|) <==> Sendable(args)
    ensures Sendable(args) ==> FrameFits(EncodeCommand(args) + post)
  {
    hide EncodeItems, ParseArgs, ParseLen, Decimal, Header, ArgsFit, ItemsFit;
    var h := Header(ASTERISK, |args|);
    var tail := EncodeItems(args) + post;
    var buf := EncodeCommand(args) + post;
    assert buf == h + tail;
    HeaderParses(ASTERISK, |args|, tail);
    assert buf == h + EncodeItems(args) + post;
    ItemsParse(h, args, post, []);
    assert [] + args == args;
    if |args| <= MAX_ARGS {
      DecimalShort(|args|, 7);
    }
  }

  /** Until its last byte has arrived, a frame parses as incomplete. */
  lemma FramePrefixIncomplete(args: Args, n: nat)
    requires Sendable(args) && n < |EncodeCommand(args)|
    ensures ParseFrame(EncodeCommand(args)[..n]) == Incomplete
  {
    hide EncodeCommand, FrameFits, Sendable;
    var e := EncodeCommand(args);
    assert e + [] == e;
    FrameRoundTrip(args, []);
    FrameOfPrefix(e, n);
    FrameBounds(e[..n]);
    hide ParseFrame;
  }

  // ------------------------------------------------- the blocking reader

  datatype ReadError = Protocol(error: Error) | EndOfStream

  /** The line at the start of the stream with its terminator, or all of the stream if it has none. */
  function TakeLine(s: bytes): (r: (bytes, bytes))
    ensures r.0 + r.1 == s
  {
    match Newline(s, 0)
    case Some(i) => (s[..i + 1], s[i + 1..])
    case None => (s, [])
  }

  function Chomp(line: bytes): bytes {
    if line != [] && (line[|line| - 1] == LF || line[|line| - 1] == CR) then Chomp(line[..|line| - 1]) else line
  }

  function ReadItems(s: bytes, count: nat, args: Args): Result<(Args, bytes), ReadError>
    decreases count
  {
    if count == 0 then Ok((args, s))
    else
      var (line, rest) := TakeLine(s);
      var h := Chomp(line);
      if h == [] || h[0] != DOLLAR then Err(Protocol(ExpectedBulk))
      else match ParseLen(h[1..], BadBulkLen)
        case Err(e) => Err(Protocol(e))
        case Ok(None) => Err(Protocol(InvalidBulkLength))
        case Ok(Some(len)) =>
          if len > MAX_BULK_LEN then Err(Protocol(InvalidBulkLength))
          else if |rest| < len + 2 then Err(EndOfStream)
          else ReadItems(rest[len + 2..], count - 1, args + [rest[..len]])
  }

  /** One command from a stream; None when the stream has ended. */
  function ReadCommand(s: bytes): Result<(Option<Args>, bytes), ReadError> {
    if s == [] then Ok((None, []))
    else
      var (line, rest) := TakeLine(s);
      var first := Chomp(line);
      if first == [] then Ok((Some([]), rest))
      else if first[0] != ASTERISK then Ok((Some(Words(first, [])), rest))
      else match ParseLen(first[1..], BadArrayHeader)
        case Err(e) => Err(Protocol(e))
        case Ok(None) => Ok((Some([]), rest))
        case Ok(Some(count)) =>
          if count > MAX_ARGS then Err(Protocol(InvalidMultibulkLength))
          else match ReadItems(rest, count, [])
            case Err(e) => Err(e)
            case Ok((args, rest')) => Ok((Some(args), rest'))
  }

  method ReadLine(s: bytes) returns (line: bytes, rest: bytes)
    ensures (Chomp(TakeLine(s).0), TakeLine(s).1) == (line, rest)
  {
    var nl := Newline(s, 0);
    line, rest := if nl.Some? then s[..nl.value + 1] else s, if nl.Some? then s[nl.value + 1..] else [];
    while line != [] && (line[|line| - 1] == LF || line[|line| - 1] == CR)
      invariant Chomp(line) == Chomp(TakeLine(s).0)
      decreases |line|
    {
      line := line[..|line| - 1];
    }
  }

  /** Read one command, blocking for more input as needed: `s` is all the stream will deliver. */
  method ReadCommandBlocking(s: bytes) returns (r: Result<(Option<Args>, bytes), ReadError>)
    ensures r == ReadCommand(s)
  {
    if s == [] {
      return Ok((None, []));
    }
    var first, rest := ReadLine(s);
    if first == [] {
      return Ok((Some([]), rest));
    }
    if first[0] != ASTERISK {
      var words := SplitWords(first);
      return Ok((Some(words), rest));
    }
    var header := ParseLen(first[1..], BadArrayHeader);
    if header.Err? {
      return Err(Protocol(header.error));
    }
    if header.value.None? {
      return Ok((Some([]), rest));
    }
    if header.value.value > MAX_ARGS {
      return Err(Protocol(InvalidMultibulkLength));
    }
    var items := ReadItemsBlocking(rest, header.value.value);
    match items {
      case Err(e) => return Err(e);
      case Ok((args, rest')) => return Ok((Some(args), rest'));
    }
  }

  method ReadItemsBlocking(s: bytes, count: nat) returns (r: Result<(Args, bytes), ReadError>)
    ensures r == ReadItems(s, count, [])
  {
    hide ParseLen, Chomp, TakeLine;
    var args: Args := [];
    var rest := s;
    for i := 0 to count
      invariant ReadItems(rest, count - i, args) == ReadItems(s, count, [])
    {
      var h, after := ReadLine(rest);
      if h == [] || h[0] != DOLLAR {
        return Err(Protocol(ExpectedBulk));
      }
      var header := ParseLen(h[1..], BadBulkLen);
      if header.Err? {
        return Err(Protocol(header.error));
      }
      if header.value.None? || header.value.value > MAX_BULK_LEN {
        return Err(Protocol(InvalidBulkLength));
      }
      var len := header.value.value;
      if |after| < len + 2 {
        return Err(EndOfStream);
      }
      args := args + [after[..len]];
      rest := after[len + 2..];
    }
    return Ok((args, rest));
  }

  // ----------------------------------------------- the two readers agree

  /** A carriage return at the end of a header makes no difference: it is white space. */
  lemma {:induction false} TrimStartCr(x: bytes)
    ensures TrimStart(x + [CR]) == if TrimStart(x) == [] then [] else TrimStart(x) + [CR]
    decreases |x|
  {
    var w := BlankAtStart(x);
    assert BlankAtStart(x + [CR]) == if x == [] then 1 else w;
    if w > 0 {
      assert (x + [CR])[w..] == x[w..] + [CR];
      TrimStartCr(x[w..]);
    } else if x == [] {
      assert (x + [CR])[1..] == [];
    }
  }

  lemma TrimCr(x: bytes)
    ensures TrimEnd(TrimStart(x + [CR])) == TrimEnd(TrimStart(x))
  {
    TrimStartCr(x);
    var y := TrimStart(x);
    assert (y + [CR])[..|y|] == y;
  }

  lemma ParseLenTrims(x: bytes, what: Error)
    ensures WithoutCr(x) == x || x == WithoutCr(x) + [CR]
    ensures TrimEnd(TrimStart(WithoutCr(x))) == TrimEnd(TrimStart(x))
  {
    if WithoutCr(x) != x {
      TrimCr(WithoutCr(x));
    }
  }

  lemma ParseLenCr(x: bytes, what: Error)
    ensures ParseLen(x + [CR], what) == ParseLen(x, what)
  {
    ParseLenTrims(x, what);
    ParseLenTrims(x + [CR], what);
    TrimCr(x);
  }

  /** Chomping a header line behind its tag byte leaves the parsed number alone. */
  lemma {:induction false} ChompHeader(line: bytes, what: Error)
    requires line != [] && line[0] != LF && line[0] != CR
    requires forall i :: 0 <= i < |line| ==> line[i] != LF
    ensures Chomp(line) != [] && Chomp(line)[0] == line[0]
    ensures ParseLen(Chomp(line)[1..], what) == ParseLen(line[1..], what)
    decreases |line|
  {
    hide ParseLen;
    var n := |line| - 1;
    if line[n] == CR {
      ChompHeader(line[..n], what);
      assert line[1..] == line[..n][1..] + [CR];
      ParseLenCr(line[..n][1..], what);
    }
  }

  lemma HeaderAgrees(s: bytes, pos: nat, what: Error)
    requires pos < |s| && s[pos] != LF && s[pos] != CR && Newline(s, pos).Some?
    ensures var nl := Newline(s, pos).value;
      && TakeLine(s[pos..]).1 == s[nl + 1..]
      && Chomp(TakeLine(s[pos..]).0) != [] && Chomp(TakeLine(s[pos..]).0)[0] == s[pos]
      && ParseLen(Chomp(TakeLine(s[pos..]).0)[1..], what) == ParseLen(s[pos + 1..nl], what)
  {
    hide ParseLen, Chomp, TakeLine, Newline;
    var nl := Newline(s, pos).value;
    LineFrom(s, pos, nl);
    var line := s[pos..nl];
    ChompLf(line);
    ChompHeader(line, what);
    assert line[1..] == s[pos + 1..nl];
  }

  /** The client's line is the one the server's newline search ends. */
  lemma LineFrom(s: bytes, pos: nat, nl: nat)
    requires pos < |s| && s[pos] != LF && Newline(s, pos) == Some(nl)
    ensures pos < nl < |s| && TakeLine(s[pos..]) == (s[pos..nl] + [LF], s[nl + 1..])
  {
    var t := s[pos..];
    assert forall i :: 0 <= i < |t| ==> t[i] == s[pos + i];
    NewlineIs(t, 0, nl - pos);
    hide Newline;
    assert t[..nl - pos + 1] == s[pos..nl] + [LF] && t[nl - pos + 1..] == s[nl + 1..];
  }

  lemma ChompLf(line: bytes)
    ensures Chomp(line + [LF]) == Chomp(line)
  {
    assert (line + [LF])[..|line|] == line;
  }

  lemma ItemAgrees(s: bytes, pos: nat)
    requires pos <= |s| && BulkAt(s, pos).Item?
    ensures var item := BulkAt(s, pos);
      var (line, rest) := TakeLine(s[pos..]);
      var h := Chomp(line);
      && h != [] && h[0] == DOLLAR && ParseLen(h[1..], BadBulkLen) == Ok(Some(|item.data|))
      && |item.data| <= MAX_BULK_LEN && |item.data| + 2 <= |rest|
      && rest[..|item.data|] == item.data && rest[|item.data| + 2..] == s[item.next..]
  {
    hide ParseLen, Chomp, TakeLine, Newline;
    HeaderAgrees(s, pos, BadBulkLen);
  }

  lemma {:induction false} ItemsAgree(s: bytes, pos: nat, count: nat, args: Args)
    requires pos <= |s| && ParseArgs(s, pos, count, args).Command?
    ensures var f := ParseArgs(s, pos, count, args);
      ReadItems(s[pos..], count, args) == Ok((f.args, s[f.used..]))
    decreases count
  {
    hide ParseLen, Chomp, TakeLine, BulkAt;
    if count > 0 {
      var item := BulkAt(s, pos);
      ItemAgrees(s, pos);
      ItemsAgree(s, item.next, count - 1, args + [item.data]);
    }
  }

  /** On every array frame the incremental parser accepts, the blocking reader returns the same command and rest. */
  lemma ReadersAgree(s: bytes)
    requires ParseFrame(s).Command? && s[0] == ASTERISK
    ensures ReadCommand(s) == Ok((Some(ParseFrame(s).args), s[ParseFrame(s).used..]))
  {
    hide ParseLen, Chomp, TakeLine, ParseArgs, ReadItems;
    HeaderAgrees(s, 0, BadArrayHeader);
    assert s[0..] == s;
    var nl := Newline(s, 0).value;
    match ParseLen(s[1..nl], BadArrayHeader)
    case Ok(Some(count)) => ItemsAgree(s, nl + 1, count, []);
    case _ =>
  }

  /** So the blocking reader too recovers what a client sent. */
  lemma BlockingRoundTrip(args: Args, post: bytes)
    requires Sendable(args)
    ensures ReadCommand(EncodeCommand(args) + post) == Ok((Some(args), post))
  {
    FrameRoundTrip(args, post);
    var s := EncodeCommand(args) + post;
    assert s[0] == ASTERISK;
    assert s[|EncodeCommand(args)|..] == post;
    hide EncodeCommand, ReadCommand, ParseFrame;
    ReadersAgree(s);
  }

  // ------------------------------------------------------------------ a frame, byte by byte

  lemma SmallDecimal(n: nat)
    requires n < 10
    ensures Decimal(n) == ['0' as int + n]
  {
  }

  lemma KnownItem(data: bytes)
    requires |data| < 10
    ensures EncodeItem(data) ==
      ['$' as int, '0' as int + |data|, '\r' as int, '\n' as int] + data + ['\r' as int, '\n' as int]
  {
    SmallDecimal(|data|);
    hide Decimal;
  }

  /** `GET` with one key: the number of arguments, then each behind its length. */
  lemma KnownFrame(get: bytes, key: bytes)
    requires get == ['G' as int, 'E' as int, 'T' as int] && |key| == 1
    ensures EncodeCommand([get, key]) ==
      ['*' as int, '2' as int, '\r' as int, '\n' as int]
      + ((['$' as int, '3' as int, '\r' as int, '\n' as int] + get + ['\r' as int, '\n' as int])
         + (['$' as int, '1' as int, '\r' as int, '\n' as int] + key + ['\r' as int, '\n' as int]))
  {
    SmallDecimal(2);
    KnownItem(get);
    KnownItem(key);
    EncodeOne(key);
    hide Decimal, EncodeItem;
    assert [get, key][1..] == [key];
    assert EncodeItems([get, key]) == EncodeItem(get) + EncodeItems([key]);
  }
}
