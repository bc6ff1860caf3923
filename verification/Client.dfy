/**
 * Replies: how the server writes them and how the client reads them back,
 * whatever pieces the bytes arrive in.
 */
module Client {
  import opened Base
  import opened Resp
  import opened Chunks
  import opened Wire

  const COLON: byte := 58
  const PERCENT: byte := 37
  const GREATER: byte := 62
  const UNDERSCORE: byte := 95

  // ------------------------------------------------------------------ the server's side

  datatype Value =
    | Simple(text: bytes)
    | Error(text: bytes)
    | Int(i: int)
    | Bulk(data: bytes)
    | Nil
    | NilArray
    | Array(items: seq<Value>)
    | Map(items: seq<Value>)
    | Push(items: seq<Value>)

  function Signed(i: int): bytes {
    if i < 0 then [MINUS] + Decimal(-i) else Decimal(i)
  }

  function TextLine(tag: byte, text: bytes): bytes { [tag] + text + CRLF }

  function EncodeValue(v: Value, resp3: bool): bytes {
    match v
    case Simple(text) => TextLine(PLUS, text)
    case Error(text) => TextLine(MINUS, text)
    case Int(i) => TextLine(COLON, Signed(i))
    case Bulk(data) => EncodeItem(data)
    case Nil => if resp3 then TextLine(UNDERSCORE, []) else TextLine(DOLLAR, Signed(-1))
    case NilArray => if resp3 then TextLine(UNDERSCORE, []) else TextLine(ASTERISK, Signed(-1))
    case Array(items) => Header(ASTERISK, |items|) + EncodeValues(items, resp3)
    case Map(items) => Header(PERCENT, |items| / 2) + EncodeValues(items, resp3)
    case Push(items) => Header(if resp3 then GREATER else ASTERISK, |items|) + EncodeValues(items, resp3)
  }

  function EncodeValues(items: seq<Value>, resp3: bool): bytes {
    if items == [] then [] else EncodeValue(items[0], resp3) + EncodeValues(items[1..], resp3)
  }

  // ------------------------------------------------------------------ the client's side

  datatype Reply =
    | Text(text: bytes)
    | Failure(text: bytes)
    | Number(i: int)
    | Data(data: Option<bytes>)
    | List(items: seq<Reply>)

  /**
   * The stream ended inside a reply; or a blank line stood where a reply should, on which the
   * client does not return an error but panics, since it cuts the tag off without looking.
   */
  datatype ReplyError = Closed | BlankLine

  function ParseNumber(s: bytes): Option<int> { ParseI64(TrimEnd(TrimStart(s))) }

  /** A line must be complete; its line end goes. */
  function ReplyLine(s: bytes): (r: Result<(bytes, bytes), ReplyError>)
    ensures r.Ok? ==> |r.value.1| < |s|
  {
    match Newline(s, 0)
    case Some(i) => Ok((Chomp(s[..i + 1]), s[i + 1..]))
    case None => Err(Closed)
  }

  /** One reply from what the stream will deliver, and the rest of the stream. */
  function ReadReply(s: bytes): (r: Result<(Reply, bytes), ReplyError>)
    ensures r.Ok? ==> |r.value.1| < |s|
    decreases |s|, 0
  {
    match ReplyLine(s)
    case Err(e) => Err(e)
    case Ok((line, rest)) =>
      if line == [] then Err(BlankLine)
      else
        var body := line[1..];
        if line[0] == PLUS then Ok((Text(body), rest))
        else if line[0] == MINUS then Ok((Failure(body), rest))
        else if line[0] == COLON then
          Ok((Number(match ParseNumber(body) case Some(i) => i case None => 0), rest))
        else if line[0] == DOLLAR then
          match ParseNumber(body)
          case Some(n) =>
            if n < 0 then Ok((Data(None), rest))
            else if |rest| < n + 2 then Err(Closed)
            else Ok((Data(Some(rest[..n])), rest[n + 2..]))
          case None => Ok((Data(None), rest))
        else if line[0] == ASTERISK then
          match ParseNumber(body)
          case Some(n) =>
            (match ReadReplies(rest, if n < 0 then 0 else n)
             case Err(e) => Err(e)
             case Ok((items, rest')) => Ok((List(items), rest')))
          case None => Ok((List([]), rest))
        else Ok((Text([]), rest))
  }

  function ReadReplies(s: bytes, n: nat): (r: Result<(seq<Reply>, bytes), ReplyError>)
    ensures r.Ok? ==> |r.value.1| <= |s| && |r.value.0| == n
    decreases |s|, 1
  {
    if n == 0 then Ok(([], s))
    else match ReadReply(s)
      case Err(e) => Err(e)
      case Ok((first, rest)) =>
        match ReadReplies(rest, n - 1)
        case Err(e) => Err(e)
        case Ok((others, rest')) => Ok(([first] + others, rest'))
  }

  // ------------------------------------------------------------------ the round trip

  /** What a value is to a client. */
  function Meaning(v: Value): Reply {
    match v
    case Simple(text) => Text(text)
    case Error(text) => Failure(text)
    case Int(i) => Number(i)
    case Bulk(data) => Data(Some(data))
    case Nil => Data(None)
    case NilArray => List([])
    case Array(items) => List(Meanings(items))
    case Map(items) => List(Meanings(items))
    case Push(items) => List(Meanings(items))
  }

  function Meanings(items: seq<Value>): (r: seq<Reply>)
    ensures |r| == |items|
  {
    if items == [] then [] else [Meaning(items[0])] + Meanings(items[1..])
  }

  /** Integers and lengths fit the program's types. */
  ghost predicate Sized(v: Value) {
    match v
    case Int(i) => -MAX_I64 - 1 <= i <= MAX_I64
    case Bulk(data) => |data| <= MAX_I64
    case Array(items) => |items| <= MAX_I64 && forall i :: 0 <= i < |items| ==> Sized(items[i])
    case Map(items) => |items| <= MAX_I64 && forall i :: 0 <= i < |items| ==> Sized(items[i])
    case Push(items) => |items| <= MAX_I64 && forall i :: 0 <= i < |items| ==> Sized(items[i])
    case _ => true
  }

  /** One line, and no carriage return that would be taken for part of the line end. */
  predicate OneLine(text: bytes) {
    LF !in text && (text == [] || text[|text| - 1] != CR)
  }

  /** The client's reader knows every part of the value's encoding. */
  ghost predicate Readable(v: Value, resp3: bool) {
    match v
    case Simple(text) => OneLine(text)
    case Error(text) => OneLine(text)
    case Int(_) => true
    case Bulk(_) => true
    case Nil => !resp3
    case NilArray => !resp3
    case Array(items) => forall i :: 0 <= i < |items| ==> Readable(items[i], resp3)
    case Map(items) => false
    case Push(items) => !resp3 && forall i :: 0 <= i < |items| ==> Readable(items[i], resp3)
  }

  ghost predicate AllReadable(items: seq<Value>, resp3: bool) {
    forall i :: 0 <= i < |items| ==> Readable(items[i], resp3)
  }

  ghost predicate AllSized(items: seq<Value>) {
    forall i :: 0 <= i < |items| ==> Sized(items[i])
  }

  // ---- lines

  lemma ChompOne(text: bytes, end: byte)
    requires end == CR || end == LF
    ensures Chomp(text + [end]) == Chomp(text)
  {
    assert (text + [end])[..|text|] == text;
  }

  lemma ChompNone(text: bytes)
    requires text == [] || (text[|text| - 1] != CR && text[|text| - 1] != LF)
    ensures Chomp(text) == text
  {
  }

  lemma ChompKeeps(text: bytes)
    requires text == [] || (text[|text| - 1] != CR && text[|text| - 1] != LF)
    ensures Chomp(text) == text && Chomp(text + CRLF) == text
  {
    ChompNone(text);
    hide Chomp;
    assert text + CRLF == (text + [CR]) + [LF];
    ChompOne(text + [CR], LF);
    ChompOne(text, CR);
  }

  /** A clean line comes back as it was. */
  lemma LineReads(tag: byte, text: bytes, post: bytes)
    requires OneLine(text) && tag != LF && tag != CR
    ensures ReplyLine(TextLine(tag, text) + post) == Ok(([tag] + text, post))
  {
    hide Chomp, Newline;
    var line := [tag] + text;
    var s := TextLine(tag, text) + post;
    var nl := |line| + 1;
    assert s == line + CRLF + post;
    forall i | 0 <= i < nl ensures s[i] != LF {
      assert i > 0 && i < |line| ==> s[i] == text[i - 1];
    }
    NewlineIs(s, 0, nl);
    assert s[..nl + 1] == line + CRLF && s[nl + 1..] == post;
    ChompKeeps(line);
  }

  lemma {:induction false} ChompShortens(line: bytes)
    ensures Chomp(line) <= line
    ensures line != [] && line[|line| - 1] == LF ==> |Chomp(line)| < |line|
    ensures Chomp(line) == [] || (Chomp(line)[|Chomp(line)| - 1] != CR && Chomp(line)[|Chomp(line)| - 1] != LF)
    decreases |line|
  {
    if line != [] && (line[|line| - 1] == LF || line[|line| - 1] == CR) {
      ChompShortens(line[..|line| - 1]);
    }
  }

  /** Whatever the stream holds, a line that is read contains no line feed and does not end in a carriage return. */
  lemma LinesAreClean(s: bytes)
    ensures ReplyLine(s).Ok? && |ReplyLine(s).value.0| > 0 && ReplyLine(s).value.0[0] != CR ==>
      OneLine(ReplyLine(s).value.0[1..])
  {
    match Newline(s, 0)
    case None =>
    case Some(i) =>
      var line := s[..i + 1];
      ChompShortens(line);
      var c := Chomp(line);
      assert line[|line| - 1] == LF;
      forall k | 0 <= k < |c| ensures c[k] != LF {
        assert c[k] == s[k];
      }
  }

  /** A line's first byte is its tag, unless the line was nothing but line ends. */
  lemma TagReads(tag: byte, text: bytes, post: bytes)
    requires tag != LF && tag != CR
    ensures var r := ReplyLine(TextLine(tag, text) + post);
      r.Ok? && r.value.0 != [] && r.value.0[0] == tag
  {
    var s := TextLine(tag, text) + post;
    assert s[|text| + 2] == LF;
    assert Newline(s, 0).Some?;
    var nl := Newline(s, 0).value;
    assert s[0] == tag;
    ChompKeepsFirst(s[..nl + 1]);
  }

  lemma {:induction false} ChompKeepsFirst(line: bytes)
    requires line != [] && line[0] != CR && line[0] != LF
    ensures Chomp(line) != [] && Chomp(line)[0] == line[0]
    decreases |line|
  {
    if |line| > 1 && (line[|line| - 1] == LF || line[|line| - 1] == CR) {
      ChompKeepsFirst(line[..|line| - 1]);
    }
  }

  // ---- numbers

  predicate Plain(b: byte) { IsDigit(b) || b == MINUS }

  lemma NotBlank(s: bytes)
    requires s != [] && Plain(s[0]) && Plain(s[|s| - 1])
    ensures TrimEnd(TrimStart(s)) == s
  {
  }

  lemma DecimalPlain(n: nat)
    ensures AllDigits(Decimal(n)) && DigitsValue(Decimal(n)) == n
    ensures Plain(Decimal(n)[0]) && Plain(Decimal(n)[|Decimal(n)| - 1])
    ensures OneLine(Decimal(n))
  {
    DecimalDigits(n);
    var d := Decimal(n);
    hide Decimal, DigitsValue;
    assert IsDigit(d[0]) && IsDigit(d[|d| - 1]);
    assert LF !in d;
  }

  /** A digit string has no sign of its own; one may stand in front of it. */
  lemma SignedValue(i: int)
    requires -MAX_I64 - 1 <= i <= MAX_I64
    ensures ParseI64(Signed(i)) == Some(i)
  {
    var n := if i < 0 then -i else i;
    var d := Decimal(n);
    DecimalPlain(n);
    NoSign(n);
    hide Decimal, DigitsValue, AllDigits;
    assert i < 0 ==> ([MINUS] + d)[1..] == d;
  }

  lemma SignedReads(i: int)
    requires -MAX_I64 - 1 <= i <= MAX_I64
    ensures ParseNumber(Signed(i)) == Some(i) && OneLine(Signed(i))
  {
    SignedValue(i);
    var n := if i < 0 then -i else i;
    DecimalPlain(n);
    hide Decimal, DigitsValue, TrimStart, TrimEnd, AllDigits, ParseI64;
    var s := Signed(i);
    assert s[|s| - 1] == Decimal(n)[|Decimal(n)| - 1];
    NotBlank(s);
  }

  lemma NoSign(n: nat)
    ensures IsDigit(Decimal(n)[0])
  {
    DecimalDigits(n);
    hide Decimal, DigitsValue;
    assert Decimal(n)[0] in Decimal(n);
  }

  // ---- one value

  /** What reading back the encoding of `v` gives, with anything behind it. */
  ghost predicate ReadsBack(v: Value, resp3: bool, post: bytes) {
    ReadReply(EncodeValue(v, resp3) + post) == Ok((Meaning(v), post))
  }

  /** The reply read, if any, is a different one. */
  ghost predicate ReadsOther(v: Value, resp3: bool, post: bytes) {
    var r := ReadReply(EncodeValue(v, resp3) + post);
    r.Ok? ==> r.value.0 != Meaning(v)
  }

  lemma TextReads(v: Value, resp3: bool, post: bytes)
    requires v.Simple? || v.Error?
    ensures if OneLine(v.text) then ReadsBack(v, resp3, post) else ReadsOther(v, resp3, post)
  {
    var tag := if v.Simple? then PLUS else MINUS;
    var s := TextLine(tag, v.text) + post;
    assert EncodeValue(v, resp3) + post == s;
    if OneLine(v.text) {
      LineReads(tag, v.text, post);
      assert ([tag] + v.text)[1..] == v.text;
    } else {
      TagReads(tag, v.text, post);
      LinesAreClean(s);
    }
  }

  lemma IntReads(i: int, post: bytes)
    requires -MAX_I64 - 1 <= i <= MAX_I64
    ensures ReadReply(TextLine(COLON, Signed(i)) + post) == Ok((Number(i), post))
  {
    SignedReads(i);
    LineReads(COLON, Signed(i), post);
    hide Signed, ParseNumber;
    assert ([COLON] + Signed(i))[1..] == Signed(i);
  }

  lemma HeaderReads(tag: byte, n: nat, post: bytes)
    requires n <= MAX_I64 && tag != LF && tag != CR
    ensures ReplyLine(Header(tag, n) + post) == Ok(([tag] + Decimal(n), post))
    ensures ParseNumber(Decimal(n)) == Some(n) && ([tag] + Decimal(n))[1..] == Decimal(n)
  {
    SignedReads(n);
    LineReads(tag, Decimal(n), post);
    assert Header(tag, n) == TextLine(tag, Decimal(n));
  }

  lemma BulkReads(data: bytes, post: bytes)
    requires |data| <= MAX_I64
    ensures ReadReply(EncodeItem(data) + post) == Ok((Data(Some(data)), post))
  {
    var rest := data + CRLF + post;
    HeaderReads(DOLLAR, |data|, rest);
    hide Decimal, ParseNumber, ReplyLine;
    assert EncodeItem(data) + post == Header(DOLLAR, |data|) + rest;
    assert rest[..|data|] == data && rest[|data| + 2..] == post;
  }

  /** On the older protocol a null bulk string and a null array are told apart; the newer null is not understood. */
  lemma NullReads(v: Value, resp3: bool, post: bytes)
    requires v.Nil? || v.NilArray?
    ensures if resp3 then ReadsOther(v, resp3, post) else ReadsBack(v, resp3, post)
  {
    if resp3 {
      LineReads(UNDERSCORE, [], post);
      hide ReplyLine, ParseNumber;
      assert [UNDERSCORE] + [] == [UNDERSCORE];
    } else {
      MinusOneReads(if v.Nil? then DOLLAR else ASTERISK, post);
      hide Signed, ParseNumber, ReplyLine, TextLine;
      assert ReadReplies(post, 0) == Ok(([], post));
    }
  }

  lemma MinusOneReads(tag: byte, post: bytes)
    requires tag != LF && tag != CR
    ensures var r := ReplyLine(TextLine(tag, Signed(-1)) + post);
      && r.Ok? && r.value.1 == post && r.value.0 != [] && r.value.0[0] == tag
      && ParseNumber(r.value.0[1..]) == Some(-1)
  {
    SignedReads(-1);
    LineReads(tag, Signed(-1), post);
    hide Signed, ParseNumber, ReplyLine;
    assert ([tag] + Signed(-1))[1..] == Signed(-1);
  }

  lemma UnknownReads(tag: byte, n: nat, items: bytes, post: bytes)
    requires n <= MAX_I64 && (tag == PERCENT || tag == GREATER)
    ensures ReadReply(Header(tag, n) + items + post) == Ok((Text([]), items + post))
  {
    HeaderReads(tag, n, items + post);
    hide Decimal, ParseNumber, ReplyLine;
    assert Header(tag, n) + items + post == Header(tag, n) + (items + post);
  }

  lemma ListReads(n: nat, items: bytes, post: bytes)
    requires n <= MAX_I64
    ensures ReadReply(Header(ASTERISK, n) + items + post) ==
      match ReadReplies(items + post, n)
      case Err(e) => Err(e)
      case Ok((replies, rest)) => Ok((List(replies), rest))
  {
    HeaderReads(ASTERISK, n, items + post);
    hide Decimal, ParseNumber, ReplyLine, ReadReplies;
    assert Header(ASTERISK, n) + items + post == Header(ASTERISK, n) + (items + post);
  }

  /**
   * A client reads back exactly what the server meant, leaving exactly what follows,
   * if every part of the value is readable; if any is not, it reads something else.
   */
  lemma {:induction false} ValueReads(v: Value, resp3: bool, post: bytes)
    requires Sized(v)
    ensures if Readable(v, resp3) then ReadsBack(v, resp3, post) else ReadsOther(v, resp3, post)
    decreases v
  {
    hide ReadReply, ReadReplies, EncodeValues, TextLine, Header, EncodeItem, Meanings;
    match v
    case Simple(_) => TextReads(v, resp3, post);
    case Error(_) => TextReads(v, resp3, post);
    case Int(i) => IntReads(i, post);
    case Bulk(data) => BulkReads(data, post);
    case Nil => NullReads(v, resp3, post);
    case NilArray => NullReads(v, resp3, post);
    case Array(items) =>
      ListReads(|items|, EncodeValues(items, resp3), post);
      ValuesRead(items, resp3, post);
    case Map(items) =>
      UnknownReads(PERCENT, |items| / 2, EncodeValues(items, resp3), post);
    case Push(items) =>
      if resp3 {
        UnknownReads(GREATER, |items|, EncodeValues(items, resp3), post);
      } else {
        ListReads(|items|, EncodeValues(items, resp3), post);
        ValuesRead(items, resp3, post);
      }
  }

  lemma {:induction false} ValuesRead(items: seq<Value>, resp3: bool, post: bytes)
    requires AllSized(items)
    ensures var r := ReadReplies(EncodeValues(items, resp3) + post, |items|);
      if AllReadable(items, resp3) then r == Ok((Meanings(items), post))
      else r.Ok? ==> r.value.0 != Meanings(items)
    decreases items
  {
    hide ReadReply, EncodeValue, Meaning;
    if items == [] {
      assert [] + post == post;
    } else {
      var e, es := EncodeValue(items[0], resp3), EncodeValues(items[1..], resp3);
      assert EncodeValues(items, resp3) + post == e + (es + post);
      ValueReads(items[0], resp3, es + post);
      ValuesRead(items[1..], resp3, post);
      assert AllReadable(items, resp3) <==> Readable(items[0], resp3) && AllReadable(items[1..], resp3);
      var r := ReadReplies(e + (es + post), |items|);
      if r.Ok? {
        assert r.value.0 == [ReadReply(e + (es + post)).value.0] + r.value.0[1..];
        assert Meanings(items)[0] == Meaning(items[0]) && Meanings(items)[1..] == Meanings(items[1..]);
      }
    }
  }

  /** The round trip, exactly. */
  lemma ReplyRoundTrip(v: Value, resp3: bool, post: bytes)
    requires Sized(v)
    ensures ReadReply(EncodeValue(v, resp3) + post) == Ok((Meaning(v), post)) <==> Readable(v, resp3)
  {
    hide ReadReply, EncodeValue, Meaning, Readable, Sized;
    ValueReads(v, resp3, post);
  }

  // ------------------------------------------------------------------ pipelines

  function EncodeCommands(cmds: seq<Args>): bytes {
    if cmds == [] then [] else EncodeCommand(cmds[0]) + EncodeCommands(cmds[1..])
  }

  /** The server drains exactly the commands a client pipelined, and nothing is left. */
  lemma {:induction false} PipelineDrains(cmds: seq<Args>)
    requires forall i :: 0 <= i < |cmds| ==> cmds[i] != [] && Sendable(cmds[i])
    ensures Drain(EncodeCommands(cmds)) == Drained(cmds, [], None)
    ensures StreamOk(EncodeCommands(cmds))
    decreases |cmds|
  {
    hide EncodeCommand, FrameFits, Sendable;
    var s := EncodeCommands(cmds);
    if cmds == [] {
      assert ParseFrame([]) == Incomplete;
      EmptyFits();
    } else {
      var e, es := EncodeCommand(cmds[0]), EncodeCommands(cmds[1..]);
      FrameRoundTrip(cmds[0], es);
      PipelineDrains(cmds[1..]);
      hide ParseFrame;
      assert s[|e|..] == es;
      FrameBounds(s);
      assert [cmds[0]] + cmds[1..] == cmds;
    }
  }

  lemma EmptyFits()
    ensures FrameFits([])
  {
  }

  /** However the network cuts it up. */
  lemma PipelineArrives(cmds: seq<Args>, chunks: seq<bytes>)
    requires forall i :: 0 <= i < |cmds| ==> cmds[i] != [] && Sendable(cmds[i])
    requires Concat(chunks) == EncodeCommands(cmds)
    ensures FeedAll(FRESH, chunks) == Drained(cmds, [], None)
  {
    hide EncodeCommand, StreamOk, Drain, Sendable, FeedAll;
    PipelineDrains(cmds);
    ChunkIndependence(EncodeCommands(cmds));
  }

  // ------------------------------------------------------------------ the client object

  /** `incoming` is everything the server will still deliver before it closes; `sent` everything written. */
  class Connection {
    var buf: bytes
    var incoming: bytes
    var sent: bytes

    /** What the client has not consumed yet, wherever it is. */
    ghost function Pending(): bytes
      reads this
    {
      buf + incoming
    }

    constructor (incoming: bytes)
      ensures Pending() == incoming && sent == []
    {
      buf, this.incoming, sent := [], incoming, [];
      new;
      assert [] + incoming == incoming;
    }

    method Send(args: Args)
      modifies this`sent
      ensures sent == old(sent) + EncodeCommand(args)
    {
      var out := BuildFrame(args);
      sent := sent + out;
    }

    /** One `read` into a buffer of 4096 bytes: the network decides how much comes. */
    method Receive() returns (n: nat)
      modifies this`buf, this`incoming
      ensures Pending() == old(Pending()) && buf == old(Pending())[..|buf|]
      ensures |buf| == |old(buf)| + n && (n == 0 <==> old(incoming) == [])
    {
      if incoming == [] {
        assert buf + [] == buf;
        return 0;
      }
      var some: int := *;
      n := if 0 < some <= 4096 && some <= |incoming| then some else 1;
      assert buf + incoming == (buf + incoming[..n]) + incoming[n..];
      buf, incoming := buf + incoming[..n], incoming[n..];
    }

    method ReadLine() returns (r: Result<bytes, ReplyError>)
      modifies this`buf, this`incoming
      ensures match ReplyLine(old(Pending()))
        case Ok((line, rest)) => r == Ok(line) && Pending() == rest
        case Err(e) => r == Err(e)
    {
      ghost var s := Pending();
      while true
        invariant Pending() == s && buf == s[..|buf|]
        decreases |incoming|
      {
        var nl := Newline(buf, 0);
        LineOfPrefix(s, |buf|, 0);
        if nl.Some? {
          var line := buf[..nl.value + 1];
          assert line == s[..nl.value + 1];
          buf := buf[nl.value + 1..];
          assert Pending() == s[nl.value + 1..];
          while line != [] && (line[|line| - 1] == LF || line[|line| - 1] == CR)
            invariant Chomp(line) == Chomp(s[..nl.value + 1]) && Pending() == s[nl.value + 1..]
            decreases |line|
          {
            line := line[..|line| - 1];
          }
          return Ok(line);
        }
        var n := Receive();
        if n == 0 {
          assert buf == s;
          return Err(Closed);
        }
      }
    }

    method ReadN(n: nat) returns (r: Result<bytes, ReplyError>)
      modifies this`buf, this`incoming
      ensures var s := old(Pending());
        if |s| < n then r == Err(Closed) else r == Ok(s[..n]) && Pending() == s[n..]
    {
      ghost var s := Pending();
      while |buf| < n
        invariant Pending() == s
        decreases |incoming|
      {
        var g := Receive();
        if g == 0 {
          return Err(Closed);
        }
      }
      r := Ok(buf[..n]);
      assert s == buf + incoming && s[..n] == buf[..n];
      buf := buf[n..];
      assert Pending() == s[n..];
    }

    /** One reply. Only what the stream holds matters, not how it was cut into reads. */
    method ReadOne() returns (r: Result<Reply, ReplyError>)
      modifies this`buf, this`incoming
      ensures match ReadReply(old(Pending()))
        case Ok((reply, rest)) => r == Ok(reply) && Pending() == rest
        case Err(e) => r == Err(e)
      decreases |Pending()|, 0
    {
      hide ReplyLine, ParseNumber;
      var l := ReadLine();
      if l.Err? {
        return Err(l.error);
      }
      var line := l.value;
      if line == [] {
        return Err(BlankLine);
      }
      var tag, body := line[0], line[1..];
      if tag == PLUS {
        return Ok(Text(body));
      } else if tag == MINUS {
        return Ok(Failure(body));
      } else if tag == COLON {
        var n := ParseNumber(body);
        return Ok(Number(if n.Some? then n.value else 0));
      } else if tag == DOLLAR {
        var n := ParseNumber(body);
        if n.None? || n.value < 0 {
          return Ok(Data(None));
        }
        var d := ReadN(n.value + 2);
        if d.Err? {
          return Err(d.error);
        }
        assert forall s: bytes :: |s| >= n.value + 2 ==> s[..n.value + 2][..n.value] == s[..n.value];
        return Ok(Data(Some(d.value[..n.value])));
      } else if tag == ASTERISK {
        var n := ParseNumber(body);
        var items := ReadMany(if n.Some? && n.value > 0 then n.value else 0);
        if items.Err? {
          return Err(items.error);
        }
        return Ok(List(items.value));
      }
      return Ok(Text([]));
    }

    method ReadMany(n: nat) returns (r: Result<seq<Reply>, ReplyError>)
      modifies this`buf, this`incoming
      ensures match ReadReplies(old(Pending()), n)
        case Ok((items, rest)) => r == Ok(items) && Pending() == rest
        case Err(e) => r == Err(e)
      decreases |Pending()|, 1
    {
      hide ReadReply;
      ghost var s := Pending();
      var items: seq<Reply> := [];
      PrefixedNone(ReadReplies(s, n));
      for i := 0 to n
        invariant |Pending()| <= |s|
        invariant ReadReplies(s, n) == Prefixed(items, ReadReplies(Pending(), n - i))
      {
        ghost var before := Pending();
        var one := ReadOne();
        if one.Err? {
          return Err(one.error);
        }
        PrefixedOne(items, one.value, ReadReplies(Pending(), n - i - 1));
        items := items + [one.value];
      }
      assert items + [] == items;
      return Ok(items);
    }
  }

  /** The replies read so far, in front of the rest. */
  function Prefixed(items: seq<Reply>, r: Result<(seq<Reply>, bytes), ReplyError>):
    Result<(seq<Reply>, bytes), ReplyError>
  {
    match r
    case Err(e) => Err(e)
    case Ok((others, rest)) => Ok((items + others, rest))
  }

  lemma PrefixedNone(r: Result<(seq<Reply>, bytes), ReplyError>)
    ensures Prefixed([], r) == r
  {
    if r.Ok? {
      assert [] + r.value.0 == r.value.0;
    }
  }

  lemma PrefixedOne(items: seq<Reply>, one: Reply, r: Result<(seq<Reply>, bytes), ReplyError>)
    ensures Prefixed(items + [one], r) == Prefixed(items, Prefixed([one], r))
  {
    if r.Ok? {
      assert (items + [one]) + r.value.0 == items + ([one] + r.value.0);
    }
  }

  // ------------------------------------------------------------------ replies, byte by byte

  /** The first byte tells the kind; what has no line of its own is a length of minus one, or a blank in RESP3. */
  lemma KnownReplies(text: bytes, resp3: bool)
    ensures EncodeValue(Simple(text), resp3) == ['+' as int] + text + ['\r' as int, '\n' as int]
    ensures EncodeValue(Error(text), resp3) == ['-' as int] + text + ['\r' as int, '\n' as int]
    ensures EncodeValue(Int(-7), resp3) == [':' as int] + ['-' as int, '7' as int] + ['\r' as int, '\n' as int]
    ensures EncodeValue(Nil, false) == ['$' as int] + ['-' as int, '1' as int] + ['\r' as int, '\n' as int]
    ensures EncodeValue(NilArray, false) == ['*' as int] + ['-' as int, '1' as int] + ['\r' as int, '\n' as int]
    ensures EncodeValue(Nil, true) == EncodeValue(NilArray, true) == ['_' as int, '\r' as int, '\n' as int]
  {
    SmallDecimal(1);
    SmallDecimal(7);
    hide Decimal;
  }

  /** Two elements in an array, in a push, and as the one pair of a map. */
  lemma KnownLists(a: Value, b: Value, resp3: bool)
    ensures var both, end := EncodeValue(a, resp3) + EncodeValue(b, resp3), ['\r' as int, '\n' as int];
      && EncodeValue(Array([a, b]), resp3) == ['*' as int, '2' as int] + end + both
      && EncodeValue(Push([a, b]), resp3) == [if resp3 then '>' as int else '*' as int, '2' as int] + end + both
      && EncodeValue(Map([a, b]), resp3) == ['%' as int, '1' as int] + end + both
  {
    SmallDecimal(1);
    SmallDecimal(2);
    ListsOfTwo(a, b, resp3);
    hide Decimal, EncodeValues;
  }

  lemma ListsOfTwo(a: Value, b: Value, resp3: bool)
    ensures EncodeValues([a, b], resp3) == EncodeValue(a, resp3) + EncodeValue(b, resp3)
  {
    hide EncodeValue;
    assert [a, b][1..] == [b] && [b][1..] == [];
    assert EncodeValues([b], resp3) == EncodeValue(b, resp3) + EncodeValues([], resp3);
  }

  /**
   * What the reader makes of lines it does not know: a foreign kind of reply is an empty text, a number it
   * cannot read is 0, and a length or count it cannot read, or a negative one, is nothing.
   */
  lemma OddLines(tag: byte, text: bytes, rest: bytes)
    requires OneLine(text) && tag != LF && tag != CR
    ensures var r, n := ReadReply(TextLine(tag, text) + rest), ParseNumber(text);
      && (tag !in ['+' as int, '-' as int, ':' as int, '$' as int, '*' as int] ==> r == Ok((Text([]), rest)))
      && (tag == ':' as int && n.None? ==> r == Ok((Number(0), rest)))
      && (tag == '$' as int && (n.None? || n.value < 0) ==> r == Ok((Data(None), rest)))
      && (tag == '*' as int && (n.None? || n.value < 0) ==> r == Ok((List([]), rest)))
  {
    LineReads(tag, text, rest);
    hide ReplyLine, ParseNumber, TextLine, OneLine;
    assert ([tag] + text)[1..] == text;
  }
}
