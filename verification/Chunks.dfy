/**
 * Draining a connection's input: however the bytes of a stream are cut into
 * reads, the same commands come out, exactly as long as no header line
 * outgrows the line limit.
 */
module Chunks {
  import opened Base
  import opened Resp

  // ------------------------------------------------------------ draining a buffer

  /** The commands taken, the bytes kept, and the error that stopped the parser, if any. */
  datatype Drained = Drained(cmds: seq<Args>, rest: bytes, error: Option<Error>)

  function Cons(args: Args, d: Drained): Drained {
    Drained((if args == [] then [] else [args]) + d.cmds, d.rest, d.error)
  }

  /** Parse until bytes run out or turn out malformed; empty commands are skipped. */
  function Drain(buf: bytes): (d: Drained)
    ensures |d.rest| <= |buf|
    decreases |buf|
  {
    match ParseFrame(buf)
    case Incomplete => Drained([], buf, None)
    case Malformed(e) => Drained([], buf, Some(e))
    case Command(args, used) => Cons(args, Drain(buf[used..]))
  }

  /** The input from `cursor` on. */
  function Unread(buf: bytes, cursor: nat): (r: bytes)
    requires cursor <= |buf|
  {
    buf[cursor..]
  }

  /** `cmds` were taken from `buf` up to `cursor`. */
  ghost predicate Taken(buf: bytes, cmds: seq<Args>, cursor: nat) {
    cursor <= |buf| &&
    var d := Drain(Unread(buf, cursor));
    Drain(buf) == Drained(cmds + d.cmds, d.rest, d.error)
  }

  /** Empty commands are consumed but not kept. */
  function Keep(cmds: seq<Args>, args: Args): seq<Args> {
    if args == [] then cmds else cmds + [args]
  }

  lemma TakenNothing(buf: bytes)
    ensures Taken(buf, [], 0)
  {
    assert buf[0..] == buf && [] + Drain(buf).cmds == Drain(buf).cmds;
  }

  lemma TakeOne(buf: bytes, cmds: seq<Args>, cursor: nat, args: Args, used: nat)
    requires Taken(buf, cmds, cursor) && ParseFrame(Unread(buf, cursor)) == Command(args, used)
    ensures 0 < used <= |buf| - cursor && Taken(buf, Keep(cmds, args), cursor + used)
  {
    FrameBounds(buf[cursor..]);
    hide ParseFrame;
    assert buf[cursor..][used..] == buf[cursor + used..];
    var more := Drain(buf[cursor + used..]).cmds;
    assert cmds + ((if args == [] then [] else [args]) + more) == (cmds + if args == [] then [] else [args]) + more;
    assert cmds + [] == cmds;
  }

  lemma TakeNone(buf: bytes, cmds: seq<Args>, cursor: nat)
    requires Taken(buf, cmds, cursor) && !ParseFrame(Unread(buf, cursor)).Command?
    ensures Drain(buf) ==
      Drained(cmds, Unread(buf, cursor),
              match ParseFrame(Unread(buf, cursor)) case Malformed(e) => Some(e) case _ => None)
  {
    hide ParseFrame;
    assert cmds + [] == cmds;
  }

  /**
   * One pass of the server over its input buffer: commands before a malformed
   * frame are returned first and the error is left for the next pass.
   */
  method ParseCommands(buf: bytes) returns (r: Result<seq<Args>, Error>, rest: bytes)
    ensures var d := Drain(buf);
      if d.cmds == [] && d.error.Some? then r == Err(d.error.value) && rest == buf
      else r == Ok(d.cmds) && rest == d.rest
  {
    hide Taken, ParseFrame, Drain, Keep, Unread;
    var cmds: seq<Args> := [];
    var cursor: nat := 0;
    TakenNothing(buf);
    while true
      invariant cursor <= |buf| && Taken(buf, cmds, cursor)
      decreases |buf| - cursor
    {
      var frame := TryParse(Unread(buf, cursor));
      match frame {
        case Command(args, used) =>
          TakeOne(buf, cmds, cursor, args, used);
          cursor, cmds := cursor + used, Keep(cmds, args);
        case Incomplete =>
          TakeNone(buf, cmds, cursor);
          return Ok(cmds), Unread(buf, cursor);
        case Malformed(e) =>
          TakeNone(buf, cmds, cursor);
          if cmds != [] {
            return Ok(cmds), Unread(buf, cursor);
          }
          return Err(e), buf;
      }
    }
  }

  lemma FrameBounds(buf: bytes)
    ensures ParseFrame(buf).Command? ==> 0 < ParseFrame(buf).used <= |buf|
  {
  }

  /** More bytes arrive; after an error the connection only keeps them. */
  function Feed(d: Drained, chunk: bytes): Drained {
    if d.error.Some? then d.(rest := d.rest + chunk)
    else
      var more := Drain(d.rest + chunk);
      Drained(d.cmds + more.cmds, more.rest, more.error)
  }

  function FeedAll(d: Drained, chunks: seq<bytes>): Drained
    decreases |chunks|
  {
    if chunks == [] then d else FeedAll(Feed(d, chunks[0]), chunks[1..])
  }

  function Concat(chunks: seq<bytes>): bytes {
    if chunks == [] then [] else chunks[0] + Concat(chunks[1..])
  }

  const FRESH := Drained([], [], None)

  // ------------------------------------------------------------ line lengths

  /** A terminated line that starts at `from` is within the limit. */
  predicate LineFits(buf: bytes, from: nat)
    requires from <= |buf|
  {
    match Newline(buf, from)
    case Some(i) => i - from <= MAX_LINE
    case None => true
  }

  /** Every header line met by the next `count` items is within the limit. */
  predicate ArgsFit(buf: bytes, pos: nat, count: nat)
    requires pos <= |buf|
    decreases count
  {
    count == 0 || pos == |buf| || buf[pos] != DOLLAR ||
    (LineFits(buf, pos) &&
     match BulkAt(buf, pos)
     case Item(_, next) => ArgsFit(buf, next, count - 1)
     case _ => true)
  }

  predicate FrameFits(buf: bytes) {
    buf == [] ||
    (LineFits(buf, 0) &&
     match LineEnd(buf, 0)
     case Ok(Some(nl)) =>
       if buf[0] != ASTERISK then true
       else (match ParseLen(buf[1..nl], BadArrayHeader)
             case Ok(Some(count)) => count > MAX_ARGS || ArgsFit(buf, nl + 1, count)
             case _ => true)
     case _ => true)
  }

  /**
   * Every frame drained from the stream keeps its header lines within the
   * limit, except that a frame which ends in the line-limit error anyway may
   * exceed it.
   */
  predicate StreamOk(stream: bytes)
    decreases |stream|
  {
    && (FrameFits(stream) || ParseFrame(stream) == Malformed(TooBigLine))
    && match ParseFrame(stream)
       case Command(_, used) => StreamOk(stream[used..])
       case _ => true
  }

  // ------------------------------------------ what more bytes can change in a frame

  /** A line that has ended stays as it is; one that has not ends beyond what was there. */
  lemma LineOfPrefix(s: bytes, n: nat, from: nat)
    requires from <= n <= |s|
    ensures Newline(s[..n], from) == match Newline(s, from)
                                     case Some(i) => if i < n then Some(i) else None
                                     case None => None
  {
    var a := s[..n];
    if i :| Newline(a, from) == Some(i) {
      assert s[i] == LF;
    }
    if i :| Newline(s, from) == Some(i) && i < n {
      assert a[i] == LF;
    }
  }

  /** What follows the header line of an item that announces `len` bytes. */
  function Payload(buf: bytes, start: nat, len: nat): Bulk
    requires start <= |buf|
  {
    if len > MAX_BULK_LEN then Bad(InvalidBulkLength)
    else if start + len + 2 > |buf| then Short
    else if buf[start + len..start + len + 2] != [CR, LF] then Bad(NotTerminated)
    else Item(buf[start..start + len], start + len + 2)
  }

  /** What a complete header line says about its item. */
  function Headed(buf: bytes, start: nat, header: bytes): Bulk
    requires start <= |buf|
  {
    match ParseLen(header, BadBulkLen)
    case Err(e) => Bad(e)
    case Ok(None) => Bad(InvalidBulkLength)
    case Ok(Some(len)) => Payload(buf, start, len)
  }

  lemma BulkWithLine(buf: bytes, pos: nat, nl: nat)
    requires pos < |buf| && buf[pos] == DOLLAR && Newline(buf, pos) == Some(nl)
    ensures pos < nl < |buf| && BulkAt(buf, pos) == Headed(buf, nl + 1, buf[pos + 1..nl])
  {
    hide ParseLen, Newline;
  }

  lemma BulkWithoutLine(buf: bytes, pos: nat)
    requires pos < |buf| && buf[pos] == DOLLAR && Newline(buf, pos) == None
    ensures BulkAt(buf, pos) == if |buf| - pos > MAX_LINE then Bad(TooBigLine) else Short
  {
    hide ParseLen, Newline;
  }

  lemma PayloadOfPrefix(s: bytes, n: nat, start: nat, len: nat)
    requires start <= n <= |s|
    ensures Payload(s[..n], start, len) == Payload(s, start, len)
         || (Payload(s[..n], start, len) == Short && (Payload(s, start, len).Item? ==> Payload(s, start, len).next > n))
  {
    if start + len + 2 <= n {
      assert s[..n][start + len..start + len + 2] == s[start + len..start + len + 2];
      assert s[..n][start..start + len] == s[start..start + len];
    }
  }

  lemma HeadedOfPrefix(s: bytes, n: nat, start: nat, header: bytes)
    requires start <= n <= |s|
    ensures var r, full := Headed(s[..n], start, header), Headed(s, start, header);
      full == r || (r == Short && (full.Item? ==> full.next > n))
  {
    hide ParseLen, Payload;
    match ParseLen(header, BadBulkLen)
    case Ok(Some(len)) => PayloadOfPrefix(s, n, start, len);
    case _ =>
  }

  lemma BulkOfPrefix(s: bytes, n: nat, pos: nat)
    requires pos <= n <= |s|
    ensures var r, full := BulkAt(s[..n], pos), BulkAt(s, pos);
      && (r.Item? ==> full == r)
      && (r.Bad? && r.error != TooBigLine ==> full == r)
      && (r == Bad(TooBigLine) && LineFits(s, pos) ==> full == r)
      && (full.Item? && full.next <= n ==> r == full)
  {
    if pos == n || s[pos] != DOLLAR {
      return;
    }
    hide BulkAt, Newline, Headed;
    var a := s[..n];
    LineOfPrefix(s, n, pos);
    match Newline(s, pos)
    case None =>
      BulkWithoutLine(a, pos);
      BulkWithoutLine(s, pos);
    case Some(nl) =>
      if nl >= n {
        BulkWithoutLine(a, pos);
        BulkBeyondLine(s, pos, nl);
      } else {
        BulkOfLine(s, n, pos, nl);
      }
  }

  lemma BulkOfLine(s: bytes, n: nat, pos: nat, nl: nat)
    requires pos < n <= |s| && s[pos] == DOLLAR && Newline(s, pos) == Some(nl) && Newline(s[..n], pos) == Some(nl)
    requires nl < n
    ensures var r, full := BulkAt(s[..n], pos), BulkAt(s, pos);
      (full == r && r != Bad(TooBigLine)) || (r == Short && (full.Item? ==> full.next > n))
  {
    hide BulkAt, Newline, Headed;
    var a := s[..n];
    BulkWithLine(a, pos, nl);
    BulkWithLine(s, pos, nl);
    assert a[pos + 1..nl] == s[pos + 1..nl];
    HeadedOfPrefix(s, n, nl + 1, a[pos + 1..nl]);
    HeadedFits(a, nl + 1, a[pos + 1..nl]);
  }

  /** An item ends beyond its header line. */
  lemma BulkBeyondLine(s: bytes, pos: nat, nl: nat)
    requires pos < |s| && s[pos] == DOLLAR && Newline(s, pos) == Some(nl)
    ensures BulkAt(s, pos).Item? ==> nl < BulkAt(s, pos).next
  {
    hide ParseLen, Newline;
  }

  lemma HeadedFits(buf: bytes, start: nat, header: bytes)
    requires start <= |buf|
    ensures Headed(buf, start, header) != Bad(TooBigLine)
  {
    hide ParseI64, TrimEnd, TrimStart, WithoutCr;
  }

  lemma {:induction false} ArgsOfPrefix(s: bytes, n: nat, pos: nat, count: nat, args: Args)
    requires pos <= n <= |s|
    ensures var r, full := ParseArgs(s[..n], pos, count, args), ParseArgs(s, pos, count, args);
      && (r.Command? ==> full == r)
      && (r.Malformed? && (r.error != TooBigLine || ArgsFit(s, pos, count)) ==> full == r)
    decreases count
  {
    hide BulkAt, LineFits;
    if count > 0 {
      BulkOfPrefix(s, n, pos);
      BadHasDollar(s[..n], pos);
      match BulkAt(s[..n], pos)
      case Item(data, next) => ArgsOfPrefix(s, n, next, count - 1, args + [data]);
      case _ =>
    }
  }

  lemma BadHasDollar(buf: bytes, pos: nat)
    requires pos <= |buf|
    ensures BulkAt(buf, pos) == Bad(TooBigLine) ==> pos < |buf| && buf[pos] == DOLLAR
    ensures BulkAt(buf, pos).Item? ==> pos < |buf| && buf[pos] == DOLLAR
  {
  }

  /**
   * More input never changes a frame that is complete or malformed, and even
   * the line-limit error stands if the lines turn out to fit.
   */
  lemma FrameOfPrefix(s: bytes, n: nat)
    requires n <= |s|
    ensures var r, full := ParseFrame(s[..n]), ParseFrame(s);
      && (r.Command? ==> full == r)
      && (r.Malformed? && (r.error != TooBigLine || FrameFits(s)) ==> full == r)
  {
    hide ParseLen, Words, WithoutCr, ParseArgs, ArgsFit;
    var a := s[..n];
    if n > 0 {
      LineOfPrefix(s, n, 0);
      if s[0] != ASTERISK {
        assert Newline(a, 0).Some? ==> a[..Newline(a, 0).value] == s[..Newline(a, 0).value];
        return;
      }
      match Newline(a, 0)
      case None =>
      case Some(nl) =>
        assert a[1..nl] == s[1..nl];
        match ParseLen(a[1..nl], BadArrayHeader)
        case Ok(Some(count)) => ArgsOfPrefix(s, n, nl + 1, count, []);
        case _ =>
    }
  }

  /** A parsed command depends on nothing but the bytes it used. */
  lemma CommandStable(buf: bytes, more: bytes)
    requires ParseFrame(buf).Command?
    ensures ParseFrame(buf + more) == ParseFrame(buf)
  {
    assert (buf + more)[..|buf|] == buf;
    FrameOfPrefix(buf + more, |buf|);
  }

  // ------------------------------------------------------- feeding equals draining

  lemma {:induction false} FeedDrained(p: bytes, b: bytes)
    requires Drain(p).error == Some(TooBigLine) ==> StreamOk(p + b)
    ensures Feed(Drain(p), b) == Drain(p + b)
    decreases |p|
  {
    hide FrameFits;
    var s := p + b;
    assert s[..|p|] == p;
    FrameOfPrefix(s, |p|);
    match ParseFrame(p)
    case Command(args, used) =>
      var q := p[used..];
      assert s[used..] == q + b;
      FeedDrained(q, b);
      ConsFeed(args, Drain(q), b);
    case Incomplete =>
      assert [] + Drain(s).cmds == Drain(s).cmds;
    case Malformed(e) =>
  }

  lemma ConsFeed(args: Args, d: Drained, b: bytes)
    ensures Feed(Cons(args, d), b) == Cons(args, Feed(d, b))
  {
    hide Drain;
    var one: seq<Args> := if args == [] then [] else [args];
    var more := Drain(d.rest + b).cmds;
    assert (one + d.cmds) + more == one + (d.cmds + more);
  }

  lemma {:induction false} FeedAllAfterError(d: Drained, chunks: seq<bytes>)
    requires d.error.Some?
    ensures FeedAll(d, chunks) == d.(rest := d.rest + Concat(chunks))
    decreases |chunks|
  {
    if chunks == [] {
      assert d.rest + [] == d.rest;
    } else {
      FeedAllAfterError(Feed(d, chunks[0]), chunks[1..]);
      assert (d.rest + chunks[0]) + Concat(chunks[1..]) == d.rest + Concat(chunks);
    }
  }

  lemma {:induction false} FeedAllDrained(p: bytes, chunks: seq<bytes>)
    requires StreamOk(p + Concat(chunks))
    ensures FeedAll(Drain(p), chunks) == Drain(p + Concat(chunks))
    decreases |chunks|
  {
    hide Drain, StreamOk;
    if chunks == [] {
      assert p + [] == p;
    } else if Drain(p).error.Some? {
      FeedAllAfterError(Drain(p), chunks);
      FeedDrained(p, Concat(chunks));
    } else {
      FeedDrained(p, chunks[0]);
      assert p + Concat(chunks) == (p + chunks[0]) + Concat(chunks[1..]);
      FeedAllDrained(p + chunks[0], chunks[1..]);
    }
  }

  // --------------------------------------------- a long line shows in some cutting

  lemma {:induction false} LongArgLine(s: bytes, pos: nat, count: nat, args: Args) returns (n: nat)
    requires pos <= |s| && !ArgsFit(s, pos, count)
    ensures pos <= n <= |s| && ParseArgs(s[..n], pos, count, args) == Malformed(TooBigLine)
    decreases count
  {
    hide ParseLen;
    if !LineFits(s, pos) {
      n := Newline(s, pos).value;
      LineOfPrefix(s, n, pos);
    } else {
      var item := BulkAt(s, pos);
      n := LongArgLine(s, item.next, count - 1, args + [item.data]);
      hide BulkAt, LineFits;
      BulkOfPrefix(s, n, pos);
    }
  }

  lemma LongFrameLine(s: bytes) returns (n: nat)
    requires !FrameFits(s)
    ensures n <= |s| && ParseFrame(s[..n]) == Malformed(TooBigLine)
  {
    hide ParseLen, ArgsFit;
    if !LineFits(s, 0) {
      n := Newline(s, 0).value;
      LineOfPrefix(s, n, 0);
    } else {
      var nl := Newline(s, 0).value;
      var count := ParseLen(s[1..nl], BadArrayHeader).value.value;
      n := LongArgLine(s, nl + 1, count, []);
      hide ParseArgs;
      LineOfPrefix(s, n, 0);
      assert s[..n][1..nl] == s[1..nl];
    }
  }

  lemma FeedOne(d: Drained, chunk: bytes)
    ensures FeedAll(d, [chunk]) == Feed(d, chunk)
  {
    hide Feed;
    assert FeedAll(d, [chunk]) == FeedAll(Feed(d, chunk), []);
  }

  lemma FeedFresh(chunk: bytes)
    ensures Feed(FRESH, chunk) == Drain(chunk)
  {
    hide Drain;
    assert [] + chunk == chunk;
    assert [] + Drain(chunk).cmds == Drain(chunk).cmds;
  }

  lemma FeedTwo(s: bytes, n: nat)
    requires n <= |s|
    ensures FeedAll(FRESH, [s[..n], s[n..]]) == Feed(Drain(s[..n]), s[n..])
    ensures Concat([s[..n], s[n..]]) == s
  {
    hide Drain, Feed;
    var chunks := [s[..n], s[n..]];
    assert chunks[1..] == [s[n..]];
    FeedOne(Feed(FRESH, s[..n]), s[n..]);
    FeedFresh(s[..n]);
    assert Concat([s[n..]]) == s[n..] + Concat([]);
    assert s[..n] + (s[n..] + []) == s;
  }

  /** Where the stream does not satisfy the condition, some cutting into two reads shows it. */
  lemma {:induction false} LongLineShows(s: bytes) returns (n: nat)
    requires !StreamOk(s)
    ensures n <= |s| && Feed(Drain(s[..n]), s[n..]) != Drain(s)
    decreases |s|
  {
    hide FrameFits, Drain, Feed, Cons;
    if !FrameFits(s) && ParseFrame(s) != Malformed(TooBigLine) {
      n := LongFrameLine(s);
      LongLineDiffers(s, n);
    } else {
      var f := ParseFrame(s);
      var t := s[f.used..];
      var k := LongLineShows(t);
      n := f.used + k;
      var a := s[..n];
      assert a[f.used..] == t[..k] && s[n..] == t[k..];
      PrefixCommand(s, n);
      DrainCommand(a);
      DrainCommand(s);
      ConsFeed(f.args, Drain(t[..k]), t[k..]);
      if Cons(f.args, Feed(Drain(t[..k]), t[k..])) == Cons(f.args, Drain(t)) {
        ConsInjective(f.args, Feed(Drain(t[..k]), t[k..]), Drain(t));
      }
    }
  }

  lemma DrainCommand(s: bytes)
    requires ParseFrame(s).Command?
    ensures Drain(s) == Cons(ParseFrame(s).args, Drain(s[ParseFrame(s).used..]))
  {
  }

  lemma LongLineDiffers(s: bytes, n: nat)
    requires n <= |s| && ParseFrame(s[..n]) == Malformed(TooBigLine) && ParseFrame(s) != Malformed(TooBigLine)
    ensures Feed(Drain(s[..n]), s[n..]) != Drain(s)
  {
    assert s[..n] + s[n..] == s;
    assert Feed(Drain(s[..n]), s[n..]) == Drained([], s, Some(TooBigLine));
  }

  lemma ConsInjective(args: Args, d: Drained, e: Drained)
    requires Cons(args, d) == Cons(args, e)
    ensures d == e
  {
    var one: seq<Args> := if args == [] then [] else [args];
    assert d.cmds == (one + d.cmds)[|one|..] && e.cmds == (one + e.cmds)[|one|..];
  }

  /** A command is already there once the bytes it uses are there. */
  lemma PrefixCommand(s: bytes, n: nat)
    requires ParseFrame(s).Command? && ParseFrame(s).used <= n <= |s|
    ensures ParseFrame(s[..n]) == ParseFrame(s)
  {
    hide ParseLen, Words, WithoutCr, ParseArgs;
    LineOfPrefix(s, n, 0);
    var nl := Newline(s, 0).value;
    if s[0] != ASTERISK {
      assert s[..n][..nl] == s[..nl];
      return;
    }
    assert s[..n][1..nl] == s[1..nl];
    if ParseLen(s[1..nl], BadArrayHeader).value.Some? {
      PrefixArgs(s, n, nl + 1, ParseLen(s[1..nl], BadArrayHeader).value.value, []);
    }
  }

  lemma {:induction false} PrefixArgs(s: bytes, n: nat, pos: nat, count: nat, args: Args)
    requires pos <= |s|
    requires ParseArgs(s, pos, count, args).Command? && ParseArgs(s, pos, count, args).used <= n <= |s|
    ensures pos <= n && ParseArgs(s[..n], pos, count, args) == ParseArgs(s, pos, count, args)
    decreases count
  {
    hide BulkAt;
    if count > 0 {
      var item := BulkAt(s, pos);
      PrefixArgs(s, n, item.next, count - 1, args + [item.data]);
      BulkOfPrefix(s, n, pos);
    }
  }

  /**
   * Chunk independence, exactly: every way of cutting a stream into reads
   * gives the commands, leftover and first error of parsing it whole if and
   * only if its header lines fit the limit.
   */
  lemma ChunkIndependence(stream: bytes)
    ensures (forall chunks: seq<bytes> :: Concat(chunks) == stream ==> FeedAll(FRESH, chunks) == Drain(stream))
       <==> StreamOk(stream)
  {
    if StreamOk(stream) {
      forall chunks: seq<bytes> | Concat(chunks) == stream
        ensures FeedAll(FRESH, chunks) == Drain(stream)
      {
        assert [] + Concat(chunks) == stream;
        assert Drain([]) == FRESH;
        FeedAllDrained([], chunks);
      }
    } else {
      var n := LongLineShows(stream);
      FeedTwo(stream, n);
      assert FeedAll(FRESH, [stream[..n], stream[n..]]) != Drain(stream);
    }
  }

  /** An inline command one byte over the line limit. */
  const LONG_LINE: bytes := seq(MAX_LINE + 1, _ => 97) + [LF]

  /** Cut before its end it is refused; read whole it is accepted. */
  lemma LongLineInput()
    ensures Drain(LONG_LINE).error.None?
    ensures Feed(Drain(LONG_LINE[..MAX_LINE + 1]), LONG_LINE[MAX_LINE + 1..]).error == Some(TooBigLine)
  {
    hide Words, WithoutCr, ParseLen, ParseArgs;
    var s, n := LONG_LINE, MAX_LINE + 1;
    assert s[n] == LF && forall i :: 0 <= i < n ==> s[i] == 97;
    assert Newline(s, 0) == Some(n) by {
      if Newline(s, 0).Some? {
        assert s[Newline(s, 0).value] == LF;
      }
    }
    assert ParseFrame(s).Command? && s[ParseFrame(s).used..] == [];
    var cut := s[..n];
    assert forall i :: 0 <= i < |cut| ==> cut[i] != LF;
    assert Newline(cut, 0).None?;
    assert ParseFrame(cut) == Malformed(TooBigLine);
  }
}
