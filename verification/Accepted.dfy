/**
 * What the incremental parser accepts as an array frame, read the other way: from the
 * command back to the bytes. What a length header means, and what draining a buffer takes.
 */
module Accepted {
  import opened Base
  import opened Resp
  import opened Chunks
  import opened Wire

  // ------------------------------------------------------------ headers

  /** A number as text, with a sign if it is below zero. */
  function Printed(n: int): bytes {
    if n < 0 then [MINUS] + Decimal(-n) else Decimal(n)
  }

  predicate AsciiBlank(b: byte) { b == 32 || b == 9 || b == 10 || b == 11 || b == 12 || b == 13 }

  /**
   * A header that prints a number is that number if it is a length, the null form if it
   * is -1, and an error if it is below -1 or does not fit 64 bits.
   */
  lemma HeaderMeans(n: int, what: Error)
    ensures ParseLen(Printed(n), what) ==
      if n == -1 then Ok(None)
      else if 0 <= n <= 0x7FFF_FFFF_FFFF_FFFF then Ok(Some(n))
      else Err(what)
  {
    var k: nat := if n < 0 then -n else n;
    DecimalDigits(k);
    var d := Decimal(k);
    hide Decimal, DigitsValue, TrimStart, TrimEnd;
    assert d != [] && IsDigit(d[0]) && IsDigit(d[|d| - 1]);
    var s := Printed(n);
    if n < 0 {
      assert s[1..] == d && s[|s| - 1] == d[|d| - 1];
    }
    Solid(s);
  }

  lemma Solid(s: bytes)
    requires s != [] && 33 <= s[0] < 128 && 33 <= s[|s| - 1] < 128
    ensures TrimEnd(TrimStart(s)) == s
  {
  }

  /** A blank in front of a header makes no difference. */
  lemma BlankBefore(b: byte, x: bytes, what: Error)
    requires AsciiBlank(b) && x != []
    ensures ParseLen([b] + x, what) == ParseLen(x, what)
  {
    var y := WithoutCr(x);
    assert [b] + x == ([b] + x)[..|x|] + [x[|x| - 1]];
    assert WithoutCr([b] + x) == [b] + y;
    assert ([b] + y)[1..] == y;
    hide ParseI64, TrimEnd;
    assert TrimStart([b] + y) == TrimStart(y);
  }

  /** Nothing but a sign and digits is a length. */
  lemma OnlyDigits(s: bytes, what: Error)
    requires s != [] && 33 <= s[0] < 128 && 33 <= s[|s| - 1] < 128
    requires ParseLen(s, what).Ok?
    ensures forall i :: 0 < i < |s| ==> 48 <= s[i] <= 57
    ensures 48 <= s[0] <= 57 || (|s| > 1 && (s[0] == 43 || s[0] == 45))
  {
    Solid(s);
    hide TrimStart, TrimEnd, DigitsValue;
  }

  // ------------------------------------------------------------ accepted frames

  /** One item: its header line, its bytes, and CR LF. */
  ghost predicate ItemSpans(s: bytes, pos: nat, next: nat, arg: bytes) {
    exists nl: nat ::
      && pos < nl && next == nl + 1 + |arg| + 2 <= |s|
      && s[pos] == 36 && s[nl] == 10 && (forall i :: pos <= i < nl ==> s[i] != 10)
      && ParseLen(s[pos + 1..nl], BadBulkLen) == Ok(Some(|arg|)) && |arg| <= 512 * 1024 * 1024
      && s[nl + 1..nl + 1 + |arg|] == arg && s[next - 2] == 13 && s[next - 1] == 10
  }

  /** Item after item, the cuts between them at `at`. */
  ghost predicate ItemsSpan(s: bytes, at: seq<nat>, args: Args) {
    && |at| == |args| + 1
    && forall i :: 0 <= i < |args| ==> ItemSpans(s, at[i], at[i + 1], args[i])
  }

  lemma ItemAccepted(s: bytes, pos: nat)
    requires pos <= |s| && BulkAt(s, pos).Item?
    ensures ItemSpans(s, pos, BulkAt(s, pos).next, BulkAt(s, pos).data)
  {
    hide ParseLen;
    var nl := Newline(s, pos).value;
    var b := BulkAt(s, pos);
    var tail := s[nl + 1 + |b.data|..b.next];
    assert tail[0] == s[b.next - 2] && tail[1] == s[b.next - 1];
    hide Newline;
  }

  lemma {:induction false} ItemsAccepted(s: bytes, pos: nat, count: nat, was: Args) returns (at: seq<nat>)
    requires pos <= |s| && ParseArgs(s, pos, count, was).Command?
    ensures var f := ParseArgs(s, pos, count, was);
      && |was| <= |f.args| && f.args[..|was|] == was
      && ItemsSpan(s, at, f.args[|was|..]) && at[0] == pos && at[|at| - 1] == f.used
    decreases count
  {
    hide BulkAt, ItemSpans;
    if count == 0 {
      at := [pos];
      assert was[..|was|] == was && was[|was|..] == [];
    } else {
      var item := BulkAt(s, pos);
      ItemAccepted(s, pos);
      var rest := ItemsAccepted(s, item.next, count - 1, was + [item.data]);
      at := [pos] + rest;
      var args := ParseArgs(s, pos, count, was).args;
      assert args[..|was| + 1][..|was|] == args[..|was|];
      assert args[|was|] == args[..|was| + 1][|was|] == item.data;
      assert args[|was|..] == [item.data] + args[|was| + 1..];
    }
  }

  /**
   * An accepted array frame is a header line that counts the arguments, or none for the
   * null form, and then the arguments, each behind its own length and before CR LF, and
   * nothing else.
   */
  lemma ArrayAccepted(s: bytes) returns (nl: nat, at: seq<nat>)
    requires s != [] && s[0] == 42 && ParseFrame(s).Command?
    ensures nl < |s| && s[nl] == 10 && (forall i :: 0 <= i < nl ==> s[i] != 10) && nl > 0
    ensures var f := ParseFrame(s);
      match ParseLen(s[1..nl], BadArrayHeader)
      case Ok(Some(count)) =>
        count == |f.args| <= 1024 * 1024 && ItemsSpan(s, at, f.args) && at[0] == nl + 1 && at[|at| - 1] == f.used
      case Ok(None) => f.args == [] && f.used == nl + 1
      case Err(_) => false
  {
    hide ParseLen, BulkAt, ItemSpans;
    nl := Newline(s, 0).value;
    at := [];
    match ParseLen(s[1..nl], BadArrayHeader)
    case Ok(Some(count)) =>
      at := ItemsAccepted(s, nl + 1, count, []);
      var f := ParseFrame(s);
      assert f.args[0..] == f.args;
      SpanCounts(s, nl + 1, count, []);
    case _ =>
  }

  lemma SpanCounts(s: bytes, pos: nat, count: nat, args: Args)
    requires pos <= |s| && ParseArgs(s, pos, count, args).Command?
    ensures |ParseArgs(s, pos, count, args).args| == |args| + count
  {
    hide BulkAt;
  }

  // ------------------------------------------------------------ a whole buffer

  /** The commands that say something. */
  ghost function Spoken(all: seq<Args>): seq<Args> {
    if all == [] then [] else (if all[0] == [] then [] else [all[0]]) + Spoken(all[1..])
  }

  /** The buffer holds these commands one behind the other, command `i` from `at[i]` to `at[i + 1]`. */
  ghost predicate FramesSpan(buf: bytes, at: seq<nat>, all: seq<Args>) {
    && |at| == |all| + 1 && at[0] == 0
    && (forall i :: 0 <= i < |at| ==> at[i] <= |buf|)
    && (forall i :: 0 <= i < |all| ==>
          at[i] < at[i + 1] && ParseFrame(buf[at[i]..]) == Command(all[i], at[i + 1] - at[i]))
  }

  /** The same behind a first frame. */
  lemma FramesShift(buf: bytes, used: nat, first: Args, at: seq<nat>, all: seq<Args>)
    requires ParseFrame(buf) == Command(first, used) && 0 < used <= |buf| && FramesSpan(buf[used..], at, all)
    ensures FramesSpan(buf, [0] + seq(|at|, i requires 0 <= i < |at| => used + at[i]), [first] + all)
  {
    hide ParseFrame;
    var more := seq(|at|, i requires 0 <= i < |at| => used + at[i]);
    var at', all' := [0] + more, [first] + all;
    assert buf[0..] == buf;
    forall i | 0 <= i < |all'|
      ensures at'[i] < at'[i + 1] && ParseFrame(buf[at'[i]..]) == Command(all'[i], at'[i + 1] - at'[i])
    {
      if i > 0 {
        assert buf[at'[i]..] == buf[used..][at[i - 1]..];
      }
    }
  }

  /** What draining gives, read off the commands that are there and where the last one ends. */
  ghost predicate DrainedAs(d: Drained, buf: bytes, end: nat, all: seq<Args>) {
    && end <= |buf| && d.cmds == Spoken(all) && d.rest == buf[end..]
    && match ParseFrame(buf[end..])
       case Incomplete => d.error.None?
       case Malformed(e) => d.error == Some(e)
       case Command(_, _) => false
  }

  lemma SpokenFirst(first: Args, all: seq<Args>)
    ensures Spoken([first] + all) == (if first == [] then [] else [first]) + Spoken(all)
  {
    assert ([first] + all)[1..] == all;
  }

  lemma DrainedShift(buf: bytes, used: nat, first: Args, end: nat, all: seq<Args>)
    requires ParseFrame(buf) == Command(first, used) && used <= |buf|
    requires DrainedAs(Drain(buf[used..]), buf[used..], end, all)
    ensures DrainedAs(Drain(buf), buf, used + end, [first] + all)
  {
    hide ParseFrame, Spoken;
    assert buf[used..][end..] == buf[used + end..];
    SpokenFirst(first, all);
  }

  lemma DrainedNothing(buf: bytes)
    requires !ParseFrame(buf).Command?
    ensures FramesSpan(buf, [0], []) && DrainedAs(Drain(buf), buf, 0, [])
  {
    hide ParseFrame;
    assert buf[0..] == buf;
  }

  /**
   * Draining a buffer takes the complete commands at its front, in order and without the empty ones, and
   * leaves the rest from the first frame that is not complete, with its error if it is malformed.
   */
  lemma {:induction false} DrainTakesFrames(buf: bytes) returns (at: seq<nat>, all: seq<Args>)
    ensures FramesSpan(buf, at, all) && DrainedAs(Drain(buf), buf, at[|at| - 1], all)
    decreases |buf|
  {
    FrameBounds(buf);
    hide ParseFrame, Drain, DrainedAs;
    match ParseFrame(buf)
    case Command(args, used) =>
      var at1, all1 := DrainTakesFrames(buf[used..]);
      FramesShift(buf, used, args, at1, all1);
      DrainedShift(buf, used, args, at1[|at1| - 1], all1);
      at := [0] + seq(|at1|, i requires 0 <= i < |at1| => used + at1[i]);
      all := [args] + all1;
    case _ =>
      DrainedNothing(buf);
      at, all := [0], [];
  }
}
