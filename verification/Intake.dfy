/**
 * Commands taken from the front of a byte stream, and what of it is left:
 * the relation that lets a connection's input be split between the bytes
 * already run, the bytes being run and the bytes still buffered.
 */
module Intake {
  import opened Base
  import opened Resp
  import opened Chunks

  /** Parsing some frames off `stream` gives exactly `cmds` and leaves `rest`. */
  ghost predicate Took(stream: bytes, cmds: seq<Args>, rest: bytes)
    decreases |stream|
  {
    || (cmds == [] && rest == stream)
    || match ParseFrame(stream)
       case Command(args, used) =>
         if args == [] then Took(stream[used..], cmds, rest)
         else cmds != [] && cmds[0] == args && Took(stream[used..], cmds[1..], rest)
       case _ => false
  }

  /** Taking everything that is complete. */
  lemma {:induction false} TookAll(buf: bytes)
    ensures Took(buf, Drain(buf).cmds, Drain(buf).rest)
    decreases |buf|
  {
    hide ParseFrame;
    FrameBounds(buf);
    match ParseFrame(buf)
    case Command(args, used) =>
      TookAll(buf[used..]);
      assert args != [] ==> ([args] + Drain(buf[used..]).cmds)[1..] == Drain(buf[used..]).cmds;
      assert [] + Drain(buf[used..]).cmds == Drain(buf[used..]).cmds;
    case _ =>
  }

  lemma {:induction false} TookThen(s: bytes, a: seq<Args>, mid: bytes, b: seq<Args>, rest: bytes)
    requires Took(s, a, mid) && Took(mid, b, rest)
    ensures Took(s, a + b, rest)
    decreases |s|
  {
    hide ParseFrame;
    FrameBounds(s);
    if a == [] && mid == s {
      assert a + b == b;
    } else {
      var f := ParseFrame(s);
      if f.args == [] {
        TookThen(s[f.used..], a, mid, b, rest);
      } else {
        TookThen(s[f.used..], a[1..], mid, b, rest);
        assert (a + b)[1..] == a[1..] + b;
      }
    }
  }

  /** Bytes that arrive later end up behind what is left. */
  lemma {:induction false} TookMore(s: bytes, cmds: seq<Args>, rest: bytes, more: bytes)
    requires Took(s, cmds, rest)
    ensures Took(s + more, cmds, rest + more)
    decreases |s|
  {
    hide ParseFrame;
    FrameBounds(s);
    if !(cmds == [] && rest == s) {
      CommandStable(s, more);
      var f := ParseFrame(s);
      assert (s + more)[f.used..] == s[f.used..] + more;
      TookMore(s[f.used..], if f.args == [] then cmds else cmds[1..], rest, more);
    }
  }

  /** The commands of the stream are those taken and those still to be found in the rest. */
  lemma {:induction false} TookSplits(s: bytes, cmds: seq<Args>, rest: bytes)
    requires Took(s, cmds, rest)
    ensures Drain(s).cmds == cmds + Drain(rest).cmds
    decreases |s|
  {
    hide ParseFrame;
    FrameBounds(s);
    if cmds == [] && rest == s {
      assert cmds + Drain(rest).cmds == Drain(s).cmds;
    } else {
      var f := ParseFrame(s);
      var tail := if f.args == [] then cmds else cmds[1..];
      TookSplits(s[f.used..], tail, rest);
      if f.args != [] {
        assert cmds == [f.args] + tail;
        assert [f.args] + (tail + Drain(rest).cmds) == cmds + Drain(rest).cmds;
      } else {
        assert [] + Drain(s[f.used..]).cmds == Drain(s[f.used..]).cmds;
      }
    }
  }

  /** Later input only adds commands. */
  lemma DrainGrows(s: bytes, more: bytes)
    ensures Drain(s).cmds <= Drain(s + more).cmds
  {
    TookAll(s);
    TookMore(s, Drain(s).cmds, Drain(s).rest, more);
    TookSplits(s + more, Drain(s).cmds, Drain(s).rest + more);
    hide Drain, Took;
  }
}
