/**
 * Inline commands: a line of words. What splitting it means, which lines come back
 * word for word, and where the two readers of the protocol agree.
 */
module Inline {
  import opened Base
  import opened Text
  import opened Resp
  import opened Wire

  // ------------------------------------------------------------ what splitting means

  /** Not empty, and without a blank. */
  predicate Word(w: bytes) { w != [] && SPACE !in w }

  lemma {:induction false} WordsAreWords(line: bytes, word: bytes)
    requires SPACE !in word
    ensures forall w :: w in Words(line, word) ==> Word(w)
    decreases |line|
  {
    if line != [] {
      WordsAreWords(line[1..], []);
      if line[0] != SPACE {
        WordsAreWords(line[1..], word + [line[0]]);
      }
    }
  }

  lemma {:induction false} WordsFrom(a: bytes, b: bytes, word: bytes)
    ensures Words(a + [SPACE] + b, word) == Words(a, word) + Words(b, [])
    decreases |a|
  {
    var line := a + [SPACE] + b;
    if a == [] {
      assert line[1..] == b;
    } else {
      assert line[1..] == a[1..] + [SPACE] + b;
      if a[0] == SPACE {
        WordsFrom(a[1..], b, []);
      } else {
        WordsFrom(a[1..], b, word + [a[0]]);
      }
    }
  }

  /** A blank separates: the words before it, then the words after it. */
  lemma BlankSeparates(a: bytes, b: bytes)
    ensures Words(a + [SPACE] + b, []) == Words(a, []) + Words(b, [])
  {
    WordsFrom(a, b, []);
  }

  lemma {:induction false} OneWord(line: bytes, word: bytes)
    requires SPACE !in line && word + line != []
    ensures Words(line, word) == [word + line]
    decreases |line|
  {
    if line == [] {
      assert word + line == word;
    } else {
      assert (word + [line[0]]) + line[1..] == word + line;
      OneWord(line[1..], word + [line[0]]);
    }
  }

  /** A word is one word. */
  lemma WordAlone(w: bytes)
    requires Word(w)
    ensures Words(w, []) == [w]
  {
    OneWord(w, []);
    assert [] + w == w;
  }

  predicate AllWords(args: Args) { forall i :: 0 <= i < |args| ==> Word(args[i]) }

  /** Words joined by blanks come back, and nothing else does. */
  lemma {:induction false} JoinedWords(args: Args)
    ensures Words(Join(args, SPACE), []) == args <==> AllWords(args)
    decreases |args|
  {
    if AllWords(args) {
      if |args| == 1 {
        WordAlone(args[0]);
      } else if |args| > 1 {
        WordAlone(args[0]);
        BlankSeparates(args[0], Join(args[1..], SPACE));
        JoinedWords(args[1..]);
        assert [args[0]] + args[1..] == args;
      }
    } else if Words(Join(args, SPACE), []) == args {
      WordsAreWords(Join(args, SPACE), []);
      forall i | 0 <= i < |args| ensures Word(args[i]) {
        assert args[i] in args;
      }
      assert false;
    }
  }

  /** The pieces between blanks that are not empty. */
  function Filled(pieces: seq<bytes>): seq<bytes> {
    if pieces == [] then [] else (if pieces[0] == [] then [] else [pieces[0]]) + Filled(pieces[1..])
  }

  /** Splitting into words is splitting at blanks and dropping the empty pieces. */
  lemma {:induction false} WordsAreFilledPieces(line: bytes)
    ensures Words(line, []) == Filled(Split(line, SPACE))
    decreases |line|
  {
    if i :| 0 <= i < |line| && line[i] == SPACE {
      var k := FirstBlank(line, i);
      var a, b := line[..k], line[k + 1..];
      assert line == a + [SPACE] + b && line == a + ([SPACE] + b);
      BlankSeparates(a, b);
      SplitPrefix(a, [SPACE] + b, SPACE);
      assert ([SPACE] + b)[1..] == b && a + [] == a;
      WordsAreFilledPieces(b);
      if a != [] {
        WordAlone(a);
      }
    } else {
      SplitPrefix(line, [], SPACE);
      assert line + [] == line;
      if line != [] {
        WordAlone(line);
      }
    }
  }

  lemma {:induction false} FirstBlank(line: bytes, i: nat) returns (k: nat)
    requires i < |line| && line[i] == SPACE
    ensures k < |line| && line[k] == SPACE && SPACE !in line[..k]
    decreases i
  {
    if SPACE in line[..i] {
      var j :| 0 <= j < i && line[j] == SPACE;
      k := FirstBlank(line, j);
    } else {
      k := i;
    }
  }

  // ------------------------------------------------------------ lines that come back

  /** What an inline line can carry: words without line ends, the first not starting like an array. */
  predicate Speakable(args: Args) {
    && (forall i :: 0 <= i < |args| ==> Word(args[i]) && LF !in args[i])
    && (args != [] ==> args[0][0] != ASTERISK)
  }

  lemma FirstLine(line: bytes, post: bytes)
    requires LF !in line
    ensures var s := line + [CR, LF] + post;
      && Newline(s, 0) == Some(|line| + 1) && s[..|line| + 1] == line + [CR] && s[|line| + 2..] == post
      && (line != [] ==> s[0] == line[0]) && (line == [] ==> s[0] == CR)
  {
    var s := line + [CR, LF] + post;
    assert s == (line + [CR]) + ([LF] + post);
    forall i | 0 <= i < |line| + 1 ensures s[i] != LF {
      assert s[i] == (line + [CR])[i];
    }
    assert s[|line| + 1] == LF;
    NewlineIs(s, 0, |line| + 1);
    hide Newline;
  }

  lemma {:induction false} JoinStarts(args: Args)
    requires args != [] && args[0] != []
    ensures Join(args, SPACE) != [] && Join(args, SPACE)[0] == args[0][0]
  {
  }

  /** An inline frame: the words of its line, used up to the line end. */
  lemma InlineFrame(line: bytes, post: bytes)
    requires LF !in line && (line != [] ==> line[0] != ASTERISK)
    ensures ParseFrame(line + [CR, LF] + post) == Command(Words(line, []), |line| + 2)
  {
    hide Words, ParseLen, ParseArgs, Newline;
    FirstLine(line, post);
    assert (line + [CR])[..|line|] == line;
  }

  /** Words joined by blanks on a line of their own come back exactly if an inline line can carry them. */
  lemma InlineRoundTrip(args: Args, post: bytes)
    ensures ParseFrame(Join(args, SPACE) + [CR, LF] + post) == Command(args, |Join(args, SPACE)| + 2) <==>
      Speakable(args)
  {
    hide Words, ParseFrame, Join, Newline;
    var line := Join(args, SPACE);
    if Speakable(args) {
      JoinKeepsOut(args, SPACE, LF);
      if args != [] {
        JoinStarts(args);
      } else {
        JoinNothing();
      }
      InlineFrame(line, post);
      JoinedWords(args);
    } else if ParseFrame(line + [CR, LF] + post) == Command(args, |line| + 2) {
      InlineOnly(args, line, post);
    }
  }

  lemma JoinNothing()
    ensures Join([], SPACE) == []
  {
  }

  lemma InlineOnly(args: Args, line: bytes, post: bytes)
    requires ParseFrame(line + [CR, LF] + post) == Command(args, |line| + 2) && line == Join(args, SPACE)
    ensures Speakable(args)
  {
    hide Words, ParseLen, Join, Newline;
    var s := line + [CR, LF] + post;
    if s[0] == ASTERISK {
      hide ParseFrame;
      ArrayIsLong(s);
      JoinIsShort(args);
      if args == [] {
        JoinNothing();
      }
      assert false;
    } else {
      var nl := Newline(s, 0).value;
      assert nl == |line| + 1;
      NoEarlierEnd(s, nl, line);
      FirstLine(line, post);
      assert (line + [CR])[..|line|] == line;
      JoinedWords(args);
      JoinedLack(args, LF);
      if args != [] {
        JoinStarts(args);
      }
    }
  }

  lemma NoEarlierEnd(s: bytes, nl: nat, line: bytes)
    requires |line| + 1 == nl < |s| && s[..|line|] == line && Newline(s, 0) == Some(nl)
    ensures LF !in line
  {
    assert forall i :: 0 <= i < nl ==> s[i] != LF;
    hide Newline;
    forall i | 0 <= i < |line| ensures line[i] != LF {
      assert s[..|line|][i] == s[i];
    }
  }

  lemma {:induction false} JoinedLack(args: Args, b: byte)
    requires b !in Join(args, SPACE) && b != SPACE
    ensures forall i :: 0 <= i < |args| ==> b !in args[i]
    decreases |args|
  {
    if |args| > 1 {
      JoinedLack(args[1..], b);
      forall i | 0 <= i < |args| ensures b !in args[i] {
        if i > 0 {
          assert args[i] == args[1..][i - 1];
        } else {
          assert Join(args, SPACE) == args[0] + ([SPACE] + Join(args[1..], SPACE));
        }
      }
    }
  }

  function Bytes(args: Args): nat {
    if args == [] then 0 else |args[0]| + Bytes(args[1..])
  }

  lemma {:induction false} JoinIsShort(args: Args)
    ensures |Join(args, SPACE)| <= Bytes(args) + |args|
    decreases |args|
  {
    if args != [] {
      JoinIsShort(args[1..]);
    }
  }

  lemma {:induction false} BytesAdd(a: Args, b: Args)
    ensures Bytes(a + b) == Bytes(a) + Bytes(b)
    decreases |a|
  {
    if a == [] {
      assert a + b == b;
    } else {
      assert (a + b)[1..] == a[1..] + b;
      BytesAdd(a[1..], b);
    }
  }

  lemma {:induction false} ItemsAreLong(buf: bytes, pos: nat, count: nat, args: Args)
    requires pos <= |buf| && ParseArgs(buf, pos, count, args).Command?
    ensures var f := ParseArgs(buf, pos, count, args); f.used + Bytes(args) >= pos + Bytes(f.args) + 4 * count
    decreases count
  {
    hide ParseLen, Newline;
    if count > 0 {
      var item := BulkAt(buf, pos);
      assert item.next >= pos + |item.data| + 4;
      BytesAdd(args, [item.data]);
      ItemsAreLong(buf, item.next, count - 1, args + [item.data]);
    }
  }

  /** Framing costs at least four bytes an argument, and two for the array. */
  lemma ArrayIsLong(s: bytes)
    requires s != [] && s[0] == ASTERISK && ParseFrame(s).Command?
    ensures var f := ParseFrame(s); f.used >= 2 + Bytes(f.args) + 4 * |f.args|
  {
    hide ParseLen, Newline, ParseArgs;
    var nl := Newline(s, 0).value;
    match ParseLen(s[1..nl], BadArrayHeader)
    case Ok(Some(count)) => ItemsAreLong(s, nl + 1, count, []);
    case _ =>
  }

  // ------------------------------------------------------------ the two readers

  /** How many bytes of a line are no blanks. */
  function Ink(line: bytes): nat {
    if line == [] then 0 else (if line[0] == SPACE then 0 else 1) + Ink(line[1..])
  }

  lemma {:induction false} WordsWeigh(line: bytes, word: bytes)
    ensures Bytes(Words(line, word)) == |word| + Ink(line)
    decreases |line|
  {
    if line == [] {
    } else if line[0] == SPACE {
      WordsWeigh(line[1..], []);
      BytesAdd(if word == [] then [] else [word], Words(line[1..], []));
    } else {
      WordsWeigh(line[1..], word + [line[0]]);
    }
  }

  lemma {:induction false} InkSnoc(line: bytes, b: byte)
    ensures Ink(line + [b]) == Ink(line) + if b == SPACE then 0 else 1
    decreases |line|
  {
    if line != [] {
      assert (line + [b])[1..] == line[1..] + [b];
      InkSnoc(line[1..], b);
    }
  }

  lemma {:induction false} ChompedInk(line: bytes)
    requires LF !in line
    ensures Ink(Chomp(line)) <= Ink(line)
    ensures Chomp(line) != line ==> Ink(Chomp(line)) < Ink(line)
    ensures Chomp(line) != line <==> line != [] && line[|line| - 1] == CR
    ensures Chomp(line) != [] ==> line != [] && Chomp(line)[0] == line[0]
    decreases |line|
  {
    if line != [] && line[|line| - 1] == CR {
      var n := |line| - 1;
      assert line == line[..n] + [CR];
      InkSnoc(line[..n], CR);
      ChompedInk(line[..n]);
    }
  }

  /** Both readers split the line; they differ in the carriage returns they take off it. */
  lemma InlineReads(s: bytes)
    requires ParseFrame(s).Command? && s[0] != ASTERISK
    ensures Newline(s, 0).Some?
    ensures var nl := Newline(s, 0).value; var line := WithoutCr(s[..nl]);
      && LF !in line
      && ParseFrame(s) == Command(Words(line, []), nl + 1)
      && ReadCommand(s) == Ok((Some(Words(Chomp(line), [])), s[nl + 1..]))
  {
    hide Words, ParseLen, ParseArgs, Newline, ReadItems, Chomp;
    var nl := Newline(s, 0).value;
    var whole := s[..nl];
    NoLineEndBefore(s, nl);
    assert forall i :: 0 <= i < nl ==> whole[i] != LF;
    assert s[..nl + 1] == whole + [LF];
    ChompLf(whole);
    ChompOnce(whole);
    ChompedInk(WithoutCr(whole));
    if Chomp(WithoutCr(whole)) == [] {
      NoWords();
    }
  }

  /** Taking carriage returns off a line changes its words. */
  lemma ChompingShows(line: bytes)
    requires LF !in line
    ensures Words(Chomp(line), []) == Words(line, []) <==> line == [] || line[|line| - 1] != CR
  {
    hide Words, Chomp;
    ChompedInk(line);
    WordsWeigh(line, []);
    WordsWeigh(Chomp(line), []);
  }

  /**
   * On every inline line the blocking reader takes the same command and rest, exactly
   * unless the line ends in more than one carriage return: the incremental parser takes
   * one of them away, the blocking reader all.
   */
  lemma InlineReadersAgree(s: bytes)
    requires ParseFrame(s).Command? && s[0] != ASTERISK
    ensures Newline(s, 0).Some?
    ensures var f := ParseFrame(s); var line := WithoutCr(s[..Newline(s, 0).value]);
      ReadCommand(s) == Ok((Some(f.args), s[f.used..])) <==> line == [] || line[|line| - 1] != CR
  {
    hide ParseFrame, ReadCommand, Words, Chomp, Newline;
    InlineReads(s);
    ChompingShows(WithoutCr(s[..Newline(s, 0).value]));
  }

  lemma NoWords()
    ensures Words([], []) == []
  {
  }

  lemma NoLineEndBefore(s: bytes, nl: nat)
    requires Newline(s, 0) == Some(nl)
    ensures nl < |s| && s[nl] == LF && forall i :: 0 <= i < nl ==> s[i] != LF
  {
  }

  lemma ChompOnce(line: bytes)
    ensures Chomp(line) == Chomp(WithoutCr(line))
  {
  }
}
