/**
 * Text as UTF-8 bytes: splitting, joining, and the letter case of ASCII.
 */
module Text {
  import opened Base

  // ------------------------------------------------------------ splitting and joining

  /** The pieces between separators; always at least one. */
  function Split(s: bytes, sep: byte): (r: seq<bytes>)
    ensures |r| > 0
  {
    if s == [] then [[]]
    else
      var r := Split(s[1..], sep);
      if s[0] == sep then [[]] + r else [[s[0]] + r[0]] + r[1..]
  }

  function Join(parts: seq<bytes>, sep: byte): bytes {
    if parts == [] then [] else if |parts| == 1 then parts[0] else parts[0] + [sep] + Join(parts[1..], sep)
  }

  predicate Free(parts: seq<bytes>, sep: byte) {
    forall i :: 0 <= i < |parts| ==> sep !in parts[i]
  }

  lemma {:induction false} SplitPrefix(a: bytes, rest: bytes, sep: byte)
    requires sep !in a
    ensures Split(a + rest, sep) == [a + Split(rest, sep)[0]] + Split(rest, sep)[1..]
    decreases |a|
  {
    var r := Split(rest, sep);
    if a == [] {
      assert a + rest == rest && a + r[0] == r[0];
    } else {
      assert (a + rest)[1..] == a[1..] + rest;
      SplitPrefix(a[1..], rest, sep);
      assert [a[0]] + (a[1..] + r[0]) == a + r[0];
    }
  }

  /** Splitting undoes joining when no part contains the separator. */
  lemma {:induction false} SplitJoin(parts: seq<bytes>, sep: byte)
    requires parts != [] && Free(parts, sep)
    ensures Split(Join(parts, sep), sep) == parts
    decreases |parts|
  {
    var a := parts[0];
    assert sep !in a;
    if |parts| == 1 {
      SplitPrefix(a, [], sep);
      assert a + [] == a;
    } else {
      var j := Join(parts[1..], sep);
      assert Join(parts, sep) == a + ([sep] + j);
      SplitPrefix(a, [sep] + j, sep);
      assert ([sep] + j)[1..] == j;
      SplitJoin(parts[1..], sep);
      assert a + [] == a;
    }
  }

  lemma {:induction false} SplitIsFree(s: bytes, sep: byte)
    ensures Free(Split(s, sep), sep)
    decreases |s|
  {
    if s != [] {
      SplitIsFree(s[1..], sep);
      var r := Split(s[1..], sep);
      assert sep !in r[0];
    }
  }

  /** Splitting at one byte does not bring in another. */
  lemma {:induction false} SplitKeepsOut(s: bytes, sep: byte, other: byte)
    requires other !in s
    ensures Free(Split(s, sep), other)
    decreases |s|
  {
    if s != [] {
      assert s == [s[0]] + s[1..];
      SplitKeepsOut(s[1..], sep, other);
      var r := Split(s[1..], sep);
      assert other !in r[0];
    }
  }

  lemma {:induction false} JoinKeepsOut(parts: seq<bytes>, sep: byte, other: byte)
    requires Free(parts, other) && other != sep
    ensures other !in Join(parts, sep)
    decreases |parts|
  {
    if |parts| > 0 {
      assert other !in parts[0];
      if |parts| > 1 {
        JoinKeepsOut(parts[1..], sep, other);
      }
    }
  }

  // ------------------------------------------------------------ letter case

  function LowerByte(b: byte): byte { if 65 <= b <= 90 then b + 32 else b }

  function UpperByte(b: byte): byte { if 97 <= b <= 122 then b - 32 else b }

  function Lower(s: bytes): (r: bytes)
    ensures |r| == |s| && forall i :: 0 <= i < |s| ==> r[i] == LowerByte(s[i])
  {
    if s == [] then [] else [LowerByte(s[0])] + Lower(s[1..])
  }

  function Upper(s: bytes): (r: bytes)
    ensures |r| == |s| && forall i :: 0 <= i < |s| ==> r[i] == UpperByte(s[i])
  {
    if s == [] then [] else [UpperByte(s[0])] + Upper(s[1..])
  }

  predicate NoLowerCase(s: bytes) {
    forall i :: 0 <= i < |s| ==> !(97 <= s[i] <= 122)
  }

  lemma UpperHasNoLower(s: bytes)
    ensures NoLowerCase(Upper(s))
  {
  }

  /** Upper case survives being printed in lower case. */
  lemma UpperLower(s: bytes)
    requires NoLowerCase(s)
    ensures Upper(Lower(s)) == s
  {
  }

  lemma CaseKeepsOut(s: bytes, b: byte)
    requires b !in s && b < 65
    ensures b !in Upper(s) && b !in Lower(s)
  {
  }
}
