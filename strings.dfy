/**
 * Go's `strings.Split(s, sep)` for a one-character separator, and its inverse
 * `strings.Join`. Go splits a string with n occurrences of the separator into
 * exactly n + 1 parts (so the empty string splits into one empty part), and
 * no part contains the separator.
 */
module Strings {

  /** Index of the first occurrence of `c` in `s`, or `|s|` if there is none. */
  function FirstIndexOf(s: string, c: char): (k: nat)
    ensures k <= |s|
    ensures c !in s[..k]
    ensures k < |s| ==> s[k] == c
    ensures k == |s| <==> c !in s
    decreases |s|
  {
    if s == [] then 0
    else if s[0] == c then 0
    else
      var k := 1 + FirstIndexOf(s[1..], c);
      assert s[..k] == [s[0]] + s[1..][..k - 1];
      k
  }

  /**
   * `strings.Split(s, string(sep))`: like Go, repeatedly cut at the first
   * remaining separator.
   */
  function Split(s: string, sep: char): (parts: seq<string>)
    ensures |parts| == multiset(s)[sep] + 1
    decreases |s|
  {
    var k := FirstIndexOf(s, sep);
    if k == |s| then [s]
    else
      assert s == s[..k] + [sep] + s[k + 1..];
      [s[..k]] + Split(s[k + 1..], sep)
  }

  /** `strings.Join(parts, string(sep))`. */
  function Join(parts: seq<string>, sep: char): (s: string)
    decreases |parts|
  {
    if |parts| == 0 then []
    else if |parts| == 1 then parts[0]
    else parts[0] + [sep] + Join(parts[1..], sep)
  }

  /** The first position of `c` in `a + x` is its first position in `a` when `a` holds one. */
  lemma {:induction false} FirstIndexOfAppend(a: string, x: string, c: char)
    requires c in a
    ensures FirstIndexOf(a + x, c) == FirstIndexOf(a, c)
    decreases |a|
  {
    if a[0] != c {
      assert (a + x)[1..] == a[1..] + x;
      FirstIndexOfAppend(a[1..], x, c);
    }
  }

  /** ... and is `|a|` plus its position in `x` when `a` holds none. */
  lemma {:induction false} FirstIndexOfAfter(a: string, x: string, c: char)
    requires c !in a
    ensures FirstIndexOf(a + x, c) == |a| + FirstIndexOf(x, c)
    decreases |a|
  {
    if a == [] {
      assert a + x == x;
    } else {
      assert (a + x)[1..] == a[1..] + x;
      FirstIndexOfAfter(a[1..], x, c);
    }
  }

  /** No part of a split contains the separator. */
  lemma {:induction false} SplitPartsFree(s: string, sep: char)
    ensures forall i :: 0 <= i < |Split(s, sep)| ==> sep !in Split(s, sep)[i]
    decreases |s|
  {
    var k := FirstIndexOf(s, sep);
    if k < |s| {
      SplitPartsFree(s[k + 1..], sep);
    }
  }

  /** Joining the parts of a split gives back the string. */
  lemma {:induction false} JoinSplit(s: string, sep: char)
    ensures Join(Split(s, sep), sep) == s
    decreases |s|
  {
    var k := FirstIndexOf(s, sep);
    if k < |s| {
      var head, rest := s[..k], s[k + 1..];
      var tail := Split(rest, sep);
      assert Split(s, sep) == [head] + tail;
      assert |tail| >= 1;
      assert Join([head] + tail, sep) == head + [sep] + Join(tail, sep) by {
        assert ([head] + tail)[0] == head && ([head] + tail)[1..] == tail;
      }
      JoinSplit(rest, sep);
      assert s == head + [sep] + rest;
    }
  }

  /**
   * Splitting is the inverse of joining: a non-empty sequence of parts free
   * of the separator is recovered from their join. Together with
   * SplitPartsFree and JoinSplit this says `Split(s, sep)` is the unique
   * separator-free decomposition of `s`.
   */
  lemma {:induction false} SplitJoin(parts: seq<string>, sep: char)
    requires |parts| >= 1
    requires forall i :: 0 <= i < |parts| ==> sep !in parts[i]
    ensures Split(Join(parts, sep), sep) == parts
    decreases |parts|
  {
    var p0 := parts[0];
    if |parts| == 1 {
      assert FirstIndexOf(p0, sep) == |p0|;
    } else {
      var others := parts[1..];
      assert parts == [p0] + others;
      var rest := Join(others, sep);
      var s := Join(parts, sep);
      assert s == p0 + ([sep] + rest);
      FirstIndexOfAfter(p0, [sep] + rest, sep);
      var k := |p0|;
      assert s[..k] == p0 && s[k + 1..] == rest;
      assert Split(s, sep) == [p0] + Split(rest, sep);
      SplitJoin(others, sep);
    }
  }

  /** Splitting `a + [sep] + b` when neither half holds the separator. */
  lemma SplitPair(a: string, b: string, sep: char)
    requires sep !in a && sep !in b
    ensures Split(a + [sep] + b, sep) == [a, b]
  {
    assert Join([a, b], sep) == a + [sep] + b;
    SplitJoin([a, b], sep);
  }

  /** The first part of a split is the text before the first separator. */
  lemma SplitFirst(s: string, sep: char)
    ensures Split(s, sep)[0] == s[..FirstIndexOf(s, sep)]
  {
  }

  /** A string splits into one part exactly when it holds no separator. */
  lemma SplitOnePart(s: string, sep: char)
    ensures |Split(s, sep)| == 1 <==> sep !in s
  {
  }
}
