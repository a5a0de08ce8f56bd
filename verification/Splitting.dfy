/** Splitting a sequence at a separator: the terminated lines, and the tail no separator ends.
    `Unsplit` is the independent reading: it puts lines and tail back together, and the two are
    inverse to each other. */
module Splitting {

  /** The lines of `s` that a separator terminates, without their separators. */
  function Lines<T(==)>(s: seq<T>, sep: T): (lines: seq<seq<T>>)
    decreases |s|
  {
    if sep !in s then []
    else
      var i := Find(s, sep);
      [s[..i]] + Lines(s[i + 1..], sep)
  }

  /** What follows the last separator. */
  function Tail<T(==)>(s: seq<T>, sep: T): (tail: seq<T>)
    ensures sep !in tail && |tail| <= |s|
    decreases |s|
  {
    if sep !in s then s else Tail(s[Find(s, sep) + 1..], sep)
  }

  /** The position of the first separator. */
  function Find<T(==)>(s: seq<T>, sep: T): (i: nat)
    requires sep in s
    ensures i < |s| && s[i] == sep && sep !in s[..i]
  {
    FindFrom(s, sep, 0)
  }

  function FindFrom<T(==)>(s: seq<T>, sep: T, from: nat): (i: nat)
    requires exists j :: from <= j < |s| && s[j] == sep
    ensures from <= i < |s| && s[i] == sep && forall j :: from <= j < i ==> s[j] != sep
    decreases |s| - from
  {
    if s[from] == sep then from else FindFrom(s, sep, from + 1)
  }

  function Unsplit<T>(lines: seq<seq<T>>, tail: seq<T>, sep: T): (s: seq<T>)
  {
    if lines == [] then tail else lines[0] + [sep] + Unsplit(lines[1..], tail, sep)
  }

  ghost predicate Free<T>(lines: seq<seq<T>>, sep: T) {
    forall i :: 0 <= i < |lines| ==> sep !in lines[i]
  }

  /** The first separator is the only position with a separator and none before it. */
  lemma FindAt<T>(s: seq<T>, sep: T, i: nat)
    requires i < |s| && s[i] == sep && sep !in s[..i]
    ensures Find(s, sep) == i
  {
    var j := Find(s, sep);
    forall k | 0 <= k < i ensures s[k] != sep { assert s[..i][k] == s[k]; }
    forall k | 0 <= k < j ensures s[k] != sep { assert s[..j][k] == s[k]; }
  }

  /** One line in front: the step every proof below takes. */
  lemma SplitFirst<T>(line: seq<T>, rest: seq<T>, sep: T)
    requires sep !in line
    ensures Lines(line + [sep] + rest, sep) == [line] + Lines(rest, sep)
    ensures Tail(line + [sep] + rest, sep) == Tail(rest, sep)
  {
    var s := line + [sep] + rest;
    assert s[|line|] == sep;
    assert s[..|line|] == line;
    FindAt(s, sep, |line|);
    assert s[|line| + 1..] == rest;
  }

  lemma UnsplitFirst<T>(line: seq<T>, lines: seq<seq<T>>, tail: seq<T>, sep: T)
    ensures Unsplit([line] + lines, tail, sep) == line + [sep] + Unsplit(lines, tail, sep)
  {
    assert ([line] + lines)[1..] == lines;
  }

  lemma FreeFirst<T>(line: seq<T>, lines: seq<seq<T>>, sep: T)
    requires sep !in line && Free(lines, sep)
    ensures Free([line] + lines, sep)
  {}

  lemma CutAt<T>(s: seq<T>, i: nat)
    requires i < |s|
    ensures s == s[..i] + [s[i]] + s[i + 1..]
  {}

  lemma Associates<T>(a: seq<T>, b: seq<T>, c: seq<T>)
    ensures a + b + c == a + (b + c)
  {}

  lemma Regroup<T>(a: seq<T>, b: seq<T>, c: seq<T>, d: seq<T>)
    ensures a + b + c + d == a + b + (c + d)
  {}

  /** The first line off a sequence that has one. */
  lemma FirstLine<T>(s: seq<T>, sep: T, i: nat)
    requires i < |s| && s[i] == sep && sep !in s[..i]
    ensures Lines(s, sep) == [s[..i]] + Lines(s[i + 1..], sep)
    ensures Tail(s, sep) == Tail(s[i + 1..], sep)
  {
    FindAt(s, sep, i);
  }

  /** Splitting what was joined gives back the very lines and tail. */
  lemma {:induction false} SplitInvertsUnsplit<T>(lines: seq<seq<T>>, tail: seq<T>, sep: T)
    requires Free(lines, sep) && sep !in tail
    ensures Lines(Unsplit(lines, tail, sep), sep) == lines
    ensures Tail(Unsplit(lines, tail, sep), sep) == tail
  {
    if lines != [] {
      SplitInvertsUnsplit(lines[1..], tail, sep);
      SplitFirst(lines[0], Unsplit(lines[1..], tail, sep), sep);
    }
  }

  /** Joining what was split gives back the whole, and no line or tail holds a separator. */
  lemma {:induction false} UnsplitInvertsSplit<T>(s: seq<T>, sep: T)
    ensures Free(Lines(s, sep), sep) && sep !in Tail(s, sep)
    ensures Unsplit(Lines(s, sep), Tail(s, sep), sep) == s
    decreases |s|
  {
    if sep in s {
      var i := Find(s, sep);
      UnsplitInvertsSplit(s[i + 1..], sep);
      FreeFirst(s[..i], Lines(s[i + 1..], sep), sep);
      UnsplitFirst(s[..i], Lines(s[i + 1..], sep), Tail(s, sep), sep);
      CutAt(s, i);
    }
  }

  /** Splitting can stop anywhere and resume from the tail alone. */
  lemma {:induction false} SplitResumes<T>(a: seq<T>, b: seq<T>, sep: T)
    ensures Lines(a + b, sep) == Lines(a, sep) + Lines(Tail(a, sep) + b, sep)
    ensures Tail(a + b, sep) == Tail(Tail(a, sep) + b, sep)
    decreases |a|
  {
    if sep in a {
      var i := Find(a, sep);
      var rest := a[i + 1..];
      CutAt(a, i);
      Regroup(a[..i], [sep], rest, b);
      SplitFirst(a[..i], rest + b, sep);
      SplitResumes(rest, b, sep);
      Associates([a[..i]], Lines(rest, sep), Lines(Tail(a, sep) + b, sep));
    }
  }
}
