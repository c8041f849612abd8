/** Python's `sep.join(parts)` and its inverse, splitting at every
    occurrence of a separator (`s.split(sep)`). */
module Separators {
  import opened Wrappers

  predicate StartsWith(s: string, prefix: string) {
    |prefix| <= |s| && s[..|prefix|] == prefix
  }

  predicate EndsWith(s: string, suffix: string) {
    |suffix| <= |s| && s[|s| - |suffix|..] == suffix
  }

  /** Strings that differ at a position inside `prefix` do not start alike. */
  lemma DiffersAt(s: string, prefix: string, k: nat)
    requires k < |prefix| && k < |s| && s[k] != prefix[k]
    ensures !StartsWith(s, prefix)
  {
  }

  /** No part contains the character `c`. */
  predicate NoneContains(parts: seq<string>, c: char) {
    forall i :: 0 <= i < |parts| ==> c !in parts[i]
  }

  /** `sep.join(parts)`: the parts in order, with `sep` between neighbours. */
  function Join(parts: seq<string>, sep: string): (r: string)
    ensures |parts| == 0 ==> r == []
    ensures |parts| > 0 ==> StartsWith(r, parts[0])
  {
    if |parts| == 0 then []
    else if |parts| == 1 then parts[0]
    else parts[0] + sep + Join(parts[1..], sep)
  }

  /** Index of the first occurrence of `sep` in `s`, if there is one. */
  function Find(s: string, sep: string): (r: Option<nat>)
    requires |sep| > 0
    ensures r.Some? ==> r.value + |sep| <= |s| && s[r.value..r.value + |sep|] == sep
    decreases |s|
  {
    if |s| < |sep| then None
    else if s[..|sep|] == sep then Some(0)
    else
      match Find(s[1..], sep)
      case None => None
      case Some(i) =>
        assert s[1..][i..i + |sep|] == s[i + 1..i + 1 + |sep|];
        Some(i + 1)
  }

  /** `s.split(sep)`: the pieces between the occurrences of `sep`, left to right. */
  function Split(s: string, sep: string): (r: seq<string>)
    requires |sep| > 0
    ensures |r| > 0
    decreases |s|
  {
    match Find(s, sep)
    case None => [s]
    case Some(i) => [s[..i]] + Split(s[i + |sep|..], sep)
  }

  /** A character that occurs neither in the parts nor in the separator does
      not occur in their join. */
  lemma {:induction false} JoinAvoids(parts: seq<string>, sep: string, c: char)
    requires NoneContains(parts, c) && c !in sep
    ensures c !in Join(parts, sep)
    decreases |parts|
  {
    if |parts| > 1 {
      JoinAvoids(parts[1..], sep, c);
      assert c !in parts[0];
    }
  }

  /** The first occurrence of `sep` is the one that follows a prefix free of
      its first character. */
  lemma {:induction false} FindAfter(x: string, sep: string, y: string)
    requires |sep| > 0 && sep[0] !in x
    ensures Find(x + sep + y, sep) == Some(|x|)
    decreases |x|
  {
    var s := x + sep + y;
    if |x| == 0 {
      assert s[..|sep|] == sep;
    } else {
      assert s[0] == x[0];
      assert s[..|sep|] != sep by { assert s[..|sep|][0] == x[0]; }
      assert s[1..] == x[1..] + sep + y;
      FindAfter(x[1..], sep, y);
    }
  }

  /** A string free of the separator's first character holds no occurrence. */
  lemma {:induction false} FindNone(x: string, sep: string)
    requires |sep| > 0 && sep[0] !in x
    ensures Find(x, sep) == None
    decreases |x|
  {
    if |x| >= |sep| {
      assert x[..|sep|] != sep by { assert x[..|sep|][0] == x[0]; }
      FindNone(x[1..], sep);
    }
  }

  /** An occurrence found in `a` is still the first one in `a + t`. */
  lemma {:induction false} FindExtend(a: string, t: string, sep: string)
    requires |sep| > 0 && Find(a, sep).Some?
    ensures Find(a + t, sep) == Find(a, sep)
    decreases |a|
  {
    var s := a + t;
    assert s[..|sep|] == a[..|sep|];
    if a[..|sep|] != sep {
      assert s[1..] == a[1..] + t;
      FindExtend(a[1..], t, sep);
    }
  }

  /** Splitting undoes joining when no part contains the separator's first
      character. */
  lemma {:induction false} SplitJoin(parts: seq<string>, sep: string)
    requires |parts| > 0 && |sep| > 0 && NoneContains(parts, sep[0])
    ensures Split(Join(parts, sep), sep) == parts
    decreases |parts|
  {
    var first := parts[0];
    assert sep[0] !in first;
    if |parts| == 1 {
      FindNone(first, sep);
    } else {
      var tail := parts[1..];
      assert NoneContains(tail, sep[0]) by {
        forall i | 0 <= i < |tail|
          ensures sep[0] !in tail[i]
        {
          assert tail[i] == parts[i + 1];
        }
      }
      var rest := Join(tail, sep);
      var s := first + sep + rest;
      assert Join(parts, sep) == s;
      FindAfter(first, sep, rest);
      assert Split(s, sep) == [s[..|first|]] + Split(s[|first| + |sep|..], sep);
      assert s[..|first|] == first;
      assert s[|first| + |sep|..] == rest;
      SplitJoin(tail, sep);
      assert [first] + tail == parts;
    }
  }

  /** Joining undoes splitting, for every string. */
  lemma {:induction false} JoinSplit(s: string, sep: string)
    requires |sep| > 0
    ensures Join(Split(s, sep), sep) == s
    decreases |s|
  {
    match Find(s, sep)
    case None =>
    case Some(i) =>
      var tail := s[i + |sep|..];
      var rest := Split(tail, sep);
      assert Split(s, sep) == [s[..i]] + rest;
      JoinSplit(tail, sep);
      JoinCons(s[..i], rest, sep);
      Reassemble(s, i, sep);
  }

  /** Joining one more part in front adds it and a separator. */
  lemma JoinCons(x: string, rest: seq<string>, sep: string)
    requires |rest| > 0
    ensures Join([x] + rest, sep) == x + sep + Join(rest, sep)
  {
    assert ([x] + rest)[1..] == rest;
  }

  /** A string is the text before an occurrence of `sep`, `sep`, and the
      text after it. */
  lemma Reassemble(s: string, i: nat, sep: string)
    requires i + |sep| <= |s| && s[i..i + |sep|] == sep
    ensures s[..i] + sep + s[i + |sep|..] == s
  {
    assert s == s[..i] + s[i..i + |sep|] + s[i + |sep|..];
  }

  /** Splitting at a one-character separator distributes over a join at
      that separator. */
  lemma {:induction false} SplitConcat(a: string, sep: string, b: string)
    requires |sep| == 1
    ensures Split(a + sep + b, sep) == Split(a, sep) + Split(b, sep)
    ensures Split(a + (sep + b), sep) == Split(a, sep) + Split(b, sep)
    decreases |a|
  {
    assert a + (sep + b) == a + sep + b;
    match Find(a, sep)
    case None =>
      SplitConcatFree(a, sep, b);
    case Some(i) =>
      FindExtend(a, sep + b, sep);
      SplitConcatAt(a, sep, b, i);
      SplitConcat(a[i + 1..], sep, b);
  }

  /** The first piece: `a` holds no separator, so it is split off whole. */
  lemma SplitConcatFree(a: string, sep: string, b: string)
    requires |sep| == 1 && Find(a, sep).None?
    ensures Split(a + sep + b, sep) == [a] + Split(b, sep)
  {
    assert sep[0] !in a by {
      if sep[0] in a {
        var k :| 0 <= k < |a| && a[k] == sep[0];
        FindPresent(a, sep, k);
      }
    }
    var s := a + sep + b;
    FindAfter(a, sep, b);
    assert s[..|a|] == a;
    assert s[|a| + 1..] == b;
  }

  /** A separator inside `a` at `i`: the piece before it is split off, and
      the rest of `a` continues. */
  lemma SplitConcatAt(a: string, sep: string, b: string, i: nat)
    requires |sep| == 1 && Find(a, sep) == Some(i) && Find(a + sep + b, sep) == Some(i)
    ensures Split(a + sep + b, sep) == [a[..i]] + Split(a[i + 1..] + sep + b, sep)
    ensures Split(a, sep) == [a[..i]] + Split(a[i + 1..], sep)
  {
    var s := a + sep + b;
    assert s[..i] == a[..i];
    assert s[i + 1..] == a[i + 1..] + sep + b;
  }

  /** A one-character separator that occurs in `a` is found. */
  lemma {:induction false} FindPresent(a: string, sep: string, k: nat)
    requires |sep| == 1 && k < |a| && a[k] == sep[0]
    ensures Find(a, sep).Some?
    decreases |a|
  {
    if a[..1] != sep {
      assert a[0] != sep[0] by { assert a[..1][0] == a[0]; assert a[..1] == [a[0]]; }
      FindPresent(a[1..], sep, k - 1);
    }
  }
}
