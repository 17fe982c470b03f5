/**
 * Joining and splitting strings on a separator: the `Joiner` and
 * `StringBuilder` loops of the samples are specified by `Join`, and `Split`
 * is its inverse for a one-character separator.
 */
module Strings {

  /** `parts` separated by `sep`; the empty list joins to "". */
  function Join(parts: seq<string>, sep: string): string
    decreases |parts|
  {
    if |parts| == 0 then ""
    else if |parts| == 1 then parts[0]
    else parts[0] + sep + Join(parts[1..], sep)
  }

  /** The pieces of `s` between occurrences of `c`; always at least one piece. */
  function Split(s: string, c: char): (pieces: seq<string>)
    ensures |pieces| >= 1
    decreases |s|
  {
    if s == [] then [""]
    else if s[0] == c then [""] + Split(s[1..], c)
    else
      var rest := Split(s[1..], c);
      [[s[0]] + rest[0]] + rest[1..]
  }

  /** Number of occurrences of `c` in `s`. */
  function Count(s: string, c: char): nat {
    multiset(s)[c]
  }

  /** None of `parts` contains `c`. */
  predicate Free(parts: seq<string>, c: char) {
    forall i :: 0 <= i < |parts| ==> c !in parts[i]
  }

  /** The pieces of `a + (b + c)` sit at the offsets their lengths give. */
  lemma Pieces(a: string, b: string, c: string)
    ensures var s := a + (b + c);
      && |s| == |a| + |b| + |c|
      && s[..|a|] == a
      && s[|a|..|a| + |b|] == b
      && s[|a| + |b|..] == c
  {
  }

  /** Regrouping a concatenation of four strings to the right. */
  lemma Regroup4(a: string, b: string, c: string, d: string)
    ensures a + b + c + d == a + (b + (c + d))
  {
  }

  /**
   * One step of a loop that appends the separator before every part but the
   * first: after appending part `i`, the buffer holds the first `i + 1` parts
   * joined.
   */
  lemma JoinLoopStep(start: string, parts: seq<string>, i: int, delim: string, sep: string)
    requires 0 <= i < |parts|
    requires delim == if i == 0 then "" else sep
    ensures start + Join(parts[..i], sep) + delim + parts[i] == start + Join(parts[..i + 1], sep)
  {
    var joined := Join(parts[..i], sep);
    assert parts[..i + 1] == parts[..i] + [parts[i]];
    if i == 0 {
      assert parts[..1] == [parts[0]];
      assert joined + delim == "";
    } else {
      JoinSnoc(parts[..i], sep, parts[i]);
    }
    assert start + joined + delim + parts[i] == start + (joined + delim + parts[i]);
  }

  /** Five parts joined with `sep`, written out. */
  lemma JoinFive(a: string, b: string, c: string, d: string, e: string, sep: string)
    ensures Join([a, b, c, d, e], sep) == a + sep + b + sep + c + sep + d + sep + e
  {
    var ps := [a, b, c, d, e];
    assert ps[1..][1..][1..][1..] == [e];
    assert Join([d, e], sep) == d + sep + e;
    assert ps[1..][1..][1..] == [d, e];
    assert Join([c, d, e], sep) == c + sep + d + sep + e;
    assert ps[1..][1..] == [c, d, e];
    assert Join([b, c, d, e], sep) == b + sep + c + sep + d + sep + e;
    assert ps[1..] == [b, c, d, e];
  }

  /** Four parts joined with `sep`, written out. */
  lemma JoinFour(a: string, b: string, c: string, d: string, sep: string)
    ensures Join([a, b, c, d], sep) == a + sep + b + sep + c + sep + d
  {
    var ps := [a, b, c, d];
    assert ps[1..][1..][1..] == [d];
    assert Join([c, d], sep) == c + sep + d;
    assert ps[1..][1..] == [c, d];
    assert Join([b, c, d], sep) == b + sep + c + sep + d;
    assert ps[1..] == [b, c, d];
  }

  /** Extending a non-empty list by one part appends the separator and that part. */
  lemma {:induction false} JoinSnoc(parts: seq<string>, sep: string, x: string)
    requires |parts| >= 1
    ensures Join(parts + [x], sep) == Join(parts, sep) + sep + x
    decreases |parts|
  {
    if |parts| == 1 {
      assert parts + [x] == [parts[0], x];
      assert [parts[0], x][1..] == [x];
    } else {
      assert (parts + [x])[1..] == parts[1..] + [x];
      JoinSnoc(parts[1..], sep, x);
    }
  }

  /** Splitting at the first separator of `a + [c] + b` when `a` holds none. */
  lemma {:induction false} SplitAtFirst(a: string, c: char, b: string)
    requires c !in a
    ensures Split(a + [c] + b, c) == [a] + Split(b, c)
    decreases |a|
  {
    if a == [] {
      assert a + [c] + b == [c] + b;
      assert ([c] + b)[1..] == b;
    } else {
      assert (a + [c] + b)[1..] == a[1..] + [c] + b;
      SplitAtFirst(a[1..], c, b);
      assert [a[0]] + a[1..] == a;
    }
  }

  /** A string without `c` splits into itself. */
  lemma {:induction false} SplitFree(a: string, c: char)
    requires c !in a
    ensures Split(a, c) == [a]
    decreases |a|
  {
    if a != [] {
      SplitFree(a[1..], c);
      assert [a[0]] + a[1..] == a;
    }
  }

  /** Round trip: splitting a join on a one-character separator gives the parts back. */
  lemma {:induction false} SplitJoin(parts: seq<string>, c: char)
    requires |parts| >= 1 && Free(parts, c)
    ensures Split(Join(parts, [c]), c) == parts
    decreases |parts|
  {
    if |parts| == 1 {
      SplitFree(parts[0], c);
    } else {
      assert Free(parts[1..], c) by {
        forall i | 0 <= i < |parts[1..]| ensures c !in parts[1..][i] {
          assert parts[1..][i] == parts[i + 1];
        }
      }
      SplitJoin(parts[1..], c);
      SplitAtFirst(parts[0], c, Join(parts[1..], [c]));
      assert [parts[0]] + parts[1..] == parts;
    }
  }

  /** Joining n parts that hold no `c` on `c` puts exactly n - 1 copies of `c` in the result. */
  lemma {:induction false} CountJoin(parts: seq<string>, c: char)
    requires |parts| >= 1 && Free(parts, c)
    ensures Count(Join(parts, [c]), c) == |parts| - 1
    decreases |parts|
  {
    assert multiset(parts[0])[c] == 0;
    if |parts| > 1 {
      assert Free(parts[1..], c) by {
        forall i | 0 <= i < |parts[1..]| ensures c !in parts[1..][i] {
          assert parts[1..][i] == parts[i + 1];
        }
      }
      CountJoin(parts[1..], c);
      var rest := Join(parts[1..], [c]);
      assert Join(parts, [c]) == parts[0] + [c] + rest;
      assert multiset(parts[0] + [c] + rest) == multiset(parts[0]) + multiset([c]) + multiset(rest);
    }
  }

  /** The parts after the first, each with `s` in front: how they sit in a join on `[c] + s` split on `c`. */
  function Prefixed(parts: seq<string>, s: string): (r: seq<string>)
    ensures |r| == |parts|
    ensures forall i :: 0 <= i < |parts| ==> r[i] == if i == 0 then parts[i] else s + parts[i]
  {
    seq(|parts|, i requires 0 <= i < |parts| => if i == 0 then parts[i] else s + parts[i])
  }

  /** Putting `b` in front of a join extends its first part. */
  lemma JoinPrependFirst(q: seq<string>, a: string, b: string)
    requires |q| >= 1
    ensures b + Join(q, a) == Join([b + q[0]] + q[1..], a)
  {
    var r := [b + q[0]] + q[1..];
    assert r[1..] == q[1..];
    if |q| > 1 {
      assert b + (q[0] + a + Join(q[1..], a)) == (b + q[0]) + a + Join(q[1..], a);
    }
  }

  /** A join on `a + b` is the join on `a` of the parts with `b` put in front of every part but the first. */
  lemma {:induction false} JoinLongSeparator(parts: seq<string>, a: string, b: string)
    requires |parts| >= 1
    ensures Join(parts, a + b) == Join(Prefixed(parts, b), a)
    decreases |parts|
  {
    var p := Prefixed(parts, b);
    if |parts| > 1 {
      var rest := parts[1..];
      JoinLongSeparator(rest, a, b);
      var q := Prefixed(rest, b);
      JoinPrependFirst(q, a, b);
      assert p[1..] == [b + q[0]] + q[1..] by {
        forall i | 0 <= i < |p| - 1 ensures p[1..][i] == ([b + q[0]] + q[1..])[i] {
          if i > 0 {
            assert q[i] == b + rest[i];
          }
        }
      }
      assert Join(parts, a + b) == parts[0] + (a + b) + Join(rest, a + b);
      assert Join(p, a) == p[0] + a + Join(p[1..], a);
      assert parts[0] + (a + b) + Join(rest, a + b) == parts[0] + a + (b + Join(rest, a + b));
    }
  }

  /**
   * Joining parts free of `c` on `c` followed by `b`: the join holds one `c`
   * fewer than there are parts, and splitting it on `c` gives the parts back,
   * every one but the first behind `b`.
   */
  lemma SplitLongSeparator(parts: seq<string>, c: char, b: string)
    requires |parts| >= 1 && Free(parts, c) && c !in b
    ensures Count(Join(parts, [c] + b), c) == |parts| - 1
    ensures Split(Join(parts, [c] + b), c) == Prefixed(parts, b)
  {
    var p := Prefixed(parts, b);
    JoinLongSeparator(parts, [c], b);
    assert Free(p, c) by {
      forall i | 0 <= i < |p| ensures c !in p[i] {
        assert c !in parts[i];
        if i > 0 {
          assert p[i] == b + parts[i];
        }
      }
    }
    CountJoin(p, c);
    SplitJoin(p, c);
  }

  /** A join begins with its first part and ends with its last part. */
  lemma {:induction false} JoinEnds(parts: seq<string>, sep: string)
    requires |parts| >= 1
    ensures |Join(parts, sep)| >= |parts[0]| && Join(parts, sep)[..|parts[0]|] == parts[0]
    ensures |Join(parts, sep)| >= |parts[|parts| - 1]|
    ensures Join(parts, sep)[|Join(parts, sep)| - |parts[|parts| - 1]|..] == parts[|parts| - 1]
    decreases |parts|
  {
    if |parts| > 1 {
      JoinEnds(parts[1..], sep);
      var rest := Join(parts[1..], sep);
      assert Join(parts, sep) == parts[0] + sep + rest;
      assert parts[1..][|parts[1..]| - 1] == parts[|parts| - 1];
    }
  }
}
