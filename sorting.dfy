/** Ordering facts about rows of probabilities: the ascending order np.sort
    produces, the descending order slice::sort_by produces in the Rust twin,
    and the largest and second-largest entry of a row, which both margin
    implementations compute. */
module Sorting {

  predicate Ascending(s: seq<real>) {
    forall i, j :: 0 <= i < j < |s| ==> s[i] <= s[j]
  }

  predicate Descending(s: seq<real>) {
    forall i, j :: 0 <= i < j < |s| ==> s[i] >= s[j]
  }

  /** Places x into an ascending sequence. */
  function Insert(x: real, s: seq<real>): (r: seq<real>)
    requires Ascending(s)
    ensures Ascending(r)
    ensures multiset(r) == multiset(s) + multiset{x}
  {
    if s == [] || x <= s[0] then [x] + s
    else
      var t := Insert(x, s[1..]);
      InsertBehind(s, x, t);
      [s[0]] + t
  }

  /** The step of Insert past the first entry: x goes somewhere into the
      tail, so the first entry stays in front of everything. */
  lemma InsertBehind(s: seq<real>, x: real, t: seq<real>)
    requires s != [] && Ascending(s) && s[0] < x
    requires Ascending(t) && multiset(t) == multiset(s[1..]) + multiset{x}
    ensures Ascending([s[0]] + t)
    ensures multiset([s[0]] + t) == multiset(s) + multiset{x}
  {
    assert s == [s[0]] + s[1..];
    BoundedByMultiset(t, s[1..], x, s[0]);
    var r := [s[0]] + t;
    forall i, j | 0 <= i < j < |r| ensures r[i] <= r[j] {
      if i > 0 {
        assert r[i] == t[i - 1] && r[j] == t[j - 1];
      } else {
        assert r[j] == t[j - 1];
      }
    }
  }

  /** Every entry of t is at least lo when t holds the entries of s, all at
      least lo, and one more, x, also at least lo. */
  lemma BoundedByMultiset(t: seq<real>, s: seq<real>, x: real, lo: real)
    requires multiset(t) == multiset(s) + multiset{x}
    requires lo <= x && forall k :: 0 <= k < |s| ==> lo <= s[k]
    ensures forall k :: 0 <= k < |t| ==> lo <= t[k]
  {
    forall k | 0 <= k < |t| ensures lo <= t[k] {
      assert t[k] in multiset(t);
      if t[k] != x {
        assert t[k] in multiset(s);
        var j :| 0 <= j < |s| && s[j] == t[k];
      }
    }
  }

  /** The ascending sort of a row (np.sort along one row). */
  function SortAscending(s: seq<real>): (r: seq<real>)
    ensures Ascending(r)
    ensures multiset(r) == multiset(s)
  {
    if s == [] then []
    else
      assert s == [s[0]] + s[1..];
      Insert(s[0], SortAscending(s[1..]))
  }

  /** Two ascending sequences holding the same entries are equal: an
      ascending order of a multiset is unique. */
  lemma {:induction false} AscendingUnique(a: seq<real>, b: seq<real>)
    requires Ascending(a) && Ascending(b)
    requires multiset(a) == multiset(b)
    ensures a == b
  {
    assert |a| == |multiset(a)| == |multiset(b)| == |b|;
    if a != [] {
      AscendingSameHead(a, b);
      TailOfPermutation(a, b);
      AscendingTail(a);
      AscendingTail(b);
      AscendingUnique(a[1..], b[1..]);
      assert a == [a[0]] + a[1..] && b == [b[0]] + b[1..];
    }
  }

  /** Ascending permutations of each other start with the same entry. */
  lemma AscendingSameHead(a: seq<real>, b: seq<real>)
    requires Ascending(a) && Ascending(b) && a != []
    requires multiset(a) == multiset(b)
    ensures b != [] && a[0] == b[0]
  {
    assert a[0] in multiset(b);
    var j :| 0 <= j < |b| && b[j] == a[0];
    assert b[0] <= a[0];
    assert b[0] in multiset(a);
    var i :| 0 <= i < |a| && a[i] == b[0];
    assert a[0] <= b[0];
  }

  /** Dropping equal heads from permutations of each other leaves
      permutations of each other. */
  lemma TailOfPermutation(a: seq<real>, b: seq<real>)
    requires a != [] && b != [] && a[0] == b[0]
    requires multiset(a) == multiset(b)
    ensures multiset(a[1..]) == multiset(b[1..])
  {
    assert a == [a[0]] + a[1..];
    assert b == [b[0]] + b[1..];
    assert multiset(a[1..]) == multiset(a) - multiset{a[0]};
    assert multiset(b[1..]) == multiset(b) - multiset{b[0]};
  }

  lemma AscendingTail(a: seq<real>)
    requires Ascending(a) && a != []
    ensures Ascending(a[1..])
  {
    forall i, j | 0 <= i < j < |a| - 1 ensures a[1..][i] <= a[1..][j] {
      assert a[1..][i] == a[i + 1] && a[1..][j] == a[j + 1];
    }
  }

  /** The largest entry of a non-empty row. */
  function Max(s: seq<real>): (m: real)
    requires s != []
    ensures m in s
    ensures forall i :: 0 <= i < |s| ==> s[i] <= m
  {
    if |s| == 1 then s[0]
    else
      var t := Max(s[1..]);
      assert forall i :: 1 <= i < |s| ==> s[i] == s[1..][i - 1];
      if s[0] >= t then s[0] else t
  }

  /** An entry of s that no entry of s exceeds is Max(s). */
  lemma MaxUnique(s: seq<real>, m: real)
    requires m in s
    requires forall i :: 0 <= i < |s| ==> s[i] <= m
    ensures Max(s) == m
  {
    var k :| 0 <= k < |s| && s[k] == Max(s);
    var l :| 0 <= l < |s| && s[l] == m;
  }

  /** Max depends only on the multiset of entries, not on their order. */
  lemma MaxOfPermutation(a: seq<real>, b: seq<real>)
    requires a != []
    requires multiset(a) == multiset(b)
    ensures b != [] && Max(a) == Max(b)
  {
    assert |a| == |multiset(a)| == |multiset(b)| == |b|;
    assert Max(a) in multiset(b);
    forall i | 0 <= i < |b| ensures b[i] <= Max(a) {
      assert b[i] in multiset(a);
      var k :| 0 <= k < |a| && a[k] == b[i];
    }
    MaxUnique(b, Max(a));
  }

  /** s with its first occurrence of x removed. */
  function RemoveOne(s: seq<real>, x: real): (r: seq<real>)
    ensures x in s ==> multiset(r) == multiset(s) - multiset{x}
    ensures x !in s ==> r == s
  {
    if s == [] then []
    else if s[0] == x then
      assert s == [s[0]] + s[1..];
      s[1..]
    else
      var t := RemoveOne(s[1..], x);
      RemoveOneBehind(s, x, t);
      [s[0]] + t
  }

  /** The step of RemoveOne past a first entry other than x. */
  lemma RemoveOneBehind(s: seq<real>, x: real, t: seq<real>)
    requires s != [] && s[0] != x
    requires x in s[1..] ==> multiset(t) == multiset(s[1..]) - multiset{x}
    requires x !in s[1..] ==> t == s[1..]
    ensures x in s ==> multiset([s[0]] + t) == multiset(s) - multiset{x}
    ensures x !in s ==> [s[0]] + t == s
  {
    assert s == [s[0]] + s[1..];
    if x in s {
      assert x in s[1..];
      var m := multiset(s[1..]);
      assert multiset([s[0]] + t) == multiset{s[0]} + (m - multiset{x});
      assert multiset(s) == multiset{s[0]} + m;
      assert m[x] >= 1;
    }
  }

  /** The second-largest entry of a row of at least two entries: the largest
      entry left once one occurrence of the largest is taken away. */
  function SecondMax(s: seq<real>): (m: real)
    requires |s| >= 2
  {
    var r := RemoveOne(s, Max(s));
    assert |multiset(r)| == |s| - 1;
    Max(r)
  }

  /** The second-largest entry never exceeds the largest, and equals it
      exactly when the largest value occurs at least twice. */
  lemma {:induction false} SecondMaxBounds(s: seq<real>)
    requires |s| >= 2
    ensures SecondMax(s) <= Max(s)
    ensures SecondMax(s) == Max(s) <==> multiset(s)[Max(s)] >= 2
  {
    var m := Max(s);
    var r := RemoveOne(s, m);
    assert multiset(r) == multiset(s) - multiset{m};
    assert |multiset(r)| == |s| - 1;
    assert r != [];
    forall i | 0 <= i < |r| ensures r[i] <= m {
      assert r[i] in multiset(r);
      assert r[i] in multiset(s);
      var k :| 0 <= k < |s| && s[k] == r[i];
    }
    assert Max(r) in multiset(r);
    if multiset(s)[m] >= 2 {
      assert m in multiset(r);
      MaxUnique(r, m);
    }
  }

  /** The last entry of an ascending row is its largest. */
  lemma AscendingLastIsMax(s: seq<real>)
    requires Ascending(s) && s != []
    ensures Max(s) == s[|s| - 1]
  {
    MaxUnique(s, s[|s| - 1]);
  }

  /** The first entry of a descending row is its largest. */
  lemma DescendingFirstIsMax(s: seq<real>)
    requires Descending(s) && s != []
    ensures Max(s) == s[0]
  {
    MaxUnique(s, s[0]);
  }

  /** Whatever holds exactly the entries of a row minus one occurrence of its
      largest entry has the row's second-largest entry as its largest. */
  lemma SecondMaxByRemoval(row: seq<real>, rest: seq<real>)
    requires |row| >= 2
    requires multiset(rest) == multiset(row) - multiset{Max(row)}
    ensures rest != [] && SecondMax(row) == Max(rest)
  {
    var r := RemoveOne(row, Max(row));
    assert multiset(r) == multiset(rest);
    assert |multiset(r)| == |row| - 1;
    MaxOfPermutation(r, rest);
  }

  lemma AscendingInit(s: seq<real>)
    requires Ascending(s) && s != []
    ensures Ascending(s[..|s| - 1])
  {
    var init := s[..|s| - 1];
    forall i, j | 0 <= i < j < |init| ensures init[i] <= init[j] {
      assert init[i] == s[i] && init[j] == s[j];
    }
  }

  lemma DescendingTail(s: seq<real>)
    requires Descending(s) && s != []
    ensures Descending(s[1..])
  {
    var tail := s[1..];
    forall i, j | 0 <= i < j < |tail| ensures tail[i] >= tail[j] {
      assert tail[i] == s[i + 1] && tail[j] == s[j + 1];
    }
  }

  lemma DropLast(s: seq<real>)
    requires s != []
    ensures multiset(s[..|s| - 1]) == multiset(s) - multiset{s[|s| - 1]}
  {
    assert s == s[..|s| - 1] + [s[|s| - 1]];
  }

  lemma DropFirst(s: seq<real>)
    requires s != []
    ensures multiset(s[1..]) == multiset(s) - multiset{s[0]}
  {
    assert s == [s[0]] + s[1..];
  }

  /** An ascending sort of a row ends with its largest and second-largest
      entries. */
  lemma AscendingTopTwo(s: seq<real>, row: seq<real>)
    requires Ascending(s) && multiset(s) == multiset(row) && |row| >= 2
    ensures |s| == |row|
    ensures s[|s| - 1] == Max(row) && s[|s| - 2] == SecondMax(row)
  {
    assert |s| == |row| by { assert |s| == |multiset(s)| == |row|; }
    assert s[|s| - 1] == Max(row) by {
      AscendingLastIsMax(s);
      MaxOfPermutation(s, row);
    }
    AscendingSecondLast(s, row);
  }

  lemma AscendingSecondLast(s: seq<real>, row: seq<real>)
    requires Ascending(s) && multiset(s) == multiset(row) && |row| >= 2
    requires |s| == |row| && s[|s| - 1] == Max(row)
    ensures s[|s| - 2] == SecondMax(row)
  {
    InitWithoutMax(s, row);
    SecondMaxByRemoval(row, s[..|s| - 1]);
    InitSecondLast(s);
  }

  /** Dropping the last entry of a row whose last entry is Max(row) leaves
      the other entries of row. */
  lemma InitWithoutMax(s: seq<real>, row: seq<real>)
    requires multiset(s) == multiset(row) && |row| >= 2
    requires |s| == |row| && s[|s| - 1] == Max(row)
    ensures multiset(s[..|s| - 1]) == multiset(row) - multiset{Max(row)}
  {
    DropLast(s);
  }

  /** The largest entry of an ascending row without its last entry is the
      entry before the last. */
  lemma InitSecondLast(s: seq<real>)
    requires Ascending(s) && |s| >= 2
    ensures Max(s[..|s| - 1]) == s[|s| - 2]
  {
    AscendingInit(s);
    AscendingLastIsMax(s[..|s| - 1]);
  }

  /** A descending sort of a row starts with its largest and second-largest
      entries. */
  lemma DescendingTopTwo(s: seq<real>, row: seq<real>)
    requires Descending(s) && multiset(s) == multiset(row) && |row| >= 2
    ensures |s| == |row|
    ensures s[0] == Max(row) && s[1] == SecondMax(row)
  {
    assert |s| == |row| by { assert |s| == |multiset(s)| == |row|; }
    assert s[0] == Max(row) by {
      DescendingFirstIsMax(s);
      MaxOfPermutation(s, row);
    }
    DescendingSecond(s, row);
  }

  lemma DescendingSecond(s: seq<real>, row: seq<real>)
    requires Descending(s) && multiset(s) == multiset(row) && |row| >= 2
    requires |s| == |row| && s[0] == Max(row)
    ensures s[1] == SecondMax(row)
  {
    var tail := s[1..];
    DropFirst(s);
    assert tail[0] == Max(tail) by {
      DescendingTail(s);
      DescendingFirstIsMax(tail);
    }
    SecondMaxByRemoval(row, tail);
  }
}
