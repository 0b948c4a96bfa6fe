/** Python's ordering of strings (code point by code point, a proper prefix first) and
    `list.sort()` on strings. */
module PySort {
  /** `a <= b` on Python strings. */
  predicate LexLe(a: string, b: string)
    decreases |a|
  {
    a == [] || (b != [] && (a[0] < b[0] || (a[0] == b[0] && LexLe(a[1..], b[1..]))))
  }

  lemma {:induction false} LexLeTotal(a: string, b: string)
    ensures LexLe(a, b) || LexLe(b, a)
    decreases |a|
  {
    if a != [] && b != [] && a[0] == b[0] {
      LexLeTotal(a[1..], b[1..]);
    }
  }

  lemma {:induction false} LexLeAntisymmetric(a: string, b: string)
    requires LexLe(a, b) && LexLe(b, a)
    ensures a == b
    decreases |a|
  {
    if a != [] {
      LexLeAntisymmetric(a[1..], b[1..]);
      assert a == [a[0]] + a[1..] && b == [b[0]] + b[1..];
    }
  }

  /** Every neighbour pair is in order. */
  predicate Sorted(s: seq<string>)
  {
    forall i :: 0 < i < |s| ==> LexLe(s[i - 1], s[i])
  }

  /** `x` put before the first element it does not exceed. */
  function Insert(s: seq<string>, x: string): (r: seq<string>)
    decreases |s|
  {
    if s == [] || LexLe(x, s[0]) then [x] + s else [s[0]] + Insert(s[1..], x)
  }

  /** Inserting keeps a sorted list sorted, and the first element is `x` or the old first. */
  lemma {:induction false} InsertSorted(s: seq<string>, x: string)
    requires Sorted(s)
    ensures Sorted(Insert(s, x))
    ensures Insert(s, x)[0] == x || (s != [] && Insert(s, x)[0] == s[0])
    decreases |s|
  {
    if s != [] && !LexLe(x, s[0]) {
      var t := s[1..];
      SortedTail(s);
      InsertSorted(t, x);
      LexLeTotal(x, s[0]);
      var r := Insert(s, x);
      var r' := Insert(t, x);
      assert r == [s[0]] + r';
      forall i | 0 < i < |r| ensures LexLe(r[i - 1], r[i]) {
        if i == 1 {
          assert r[1] == r'[0];
        } else {
          assert r[i - 1] == r'[i - 2] && r[i] == r'[i - 1];
        }
      }
    }
  }

  /** Inserting adds exactly `x`. */
  lemma {:induction false} InsertMultiset(s: seq<string>, x: string)
    ensures multiset(Insert(s, x)) == multiset(s) + multiset{x}
    ensures |Insert(s, x)| == |s| + 1
    decreases |s|
  {
    if s != [] && !LexLe(x, s[0]) {
      InsertMultiset(s[1..], x);
      assert s == [s[0]] + s[1..];
    }
  }

  /** `sorted(xs)`: the strings of `xs` in order, each as often as it occurs. */
  method SortStrings(xs: seq<string>) returns (r: seq<string>)
    ensures Sorted(r)
    ensures multiset(r) == multiset(xs)
  {
    r := [];
    var i := 0;
    while i < |xs|
      invariant 0 <= i <= |xs|
      invariant Sorted(r)
      invariant multiset(r) == multiset(xs[..i])
    {
      InsertSorted(r, xs[i]);
      InsertMultiset(r, xs[i]);
      r := Insert(r, xs[i]);
      assert xs[..i + 1] == xs[..i] + [xs[i]];
      i := i + 1;
    }
    assert xs[..i] == xs;
  }

  /** A sorted list is fixed by its multiset: two sorted lists of the same strings are equal, so
      the result of sorting does not depend on the order of the input. */
  lemma {:induction false} SortedUnique(a: seq<string>, b: seq<string>)
    requires Sorted(a) && Sorted(b) && multiset(a) == multiset(b)
    ensures a == b
    decreases |a|
  {
    assert |b| == |multiset(b)| == |multiset(a)| == |a|;
    if a != [] {
      SameHead(a, b);
      TailMultiset(a);
      TailMultiset(b);
      SortedTail(a);
      SortedTail(b);
      SortedUnique(a[1..], b[1..]);
      assert a == [a[0]] + a[1..] && b == [b[0]] + b[1..];
    }
  }

  lemma SameHead(a: seq<string>, b: seq<string>)
    requires Sorted(a) && Sorted(b) && multiset(a) == multiset(b) && a != [] && b != []
    ensures a[0] == b[0]
  {
    assert b[0] in multiset(a) by { assert b[0] in b; }
    assert a[0] in multiset(b) by { assert a[0] in a; }
    SortedHeadLeast(a, b[0]);
    SortedHeadLeast(b, a[0]);
    LexLeAntisymmetric(a[0], b[0]);
  }

  lemma TailMultiset(a: seq<string>)
    requires a != []
    ensures multiset(a[1..]) == multiset(a) - multiset{a[0]}
  {
    assert a == [a[0]] + a[1..];
  }

  lemma SortedTail(a: seq<string>)
    requires Sorted(a) && a != []
    ensures Sorted(a[1..])
  {
    forall i | 0 < i < |a[1..]| ensures LexLe(a[1..][i - 1], a[1..][i]) {
      assert a[1..][i - 1] == a[i] && a[1..][i] == a[i + 1];
    }
  }

  lemma {:induction false} LexLeTransitive(a: string, b: string, c: string)
    requires LexLe(a, b) && LexLe(b, c)
    ensures LexLe(a, c)
    decreases |a|
  {
    if a != [] && a[0] == b[0] && b[0] == c[0] {
      LexLeTransitive(a[1..], b[1..], c[1..]);
    }
  }

  /** The first element of a sorted list is at most each of its elements. */
  lemma {:induction false} SortedHeadLeast(a: seq<string>, x: string)
    requires Sorted(a) && a != [] && x in multiset(a)
    ensures LexLe(a[0], x)
    decreases |a|
  {
    if a[0] != x {
      assert a == [a[0]] + a[1..];
      assert x in a[1..];
      SortedTail(a);
      SortedHeadLeast(a[1..], x);
      LexLeTransitive(a[0], a[1], x);
    } else {
      LexLeTotal(x, x);
    }
  }
}
