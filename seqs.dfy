/** Small facts about sequences, stated once so that proofs elsewhere need not rediscover them. */
module Seqs {

  lemma InitLast<T>(s: seq<T>)
    requires s != []
    ensures s[..|s| - 1] + [s[|s| - 1]] == s
  {
  }

  lemma PrefixExtend<T>(s: seq<T>, i: nat)
    requires i < |s|
    ensures s[..i + 1] == s[..i] + [s[i]]
  {
  }

  lemma AppendAssoc<T>(a: seq<T>, b: seq<T>, c: seq<T>)
    ensures a + b + c == a + (b + c)
  {
  }

  /** The last element of `a + b` and what precedes it, for a non-empty `b`. */
  lemma SplitLast<T>(a: seq<T>, b: seq<T>)
    requires b != []
    ensures (a + b)[..|a + b| - 1] == a + b[..|b| - 1] && (a + b)[|a + b| - 1] == b[|b| - 1]
  {
  }

  lemma EmptyAppend<T>(s: seq<T>)
    ensures [] + s == s
  {
  }

  /** Replacing one of five consecutive pieces by its own pieces, kept in order. */
  lemma SpliceSecond<T>(h: seq<T>, p: seq<T>, r: seq<T>, s: seq<T>, f: seq<T>, a: seq<T>, x: seq<T>, y: seq<T>, c: seq<T>)
    requires p == a + (x + y) + c
    ensures h + p + r + s + f == h + a + x + y + c + r + s + f
  {
  }

  lemma SpliceThird<T>(h: seq<T>, p: seq<T>, r: seq<T>, s: seq<T>, f: seq<T>, a: seq<T>, x: seq<T>, y: seq<T>, c: seq<T>)
    requires r == a + (x + y) + c
    ensures h + p + r + s + f == h + p + a + x + y + c + s + f
  {
  }

  lemma SpliceFourth<T>(h: seq<T>, p: seq<T>, r: seq<T>, s: seq<T>, f: seq<T>, a: seq<T>, x: seq<T>, c: seq<T>)
    requires s == a + x + c
    ensures h + p + r + s + f == h + p + r + a + x + c + f
  {
  }
}
