/** Python dictionaries, which remember insertion order, as sequences of key/value pairs. */
module PyDict {
  import opened Wrappers

  type Dict<K, V> = seq<(K, V)>

  function Keys<K, V>(d: Dict<K, V>): (r: seq<K>)
    ensures |r| == |d|
    ensures forall i :: 0 <= i < |d| ==> r[i] == d[i].0
  {
    if d == [] then [] else [d[0].0] + Keys(d[1..])
  }

  /** Every key occurs once, as in a Python dict. */
  predicate UniqueKeys<K(==), V>(d: Dict<K, V>)
  {
    forall i, j :: 0 <= i < j < |d| ==> d[i].0 != d[j].0
  }

  /** `d.get(k)`. */
  function Get<K(==), V>(d: Dict<K, V>, k: K): (r: Option<V>)
    ensures r.Some? <==> k in Keys(d)
    decreases |d|
  {
    if d == [] then None else if d[0].0 == k then Some(d[0].1) else Get(d[1..], k)
  }

  /** In a dict whose keys are unique, each entry's key finds that entry's value. */
  lemma {:induction false} GetAt<K, V>(d: Dict<K, V>, i: nat)
    requires UniqueKeys(d) && i < |d|
    ensures Get(d, d[i].0) == Some(d[i].1)
    decreases |d|
  {
    if i > 0 {
      var rest := d[1..];
      assert rest[i - 1] == d[i];
      assert d[0].0 != d[i].0;
      GetAt(rest, i - 1);
    }
  }

  /** A key that is found is the key of an entry holding the value found. */
  lemma {:induction false} GetFound<K, V>(d: Dict<K, V>, k: K) returns (i: nat)
    requires Get(d, k).Some?
    ensures i < |d| && d[i] == (k, Get(d, k).value)
    decreases |d|
  {
    if d[0].0 == k {
      i := 0;
    } else {
      var j := GetFound(d[1..], k);
      i := j + 1;
    }
  }

  /** `d[k] = v`: an existing key keeps its position, a new key goes at the end. */
  function Put<K(==,!new), V>(d: Dict<K, V>, k: K, v: V): (r: Dict<K, V>)
    ensures Get(r, k) == Some(v)
    ensures forall k' :: k' != k ==> Get(r, k') == Get(d, k')
    ensures Keys(r) == if k in Keys(d) then Keys(d) else Keys(d) + [k]
    decreases |d|
  {
    if d == [] then [(k, v)]
    else if d[0].0 == k then
      ConsParts((k, v), d[1..]);
      [(k, v)] + d[1..]
    else
      var r := Put(d[1..], k, v);
      PutBehind(d, r, k, v);
      [d[0]] + r
  }

  /** What a put into the tail gives once the different first entry is put back in front. */
  lemma PutBehind<K, V>(d: Dict<K, V>, r: Dict<K, V>, k: K, v: V)
    requires d != [] && d[0].0 != k
    requires Get(r, k) == Some(v)
    requires forall k' :: k' != k ==> Get(r, k') == Get(d[1..], k')
    requires Keys(r) == if k in Keys(d[1..]) then Keys(d[1..]) else Keys(d[1..]) + [k]
    ensures Get([d[0]] + r, k) == Some(v)
    ensures forall k' :: k' != k ==> Get([d[0]] + r, k') == Get(d, k')
    ensures Keys([d[0]] + r) == if k in Keys(d) then Keys(d) else Keys(d) + [k]
  {
    ConsParts(d[0], r);
    assert Keys(d) == [d[0].0] + Keys(d[1..]);
    KeysPutCons(d[0].0, Keys(d[1..]), Keys(r), k);
  }

  /** The keys of a put behind a different first key. */
  lemma KeysPutCons<K>(x: K, ks: seq<K>, rest: seq<K>, k: K)
    requires x != k && rest == if k in ks then ks else ks + [k]
    ensures [x] + rest == if k in [x] + ks then [x] + ks else [x] + ks + [k]
  {
    assert k in [x] + ks <==> k in ks;
    if k !in ks {
      assert [x] + (ks + [k]) == [x] + ks + [k];
    }
  }

  /** The head and the tail of `[e] + d`, and its keys. */
  lemma ConsParts<K, V>(e: (K, V), d: Dict<K, V>)
    ensures ([e] + d)[0] == e && ([e] + d)[1..] == d
    ensures Keys([e] + d) == [e.0] + Keys(d)
  {
    assert ([e] + d)[1..] == d;
  }

  lemma {:induction false} PutKeepsUnique<K(!new), V>(d: Dict<K, V>, k: K, v: V)
    requires UniqueKeys(d)
    ensures UniqueKeys(Put(d, k, v))
  {
    var r := Put(d, k, v);
    var kr := Keys(r);
    var kd := Keys(d);
    forall i, j | 0 <= i < j < |r| ensures r[i].0 != r[j].0 {
      assert kr[i] == r[i].0 && kr[j] == r[j].0;
      if k in kd {
        assert kd[i] == d[i].0 && kd[j] == d[j].0;
      } else if j < |d| {
        assert kd[i] == d[i].0 && kd[j] == d[j].0;
      } else {
        assert kr[j] == k;
        assert kr[i] == kd[i];
      }
    }
  }

  /** `d.update(o)`: the pairs of `o` put in order. */
  function Update<K(==,!new), V>(d: Dict<K, V>, o: Dict<K, V>): Dict<K, V>
    decreases |o|
  {
    if o == [] then d else Update(Put(d, o[0].0, o[0].1), o[1..])
  }

  /** After `d.update(o)`, a key of `o` has `o`'s value and every other key keeps its own. */
  lemma {:induction false} UpdateGet<K(!new), V>(d: Dict<K, V>, o: Dict<K, V>, k: K)
    requires UniqueKeys(o)
    ensures Get(Update(d, o), k) == if k in Keys(o) then Get(o, k) else Get(d, k)
    decreases |o|
  {
    if o != [] {
      assert UniqueKeys(o[1..]) by {
        forall i, j | 0 <= i < j < |o[1..]| ensures o[1..][i].0 != o[1..][j].0 {
          assert o[1..][i] == o[i + 1] && o[1..][j] == o[j + 1];
        }
      }
      UpdateGet(Put(d, o[0].0, o[0].1), o[1..], k);
      if k == o[0].0 {
        assert k !in Keys(o[1..]) by {
          forall i | 0 <= i < |o[1..]| ensures Keys(o[1..])[i] != k {
            assert o[1..][i] == o[i + 1];
          }
        }
      }
    }
  }

  /** `update` keeps every key already there. */
  lemma UpdateKeepsKeys<K(!new), V>(d: Dict<K, V>, o: Dict<K, V>)
    ensures forall k :: k in Keys(d) ==> k in Keys(Update(d, o))
  {
    UpdateKeysPrefix(d, o);
    var ks := Keys(Update(d, o));
    var kd := Keys(d);
    forall k | k in kd ensures k in ks {
      var j :| 0 <= j < |kd| && kd[j] == k;
      assert ks[..|kd|][j] == ks[j];
    }
  }

  /** A put keeps the keys before it, in order. */
  lemma PutKeysPrefix<K(!new), V>(d: Dict<K, V>, k: K, v: V)
    ensures |Keys(Put(d, k, v))| >= |Keys(d)| && Keys(Put(d, k, v))[..|Keys(d)|] == Keys(d)
  {
  }

  lemma PrefixTrans<T>(a: seq<T>, b: seq<T>, c: seq<T>)
    requires |a| >= |b| >= |c| && a[..|b|] == b && b[..|c|] == c
    ensures a[..|c|] == c
  {
    assert a[..|c|] == a[..|b|][..|c|];
  }

  lemma {:induction false} UpdateKeysPrefix<K(!new), V>(d: Dict<K, V>, o: Dict<K, V>)
    ensures |Keys(Update(d, o))| >= |Keys(d)|
    ensures Keys(Update(d, o))[..|Keys(d)|] == Keys(d)
    decreases |o|
  {
    if o != [] {
      var d' := Put(d, o[0].0, o[0].1);
      UpdateKeysPrefix(d', o[1..]);
      PutKeysPrefix(d, o[0].0, o[0].1);
      PrefixTrans(Keys(Update(d', o[1..])), Keys(d'), Keys(d));
    }
  }

  /** Putting a key that is not yet present appends its entry. */
  lemma {:induction false} PutNew<K(!new), V>(d: Dict<K, V>, k: K, v: V)
    requires forall i :: 0 <= i < |d| ==> d[i].0 != k
    ensures Put(d, k, v) == d + [(k, v)]
    decreases |d|
  {
    if d != [] {
      var rest := d[1..];
      assert forall i :: 0 <= i < |rest| ==> rest[i].0 != k by {
        forall i | 0 <= i < |rest| ensures rest[i].0 != k {
          assert rest[i] == d[i + 1];
        }
      }
      PutNew(rest, k, v);
      PutFirstOther(d, k, v);
      AppendAfterFirst(d, [(k, v)]);
    }
  }

  lemma PutFirstOther<K(!new), V>(d: Dict<K, V>, k: K, v: V)
    requires d != [] && d[0].0 != k
    ensures Put(d, k, v) == [d[0]] + Put(d[1..], k, v)
  {
  }

  lemma AppendAfterFirst<T>(d: seq<T>, t: seq<T>)
    requires d != []
    ensures [d[0]] + (d[1..] + t) == d + t
  {
    assert [d[0]] + d[1..] == d;
  }

  /** Every entry after a put is the new one or an entry that was there before. */
  lemma {:induction false} PutEntries<K(!new), V>(d: Dict<K, V>, k: K, v: V)
    ensures forall i :: 0 <= i < |Put(d, k, v)| ==> Put(d, k, v)[i] == (k, v) || Put(d, k, v)[i] in d
    decreases |d|
  {
    var r := Put(d, k, v);
    if d != [] && d[0].0 != k {
      PutEntries(d[1..], k, v);
      PutFirstOther(d, k, v);
      var r' := Put(d[1..], k, v);
      forall i | 0 <= i < |r| ensures r[i] == (k, v) || r[i] in d {
        if i > 0 {
          assert r[i] == r'[i - 1];
          if r'[i - 1] != (k, v) {
            InTail(d, r'[i - 1]);
          }
        }
      }
    } else if d != [] {
      assert r == [(k, v)] + d[1..];
      forall i | 0 <= i < |r| ensures r[i] == (k, v) || r[i] in d {
        if i > 0 {
          assert r[i] == d[i];
        }
      }
    }
  }

  lemma InTail<T>(d: seq<T>, x: T)
    requires d != [] && x in d[1..]
    ensures x in d
  {
    assert d == [d[0]] + d[1..];
  }

  // ---------------------------------------------------------------------------
  // Filling a dict in a loop

  /** `d` after a loop assigns `d[k] = v` for each pair in order. */
  function Assigned<K(==,!new), V>(d: Dict<K, V>, kvs: seq<(K, V)>): Dict<K, V>
    decreases |kvs|
  {
    if kvs == [] then d else Put(Assigned(d, kvs[..|kvs| - 1]), kvs[|kvs| - 1].0, kvs[|kvs| - 1].1)
  }

  /** The value of the last pair with key `k`. */
  function LastValue<K(==), V>(kvs: seq<(K, V)>, k: K): Option<V>
    decreases |kvs|
  {
    if kvs == [] then None
    else if kvs[|kvs| - 1].0 == k then Some(kvs[|kvs| - 1].1)
    else LastValue(kvs[..|kvs| - 1], k)
  }

  /** Looking a key up after the loop gives the value of the last pair with that key, or the
      value the key had before when no pair has it. */
  lemma {:induction false} AssignedGet<K(!new), V>(d: Dict<K, V>, kvs: seq<(K, V)>, k: K)
    ensures Get(Assigned(d, kvs), k) == if LastValue(kvs, k).Some? then LastValue(kvs, k) else Get(d, k)
    decreases |kvs|
  {
    if kvs != [] {
      AssignedGet(d, kvs[..|kvs| - 1], k);
    }
  }

  /** There is a last pair with key `k` exactly when some pair has it. */
  lemma {:induction false} LastValueNone<K, V>(kvs: seq<(K, V)>, k: K)
    ensures LastValue(kvs, k).None? <==> forall i :: 0 <= i < |kvs| ==> kvs[i].0 != k
    decreases |kvs|
  {
    if kvs != [] {
      var n := |kvs| - 1;
      var init := kvs[..n];
      LastValueNone(init, k);
      if LastValue(init, k).Some? && kvs[n].0 != k {
        var i :| 0 <= i < n && init[i].0 == k;
        assert kvs[i] == init[i];
      }
      if LastValue(kvs, k).Some? && kvs[n].0 != k {
        forall i | 0 <= i < n ensures init[i] == kvs[i] {
        }
      }
    }
  }

  /** The last pair with key `k` gives the value. */
  lemma {:induction false} LastValueAt<K, V>(kvs: seq<(K, V)>, k: K, i: nat)
    requires i < |kvs| && kvs[i].0 == k
    requires forall j :: i < j < |kvs| ==> kvs[j].0 != k
    ensures LastValue(kvs, k) == Some(kvs[i].1)
    decreases |kvs|
  {
    var n := |kvs| - 1;
    if i < n {
      var init := kvs[..n];
      assert init[i] == kvs[i];
      forall j | i < j < n ensures init[j].0 != k {
        assert init[j] == kvs[j];
      }
      LastValueAt(init, k, i);
    }
  }

  /** The filled dict holds each key once. */
  lemma {:induction false} AssignedUnique<K(!new), V>(d: Dict<K, V>, kvs: seq<(K, V)>)
    requires UniqueKeys(d)
    ensures UniqueKeys(Assigned(d, kvs))
    decreases |kvs|
  {
    if kvs != [] {
      var n := |kvs| - 1;
      AssignedUnique(d, kvs[..n]);
      PutKeepsUnique(Assigned(d, kvs[..n]), kvs[n].0, kvs[n].1);
    }
  }

  /** Filling with pairs whose keys are distinct keeps them as they are. */
  lemma {:induction false} AssignedDistinct<K(!new), V>(kvs: seq<(K, V)>)
    requires forall i, j :: 0 <= i < j < |kvs| ==> kvs[i].0 != kvs[j].0
    ensures Assigned([], kvs) == kvs
    decreases |kvs|
  {
    if kvs != [] {
      var n := |kvs| - 1;
      var init := kvs[..n];
      forall i, j | 0 <= i < j < |init| ensures init[i].0 != init[j].0 {
        assert init[i] == kvs[i] && init[j] == kvs[j];
      }
      AssignedDistinct(init);
      forall i | 0 <= i < |init| ensures init[i].0 != kvs[n].0 {
        assert init[i] == kvs[i];
      }
      PutNew(init, kvs[n].0, kvs[n].1);
      assert init + [kvs[n]] == kvs;
    }
  }

  /** One round of the filling loop. */
  lemma AssignedStep<K(!new), V>(d: Dict<K, V>, kvs: seq<(K, V)>, p: (K, V))
    ensures Assigned(d, kvs + [p]) == Put(Assigned(d, kvs), p.0, p.1)
  {
    assert (kvs + [p])[..|kvs|] == kvs;
  }

  /** What a loop computing `f(x)` for each item in order collects: the results, or the failure
      of the first item that fails. */
  function Collected<X, A, E>(xs: seq<X>, f: X -> Result<A, E>): Result<seq<A>, E>
    decreases |xs|
  {
    if xs == [] then Ok([])
    else
      match Collected(xs[..|xs| - 1], f)
      case Err(e) => Err(e)
      case Ok(d) =>
        match f(xs[|xs| - 1])
        case Err(e) => Err(e)
        case Ok(a) => Ok(d + [a])
  }

  /** One round of the collecting loop. */
  lemma CollectedStep<X, A, E>(xs: seq<X>, f: X -> Result<A, E>, i: nat, d: seq<A>)
    requires i < |xs| && Collected(xs[..i], f) == Ok(d)
    ensures Collected(xs[..i + 1], f) == if f(xs[i]).Err? then Err(f(xs[i]).error) else Ok(d + [f(xs[i]).value])
  {
    assert xs[..i + 1][..i] == xs[..i];
  }

  /** Once a prefix has failed, every longer prefix fails the same way. */
  lemma {:induction false} CollectedAbsorbs<X, A, E>(xs: seq<X>, f: X -> Result<A, E>, i: nat)
    requires i <= |xs| && Collected(xs[..i], f).Err?
    ensures Collected(xs, f) == Collected(xs[..i], f)
    decreases |xs| - i
  {
    if i < |xs| {
      assert xs[..i + 1][..i] == xs[..i];
      CollectedAbsorbs(xs, f, i + 1);
    } else {
      assert xs[..i] == xs;
    }
  }

  /** The collection succeeds exactly when every item does, and then holds each item's result
      in order. */
  lemma {:induction false} CollectedAll<X, A, E>(xs: seq<X>, f: X -> Result<A, E>)
    ensures Collected(xs, f).Ok? <==> forall i :: 0 <= i < |xs| ==> f(xs[i]).Ok?
    ensures Collected(xs, f).Ok? ==> |Collected(xs, f).value| == |xs|
    ensures Collected(xs, f).Ok? ==> forall i :: 0 <= i < |xs| ==> f(xs[i]) == Ok(Collected(xs, f).value[i])
    decreases |xs|
  {
    if xs != [] {
      var n := |xs| - 1;
      var init := xs[..n];
      CollectedAll(init, f);
      forall i | 0 <= i < n ensures xs[i] == init[i] {
      }
    }
  }

  /** A failed collection reports the failure of the first item that fails. */
  lemma {:induction false} CollectedFirstError<X, A, E>(xs: seq<X>, f: X -> Result<A, E>)
    ensures Collected(xs, f).Err? ==>
      exists i :: 0 <= i < |xs| && f(xs[i]) == Err(Collected(xs, f).error) && forall j :: 0 <= j < i ==> f(xs[j]).Ok?
    decreases |xs|
  {
    if xs != [] && Collected(xs, f).Err? {
      var n := |xs| - 1;
      var init := xs[..n];
      CollectedFirstError(init, f);
      CollectedAll(init, f);
      forall j | 0 <= j < n ensures xs[j] == init[j] {
      }
      if Collected(init, f).Ok? {
        assert f(xs[n]) == Err(Collected(xs, f).error);
      } else {
        var i :| 0 <= i < |init| && f(init[i]) == Err(Collected(init, f).error) && forall j :: 0 <= j < i ==> f(init[j]).Ok?;
        assert xs[i] == init[i];
      }
    }
  }
}
