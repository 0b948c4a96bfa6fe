/** Python values as the modelled code sees them: scalars, containers, and opaque objects. */
module PyValue {
  import PyStr
  import PyDict
  import opened Wrappers

  datatype Value =
    | VNone
    | VBool(b: bool)
    | VInt(i: int)
    | VFloat(text: string)                   // a float, kept as its `repr`
    | VStr(s: string)
    | VList(items: seq<Value>)
    | VTuple(items: seq<Value>)
    | VDict(entries: seq<(Value, Value)>)
    | VObject(repr: string, hasDict: bool)  // an instance; `hasDict` tells whether it has `__dict__`

  /** Python truthiness. An instance is truthy (no `__bool__`/`__len__` is modelled). */
  predicate Truthy(v: Value)
  {
    match v
    case VNone => false
    case VBool(b) => b
    case VInt(i) => i != 0
    case VFloat(t) => t != "0.0" && t != "-0.0"
    case VStr(s) => s != ""
    case VList(xs) => xs != []
    case VTuple(xs) => xs != []
    case VDict(es) => es != []
    case VObject(_, _) => true
  }

  /** A string literal as `repr` writes it when it holds no quote, backslash or unprintable
      character. */
  function QuoteStr(s: string): string
  {
    "'" + s + "'"
  }

  /** Python `repr`. */
  function Repr(v: Value): string
    decreases v
  {
    match v
    case VNone => "None"
    case VBool(b) => if b then "True" else "False"
    case VInt(i) => PyStr.IntToString(i)
    case VFloat(t) => t
    case VStr(s) => QuoteStr(s)
    case VList(xs) => "[" + PyStr.Join(", ", seq(|xs|, k requires 0 <= k < |xs| => Repr(xs[k]))) + "]"
    case VTuple(xs) =>
      if |xs| == 1 then "(" + Repr(xs[0]) + ",)"
      else "(" + PyStr.Join(", ", seq(|xs|, k requires 0 <= k < |xs| => Repr(xs[k]))) + ")"
    case VDict(es) =>
      "{" + PyStr.Join(", ", seq(|es|, k requires 0 <= k < |es| => Repr(es[k].0) + ": " + Repr(es[k].1))) + "}"
    case VObject(r, _) => r
  }

  /** Python `str`: a string is itself, everything else is its `repr`. */
  function Str(v: Value): string
  {
    if v.VStr? then v.s else Repr(v)
  }

  /** What `for x in v` visits: the items of a list or tuple, the characters of a string, the
      keys of a dict. Anything else is not iterable. */
  function Iterated(v: Value): Option<seq<Value>>
  {
    match v
    case VList(xs) => Some(xs)
    case VTuple(xs) => Some(xs)
    case VStr(s) => Some(seq(|s|, i requires 0 <= i < |s| => VStr([s[i]])))
    case VDict(es) => Some(PyDict.Keys(es))
    case _ => None
  }

  /** The integer a float `repr` stands for when it is written in fixed notation with a zero
      fraction, as `repr` writes every integral float below 1e16 (`"5.0"`, `"-0.0"`). */
  function FloatIntegral(t: string): (r: Option<int>)
    ensures r.Some? ==> |t| >= 3
  {
    if |t| > 0 && t[0] == '-' then
      match FixedIntegral(t[1..], 0, 0)
      case Some(n) => Some(-(n as int))
      case None => None
    else
      match FixedIntegral(t, 0, 0)
      case Some(n) => Some(n)
      case None => None
  }

  /** Reads the ASCII digits of `u` from `i` on into `acc`; succeeds when at least one digit is
      followed by a point and only zeros, at least one. */
  function FixedIntegral(u: string, i: nat, acc: nat): (r: Option<nat>)
    requires i <= |u|
    ensures r.Some? ==> |u| >= i + 3 || (i > 0 && |u| >= i + 2)
    decreases |u| - i
  {
    if i == |u| then None
    else if '0' <= u[i] <= '9' then FixedIntegral(u, i + 1, 10 * acc + (u[i] as int - '0' as int))
    else if u[i] == '.' && i > 0 && i + 1 < |u| && forall k :: i + 1 <= k < |u| ==> u[k] == '0' then Some(acc)
    else None
  }

  /** The number a bool or an int stands for. */
  function IntOf(v: Value): int
    requires v.VBool? || v.VInt?
  {
    if v.VBool? then (if v.b then 1 else 0) else v.i
  }

  /** Python `==` on `int`, `bool` and `float`: `True == 1 == 1.0`, `0.0 == -0.0`, and a NaN
      equals nothing. */
  predicate NumEq(a: Value, b: Value)
    requires a.VBool? || a.VInt? || a.VFloat?
    requires b.VBool? || b.VInt? || b.VFloat?
  {
    if a.VFloat? && b.VFloat? then
      (FloatIntegral(a.text).Some? && FloatIntegral(a.text) == FloatIntegral(b.text))
      || (a.text == b.text && a.text != "nan")
    else if a.VFloat? then FloatIntegral(a.text) == Some(IntOf(b))
    else if b.VFloat? then FloatIntegral(b.text) == Some(IntOf(a))
    else IntOf(a) == IntOf(b)
  }

  predicate IsNumber(v: Value)
  {
    v.VBool? || v.VInt? || v.VFloat?
  }

  /** Python `==`. Numbers compare by value across `bool`, `int` and `float`; lists and tuples
      compare item by item (a list never equals a tuple); dicts compare as mappings, whatever
      the order of their entries; instances compare by their `repr`, which for an instance
      without `__eq__` names its identity. */
  predicate PyEq(a: Value, b: Value)
    decreases a, 0
  {
    if IsNumber(a) && IsNumber(b) then NumEq(a, b)
    else match a
      case VNone => b.VNone?
      case VStr(s) => b.VStr? && b.s == s
      case VList(xs) => b.VList? && ItemsEq(xs, b.items)
      case VTuple(xs) => b.VTuple? && ItemsEq(xs, b.items)
      case VDict(es) =>
        b.VDict? && |b.entries| == |es| && AllIn(es, b.entries) && AllHave(es, b.entries)
      case VObject(_, _) => a == b
      case _ => false
  }

  /** The two sequences have the same length and equal items, position by position. */
  predicate ItemsEq(xs: seq<Value>, ys: seq<Value>)
    decreases xs, 1
  {
    |xs| == |ys| && (|xs| == 0 || (PyEq(xs[0], ys[0]) && ItemsEq(xs[1..], ys[1..])))
  }

  /** Two dict entries with equal keys and equal values. */
  predicate EntryEq(e: (Value, Value), f: (Value, Value))
    decreases e, 0
  {
    PyEq(e.0, f.0) && PyEq(e.1, f.1)
  }

  /** Every entry of `es` has an equal entry in `bs`. */
  predicate AllIn(es: seq<(Value, Value)>, bs: seq<(Value, Value)>)
    decreases es, 2
  {
    |es| == 0 || (EntryIn(es[0], bs) && AllIn(es[1..], bs))
  }

  /** `e` has an equal entry in `bs`. */
  predicate EntryIn(e: (Value, Value), bs: seq<(Value, Value)>)
    decreases e, |bs| + 1
  {
    |bs| > 0 && (EntryEq(e, bs[0]) || EntryIn(e, bs[1..]))
  }

  /** Every entry of `bs` has an equal entry in `es`. */
  predicate AllHave(es: seq<(Value, Value)>, bs: seq<(Value, Value)>)
    decreases es, 2, |bs|
  {
    |bs| == 0 || (HasEntry(es, bs[0]) && AllHave(es, bs[1..]))
  }

  /** Some entry of `es` equals `f`. */
  predicate HasEntry(es: seq<(Value, Value)>, f: (Value, Value))
    decreases es, 1
  {
    |es| > 0 && (EntryEq(es[0], f) || HasEntry(es[1..], f))
  }

  lemma {:induction false} ItemsEqMeans(xs: seq<Value>, ys: seq<Value>)
    ensures ItemsEq(xs, ys) <==> |xs| == |ys| && forall k :: 0 <= k < |xs| ==> PyEq(xs[k], ys[k])
    decreases xs
  {
    if |xs| > 0 && |xs| == |ys| {
      ItemsEqMeans(xs[1..], ys[1..]);
      assert forall k :: 1 <= k < |xs| ==> xs[k] == xs[1..][k - 1] && ys[k] == ys[1..][k - 1];
    }
  }

  lemma {:induction false} EntryInMeans(e: (Value, Value), bs: seq<(Value, Value)>)
    ensures EntryIn(e, bs) <==> exists j :: 0 <= j < |bs| && EntryEq(e, bs[j])
    decreases |bs|
  {
    if |bs| > 0 {
      EntryInMeans(e, bs[1..]);
      if EntryIn(e, bs[1..]) {
        var j :| 0 <= j < |bs| - 1 && EntryEq(e, bs[1..][j]);
        assert EntryEq(e, bs[j + 1]);
      }
      if j :| 0 <= j < |bs| && EntryEq(e, bs[j]) {
        if j > 0 { assert EntryEq(e, bs[1..][j - 1]); }
      }
    }
  }

  lemma {:induction false} HasEntryMeans(es: seq<(Value, Value)>, f: (Value, Value))
    ensures HasEntry(es, f) <==> exists j :: 0 <= j < |es| && EntryEq(es[j], f)
    decreases |es|
  {
    if |es| > 0 {
      HasEntryMeans(es[1..], f);
      if HasEntry(es[1..], f) {
        var j :| 0 <= j < |es| - 1 && EntryEq(es[1..][j], f);
        assert EntryEq(es[j + 1], f);
      }
      if j :| 0 <= j < |es| && EntryEq(es[j], f) {
        if j > 0 { assert EntryEq(es[1..][j - 1], f); }
      }
    }
  }

  lemma {:induction false} AllInMeans(es: seq<(Value, Value)>, bs: seq<(Value, Value)>)
    ensures AllIn(es, bs) <==> forall k :: 0 <= k < |es| ==> EntryIn(es[k], bs)
    decreases |es|
  {
    if |es| > 0 {
      AllInMeans(es[1..], bs);
      assert forall k :: 1 <= k < |es| ==> es[k] == es[1..][k - 1];
    }
  }

  lemma {:induction false} AllHaveMeans(es: seq<(Value, Value)>, bs: seq<(Value, Value)>)
    ensures AllHave(es, bs) <==> forall k :: 0 <= k < |bs| ==> HasEntry(es, bs[k])
    decreases |bs|
  {
    if |bs| > 0 {
      AllHaveMeans(es, bs[1..]);
      assert forall k :: 1 <= k < |bs| ==> bs[k] == bs[1..][k - 1];
    }
  }

  /** No float inside `v` is a NaN. */
  predicate NanFree(v: Value)
    decreases v
  {
    match v
    case VFloat(t) => t != "nan"
    case VList(xs) => forall k :: 0 <= k < |xs| ==> NanFree(xs[k])
    case VTuple(xs) => forall k :: 0 <= k < |xs| ==> NanFree(xs[k])
    case VDict(es) => forall k :: 0 <= k < |es| ==> NanFree(es[k].0) && NanFree(es[k].1)
    case _ => true
  }

  /** Every value without a NaN equals itself. */
  lemma {:induction false} PyEqReflexive(v: Value)
    requires NanFree(v)
    ensures PyEq(v, v)
    decreases v
  {
    match v
    case VList(xs) =>
      forall k | 0 <= k < |xs| ensures PyEq(xs[k], xs[k]) { PyEqReflexive(xs[k]); }
      ItemsEqMeans(xs, xs);
    case VTuple(xs) =>
      forall k | 0 <= k < |xs| ensures PyEq(xs[k], xs[k]) { PyEqReflexive(xs[k]); }
      ItemsEqMeans(xs, xs);
    case VDict(es) =>
      forall k | 0 <= k < |es| ensures EntryIn(es[k], es) && HasEntry(es, es[k]) {
        PyEqReflexive(es[k].0);
        PyEqReflexive(es[k].1);
        EntryInMeans(es[k], es);
        HasEntryMeans(es, es[k]);
      }
      AllInMeans(es, es);
      AllHaveMeans(es, es);
    case _ =>
  }

  /** Python `==` is symmetric. */
  lemma {:induction false} PyEqSymmetric(a: Value, b: Value)
    requires PyEq(a, b)
    ensures PyEq(b, a)
    decreases a
  {
    if IsNumber(a) && IsNumber(b) {
    } else {
      match a
      case VList(xs) =>
        ItemsEqMeans(xs, b.items);
        forall k | 0 <= k < |xs| ensures PyEq(b.items[k], xs[k]) { PyEqSymmetric(xs[k], b.items[k]); }
        ItemsEqMeans(b.items, xs);
      case VTuple(xs) =>
        ItemsEqMeans(xs, b.items);
        forall k | 0 <= k < |xs| ensures PyEq(b.items[k], xs[k]) { PyEqSymmetric(xs[k], b.items[k]); }
        ItemsEqMeans(b.items, xs);
      case VDict(es) =>
        var bs := b.entries;
        AllInMeans(es, bs);
        AllHaveMeans(es, bs);
        forall k | 0 <= k < |bs| ensures EntryIn(bs[k], es) {
          HasEntryMeans(es, bs[k]);
          var j :| 0 <= j < |es| && EntryEq(es[j], bs[k]);
          PyEqSymmetric(es[j].0, bs[k].0);
          PyEqSymmetric(es[j].1, bs[k].1);
          EntryInMeans(bs[k], es);
        }
        forall k | 0 <= k < |es| ensures HasEntry(bs, es[k]) {
          EntryInMeans(es[k], bs);
          var j :| 0 <= j < |bs| && EntryEq(es[k], bs[j]);
          PyEqSymmetric(es[k].0, bs[j].0);
          PyEqSymmetric(es[k].1, bs[j].1);
          HasEntryMeans(bs, es[k]);
        }
        AllInMeans(bs, es);
        AllHaveMeans(bs, es);
      case _ =>
    }
  }

  /** `True == 1 == 1.0`, `5.0 == 5` and `0.0 == -0.0`. */
  lemma NumbersAcrossTypes()
    ensures PyEq(VBool(true), VInt(1)) && PyEq(VInt(1), VFloat("1.0"))
    ensures PyEq(VFloat("5.0"), VInt(5)) && PyEq(VFloat("-0.0"), VFloat("0.0"))
  {
    assert FixedIntegral("1.0", 1, 1) == Some(1);
    assert FixedIntegral("5.0", 1, 5) == Some(5);
    assert FixedIntegral("0.0", 1, 0) == Some(0);
  }

  /** A NaN is not even equal to itself, and `5.5 != 5`. */
  lemma NumbersUnequal()
    ensures !PyEq(VFloat("nan"), VFloat("nan")) && !PyEq(VFloat("5.5"), VInt(5))
  {
    assert "5.5"[2] != '0';
    assert FixedIntegral("nan", 0, 0) == None;
  }

  /** The value of ASCII digits `d` read after `acc`, most significant first. */
  function Horner(acc: nat, d: string): nat
    requires forall k :: 0 <= k < |d| ==> '0' <= d[k] <= '9'
    decreases |d|
  {
    if d == [] then acc else Horner(10 * acc + (d[0] as int - '0' as int), d[1..])
  }

  lemma {:induction false} HornerSnoc(acc: nat, d: string, c: char)
    requires forall k :: 0 <= k < |d| ==> '0' <= d[k] <= '9'
    requires '0' <= c <= '9'
    ensures Horner(acc, d + [c]) == 10 * Horner(acc, d) + (c as int - '0' as int)
    decreases |d|
  {
    if d != [] {
      assert (d + [c])[1..] == d[1..] + [c];
      HornerSnoc(10 * acc + (d[0] as int - '0' as int), d[1..], c);
    }
  }

  /** `str` of a natural number writes ASCII digits whose value is the number. */
  lemma {:induction false} NatToStringHorner(n: nat)
    ensures forall k :: 0 <= k < |PyStr.NatToString(n)| ==> '0' <= PyStr.NatToString(n)[k] <= '9'
    ensures Horner(0, PyStr.NatToString(n)) == n
    decreases n
  {
    if n >= 10 {
      NatToStringHorner(n / 10);
      HornerSnoc(0, PyStr.NatToString(n / 10), PyStr.DigitChar(n % 10));
    }
  }

  /** Reading a run of ASCII digits folds them into the accumulator. */
  lemma {:induction false} FixedIntegralDigits(u: string, i: nat, n: nat, acc: nat)
    requires i + n <= |u|
    requires forall k :: i <= k < i + n ==> '0' <= u[k] <= '9'
    ensures FixedIntegral(u, i, acc) == FixedIntegral(u, i + n, Horner(acc, u[i..i + n]))
    decreases n
  {
    if n > 0 {
      FixedIntegralDigits(u, i + 1, n - 1, 10 * acc + (u[i] as int - '0' as int));
      assert u[i..i + n][1..] == u[i + 1..i + n];
    }
  }

  /** `float(n)` is written `str(n) + ".0"` for every integral float below 1e16, and that
      text equals `n`. */
  lemma IntegralFloatRepr(n: int)
    ensures FloatIntegral(PyStr.IntToString(n) + ".0") == Some(n)
    ensures PyEq(VFloat(PyStr.IntToString(n) + ".0"), VInt(n))
  {
    var m: nat := if n < 0 then -n else n;
    var d := PyStr.NatToString(m);
    NatToStringHorner(m);
    var u := d + ".0";
    FixedIntegralDigits(u, 0, |d|, 0);
    assert u[0..|d|] == d;
    assert u[|d|] == '.' && u[|d| + 1] == '0' && |u| == |d| + 2;
    assert FixedIntegral(u, |d|, m) == Some(m);
    if n < 0 {
      assert PyStr.IntToString(n) + ".0" == "-" + u;
      assert ("-" + u)[1..] == u;
    } else {
      assert PyStr.IntToString(n) + ".0" == u;
    }
  }

  /** Dicts compare whatever the order of their entries. */
  lemma DictOrderIgnored()
    ensures PyEq(VDict([(VStr("a"), VInt(1)), (VStr("b"), VInt(2))]), VDict([(VStr("b"), VInt(2)), (VStr("a"), VInt(1))]))
  {
    var d1 := [(VStr("a"), VInt(1)), (VStr("b"), VInt(2))];
    var d2 := [(VStr("b"), VInt(2)), (VStr("a"), VInt(1))];
    assert EntryIn(d1[0], d2[1..]) && EntryIn(d1[1], d2) && AllIn(d1[1..], d2);
    assert HasEntry(d1[1..], d2[0]) && HasEntry(d1, d2[1]) && AllHave(d1, d2[1..]);
  }

  /** A dict whose value differs is unequal, and a list never equals a tuple. */
  lemma UnequalContainers()
    ensures !PyEq(VDict([(VStr("a"), VInt(1))]), VDict([(VStr("a"), VInt(2))]))
    ensures !PyEq(VList([VInt(1)]), VTuple([VInt(1)]))
  {
    var e := [(VStr("a"), VInt(2))];
    assert !EntryIn((VStr("a"), VInt(1)), e[1..]);
  }
}
