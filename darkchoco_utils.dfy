/** lib/darkchoco/core/utils.py: the module name of a handler, the validation of submitted values
    against a handler's signature, and the parsing of a `Cookie` header. */
module DarkchocoUtils {
  import opened Wrappers
  import opened PyStr
  import opened PyDict
  import opened DarkchocoDataType
  import Seqs

  // ---------------------------------------------------------------------------
  // get_namespace

  /** The first name in `sys.modules` (given as name/module-identity pairs, in order) bound to
      the module `mod`. */
  function FirstBound(modules: Dict<string, nat>, mod: nat): Option<string>
    decreases |modules|
  {
    if modules == [] then None
    else if modules[0].1 == mod then Some(modules[0].0)
    else FirstBound(modules[1..], mod)
  }

  /** `get_namespace`: the first name bound to the handler's module, or `None` for the
      `ValueError`. */
  method GetNamespace(modules: Dict<string, nat>, mod: nat) returns (r: Option<string>)
    ensures r == FirstBound(modules, mod)
    ensures r.None? <==> forall i :: 0 <= i < |modules| ==> modules[i].1 != mod
    ensures r.Some? ==>
      exists i :: 0 <= i < |modules| && modules[i] == (r.value, mod) && forall j :: 0 <= j < i ==> modules[j].1 != mod
  {
    var i := 0;
    while i < |modules|
      invariant 0 <= i <= |modules|
      invariant forall j :: 0 <= j < i ==> modules[j].1 != mod
      invariant FirstBound(modules, mod) == FirstBound(modules[i..], mod)
    {
      assert modules[i..][1..] == modules[i + 1..];
      if modules[i].1 == mod {
        return Some(modules[i].0);
      }
      i := i + 1;
    }
    return None;
  }

  // ---------------------------------------------------------------------------
  // validate_parameter

  /** One parameter of a handler's signature: its name, its annotation (`None` for none) and
      whether it has a default value. */
  datatype Param = Param(name: string, annotation: Option<DcType>, hasDefault: bool)

  /** A validated argument: the submitted list as it came, or what its annotation parsed. */
  datatype Arg = Given(values: seq<string>) | ParsedArg(parsed: Parsed)

  datatype ValidateError =
    | BindMismatch(received: Dict<string, seq<string>>, expected: seq<string>) // `signature.bind` failed
    | InvalidData(name: string, cause: ParseError)  // "Invalid data for parameter <name> : ..."

  /** `p_list`: the parameter names in signature order. */
  function Names(sig: seq<Param>): (r: seq<string>)
    ensures |r| == |sig| && forall i :: 0 <= i < |sig| ==> r[i] == sig[i].name
  {
    seq(|sig|, i requires 0 <= i < |sig| => sig[i].name)
  }

  /** A Python signature names each parameter once. */
  predicate UniqueNames(sig: seq<Param>)
  {
    forall i, j :: 0 <= i < j < |sig| ==> sig[i].name != sig[j].name
  }

  /** `signature.bind(**parameter)` succeeds: every supplied name is a parameter and every
      parameter without a default is supplied. */
  predicate Binds(sig: seq<Param>, ps: Dict<string, seq<string>>)
  {
    (forall i :: 0 <= i < |ps| ==> ps[i].0 in Names(sig))
    && (forall j :: 0 <= j < |sig| && !sig[j].hasDefault ==> sig[j].name in Keys(ps))
  }

  /** `bound_arguments.arguments`: the supplied parameters in signature order, with their values
      and annotations. */
  function Bound(sig: seq<Param>, ps: Dict<string, seq<string>>): (r: seq<(string, seq<string>, Option<DcType>)>)
    ensures |r| <= |sig|
    decreases |sig|
  {
    if sig == [] then []
    else
      var p := sig[|sig| - 1];
      Bound(sig[..|sig| - 1], ps)
      + match Get(ps, p.name) case None => [] case Some(v) => [(p.name, v, p.annotation)]
  }

  /** The validated argument for one bound name. */
  function ArgValue(name: string, v: seq<string>, annotation: Option<DcType>, matches: (string, string) -> bool): Result<Arg, ValidateError>
  {
    if annotation.None? then Ok(Given(v))
    else
      match Parse(annotation.value, v, matches)
      case Err(e) => Err(InvalidData(name, e))
      case Ok(p) => Ok(ParsedArg(p))
  }

  /** One bound entry of `validate_parameter`'s loop: its name with its validated argument. */
  function NamedArg(matches: (string, string) -> bool): ((string, seq<string>, Option<DcType>)) -> Result<(string, Arg), ValidateError>
  {
    (b: (string, seq<string>, Option<DcType>)) =>
      match ArgValue(b.0, b.1, b.2, matches) case Err(e) => Err(e) case Ok(a) => Ok((b.0, a))
  }

  /** `updated_args` after the bound arguments are validated in order; the first failure aborts. */
  function ValidateArgs(bs: seq<(string, seq<string>, Option<DcType>)>, matches: (string, string) -> bool): Result<Dict<string, Arg>, ValidateError>
  {
    match Collected(bs, NamedArg(matches))
    case Err(e) => Err(e)
    case Ok(kvs) => Ok(Assigned([], kvs))
  }

  /** What `validate_parameter(signature, parameter)` returns or raises. */
  function Validated(sig: seq<Param>, ps: Dict<string, seq<string>>, matches: (string, string) -> bool): Result<Dict<string, Arg>, ValidateError>
  {
    if !Binds(sig, ps) then Err(BindMismatch(ps, Names(sig)))
    else ValidateArgs(Bound(sig, ps), matches)
  }

  /** `validate_parameter`: collects the parameter names, binds, then validates the bound
      arguments in a loop. */
  method ValidateParameter(sig: seq<Param>, ps: Dict<string, seq<string>>, matches: (string, string) -> bool)
    returns (r: Result<Dict<string, Arg>, ValidateError>)
    ensures r == Validated(sig, ps, matches)
  {
    var pList: seq<string> := [];
    var k := 0;
    while k < |sig|
      invariant 0 <= k <= |sig|
      invariant pList == Names(sig[..k])
    {
      pList := pList + [sig[k].name];
      k := k + 1;
    }
    assert sig[..k] == sig;
    if !Binds(sig, ps) {
      return Err(BindMismatch(ps, pList));
    }
    var bs := Bound(sig, ps);
    var updated: Dict<string, Arg> := [];
    ghost var kvs: seq<(string, Arg)> := [];
    var i := 0;
    while i < |bs|
      invariant 0 <= i <= |bs|
      invariant Collected(bs[..i], NamedArg(matches)) == Ok(kvs) && updated == Assigned([], kvs)
    {
      var (name, value, annotation) := bs[i];
      CollectedStep(bs, NamedArg(matches), i, kvs);
      ghost var next := Collected(bs[..i + 1], NamedArg(matches));
      var a: Arg;
      if annotation.None? {
        a := Given(value);
      } else {
        var p := Parse(annotation.value, value, matches);
        if p.Err? {
          CollectedAbsorbs(bs, NamedArg(matches), i + 1);
          return Err(InvalidData(name, p.error));
        }
        a := ParsedArg(p.value);
      }
      AssignedStep([], kvs, (name, a));
      updated := Put(updated, name, a);
      kvs := kvs + [(name, a)];
      assert next == Ok(kvs);
      i := i + 1;
      assert Collected(bs[..i], NamedArg(matches)) == next;
    }
    assert bs[..i] == bs;
    return Ok(updated);
  }

  /** The bind error is raised exactly when binding fails, naming what was received and the
      parameters the handler declares. */
  lemma BindFailure(sig: seq<Param>, ps: Dict<string, seq<string>>, matches: (string, string) -> bool)
    ensures (Validated(sig, ps, matches).Err? && Validated(sig, ps, matches).error.BindMismatch?) <==> !Binds(sig, ps)
    ensures !Binds(sig, ps) ==> Validated(sig, ps, matches) == Err(BindMismatch(ps, Names(sig)))
  {
    if Binds(sig, ps) {
      ValidateArgsFirstError(Bound(sig, ps), matches);
    }
  }

  /** Each bound entry is a parameter of the signature that was supplied, with the value supplied
      for it, and no name is bound twice. */
  lemma {:induction false} BoundEntries(sig: seq<Param>, ps: Dict<string, seq<string>>)
    requires UniqueNames(sig)
    ensures forall i :: 0 <= i < |Bound(sig, ps)| ==> Get(ps, Bound(sig, ps)[i].0) == Some(Bound(sig, ps)[i].1)
    ensures forall i :: 0 <= i < |Bound(sig, ps)| ==> Bound(sig, ps)[i].0 in Names(sig)
    ensures forall i, j :: 0 <= i < j < |Bound(sig, ps)| ==> Bound(sig, ps)[i].0 != Bound(sig, ps)[j].0
    decreases |sig|
  {
    if sig != [] {
      var init := sig[..|sig| - 1];
      assert UniqueNames(init) by {
        forall i, j | 0 <= i < j < |init| ensures init[i].name != init[j].name {
          assert init[i] == sig[i] && init[j] == sig[j];
        }
      }
      BoundEntries(init, ps);
      var b := Bound(init, ps);
      var p := sig[|sig| - 1];
      var e := match Get(ps, p.name) case None => [] case Some(v) => [(p.name, v, p.annotation)];
      var r := Bound(sig, ps);
      assert r == b + e;
      assert Names(sig) == Names(init) + [p.name];
      assert p.name !in Names(init) by {
        forall k | 0 <= k < |init| ensures Names(init)[k] != p.name {
          assert init[k] == sig[k];
        }
      }
      forall i | 0 <= i < |r| ensures Get(ps, r[i].0) == Some(r[i].1) && r[i].0 in Names(sig) {
        if i < |b| {
          assert r[i] == b[i];
        }
      }
      forall i, j | 0 <= i < j < |r| ensures r[i].0 != r[j].0 {
        if j < |b| {
          assert r[i] == b[i] && r[j] == b[j];
        } else {
          assert r[i] == b[i] && r[j].0 == p.name;
          assert b[i].0 in Names(init);
        }
      }
    }
  }

  /** With the names bound once each, the arguments are validated in order: the result holds one
      entry per bound name, in order, the submitted list for an unannotated parameter and its
      parse for an annotated one, and it is there exactly when every argument validates. */
  lemma ValidateArgsShape(bs: seq<(string, seq<string>, Option<DcType>)>, matches: (string, string) -> bool)
    requires forall i, j :: 0 <= i < j < |bs| ==> bs[i].0 != bs[j].0
    ensures ValidateArgs(bs, matches).Ok? <==> forall i :: 0 <= i < |bs| ==> ArgValue(bs[i].0, bs[i].1, bs[i].2, matches).Ok?
    ensures ValidateArgs(bs, matches).Ok? ==> |ValidateArgs(bs, matches).value| == |bs|
    ensures ValidateArgs(bs, matches).Ok? ==> forall i :: 0 <= i < |bs| ==>
      ValidateArgs(bs, matches).value[i] == (bs[i].0, ArgValue(bs[i].0, bs[i].1, bs[i].2, matches).value)
  {
    var f := NamedArg(matches);
    CollectedAll(bs, f);
    if Collected(bs, f).Ok? {
      var kvs := Collected(bs, f).value;
      forall i | 0 <= i < |bs| ensures kvs[i] == (bs[i].0, ArgValue(bs[i].0, bs[i].1, bs[i].2, matches).value) {
        assert f(bs[i]) == Ok(kvs[i]);
      }
      AssignedDistinct(kvs);
    } else {
      forall i | 0 <= i < |bs| && f(bs[i]).Err? ensures ArgValue(bs[i].0, bs[i].1, bs[i].2, matches).Err? {
      }
    }
  }

  /** A failed validation reports the invalid-data error of the first argument that fails. */
  lemma ValidateArgsFirstError(bs: seq<(string, seq<string>, Option<DcType>)>, matches: (string, string) -> bool)
    ensures ValidateArgs(bs, matches).Err? ==> ValidateArgs(bs, matches).error.InvalidData?
    ensures ValidateArgs(bs, matches).Err? ==>
      exists i :: 0 <= i < |bs| && ArgValue(bs[i].0, bs[i].1, bs[i].2, matches) == Err(ValidateArgs(bs, matches).error)
        && forall j :: 0 <= j < i ==> ArgValue(bs[j].0, bs[j].1, bs[j].2, matches).Ok?
  {
    var f := NamedArg(matches);
    CollectedFirstError(bs, f);
    if Collected(bs, f).Err? {
      var i :| 0 <= i < |bs| && f(bs[i]) == Err(Collected(bs, f).error) && forall j :: 0 <= j < i ==> f(bs[j]).Ok?;
      assert ArgValue(bs[i].0, bs[i].1, bs[i].2, matches) == Err(ValidateArgs(bs, matches).error);
      forall j | 0 <= j < i ensures ArgValue(bs[j].0, bs[j].1, bs[j].2, matches).Ok? {
        assert f(bs[j]).Ok?;
      }
    }
  }

  /** Unannotated arguments pass through as submitted; annotated ones are parsed, and a parse
      failure becomes the invalid-data error of that parameter. */
  lemma ArgPassesOrParses(name: string, v: seq<string>, annotation: Option<DcType>, matches: (string, string) -> bool)
    ensures annotation.None? ==> ArgValue(name, v, annotation, matches) == Ok(Given(v))
    ensures annotation.Some? ==> (ArgValue(name, v, annotation, matches).Ok?
      <==> IsValid(annotation.value, v, matches) == Ok(true))
    ensures annotation.Some? && ArgValue(name, v, annotation, matches).Err? ==>
      ArgValue(name, v, annotation, matches) == Err(InvalidData(name, Parse(annotation.value, v, matches).error))
  {
  }

  // ---------------------------------------------------------------------------
  // parseCookie

  /** The key of one `k=v` pair: the text before its first `=`. */
  function CookieKey(pair: string): string
  {
    Split(pair, "=")[0]
  }

  /** The value of one pair: the pieces after the first `=`, rejoined with `=`. */
  function CookieValue(pair: string): string
  {
    Join("=", Split(pair, "=")[1..])
  }

  /** The key/value pair each `k=v` text contributes. */
  function CookiePairs(pairs: seq<string>): (r: seq<(string, string)>)
    ensures |r| == |pairs| && forall i :: 0 <= i < |pairs| ==> r[i] == (CookieKey(pairs[i]), CookieValue(pairs[i]))
  {
    seq(|pairs|, i requires 0 <= i < |pairs| => (CookieKey(pairs[i]), CookieValue(pairs[i])))
  }

  /** The dict filled from the `k=v` texts, pair by pair. */
  function CookiesOf(pairs: seq<string>): Dict<string, string>
  {
    Assigned([], CookiePairs(pairs))
  }

  /** What `parseCookie(cookieString)` returns. */
  function Cookies(s: string): Dict<string, string>
  {
    CookiesOf(Split(s, "; "))
  }

  /** `parseCookie`: splits on "; ", then fills the dict pair by pair. */
  method ParseCookie(cookieString: string) returns (cookies: Dict<string, string>)
    ensures cookies == Cookies(cookieString)
  {
    cookies := [];
    var pairs := Split(cookieString, "; ");
    ghost var kvs := CookiePairs(pairs);
    var i := 0;
    while i < |pairs|
      invariant 0 <= i <= |pairs|
      invariant cookies == Assigned([], kvs[..i])
    {
      var values := Split(pairs[i], "=");
      Seqs.PrefixExtend(kvs, i);
      AssignedStep([], kvs[..i], kvs[i]);
      cookies := Put(cookies, values[0], Join("=", values[1..]));
      i := i + 1;
    }
    assert kvs[..i] == kvs;
  }

  /** A pair `k=v` whose key has no `=` gives key `k` and value `v`, whatever `=` the value holds. */
  lemma PairParts(k: string, v: string)
    requires '=' !in k
    ensures CookieKey(k + "=" + v) == k && CookieValue(k + "=" + v) == v
  {
    SplitAfterPiece(k, '=', v);
    assert k + "=" + v == k + ['='] + v;
    JoinSplit(v, "=");
    assert ([k] + Split(v, "="))[1..] == Split(v, "=");
  }

  /** A pair without `=` maps its whole text to the empty value. */
  lemma PairWithoutEquals(p: string)
    requires '=' !in p
    ensures CookieKey(p) == p && CookieValue(p) == ""
  {
    SplitNoSep(p, '=');
  }

  /** The empty cookie string yields the single entry `{"": ""}`. */
  lemma EmptyCookieString()
    ensures Cookies("") == [("", "")]
  {
    assert Split("", "; ") == [""];
    assert !StartsWith("", "=");
    assert Split("", "=") == [""];
    assert CookiePairs([""]) == [("", "")];
  }

  /** A key is in the cookie dict exactly when some pair has it. */
  lemma CookiePresent(pairs: seq<string>, k: string)
    ensures Get(CookiesOf(pairs), k).None? <==> forall i :: 0 <= i < |pairs| ==> CookieKey(pairs[i]) != k
  {
    var kvs := CookiePairs(pairs);
    AssignedGet([], kvs, k);
    LastValueNone(kvs, k);
    if Get(Assigned([], kvs), k).Some? {
      var i :| 0 <= i < |kvs| && kvs[i].0 == k;
      assert CookieKey(pairs[i]) == k;
    }
  }

  /** For a duplicated key the last pair that has it wins. */
  lemma LastPairWins(pairs: seq<string>, k: string, i: nat)
    requires i < |pairs| && CookieKey(pairs[i]) == k
    requires forall j :: i < j < |pairs| ==> CookieKey(pairs[j]) != k
    ensures Get(CookiesOf(pairs), k) == Some(CookieValue(pairs[i]))
  {
    var kvs := CookiePairs(pairs);
    AssignedGet([], kvs, k);
    forall j | i < j < |kvs| ensures kvs[j].0 != k {
      assert kvs[j].0 == CookieKey(pairs[j]);
    }
    LastValueAt(kvs, k, i);
  }

  /** The cookie dict holds each key once. */
  lemma CookieKeysUnique(pairs: seq<string>)
    ensures UniqueKeys(CookiesOf(pairs))
  {
    AssignedUnique([], CookiePairs(pairs));
  }
}
