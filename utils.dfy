/** lib/BlackPearl/core/utils.py: url normalisation, request-parameter validation against a
    handler's signature, and the sanitising of values before they are serialised. */
module CoreUtils {
  import opened Wrappers
  import opened PyStr
  import opened PyDict
  import opened DataType
  import opened PyValue
  import Seqs

  // ---------------------------------------------------------------------------
  // fixurl

  /** What one `/`-piece contributes: its stripped text, unless that is empty. */
  function Piece(p: string): seq<string>
  {
    var s := Strip(p);
    if s != [] then [s] else []
  }

  /** The whitespace-stripped pieces of `parts` that are not empty, in order. */
  function Segments(parts: seq<string>): seq<string>
    decreases |parts|
  {
    if parts == [] then [] else Segments(parts[..|parts| - 1]) + Piece(parts[|parts| - 1])
  }

  /** Every segment is non-empty and stripped. */
  lemma {:induction false} SegmentsStripped(parts: seq<string>)
    ensures forall i :: 0 <= i < |Segments(parts)| ==> Segments(parts)[i] != [] && IsStripped(Segments(parts)[i])
    decreases |parts|
  {
    if parts != [] {
      SegmentsStripped(parts[..|parts| - 1]);
      StripResult(parts[|parts| - 1]);
    }
  }

  /** What `fixurl(url)` returns: "/" and the non-empty stripped `/`-pieces joined by "/". */
  function NormalizedUrl(url: string): string
  {
    "/" + Join("/", Segments(Split(url, "/")))
  }

  /** `fixurl`: collects the segments in a loop, then joins them. */
  method FixUrl(url: string) returns (r: string)
    ensures r == NormalizedUrl(url)
  {
    var parts := Split(url, "/");
    var segs: seq<string> := [];
    var i := 0;
    while i < |parts|
      invariant 0 <= i <= |parts|
      invariant segs == Segments(parts[..i])
    {
      var segment := Strip(parts[i]);
      SegmentsStep(parts, i);
      if |segment| != 0 {
        segs := segs + [segment];
      }
      i := i + 1;
    }
    assert parts[..i] == parts;
    r := "/" + Join("/", segs);
  }

  lemma SegmentsStep(parts: seq<string>, i: nat)
    requires i < |parts|
    ensures Segments(parts[..i + 1]) == Segments(parts[..i]) + Piece(parts[i])
  {
    assert parts[..i + 1][..i] == parts[..i];
  }

  /** No two consecutive slashes. */
  predicate NoDoubleSlash(s: string)
  {
    forall i :: 0 <= i < |s| - 1 ==> !(s[i] == '/' && s[i + 1] == '/')
  }

  /** The segments keep only characters of the pieces they come from. */
  lemma {:induction false} SegmentsLack(parts: seq<string>, c: char)
    requires forall i :: 0 <= i < |parts| ==> c !in parts[i]
    ensures forall i :: 0 <= i < |Segments(parts)| ==> c !in Segments(parts)[i]
    decreases |parts|
  {
    if parts != [] {
      SegmentsLack(parts[..|parts| - 1], c);
      StripResult(parts[|parts| - 1]);
    }
  }

  /** Joining non-empty slash-free pieces with "/" puts no slash at either end and none twice. */
  lemma {:induction false} JoinSlashFree(ps: seq<string>)
    requires |ps| >= 1
    requires forall i :: 0 <= i < |ps| ==> ps[i] != [] && '/' !in ps[i]
    ensures var j := Join("/", ps); |j| >= 1 && j[0] != '/' && j[|j| - 1] != '/' && NoDoubleSlash(j)
    decreases |ps|
  {
    if |ps| > 1 {
      JoinSlashFree(ps[1..]);
      var a := ps[0];
      var b := Join("/", ps[1..]);
      var j := a + "/" + b;
      assert a[0] != '/' && a[|a| - 1] != '/' by {
        assert a[0] in a && a[|a| - 1] in a;
      }
      forall i | 0 <= i < |j| - 1 ensures !(j[i] == '/' && j[i + 1] == '/') {
        if i < |a| - 1 {
          assert j[i] == a[i];
          assert a[i] in a;
        } else if i == |a| - 1 {
          assert j[i] == a[|a| - 1];
        } else if i == |a| {
          assert j[i + 1] == b[0];
        } else {
          assert j[i] == b[i - |a| - 1] && j[i + 1] == b[i - |a|];
        }
      }
    }
  }

  /** `fixurl`'s result starts with "/", holds no "//", and ends in "/" only when it is "/". */
  lemma NormalizedUrlShape(url: string)
    ensures var r := NormalizedUrl(url); |r| >= 1 && r[0] == '/' && NoDoubleSlash(r)
    ensures var r := NormalizedUrl(url); r == "/" || r[|r| - 1] != '/'
  {
    var parts := Split(url, "/");
    var segs := Segments(parts);
    SplitPiecesLackSep(url, '/');
    SegmentsLack(parts, '/');
    SegmentsStripped(parts);
    if |segs| >= 1 {
      JoinSlashFree(segs);
      var j := Join("/", segs);
      var r := "/" + j;
      forall i | 0 <= i < |r| - 1 ensures !(r[i] == '/' && r[i + 1] == '/') {
        if i == 0 {
          assert r[1] == j[0];
        } else {
          assert r[i] == j[i - 1] && r[i + 1] == j[i];
        }
      }
    }
  }

  lemma {:induction false} SegmentsAppend(a: seq<string>, b: seq<string>)
    ensures Segments(a + b) == Segments(a) + Segments(b)
    decreases |b|
  {
    if b == [] {
      assert a + b == a;
    } else {
      var b' := b[..|b| - 1];
      assert (a + b)[..|a + b| - 1] == a + b';
      assert (a + b)[|a + b| - 1] == b[|b| - 1];
      SegmentsAppend(a, b');
    }
  }

  /** Pieces that are already stripped and non-empty are kept as they are. */
  lemma {:induction false} SegmentsOfSegments(ps: seq<string>)
    requires forall i :: 0 <= i < |ps| ==> ps[i] != [] && IsStripped(ps[i])
    ensures Segments(ps) == ps
    decreases |ps|
  {
    if ps != [] {
      SegmentsOfSegments(ps[..|ps| - 1]);
      StrippedFixed(ps[|ps| - 1]);
      assert Piece(ps[|ps| - 1]) == [ps[|ps| - 1]];
      Seqs.InitLast(ps);
    }
  }

  /** The pieces of an already normalised url: an empty one before the first slash, then the
      segments. */
  lemma SplitNormalized(segs: seq<string>)
    requires segs != []
    requires forall i :: 0 <= i < |segs| ==> '/' !in segs[i]
    ensures Split("/" + Join("/", segs), "/") == [""] + segs
  {
    LeadingEmptyLacks(segs, '/');
    JoinLeadingEmpty(segs);
    SplitJoin([""] + segs, '/');
  }

  lemma LeadingEmptyLacks(segs: seq<string>, c: char)
    requires forall i :: 0 <= i < |segs| ==> c !in segs[i]
    ensures forall i :: 0 <= i < |[""] + segs| ==> c !in ([""] + segs)[i]
  {
    var parts := [""] + segs;
    forall i | 0 <= i < |parts| ensures c !in parts[i] {
      if i > 0 {
        assert parts[i] == segs[i - 1];
      }
    }
  }

  lemma JoinLeadingEmpty(segs: seq<string>)
    requires segs != []
    ensures "/" + Join("/", segs) == Join("/", [""] + segs)
  {
    JoinCons("/", "", segs);
    assert "" + "/" + Join("/", segs) == "/" + Join("/", segs);
  }


  /** Normalising a normalised url with at least one segment changes nothing. */
  lemma NormalizeJoined(segs: seq<string>)
    requires segs != []
    requires forall i :: 0 <= i < |segs| ==> '/' !in segs[i]
    requires forall i :: 0 <= i < |segs| ==> segs[i] != [] && IsStripped(segs[i])
    ensures NormalizedUrl("/" + Join("/", segs)) == "/" + Join("/", segs)
  {
    SplitNormalized(segs);
    SegmentsAppend([""], segs);
    assert Segments([""]) == [];
    SegmentsOfSegments(segs);
    assert Segments([""] + segs) == segs;
  }

  lemma NormalizeRoot()
    ensures NormalizedUrl("/") == "/"
  {
    assert Split("/", "/") == [""] + Split("", "/");
    assert Segments(["", ""]) == [];
  }

  /** `fixurl(fixurl(u)) == fixurl(u)`. */
  lemma FixUrlIdempotent(url: string)
    ensures NormalizedUrl(NormalizedUrl(url)) == NormalizedUrl(url)
  {
    var segs := Segments(Split(url, "/"));
    SplitPiecesLackSep(url, '/');
    SegmentsLack(Split(url, "/"), '/');
    SegmentsStripped(Split(url, "/"));
    if segs == [] {
      NormalizeRoot();
    } else {
      NormalizeJoined(segs);
    }
  }

  // ---------------------------------------------------------------------------
  // validate_parameter

  /** One parameter of a handler's signature: its name, its annotation (`None` for none) and
      whether it has a default value. */
  datatype Param = Param(name: string, annotation: Option<DataType>, hasDefault: bool)

  /** What a request supplies for one name: one form field, or a list of them. */
  datatype FieldValue = Single(field: Field) | Multi(fields: seq<Field>)

  /** A validated argument. */
  datatype Arg =
    | Text(s: string)                                           // `value.value`, or a `StringIO`'s text
    | FileDict(file: Upload, filename: string, filetype: string) // the file dict of an upload
    | ParsedValue(parsed: Parsed)                               // `datatype.parse` of a single value
    | ParsedList(items: seq<Parsed>)                            // a `ListType` parse of a list of values

  datatype ValidateError =
    | BindMismatch(received: seq<string>, expected: seq<string>) // `signature.bind` failed
    | InvalidData(name: string, cause: ParseError)              // "Invalid data for parameter <name>"
    | ListNotSupported(name: string)                            // "... it don't support list of values"
    | NoFirstValue(name: string)                                // `value[0]` of an empty list

  function Names(sig: seq<Param>): (r: seq<string>)
    ensures |r| == |sig| && forall i :: 0 <= i < |sig| ==> r[i] == sig[i].name
  {
    seq(|sig|, i requires 0 <= i < |sig| => sig[i].name)
  }

  /** `signature.bind(**parameter)` succeeds: every supplied name is a parameter and every
      parameter without a default is supplied. */
  predicate Binds(sig: seq<Param>, ps: Dict<string, FieldValue>)
  {
    (forall i :: 0 <= i < |ps| ==> ps[i].0 in Names(sig))
    && (forall j :: 0 <= j < |sig| && !sig[j].hasDefault ==> sig[j].name in Keys(ps))
  }

  /** `bound_arguments.arguments`: the supplied parameters in signature order, with their values
      and annotations. */
  function Bound(sig: seq<Param>, ps: Dict<string, FieldValue>): (r: seq<(string, FieldValue, Option<DataType>)>)
    ensures |r| <= |sig|
    decreases |sig|
  {
    if sig == [] then []
    else
      var p := sig[|sig| - 1];
      Bound(sig[..|sig| - 1], ps)
      + match Get(ps, p.name) case None => [] case Some(v) => [(p.name, v, p.annotation)]
  }

  /** A field read without an annotation: the upload's text or file dict, or its value. */
  function Unannotated(f: Field): Arg
  {
    match f.file
    case None => Text(f.value)
    case Some(u) => if u.stringIO then Text(u.text) else FileDict(u, f.filename, f.contentType)
  }

  /** `datatype.parse(t, v)` of each value in order; the first failure aborts. */
  function ParseEach(t: DataType, fs: seq<Field>, matches: (string, string) -> bool): Result<seq<Parsed>, ParseError>
    decreases |fs|
  {
    if fs == [] then Ok([])
    else
      match ParseEach(t, fs[..|fs| - 1], matches)
      case Err(e) => Err(e)
      case Ok(ps) =>
        match Parse(t, fs[|fs| - 1], matches)
        case Err(e) => Err(e)
        case Ok(p) => Ok(ps + [p])
  }

  /** The validated argument for one bound name. */
  function ArgValue(name: string, v: FieldValue, annotation: Option<DataType>, matches: (string, string) -> bool): (r: Result<Arg, ValidateError>)
    ensures r.Err? ==> !r.error.BindMismatch? && r.error.name == name
  {
    match v
    case Single(f) =>
      if annotation.None? then Ok(Unannotated(f))
      else
        (match Parse(annotation.value, f, matches)
         case Err(e) => Err(InvalidData(name, e))
         case Ok(p) => Ok(ParsedValue(p)))
    case Multi(fs) =>
      if annotation.None? then (if fs == [] then Err(NoFirstValue(name)) else Ok(Unannotated(fs[0])))
      else if IsListType(annotation.value) then
        (match ParseEach(annotation.value, fs, matches)
         case Err(e) => Err(InvalidData(name, e))
         case Ok(items) => Ok(ParsedList(items)))
      else Err(ListNotSupported(name))
  }

  /** `updated_args` after the bound arguments are validated in order; the first failure aborts. */
  function ValidateArgs(bs: seq<(string, FieldValue, Option<DataType>)>, matches: (string, string) -> bool): (r: Result<Dict<string, Arg>, ValidateError>)
    ensures r.Err? ==> !r.error.BindMismatch?
    decreases |bs|
  {
    if bs == [] then Ok([])
    else
      var b := bs[|bs| - 1];
      match ValidateArgs(bs[..|bs| - 1], matches)
      case Err(e) => Err(e)
      case Ok(d) =>
        match ArgValue(b.0, b.1, b.2, matches)
        case Err(e) => Err(e)
        case Ok(a) => Ok(Put(d, b.0, a))
  }

  /** What `validate_parameter(signature, parameter)` returns or raises. `None` stands for a
      `parameter` without a length, which is treated as `{}`. */
  function Validated(sig: seq<Param>, parameter: Option<Dict<string, FieldValue>>, matches: (string, string) -> bool): Result<Dict<string, Arg>, ValidateError>
  {
    var ps := if parameter.None? then [] else parameter.value;
    if !Binds(sig, ps) then Err(BindMismatch(Keys(ps), Names(sig)))
    else ValidateArgs(Bound(sig, ps), matches)
  }

  /** The text of a bind failure: both name lists as Python prints a list of strings. */
  function BindMessage(received: seq<string>, expected: seq<string>): string
  {
    "The received parameters <" + Repr(VList(seq(|received|, i requires 0 <= i < |received| => VStr(received[i]))))
    + "> not matching with function definition <"
    + Repr(VList(seq(|expected|, i requires 0 <= i < |expected| => VStr(expected[i])))) + ">"
  }

  /** The list parse of a `ListType` annotation: a loop appending each parsed value. */
  method ParseList(t: DataType, fs: seq<Field>, matches: (string, string) -> bool) returns (r: Result<seq<Parsed>, ParseError>)
    ensures r == ParseEach(t, fs, matches)
  {
    var parsed: seq<Parsed> := [];
    var i := 0;
    while i < |fs|
      invariant 0 <= i <= |fs|
      invariant ParseEach(t, fs[..i], matches) == Ok(parsed)
    {
      var p := Parse(t, fs[i], matches);
      ParseEachStep(t, fs, i, parsed, matches);
      if p.Err? {
        ParseEachAbsorbs(t, fs, i + 1, matches);
        return Err(p.error);
      }
      parsed := parsed + [p.value];
      i := i + 1;
    }
    assert fs[..i] == fs;
    return Ok(parsed);
  }

  /** One round of the list-parsing loop. */
  lemma ParseEachStep(t: DataType, fs: seq<Field>, i: nat, ps: seq<Parsed>, matches: (string, string) -> bool)
    requires i < |fs| && ParseEach(t, fs[..i], matches) == Ok(ps)
    ensures var p := Parse(t, fs[i], matches);
      ParseEach(t, fs[..i + 1], matches) == if p.Err? then Err(p.error) else Ok(ps + [p.value])
  {
    assert fs[..i + 1][..i] == fs[..i];
  }

  /** Once a prefix has failed, every longer prefix fails the same way. */
  lemma {:induction false} ParseEachAbsorbs(t: DataType, fs: seq<Field>, i: nat, matches: (string, string) -> bool)
    requires i <= |fs| && ParseEach(t, fs[..i], matches).Err?
    ensures ParseEach(t, fs, matches) == ParseEach(t, fs[..i], matches)
    decreases |fs| - i
  {
    if i < |fs| {
      assert fs[..i + 1][..i] == fs[..i];
      ParseEachAbsorbs(t, fs, i + 1, matches);
    } else {
      assert fs[..i] == fs;
    }
  }

  /** The validation of one bound argument inside `validate_parameter`'s loop. */
  method ValidateArg(name: string, value: FieldValue, annotation: Option<DataType>, matches: (string, string) -> bool)
    returns (a: Result<Arg, ValidateError>)
    ensures a == ArgValue(name, value, annotation, matches)
  {
    match value {
      case Single(f) =>
        if annotation.None? {
          a := Ok(Unannotated(f));
        } else {
          var p := Parse(annotation.value, f, matches);
          a := if p.Err? then Err(InvalidData(name, p.error)) else Ok(ParsedValue(p.value));
        }
      case Multi(fs) =>
        if annotation.None? {
          a := if fs == [] then Err(NoFirstValue(name)) else Ok(Unannotated(fs[0]));
        } else if IsListType(annotation.value) {
          var pl := ParseList(annotation.value, fs, matches);
          a := if pl.Err? then Err(InvalidData(name, pl.error)) else Ok(ParsedList(pl.value));
        } else {
          a := Err(ListNotSupported(name));
        }
    }
  }

  /** `validate_parameter`: binds, then validates the bound arguments in a loop. */
  method ValidateParameter(sig: seq<Param>, parameter: Option<Dict<string, FieldValue>>, matches: (string, string) -> bool)
    returns (r: Result<Dict<string, Arg>, ValidateError>)
    ensures r == Validated(sig, parameter, matches)
  {
    var ps := if parameter.None? then [] else parameter.value;
    if !Binds(sig, ps) {
      return Err(BindMismatch(Keys(ps), Names(sig)));
    }
    var bs := Bound(sig, ps);
    var updated: Dict<string, Arg> := [];
    var i := 0;
    while i < |bs|
      invariant 0 <= i <= |bs|
      invariant ValidateArgs(bs[..i], matches) == Ok(updated)
    {
      var (name, value, annotation) := bs[i];
      assert bs[i] == (name, value, annotation);
      var a := ValidateArg(name, value, annotation, matches);
      ValidateArgsStep(bs, i, updated, matches);
      ghost var next := ValidateArgs(bs[..i + 1], matches);
      assert next == if a.Err? then Err(a.error) else Ok(Put(updated, name, a.value));
      if a.Err? {
        ValidateArgsAbsorbs(bs, i + 1, matches);
        return Err(a.error);
      }
      updated := Put(updated, name, a.value);
      assert next == Ok(updated);
      i := i + 1;
      assert ValidateArgs(bs[..i], matches) == next;
    }
    assert bs[..i] == bs;
    return Ok(updated);
  }

  /** One round of `validate_parameter`'s loop. */
  lemma ValidateArgsStep(bs: seq<(string, FieldValue, Option<DataType>)>, i: nat, d: Dict<string, Arg>, matches: (string, string) -> bool)
    requires i < |bs| && ValidateArgs(bs[..i], matches) == Ok(d)
    ensures var a := ArgValue(bs[i].0, bs[i].1, bs[i].2, matches);
      ValidateArgs(bs[..i + 1], matches) == if a.Err? then Err(a.error) else Ok(Put(d, bs[i].0, a.value))
  {
    assert bs[..i + 1][..i] == bs[..i];
  }

  lemma {:induction false} ValidateArgsAbsorbs(bs: seq<(string, FieldValue, Option<DataType>)>, i: nat, matches: (string, string) -> bool)
    requires i <= |bs| && ValidateArgs(bs[..i], matches).Err?
    ensures ValidateArgs(bs, matches) == ValidateArgs(bs[..i], matches)
    decreases |bs| - i
  {
    if i < |bs| {
      assert bs[..i + 1][..i] == bs[..i];
      ValidateArgsAbsorbs(bs, i + 1, matches);
    } else {
      assert bs[..i] == bs;
    }
  }

  // Properties of validate_parameter

  /** A `parameter` without a length behaves as `{}`. */
  lemma NoLengthIsEmpty(sig: seq<Param>, matches: (string, string) -> bool)
    ensures Validated(sig, None, matches) == Validated(sig, Some([]), matches)
  {
  }

  /** The bind error is raised exactly when binding fails, and it names the received and the
      expected parameters. */
  lemma {:induction false} BindFailure(sig: seq<Param>, ps: Dict<string, FieldValue>, matches: (string, string) -> bool)
    ensures Validated(sig, Some(ps), matches).Err? && Validated(sig, Some(ps), matches).error.BindMismatch?
      <==> !Binds(sig, ps)
    ensures !Binds(sig, ps) ==> Validated(sig, Some(ps), matches) == Err(BindMismatch(Keys(ps), Names(sig)))
  {
  }

  /** An unannotated parameter that received a list uses only its first value. */
  lemma UnannotatedListUsesFirst(name: string, fs: seq<Field>, matches: (string, string) -> bool)
    requires |fs| >= 1
    ensures ArgValue(name, Multi(fs), None, matches) == ArgValue(name, Single(fs[0]), None, matches)
  {
  }

  /** A list for a non-list annotation is refused; a single annotated value is `parse`d, and a
      parse failure becomes an invalid-data error for that parameter. */
  lemma AnnotatedValue(name: string, v: FieldValue, t: DataType, matches: (string, string) -> bool)
    ensures v.Multi? && !IsListType(t) ==> ArgValue(name, v, Some(t), matches) == Err(ListNotSupported(name))
    ensures v.Single? ==>
      ArgValue(name, v, Some(t), matches) ==
        match Parse(t, v.field, matches) case Err(e) => Err(InvalidData(name, e)) case Ok(p) => Ok(ParsedValue(p))
  {
  }

  /** `ParseEach` succeeds exactly when every value parses, and then it holds each value's parse
      in order. */
  lemma {:induction false} ParseEachOk(t: DataType, fs: seq<Field>, matches: (string, string) -> bool)
    ensures ParseEach(t, fs, matches).Ok? <==> forall k :: 0 <= k < |fs| ==> Parse(t, fs[k], matches).Ok?
    ensures ParseEach(t, fs, matches).Ok? ==>
      var ps := ParseEach(t, fs, matches).value;
      |ps| == |fs| && forall k :: 0 <= k < |fs| ==> Parse(t, fs[k], matches) == Ok(ps[k])
    decreases |fs|
  {
    if fs != [] {
      var init := fs[..|fs| - 1];
      ParseEachOk(t, init, matches);
      assert forall k :: 0 <= k < |init| ==> init[k] == fs[k];
    }
  }

  /** A failing `ParseEach` reports the error of the first value that does not parse. */
  lemma {:induction false} ParseEachFirstError(t: DataType, fs: seq<Field>, matches: (string, string) -> bool)
    requires ParseEach(t, fs, matches).Err?
    ensures exists k ::
      && 0 <= k < |fs|
      && Parse(t, fs[k], matches) == Err(ParseEach(t, fs, matches).error)
      && forall j :: 0 <= j < k ==> Parse(t, fs[j], matches).Ok?
    decreases |fs|
  {
    var init := fs[..|fs| - 1];
    assert forall k :: 0 <= k < |init| ==> init[k] == fs[k];
    if ParseEach(t, init, matches).Err? {
      ParseEachFirstError(t, init, matches);
      var k :| 0 <= k < |init| && Parse(t, init[k], matches) == Err(ParseEach(t, init, matches).error)
        && forall j :: 0 <= j < k ==> Parse(t, init[j], matches).Ok?;
      assert Parse(t, fs[k], matches) == Err(ParseEach(t, fs, matches).error);
    } else {
      ParseEachOk(t, init, matches);
      assert Parse(t, fs[|fs| - 1], matches) == Err(ParseEach(t, fs, matches).error);
    }
  }

  /** A successful validation holds, under each bound name, that argument's validated value. */
  lemma {:induction false} ValidateArgsOk(bs: seq<(string, FieldValue, Option<DataType>)>, matches: (string, string) -> bool, k: nat)
    requires ValidateArgs(bs, matches).Ok? && k < |bs|
    requires forall i, j :: 0 <= i < j < |bs| ==> bs[i].0 != bs[j].0
    ensures ArgValue(bs[k].0, bs[k].1, bs[k].2, matches).Ok?
    ensures Get(ValidateArgs(bs, matches).value, bs[k].0) == Some(ArgValue(bs[k].0, bs[k].1, bs[k].2, matches).value)
    decreases |bs|
  {
    var init := bs[..|bs| - 1];
    ValidateArgsLast(bs, matches);
    if k < |init| {
      assert init[k] == bs[k];
      ValidateArgsOk(init, matches, k);
    }
  }

  /** A successful validation is the validation of all but the last argument, with the last
      one's value put in. */
  lemma ValidateArgsLast(bs: seq<(string, FieldValue, Option<DataType>)>, matches: (string, string) -> bool)
    requires ValidateArgs(bs, matches).Ok? && bs != []
    ensures var b := bs[|bs| - 1];
      && ValidateArgs(bs[..|bs| - 1], matches).Ok?
      && ArgValue(b.0, b.1, b.2, matches).Ok?
      && ValidateArgs(bs, matches).value == Put(ValidateArgs(bs[..|bs| - 1], matches).value, b.0, ArgValue(b.0, b.1, b.2, matches).value)
  {
  }


  // ---------------------------------------------------------------------------
  // remove_non_primitive_objects

  /** A sanitised dict key that Python cannot hash (a list or a dict). */
  datatype Unhashable = Unhashable(key: Value)

  predicate Hashable(v: Value)
  {
    !v.VList? && !v.VDict?
  }

  /** `remove_non_primitive_objects(v)`: an object with `__dict__` becomes its `repr`, a string
      stays, a dict is rebuilt from sanitised keys and values, a list or tuple becomes a list of
      sanitised items, and anything else is returned as is. Rebuilding a dict raises when a
      sanitised key is unhashable. */
  function Sanitize(v: Value): Result<Value, Unhashable>
    decreases v, 1
  {
    match v
    case VObject(r, hasDict) => if hasDict then Ok(VStr(r)) else Ok(v)
    case VStr(_) => Ok(v)
    case VDict(es) => SanitizeEntries(v, 0, [])
    case VList(xs) => SanitizeItems(v, 0, [])
    case VTuple(xs) => SanitizeItems(v, 0, [])
    case _ => Ok(v)
  }

  /** The loop over a list's or tuple's items from index `i` on, `acc` holding the items done. */
  function SanitizeItems(v: Value, i: nat, acc: seq<Value>): Result<Value, Unhashable>
    requires v.VList? || v.VTuple?
    requires i <= |v.items|
    decreases v, 0, |v.items| - i
  {
    if i == |v.items| then Ok(VList(acc))
    else
      match Sanitize(v.items[i])
      case Err(e) => Err(e)
      case Ok(x) => SanitizeItems(v, i + 1, acc + [x])
  }

  /** The loop over a dict's entries from index `i` on, `acc` holding the rebuilt dict so far. */
  function SanitizeEntries(v: Value, i: nat, acc: Dict<Value, Value>): Result<Value, Unhashable>
    requires v.VDict?
    requires i <= |v.entries|
    decreases v, 0, |v.entries| - i
  {
    if i == |v.entries| then Ok(VDict(acc))
    else
      match Sanitize(v.entries[i].0)
      case Err(e) => Err(e)
      case Ok(k) =>
        match Sanitize(v.entries[i].1)
        case Err(e) => Err(e)
        case Ok(x) => if Hashable(k) then SanitizeEntries(v, i + 1, Put(acc, k, x)) else Err(Unhashable(k))
  }

  /** A value `remove_non_primitive_objects` produces: no object with `__dict__`, no tuple, and
      dicts with unique hashable keys. */
  predicate Clean(v: Value)
    decreases v
  {
    match v
    case VObject(_, hasDict) => !hasDict
    case VTuple(_) => false
    case VList(xs) => forall k :: 0 <= k < |xs| ==> Clean(xs[k])
    case VDict(es) =>
      UniqueKeys(es) && forall k :: 0 <= k < |es| ==> Hashable(es[k].0) && Clean(es[k].0) && Clean(es[k].1)
    case _ => true
  }

  /** Sanitising a list or tuple succeeds exactly when every item does, and gives the list of
      their sanitised values in order. */
  lemma {:induction false} SanitizeItemsSpec(v: Value, i: nat, acc: seq<Value>)
    requires v.VList? || v.VTuple?
    requires i <= |v.items|
    ensures SanitizeItems(v, i, acc).Ok? <==> forall k :: i <= k < |v.items| ==> Sanitize(v.items[k]).Ok?
    ensures SanitizeItems(v, i, acc).Ok? ==>
      var r := SanitizeItems(v, i, acc).value;
      r.VList? && |r.items| == |acc| + |v.items| - i && r.items[..|acc|] == acc
      && forall k :: i <= k < |v.items| ==> Ok(r.items[|acc| + k - i]) == Sanitize(v.items[k])
    decreases |v.items| - i
  {
    if i < |v.items| {
      match Sanitize(v.items[i])
      case Err(e) =>
      case Ok(x) =>
        SanitizeItemsSpec(v, i + 1, acc + [x]);
        if SanitizeItems(v, i, acc).Ok? {
          var r := SanitizeItems(v, i, acc).value;
          assert r.items[..|acc| + 1] == acc + [x];
          assert r.items[..|acc|] == (acc + [x])[..|acc|];
        }
    }
  }

  /** Every result of `Sanitize` is clean. */
  lemma {:induction false} SanitizeClean(v: Value)
    requires Sanitize(v).Ok?
    ensures Clean(Sanitize(v).value)
    decreases v, 1
  {
    match v
    case VDict(es) => SanitizeEntriesClean(v, 0, []);
    case VList(xs) => SanitizeItemsClean(v, 0, []);
    case VTuple(xs) => SanitizeItemsClean(v, 0, []);
    case _ =>
  }

  lemma {:induction false} SanitizeItemsClean(v: Value, i: nat, acc: seq<Value>)
    requires v.VList? || v.VTuple?
    requires i <= |v.items|
    requires forall k :: 0 <= k < |acc| ==> Clean(acc[k])
    requires SanitizeItems(v, i, acc).Ok?
    ensures Clean(SanitizeItems(v, i, acc).value)
    decreases v, 0, |v.items| - i
  {
    if i < |v.items| {
      var x := Sanitize(v.items[i]).value;
      SanitizeClean(v.items[i]);
      SanitizeItemsClean(v, i + 1, acc + [x]);
    }
  }

  lemma {:induction false} SanitizeEntriesClean(v: Value, i: nat, acc: Dict<Value, Value>)
    requires v.VDict?
    requires i <= |v.entries|
    requires Clean(VDict(acc))
    requires SanitizeEntries(v, i, acc).Ok?
    ensures Clean(SanitizeEntries(v, i, acc).value)
    decreases v, 0, |v.entries| - i
  {
    if i < |v.entries| {
      var k := Sanitize(v.entries[i].0).value;
      var x := Sanitize(v.entries[i].1).value;
      SanitizeClean(v.entries[i].0);
      SanitizeClean(v.entries[i].1);
      PutClean(acc, k, x);
      SanitizeEntriesClean(v, i + 1, Put(acc, k, x));
    }
  }

  /** Putting a clean hashable key and a clean value into a clean dict keeps it clean. */
  lemma PutClean(d: Dict<Value, Value>, k: Value, x: Value)
    requires Clean(VDict(d)) && Hashable(k) && Clean(k) && Clean(x)
    ensures Clean(VDict(Put(d, k, x)))
  {
    PutKeepsUnique(d, k, x);
    PutEntries(d, k, x);
    var r := Put(d, k, x);
    forall i | 0 <= i < |r| ensures Hashable(r[i].0) && Clean(r[i].0) && Clean(r[i].1) {
      if r[i] != (k, x) {
        var j :| 0 <= j < |d| && r[i] == d[j];
      }
    }
  }


  /** A clean value is a fixed point of `Sanitize`. */
  lemma {:induction false} SanitizeCleanFixed(v: Value)
    requires Clean(v)
    ensures Sanitize(v) == Ok(v)
    decreases v, 1
  {
    match v
    case VDict(es) =>
      SanitizeEntriesFixed(v, 0);
      assert es[..0] == [] && es[..|es|] == es;
    case VList(xs) =>
      SanitizeItemsFixed(v, 0);
      assert xs[..0] == [] && xs[..|xs|] == xs;
    case _ =>
  }

  lemma {:induction false} SanitizeItemsFixed(v: Value, i: nat)
    requires v.VList? && Clean(v)
    requires i <= |v.items|
    ensures SanitizeItems(v, i, v.items[..i]) == Ok(VList(v.items))
    decreases v, 0, |v.items| - i
  {
    if i < |v.items| {
      SanitizeCleanFixed(v.items[i]);
      assert v.items[..i] + [v.items[i]] == v.items[..i + 1];
      SanitizeItemsFixed(v, i + 1);
    } else {
      assert v.items[..i] == v.items;
    }
  }

  lemma {:induction false} SanitizeEntriesFixed(v: Value, i: nat)
    requires v.VDict? && Clean(v)
    requires i <= |v.entries|
    ensures SanitizeEntries(v, i, v.entries[..i]) == Ok(v)
    decreases v, 0, |v.entries| - i
  {
    var es := v.entries;
    if i < |es| {
      var k := es[i].0;
      var x := es[i].1;
      CleanEntry(v, i);
      SanitizeCleanFixed(k);
      SanitizeCleanFixed(x);
      SanitizeEntriesStep(v, i, es[..i], k, x);
      PutNew(es[..i], k, x);
      Seqs.PrefixExtend(es, i);
      SanitizeEntriesFixed(v, i + 1);
    } else {
      assert es[..i] == es;
    }
  }

  /** What a clean dict says of its entry `i`. */
  lemma CleanEntry(v: Value, i: nat)
    requires v.VDict? && Clean(v) && i < |v.entries|
    ensures Hashable(v.entries[i].0) && Clean(v.entries[i].0) && Clean(v.entries[i].1)
    ensures forall j :: 0 <= j < i ==> v.entries[..i][j].0 != v.entries[i].0
  {
  }

  /** One round of the dict loop whose key and value sanitise successfully. */
  lemma SanitizeEntriesStep(v: Value, i: nat, acc: Dict<Value, Value>, k: Value, x: Value)
    requires v.VDict? && i < |v.entries|
    requires Sanitize(v.entries[i].0) == Ok(k) && Sanitize(v.entries[i].1) == Ok(x) && Hashable(k)
    ensures SanitizeEntries(v, i, acc) == SanitizeEntries(v, i + 1, Put(acc, k, x))
  {
  }


  /** Sanitising twice is sanitising once. */
  lemma SanitizeIdempotent(v: Value)
    requires Sanitize(v).Ok?
    ensures Sanitize(Sanitize(v).value) == Sanitize(v)
  {
    SanitizeClean(v);
    SanitizeCleanFixed(Sanitize(v).value);
  }

  /** Objects with `__dict__` become their `repr`; strings and the other scalars are returned
      unchanged. */
  lemma SanitizeScalars(v: Value)
    ensures v.VObject? && v.hasDict ==> Sanitize(v) == Ok(VStr(v.repr))
    ensures (v.VStr? || v.VNone? || v.VBool? || v.VInt? || v.VFloat? || (v.VObject? && !v.hasDict)) ==> Sanitize(v) == Ok(v)
  {
  }

  /** A list or a tuple sanitises exactly when all its items do, to the list of their sanitised
      values in order. */
  lemma SanitizeSequence(v: Value)
    requires v.VList? || v.VTuple?
    ensures Sanitize(v).Ok? <==> forall k :: 0 <= k < |v.items| ==> Sanitize(v.items[k]).Ok?
    ensures Sanitize(v).Ok? ==>
      Sanitize(v).value.VList? && |Sanitize(v).value.items| == |v.items|
      && forall k :: 0 <= k < |v.items| ==> Sanitize(v.items[k]) == Ok(Sanitize(v).value.items[k])
  {
    SanitizeItemsSpec(v, 0, []);
    assert Sanitize(v) == SanitizeItems(v, 0, []);
  }
}
