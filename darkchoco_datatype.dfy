/** lib/darkchoco/core/datatype.py: the earlier annotation classes. A submitted value is the list of
    strings `cgi.parse` gives for one form name, and every test but the base `Type`'s looks at its
    first element only. */
module DarkchocoDataType {
  import opened Wrappers
  import PyValue
  import DataType

  /** The annotation classes. `NotAType` is any other annotation object, which lacks
      `__is_valid__`; `Format` matching is decided by a regular-expression oracle. */
  datatype DcType =
    | Type
    | Float
    | Integer
    | Format(pattern: string)
    | Options(values: seq<string>)
    | NotAType(className: string)

  /** What `__parse__` returns. */
  datatype Parsed =
    | Whole(data: seq<string>)   // the base `Type`: the value list itself
    | FloatValue(text: string)   // `float(data[0])`, kept as its text
    | IntValue(i: int)           // `int(data[0])`
    | StrValue(s: string)        // `data[0]`

  datatype ParseError =
    | NotADataType(className: string)                // `isvalid` found no `__is_valid__`
    | InvalidValue(expected: DcType, given: seq<string>) // "<str(type)>, but <data> is given."

  /** `data[0]`, or `None` where indexing raises (the `except` of each test). */
  function First(data: seq<string>): (r: Option<string>)
    ensures r.Some? <==> |data| >= 1
    ensures r.Some? ==> r.value == data[0]
  {
    if |data| == 0 then None else Some(data[0])
  }

  /** `__is_valid__` of an annotation that has one. */
  predicate Valid(t: DcType, data: seq<string>, matches: (string, string) -> bool)
    requires !t.NotAType?
  {
    match t
    case Type => true
    case Float => |data| >= 1 && DataType.IsFloatText(data[0])
    case Integer => |data| >= 1 && DataType.IsIntText(data[0])
    case Format(p) => |data| >= 1 && matches(p, data[0])
    case Options(vs) => |data| >= 1 && data[0] in vs
  }

  /** `datatype.isvalid`: the annotation's `__is_valid__`, or an error when it has none. */
  function IsValid(t: DcType, data: seq<string>, matches: (string, string) -> bool): (r: Result<bool, ParseError>)
    ensures r.Err? <==> t.NotAType?
    ensures r.Err? ==> r.error == NotADataType(t.className)
  {
    if t.NotAType? then Err(NotADataType(t.className)) else Ok(Valid(t, data, matches))
  }

  /** `__parse__`, for a value its annotation found valid. */
  function ParseValid(t: DcType, data: seq<string>, matches: (string, string) -> bool): Parsed
    requires !t.NotAType? && Valid(t, data, matches)
  {
    match t
    case Type => Whole(data)
    case Float => FloatValue(data[0])
    case Integer => IntValue(DataType.IntValueOf(data[0]))
    case Format(_) => StrValue(data[0])
    case Options(_) => StrValue(data[0])
  }

  /** `datatype.parse`: the parsed value when the annotation accepts the data, the invalid-data
      error when it does not, and `isvalid`'s error when it has no test. */
  function Parse(t: DcType, data: seq<string>, matches: (string, string) -> bool): (r: Result<Parsed, ParseError>)
    ensures r.Ok? <==> IsValid(t, data, matches) == Ok(true)
    ensures r.Err? && !t.NotAType? ==> r.error == InvalidValue(t, data)
    ensures t.NotAType? ==> r == Err(NotADataType(t.className))
  {
    match IsValid(t, data, matches)
    case Err(e) => Err(e)
    case Ok(valid) => if valid then Ok(ParseValid(t, data, matches)) else Err(InvalidValue(t, data))
  }

  /** The base `Type` accepts every value list and hands it back unchanged. */
  lemma TypeParsesToInput(data: seq<string>, matches: (string, string) -> bool)
    ensures Parse(Type, data, matches) == Ok(Whole(data))
  {
  }

  /** `Float`, `Integer`, `Format` and `Options` decide on `data[0]` alone: the list with only its
      first element is judged and parsed the same way, and an empty list is refused. */
  lemma FirstElementDecides(t: DcType, data: seq<string>, matches: (string, string) -> bool)
    requires !t.Type? && !t.NotAType?
    ensures data == [] ==> Parse(t, data, matches) == Err(InvalidValue(t, data))
    ensures |data| >= 1 ==> IsValid(t, data, matches) == IsValid(t, data[..1], matches)
    ensures |data| >= 1 && Parse(t, data, matches).Ok? ==>
      Parse(t, data, matches) == Parse(t, data[..1], matches)
  {
    if |data| >= 1 {
      assert data[..1][0] == data[0];
    }
  }

  /** `Integer` accepts exactly lists whose first element is integer text, and parses to its
      value; ["12", "x"] parses to 12. */
  lemma IntegerParse(data: seq<string>, matches: (string, string) -> bool)
    ensures Parse(Integer, data, matches).Ok? <==> |data| >= 1 && DataType.IsIntText(data[0])
    ensures Parse(Integer, data, matches).Ok? ==>
      Parse(Integer, data, matches).value == IntValue(DataType.IntValueOf(data[0]))
  {
  }

  /** `Options` accepts exactly lists whose first element is one of its values, compared
      case-sensitively, and parses to that element. */
  lemma OptionsParse(vs: seq<string>, data: seq<string>, matches: (string, string) -> bool)
    ensures Parse(Options(vs), data, matches) ==
      if |data| >= 1 && data[0] in vs then Ok(StrValue(data[0])) else Err(InvalidValue(Options(vs), data))
  {
  }

  /** `Options.__init__`: `str` of each argument, in order, appended in a loop. */
  method NewOptions(args: seq<PyValue.Value>) returns (t: DcType)
    ensures t.Options?
    ensures |t.values| == |args|
    ensures forall i :: 0 <= i < |args| ==> t.values[i] == PyValue.Str(args[i])
  {
    var v: seq<string> := [];
    var i := 0;
    while i < |args|
      invariant 0 <= i <= |args|
      invariant |v| == i
      invariant forall j :: 0 <= j < i ==> v[j] == PyValue.Str(args[j])
    {
      v := v + [PyValue.Str(args[i])];
      i := i + 1;
    }
    t := Options(v);
  }

  /** Built from string arguments, `Options` accepts a list exactly when its first element is
      one of those strings. */
  lemma OptionsOfStrings(args: seq<PyValue.Value>, t: DcType, data: seq<string>, matches: (string, string) -> bool)
    requires t.Options? && |t.values| == |args|
    requires forall i :: 0 <= i < |args| ==> t.values[i] == PyValue.Str(args[i])
    requires forall i :: 0 <= i < |args| ==> args[i].VStr?
    ensures Parse(t, data, matches).Ok? <==> |data| >= 1 && exists i :: 0 <= i < |args| && args[i] == PyValue.VStr(data[0])
  {
    if |data| >= 1 && data[0] in t.values {
      var i :| 0 <= i < |t.values| && t.values[i] == data[0];
      assert args[i] == PyValue.VStr(data[0]);
    }
    if |data| >= 1 && exists i :: 0 <= i < |args| && args[i] == PyValue.VStr(data[0]) {
      var i :| 0 <= i < |args| && args[i] == PyValue.VStr(data[0]);
      assert t.values[i] == data[0];
    }
  }
}
