/** lib/BlackPearl/core/datatype.py: the annotations a web method's parameters may carry, their
    validity tests and what they parse a submitted field into. */
module DataType {
  import opened Wrappers
  import opened PyStr
  import PyValue

  /** An uploaded file object: its identity, whether it is an in-memory `StringIO`, and the text
      `getvalue()` returns for one. */
  datatype Upload = Upload(handle: nat, stringIO: bool, text: string)

  /** One submitted form field (`cgi.FieldStorage` item): `value`, `file`, `filename`, `type`. */
  datatype Field = Field(value: string, file: Option<Upload>, filename: string, contentType: string)

  /** The annotation classes. `NotAType` is any other annotation object, which lacks
      `__is_valid__`; `Format` matching is decided by a regular-expression oracle. */
  datatype DataType =
    | Type
    | ListType
    | File
    | FileList
    | Float
    | FloatList
    | Integer
    | IntegerList
    | Format(dataFormat: string)
    | FormatList(dataFormat: string)
    | Options(values: seq<string>)
    | OptionsList(values: seq<string>)
    | NotAType(className: string)

  /** `isinstance(t, ListType)`. */
  predicate IsListType(t: DataType)
  {
    t.ListType? || t.FileList? || t.FloatList? || t.IntegerList? || t.FormatList? || t.OptionsList?
  }

  /** `isinstance(t, File)`: `FileList` derives from `File`. */
  predicate IsFileType(t: DataType)
  {
    t.File? || t.FileList?
  }

  /** What `__parse__` returns. */
  datatype Parsed =
    | AsGiven(field: Field)
    | FileInfo(file: Upload, filename: string, filetype: string)
    | FloatValue(text: string)
    | IntValue(i: int)
    | StrValue(s: string)

  datatype ParseError =
    | FileGiven(expected: DataType)                  // a file reached a non-File annotation
    | InvalidValue(expected: DataType, given: string) // `__is_valid__` said no
    | NotADataType(className: string)                 // `isvalid` found no `__is_valid__`

  // ---------------------------------------------------------------------------
  // Python's int() and float() on text

  /** Whether the digits of a number go on at index `j`: a decimal digit, or a single `_`
      followed by one (Python 3.6 on). */
  predicate Continues(s: string, j: nat)
  {
    j < |s| && (IsDigit(s[j]) || (s[j] == '_' && j + 1 < |s| && IsDigit(s[j + 1])))
  }

  /** The length of a number's digits from index `i`: a decimal digit and then as long as the
      digits go on, or 0 when `s[i]` is no decimal digit. */
  function DigitRun(s: string, i: nat): (r: nat)
    requires i <= |s|
    ensures i + r <= |s|
    ensures r == 0 <==> !(i < |s| && IsDigit(s[i]))
    ensures forall k :: i <= k < i + r ==> IsDigit(s[k]) || s[k] == '_'
    ensures r > 0 ==> IsDigit(s[i + r - 1]) && !Continues(s, i + r)
  {
    if i < |s| && IsDigit(s[i]) then 1 + MoreDigits(s, i + 1) else 0
  }

  function MoreDigits(s: string, i: nat): (r: nat)
    requires i <= |s|
    ensures i + r <= |s| && !Continues(s, i + r)
    ensures r == 0 <==> !Continues(s, i)
    ensures forall k :: i <= k < i + r ==> IsDigit(s[k]) || s[k] == '_'
    ensures r > 0 ==> IsDigit(s[i + r - 1])
    decreases |s| - i
  {
    if i < |s| && IsDigit(s[i]) then 1 + MoreDigits(s, i + 1)
    else if Continues(s, i) then 2 + MoreDigits(s, i + 2)
    else 0
  }

  function SignLength(s: string, i: nat): (r: nat)
    requires i <= |s|
    ensures r <= 1 && i + r <= |s|
  {
    if i < |s| && (s[i] == '+' || s[i] == '-') then 1 else 0
  }

  /** `int(s)` succeeds: after stripping, an optional sign and at least one digit, nothing more. */
  predicate IsIntText(s: string)
  {
    var t := Strip(s);
    var k := SignLength(t, 0);
    DigitRun(t, k) > 0 && k + DigitRun(t, k) == |t|
  }

  /** The value of decimal digits, underscores skipped. */
  function DigitsValue(s: string): (r: nat)
    requires forall k :: 0 <= k < |s| ==> IsDigit(s[k]) || s[k] == '_'
  {
    if s == [] then 0
    else if s[|s| - 1] == '_' then DigitsValue(s[..|s| - 1])
    else 10 * DigitsValue(s[..|s| - 1]) + DigitValue(s[|s| - 1])
  }

  /** The value of an optional sign followed by digits. */
  function SignedValue(t: string): int
    requires SignLength(t, 0) + DigitRun(t, SignLength(t, 0)) == |t|
  {
    var k := SignLength(t, 0);
    var n: int := DigitsValue(t[k..]);
    if k == 1 && t[0] == '-' then -n else n
  }

  /** The number `int(s)` returns, when it succeeds. */
  function IntValueOf(s: string): int
    requires IsIntText(s)
  {
    SignedValue(Strip(s))
  }

  function AsciiLower(c: char): char
  {
    if 'A' <= c <= 'Z' then (c as int + 32) as char else c
  }

  function Lower(s: string): (r: string)
    ensures |r| == |s|
  {
    seq(|s|, k requires 0 <= k < |s| => AsciiLower(s[k]))
  }

  /** The exponent of a float literal from index `j`: an optional sign and digits to the end. */
  predicate ExponentToEnd(t: string, j: nat)
    requires j <= |t|
  {
    var k := j + SignLength(t, j);
    DigitRun(t, k) > 0 && k + DigitRun(t, k) == |t|
  }

  /** The unsigned part of a decimal float literal from index `i`: digits, an optional point and
      digits (at least one digit in all), and an optional exponent. */
  predicate DecimalToEnd(t: string, i: nat)
    requires i <= |t|
  {
    var a := DigitRun(t, i);
    var j := i + a;
    var hasPoint := j < |t| && t[j] == '.';
    var b := if hasPoint then DigitRun(t, j + 1) else 0;
    var e := if hasPoint then j + 1 + b else j;
    a + b > 0 && (e == |t| || ((t[e] == 'e' || t[e] == 'E') && ExponentToEnd(t, e + 1)))
  }

  /** `float(s)` succeeds: after stripping, an optional sign and either a decimal literal or one
      of `inf`, `infinity`, `nan` in any case. */
  predicate IsFloatText(s: string)
  {
    var t := Strip(s);
    var k := SignLength(t, 0);
    var w := Lower(t[k..]);
    DecimalToEnd(t, k) || w == "inf" || w == "infinity" || w == "nan"
  }

  // ---------------------------------------------------------------------------
  // isvalid and parse

  /** `datatype.isvalid`: the annotation's `__is_valid__`, or an error when it has none. */
  function IsValid(t: DataType, data: Field, matches: (string, string) -> bool): (r: Result<bool, ParseError>)
    ensures r.Err? <==> t.NotAType?
  {
    match t
    case Type => Ok(true)
    case ListType => Ok(true)
    case File => Ok(data.file.Some?)
    case FileList => Ok(data.file.Some?)
    case Float => Ok(IsFloatText(data.value))
    case FloatList => Ok(IsFloatText(data.value))
    case Integer => Ok(IsIntText(data.value))
    case IntegerList => Ok(IsIntText(data.value))
    case Format(f) => Ok(matches(f, data.value))
    case FormatList(f) => Ok(matches(f, data.value))
    case Options(vs) => Ok(data.value in vs)
    case OptionsList(vs) => Ok(data.value in vs)
    case NotAType(name) => Err(NotADataType(name))
  }

  /** `__parse__`, for a field its annotation found valid. */
  function ParseValid(t: DataType, data: Field): Parsed
    requires !t.NotAType?
    requires IsFileType(t) ==> data.file.Some?
    requires t.Integer? || t.IntegerList? ==> IsIntText(data.value)
  {
    match t
    case Type => AsGiven(data)
    case ListType => AsGiven(data)
    case File => FileInfo(data.file.value, data.filename, data.contentType)
    case FileList => FileInfo(data.file.value, data.filename, data.contentType)
    case Float => FloatValue(data.value)
    case FloatList => FloatValue(data.value)
    case Integer => IntValue(IntValueOf(data.value))
    case IntegerList => IntValue(IntValueOf(data.value))
    case Format(_) => StrValue(data.value)
    case FormatList(_) => StrValue(data.value)
    case Options(_) => StrValue(data.value)
    case OptionsList(_) => StrValue(data.value)
  }

  /** `datatype.parse`: a file for a non-File annotation is refused first; then the value is
      parsed when valid and refused otherwise. */
  function Parse(t: DataType, data: Field, matches: (string, string) -> bool): (r: Result<Parsed, ParseError>)
    ensures data.file.Some? && !IsFileType(t) ==> r == Err(FileGiven(t))
    ensures r.Ok? <==> (data.file.None? || IsFileType(t)) && IsValid(t, data, matches) == Ok(true)
    ensures r.Err? && t.NotAType? && !(data.file.Some? && !IsFileType(t)) ==> r == Err(NotADataType(t.className))
  {
    if data.file.Some? && !IsFileType(t) then Err(FileGiven(t))
    else
      match IsValid(t, data, matches)
      case Err(e) => Err(e)
      case Ok(valid) => if valid then Ok(ParseValid(t, data)) else Err(InvalidValue(t, data.value))
  }

  /** The base `Type` accepts anything that is not a file and hands it back unchanged. */
  lemma TypeParsesToInput(data: Field, matches: (string, string) -> bool)
    requires data.file.None?
    ensures Parse(Type, data, matches) == Ok(AsGiven(data))
  {
  }

  /** `File` accepts exactly the fields carrying a file and parses them to its three entries. */
  lemma FileParse(data: Field, matches: (string, string) -> bool)
    ensures Parse(File, data, matches).Ok? <==> data.file.Some?
    ensures data.file.Some? ==>
      Parse(File, data, matches) == Ok(FileInfo(data.file.value, data.filename, data.contentType))
  {
  }

  /** `Options` accepts exactly its members, compared case-sensitively. */
  lemma OptionsParse(vs: seq<string>, data: Field, matches: (string, string) -> bool)
    requires data.file.None?
    ensures Parse(Options(vs), data, matches) == if data.value in vs then Ok(StrValue(data.value))
                                                 else Err(InvalidValue(Options(vs), data.value))
  {
  }

  // ---------------------------------------------------------------------------
  // Integer, on the values the bundled test suite submits

  lemma {:induction false} DigitsValueOfNatToString(n: nat)
    ensures forall k :: 0 <= k < |NatToString(n)| ==> IsDigit(NatToString(n)[k])
    ensures DigitsValue(NatToString(n)) == n
    decreases n
  {
    if n >= 10 {
      DigitsValueOfNatToString(n / 10);
      var s := NatToString(n);
      assert s[..|s| - 1] == NatToString(n / 10);
    }
  }

  lemma DigitRunAll(s: string, i: nat)
    requires i <= |s|
    requires forall k :: i <= k < |s| ==> IsDigit(s[k])
    ensures DigitRun(s, i) == |s| - i
    decreases |s| - i
  {
    if i < |s| {
      DigitRunAll(s, i + 1);
    }
  }

  /** Digits up to `j` and a character there that does not continue them: the run ends at `j`. */
  lemma DigitRunStops(s: string, i: nat, j: nat)
    requires i <= j < |s|
    requires forall k :: i <= k < j ==> IsDigit(s[k])
    requires !Continues(s, j)
    ensures DigitRun(s, i) == j - i
  {
    if i < j {
      assert IsDigit(s[i]);
      MoreDigitsStops(s, i + 1, j);
    } else {
      assert !IsDigit(s[i]);
    }
  }

  lemma {:induction false} MoreDigitsStops(s: string, i: nat, j: nat)
    requires i <= j < |s|
    requires forall k :: i <= k < j ==> IsDigit(s[k])
    requires !Continues(s, j)
    ensures MoreDigits(s, i) == j - i
    decreases j - i
  {
    if i < j {
      assert IsDigit(s[i]);
      MoreDigitsStops(s, i + 1, j);
      assert MoreDigits(s, i) == 1 + MoreDigits(s, i + 1);
    } else {
      assert !(i < |s| && IsDigit(s[i])) && !Continues(s, i);
    }
  }

  /** A non-empty string of decimal digits. */
  predicate IsDigits(d: string)
  {
    |d| >= 1 && forall k :: 0 <= k < |d| ==> IsDigit(d[k])
  }

  /** `str(n)` is a digit string denoting `n`. */
  lemma NatTextDigits(n: nat)
    ensures IsDigits(NatToString(n)) && DigitsValue(NatToString(n)) == n
  {
    DigitsValueOfNatToString(n);
  }

  /** A digit string has no surrounding space and no sign. */
  lemma DigitsPlain(d: string)
    requires IsDigits(d)
    ensures IsStripped(d) && SignLength(d, 0) == 0 && DigitRun(d, 0) == |d|
  {
    DigitIsNoOther(d[0]);
    DigitIsNoOther(d[|d| - 1]);
    DigitRunAll(d, 0);
  }

  /** A digit string is an integer text denoting its digits' value. */
  lemma DigitsIntText(d: string)
    requires IsDigits(d)
    ensures IsIntText(d) && IntValueOf(d) == DigitsValue(d)
  {
    DigitsPlain(d);
    StrippedFixed(d);
    assert d[0..] == d;
  }

  /** A minus sign and a digit string is an integer text denoting the negated value. */
  lemma NegDigitsIntText(d: string)
    requires IsDigits(d)
    ensures IsIntText("-" + d) && IntValueOf("-" + d) == -(DigitsValue(d) as int)
  {
    var s := "-" + d;
    assert s[|s| - 1] == d[|d| - 1] && IsDigit(d[|d| - 1]);
    DigitIsNoOther(d[|d| - 1]);
    StrippedFixed(s);
    assert SignLength(s, 0) == 1;
    assert s[1..] == d;
    DigitRunAll(s, 1);
  }

  /** `int` accepts what `str` writes for an integer, and reads back the same number. */
  lemma IntegerAcceptsDecimal(i: int)
    ensures IsIntText(IntToString(i))
    ensures IntValueOf(IntToString(i)) == i
  {
    var n: nat := if i < 0 then -i else i;
    NatTextDigits(n);
    if i < 0 {
      NegDigitsIntText(NatToString(n));
    } else {
      DigitsIntText(NatToString(n));
    }
  }

  /** A digit or an underscore before a digit at every position from `i`: the run reaches the end. */
  lemma {:induction false} MoreDigitsToEnd(s: string, i: nat)
    requires i <= |s|
    requires forall k :: i <= k < |s| ==> Continues(s, k)
    ensures MoreDigits(s, i) == |s| - i
    decreases |s| - i
  {
    if i < |s| {
      assert Continues(s, i);
      if IsDigit(s[i]) {
        MoreDigitsToEnd(s, i + 1);
      } else {
        MoreDigitsToEnd(s, i + 2);
      }
    }
  }

  lemma {:induction false} DigitsValueSkipsUnderscore(d: string, e: string)
    requires forall k :: 0 <= k < |d| ==> IsDigit(d[k])
    requires forall k :: 0 <= k < |e| ==> IsDigit(e[k])
    ensures DigitsValue(d + "_" + e) == DigitsValue(d + e)
    decreases |e|
  {
    if e == [] {
      assert (d + "_" + e)[..|d|] == d && d + e == d;
    } else {
      var e' := e[..|e| - 1];
      assert (d + "_" + e)[..|d + "_" + e| - 1] == d + "_" + e';
      assert (d + e)[..|d + e| - 1] == d + e';
      DigitsValueSkipsUnderscore(d, e');
    }
  }

  /** One underscore between two digit strings is allowed and skipped: `int("1_000")` is
      `int("1000")`. */
  lemma UnderscoreSkipped(d: string, e: string)
    requires IsDigits(d) && IsDigits(e)
    ensures IsIntText(d + "_" + e) && IsIntText(d + e)
    ensures IntValueOf(d + "_" + e) == IntValueOf(d + e)
  {
    var s := d + "_" + e;
    assert s[0] == d[0] && s[|s| - 1] == e[|e| - 1];
    DigitIsNoOther(d[0]);
    DigitIsNoOther(e[|e| - 1]);
    StrippedFixed(s);
    assert SignLength(s, 0) == 0;
    forall k | 1 <= k < |s| ensures Continues(s, k) {
      if k < |d| {
        assert s[k] == d[k];
      } else if k == |d| {
        assert s[k + 1] == e[0];
      } else {
        assert s[k] == e[k - |d| - 1];
      }
    }
    MoreDigitsToEnd(s, 1);
    assert s[0..] == s;
    DigitsValueSkipsUnderscore(d, e);
    var t := d + e;
    assert forall k :: 0 <= k < |t| ==> IsDigit(t[k]);
    DigitsIntText(t);
  }

  /** `int()` reads decimal digits of any script, mixed too: `int("1٣")` is 13. */
  lemma MixedScriptDigits()
    ensures IsIntText("1\U{0663}") && IntValueOf("1\U{0663}") == 13
  {
    var d := "1\U{0663}";
    assert DigitZero(d[1]) == 0x660 && DigitValue(d[1]) == 3;
    assert IsDigits(d);
    assert d[..1] == "1" && "1"[..0] == [];
    assert DigitsValue("1") == 1;
    assert DigitsValue(d) == 13;
    DigitsIntText(d);
  }

  /** Two underscores in a row end the digits, so `int("1__0")` fails. */
  lemma DoubleUnderscoreRefused()
    ensures !IsIntText("1__0")
  {
    var s := "1__0";
    StrippedFixed(s);
    DigitRunStops(s, 0, 1);
  }

  /** A digit string followed by text that does not go on with the digits (neither a decimal
      digit nor an underscore before one) and does not end in whitespace is no integer text. */
  lemma DigitsThenOtherNotInt(d: string, rest: string)
    requires IsDigits(d) && |rest| >= 1 && !Continues(rest, 0) && !IsSpace(rest[|rest| - 1])
    ensures !IsIntText(d + rest)
  {
    var s := d + rest;
    assert s[0] == d[0] && s[|s| - 1] == rest[|rest| - 1];
    DigitIsNoOther(d[0]);
    StrippedFixed(s);
    assert SignLength(s, 0) == 0;
    assert s[|d|] == rest[0] && (|rest| > 1 ==> s[|d| + 1] == rest[1]);
    DigitRunStops(s, 0, |d|);
  }

  /** `str(i) + "sd"` is not an integer: the run of digits stops at the `s`. */
  lemma IntegerRejectsLetters(n: nat)
    ensures !IsIntText(NatToString(n) + "sd")
  {
    NatTextDigits(n);
    DigitsThenOtherNotInt(NatToString(n), "sd");
  }

  /** `str(i) + ".01"` is not an integer: the run of digits stops at the point. */
  lemma IntegerRejectsFraction(n: nat)
    ensures !IsIntText(NatToString(n) + ".01")
  {
    NatTextDigits(n);
    DigitsThenOtherNotInt(NatToString(n), ".01");
  }

  /** A digit string starting with a digit is no spelling of `inf`, `infinity` or `nan`. */
  lemma DigitLedNotWord(t: string)
    requires |t| > 0 && IsDigit(t[0])
    ensures var w := Lower(t); w != "inf" && w != "infinity" && w != "nan"
  {
    assert Lower(t)[0] == t[0];
  }

  /** A digit string is a float text. */
  lemma DigitsFloatText(d: string)
    requires IsDigits(d)
    ensures IsFloatText(d)
  {
    DigitsPlain(d);
    StrippedFixed(d);
    assert d[0..] == d;
    assert DecimalToEnd(d, 0);
  }

  /** A digit string, a point and a digit string is a float text. */
  lemma PointDigitsFloatText(d: string, e: string)
    requires IsDigits(d) && IsDigits(e)
    ensures IsFloatText(d + "." + e)
  {
    var f := d + "." + e;
    assert f[0] == d[0] && f[|f| - 1] == e[|e| - 1];
    DigitIsNoOther(d[0]);
    DigitIsNoOther(e[|e| - 1]);
    StrippedFixed(f);
    assert SignLength(f, 0) == 0;
    assert f[|d|] == '.';
    DigitRunStops(f, 0, |d|);
    DigitRunAll(f, |d| + 1);
    assert f[0..] == f;
    assert DecimalToEnd(f, 0);
  }

  /** A digit string followed by text that neither goes on with the digits nor starts a
      fraction or an exponent, and does not end in whitespace, is no float text. */
  lemma DigitsThenLettersNotFloat(d: string, rest: string)
    requires IsDigits(d) && |rest| >= 1 && !Continues(rest, 0) && !IsSpace(rest[|rest| - 1])
    requires rest[0] != '.' && rest[0] != 'e' && rest[0] != 'E'
    ensures !IsFloatText(d + rest)
  {
    var x := d + rest;
    assert x[0] == d[0] && x[|x| - 1] == rest[|rest| - 1];
    DigitIsNoOther(d[0]);
    StrippedFixed(x);
    assert SignLength(x, 0) == 0;
    assert x[|d|] == rest[0] && (|rest| > 1 ==> x[|d| + 1] == rest[1]);
    DigitRunStops(x, 0, |d|);
    assert !DecimalToEnd(x, 0);
    DigitLedNotWord(x);
    assert x[0..] == x;
  }

  /** `float` accepts `str(i)`. */
  lemma FloatAcceptsInteger(n: nat)
    ensures IsFloatText(NatToString(n))
  {
    NatTextDigits(n);
    DigitsFloatText(NatToString(n));
  }

  /** `float` accepts `str(i) + ".34"`. */
  lemma FloatAcceptsFraction(n: nat)
    ensures IsFloatText(NatToString(n) + ".34")
  {
    NatTextDigits(n);
    assert IsDigits("34");
    PointDigitsFloatText(NatToString(n), "34");
    assert NatToString(n) + "." + "34" == NatToString(n) + ".34";
  }

  /** `float` rejects `str(i) + "sd"`. */
  lemma FloatRejectsLetters(n: nat)
    ensures !IsFloatText(NatToString(n) + "sd")
  {
    NatTextDigits(n);
    DigitsThenLettersNotFloat(NatToString(n), "sd");
  }

  // ---------------------------------------------------------------------------
  // Options and OptionsList construction

  /** The `values` list `Options(*args)` stores: `str` of each argument, in order. */
  function OptionValues(args: seq<PyValue.Value>): (r: seq<string>)
    ensures |r| == |args|
    ensures forall i :: 0 <= i < |args| ==> r[i] == PyValue.Str(args[i])
  {
    if args == [] then [] else OptionValues(args[..|args| - 1]) + [PyValue.Str(args[|args| - 1])]
  }

  /** `Options.__init__`, by its loop. */
  method NewOptions(args: seq<PyValue.Value>) returns (t: DataType)
    ensures t == Options(OptionValues(args))
  {
    var v: seq<string> := [];
    var i := 0;
    while i < |args|
      invariant 0 <= i <= |args|
      invariant v == OptionValues(args[..i])
    {
      v := v + [PyValue.Str(args[i])];
      assert args[..i + 1][..i] == args[..i];
      i := i + 1;
    }
    assert args[..|args|] == args;
    t := Options(v);
  }

  /** `OptionsList.__init__` as written: the argument tuple is handed to `Options.__init__` as a
      single value, so `values` holds one string, the tuple's `str`. */
  function OptionsListAsWritten(args: seq<PyValue.Value>): (t: DataType)
    ensures t.OptionsList? && t.values == [PyValue.Str(PyValue.VTuple(args))]
  {
    OptionsList(OptionValues([PyValue.VTuple(args)]))
  }

  /** `OptionsList.__init__` as evidently intended: the same values as `Options`. */
  function OptionsListOf(args: seq<PyValue.Value>): (t: DataType)
    ensures t.OptionsList? && t.values == OptionValues(args)
  {
    OptionsList(OptionValues(args))
  }

  /** As written, `OptionsList("Male", "Female")` accepts neither `Male` nor `Female`, only the
      text `('Male', 'Female')`; the corrected constructor accepts both. */
  lemma OptionsListRejectsItsMembers(matches: (string, string) -> bool, data: Field)
    requires data.file.None? && data.value == "Male"
    ensures var args := [PyValue.VStr("Male"), PyValue.VStr("Female")];
      IsValid(OptionsListAsWritten(args), data, matches) == Ok(false)
      && IsValid(OptionsListOf(args), data, matches) == Ok(true)
  {
    var args := [PyValue.VStr("Male"), PyValue.VStr("Female")];
    var w := OptionsListAsWritten(args);
    assert w.values[0][0] == '(';
    assert |w.values| == 1;
    assert OptionsListOf(args).values[0] == "Male";
  }
}
