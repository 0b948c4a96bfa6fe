/** lib/BlackPearl/testing/testing.py: the testset decorator, the invoker that runs a testset and
    reports its result with a log of timestamped lines, the `test` comparison, the flattening of
    a testcase's input before it is sent, and the `print` replacement used inside testsets. The
    testset body, the HTTP exchange, JSON decoding and the clock are parameters. */
module Testing {
  import opened Wrappers
  import opened PyStr
  import opened PyValue
  import opened PyDict
  import CoreUtils
  import opened Seqs

  /** How the testset function returned: normally, by `TestcaseFailed`, by `TestcaseError`, or by
      any other exception (its type name, message and the line it was raised at). */
  datatype RunOutcome =
    | Completed
    | Failed(message: string)
    | ServerIssue(message: string)
    | Crashed(typeName: string, message: string, line: nat)

  /** A run of the testset function: how it ended and the lines its `print` calls logged. */
  datatype Run = Run(outcome: RunOutcome, printed: seq<string>)

  /** `TestsetInvoker`: the testset name, the webmodule as written, and the testset function. */
  datatype TestsetInvoker = TestsetInvoker(name: string, webmodule: string, func: nat)

  /** The dict the invoker returns; a successful run has no `desc`. */
  datatype InvokeResult = InvokeResult(status: int, result: string, desc: Option<string>, prints: seq<string>)

  /** A log line: `[time] text`. */
  function Stamp(time: string, text: string): string
  {
    "[" + time + "] " + text
  }

  function Status(o: RunOutcome): int
  {
    match o
    case Completed => 0
    case Failed(_) => -1
    case ServerIssue(_) => -3
    case Crashed(_, _, _) => -2
  }

  function Label(o: RunOutcome): string
  {
    match o
    case Completed => "Success"
    case Failed(_) => "Failed"
    case ServerIssue(_) => "ServerIssue"
    case Crashed(_, _, _) => "Error"
  }

  function Description(name: string, o: RunOutcome): Option<string>
  {
    match o
    case Completed => None
    case Failed(m) => Some(m)
    case ServerIssue(m) =>
      Some("Error occurred in invoking the testcase. Error: " + m + ". Check the server log for more details.")
    case Crashed(t, m, line) =>
      Some("Error occurred in invoking the Testcase<" + name + ">. Error: (" + t + ": " + m + ") at line <"
           + NatToString(line) + ">")
  }

  /** The closing log line, which the generic error case does not write. */
  function Closing(name: string, o: RunOutcome): Option<string>
  {
    match o
    case Completed => Some("Testset<" + name + "> successfully completed")
    case Failed(_) => Some("Testset<" + name + "> execution failed.")
    case ServerIssue(_) => Some("Testset<" + name + "> terminated due to an internal error.")
    case Crashed(_, _, _) => None
  }

  function Opening(name: string): string
  {
    "Invoking the Testset<" + name + ">"
  }

  /** `TestsetInvoker.__call__`: starts the log, runs the testset (whose `print` calls append to
      the log), then appends the closing line and builds the result. `started` and `ended` are
      the clock readings. */
  method Invoke(inv: TestsetInvoker, run: Run, started: string, ended: string) returns (r: InvokeResult)
    ensures r.status == Status(run.outcome) && r.result == Label(run.outcome)
    ensures r.desc == Description(inv.name, run.outcome)
    ensures r.prints == [Stamp(started, Opening(inv.name))] + run.printed
                        + (match Closing(inv.name, run.outcome) case None => [] case Some(c) => [Stamp(ended, c)])
  {
    var outs := [Stamp(started, Opening(inv.name))];
    outs := outs + run.printed;
    match run.outcome {
      case Failed(m) =>
        outs := outs + [Stamp(ended, "Testset<" + inv.name + "> execution failed.")];
        r := InvokeResult(-1, "Failed", Some(m), outs);
      case ServerIssue(m) =>
        outs := outs + [Stamp(ended, "Testset<" + inv.name + "> terminated due to an internal error.")];
        r := InvokeResult(-3, "ServerIssue",
          Some("Error occurred in invoking the testcase. Error: " + m + ". Check the server log for more details."), outs);
      case Crashed(t, m, line) =>
        r := InvokeResult(-2, "Error", Description(inv.name, run.outcome), outs);
      case Completed =>
        outs := outs + [Stamp(ended, "Testset<" + inv.name + "> successfully completed")];
        r := InvokeResult(0, "Success", None, outs);
    }
  }

  /** The four outcomes get four distinct statuses, and only success is status 0. */
  lemma StatusDistinguishes(a: RunOutcome, b: RunOutcome)
    ensures Status(a) == 0 <==> a.Completed?
    ensures Status(a) == Status(b) <==> Label(a) == Label(b)
    ensures Status(a) == Status(b) <==> a.Completed? == b.Completed? && a.Failed? == b.Failed? && a.ServerIssue? == b.ServerIssue?
  {
  }

  /** The log opens with the invocation line and the testset's own lines; success, failure and
      the internal error each add exactly one line after them, the generic error none. */
  lemma InvokeLogLength(inv: TestsetInvoker, run: Run, started: string, ended: string)
    ensures var prints := [Stamp(started, Opening(inv.name))] + run.printed
                        + (match Closing(inv.name, run.outcome) case None => [] case Some(c) => [Stamp(ended, c)]);
      && prints[0] == Stamp(started, Opening(inv.name))
      && prints[1..1 + |run.printed|] == run.printed
      && |prints| == 1 + |run.printed| + (if run.outcome.Crashed? then 0 else 1)
  {
  }

  // ---------------------------------------------------------------------------
  // The testset decorator

  /** The `__testset__` dict: the webmodule normalised, the invoker with the webmodule as written. */
  datatype TestsetEntry = TestsetEntry(name: string, desc: Option<string>, webmodule: string, invoker: TestsetInvoker)

  /** `testset(name, webmodule)` applied to the function `func` with docstring `doc`. */
  method MakeTestset(name: string, webmodule: string, func: nat, doc: Option<string>) returns (t: TestsetEntry)
    ensures t.name == name && t.desc == doc
    ensures t.webmodule == CoreUtils.NormalizedUrl(webmodule)
    ensures t.invoker == TestsetInvoker(name, webmodule, func)
  {
    var url := CoreUtils.FixUrl(webmodule);
    t := TestsetEntry(name, doc, url, TestsetInvoker(name, webmodule, func));
  }

  /** Only the stored webmodule is normalised: it starts with "/", holds no "//", and equals the
      invoker's only when that was already normal. */
  lemma StoredWebmoduleNormal(t: TestsetEntry, name: string, webmodule: string, func: nat, doc: Option<string>)
    requires t == TestsetEntry(name, doc, CoreUtils.NormalizedUrl(webmodule), TestsetInvoker(name, webmodule, func))
    ensures |t.webmodule| >= 1 && t.webmodule[0] == '/' && CoreUtils.NoDoubleSlash(t.webmodule)
    ensures CoreUtils.NormalizedUrl(t.webmodule) == t.webmodule
    ensures t.webmodule == t.invoker.webmodule <==> CoreUtils.NormalizedUrl(webmodule) == webmodule
  {
    CoreUtils.NormalizedUrlShape(webmodule);
    CoreUtils.FixUrlIdempotent(webmodule);
  }

  // ---------------------------------------------------------------------------
  // test and testcase

  /** `test(first, second)`: `TestcaseFailed` with the two values exactly when Python's `!=`
      holds between them. */
  function Test(first: Value, second: Value): (r: Result<(), string>)
    ensures r.Ok? <==> PyEq(first, second)
  {
    if !PyEq(first, second) then
      Err("Test failed: Excepted value : <" + Str(second) + "> Return value : <" + Str(first) + ">")
    else Ok(())
  }

  /** A value without a NaN passes against itself, and the verdict does not depend on the
      order of the two arguments. */
  lemma TestReflexiveSymmetric(first: Value, second: Value)
    ensures NanFree(first) ==> Test(first, first).Ok?
    ensures Test(first, second).Ok? <==> Test(second, first).Ok?
  {
    if NanFree(first) { PyEqReflexive(first); }
    if PyEq(first, second) { PyEqSymmetric(first, second); }
    if PyEq(second, first) { PyEqSymmetric(second, first); }
  }

  /** The exceptions `testcase` raises. */
  datatype TestcaseProblem = InvalidTestcaseInvoke | TestcaseError

  /** The testset frame `testcase` finds two levels up: the invoker's `webmodule` and opener. */
  datatype Frame = Frame(webmodule: string)

  /** `testcase(input)`: outside a testset it raises `InvalidTestcaseInvoke`; otherwise the
      flattened input is posted to the webmodule and the JSON reply decoded, any failure being
      a `TestcaseError`. `post` answers the request (None when it fails), `decode` decodes the
      reply (None when it is not JSON). */
  function Testcase(frame: Option<Frame>, input: Dict<Value, Value>,
                    post: (string, seq<(Value, Value)>) -> Option<string>,
                    decode: string -> Option<Value>): (r: Result<Value, TestcaseProblem>)
    ensures frame.None? ==> r == Err(InvalidTestcaseInvoke)
    ensures frame.Some? && post(frame.value.webmodule, Flattened(input)).None? ==> r == Err(TestcaseError)
    ensures r.Ok? ==> frame.Some? && post(frame.value.webmodule, Flattened(input)).Some?
                      && decode(post(frame.value.webmodule, Flattened(input)).value) == Some(r.value)
    ensures frame.Some? && post(frame.value.webmodule, Flattened(input)).Some? ==>
              var decoded := decode(post(frame.value.webmodule, Flattened(input)).value);
              r == if decoded.Some? then Ok(decoded.value) else Err(TestcaseError)
  {
    match frame
    case None => Err(InvalidTestcaseInvoke)
    case Some(f) =>
      match post(f.webmodule, Flattened(input))
      case None => Err(TestcaseError)
      case Some(reply) =>
        match decode(reply)
        case None => Err(TestcaseError)
        case Some(v) => Ok(v)
  }

  // ---------------------------------------------------------------------------
  // Flattening the input of a testcase

  /** The pairs one input entry gives: one for a string or a value that is not iterable, one per
      element otherwise. */
  function EntryPairs(key: Value, value: Value): seq<(Value, Value)>
  {
    if value.VStr? then [(key, value)]
    else
      match Iterated(value)
      case None => [(key, value)]
      case Some(xs) => seq(|xs|, i requires 0 <= i < |xs| => (key, xs[i]))
  }

  /** The `t_inputs` list for the input dict. */
  function Flattened(input: Dict<Value, Value>): seq<(Value, Value)>
    decreases |input|
  {
    if input == [] then []
    else Flattened(input[..|input| - 1]) + EntryPairs(input[|input| - 1].0, input[|input| - 1].1)
  }

  lemma FlattenedLast(d: Dict<Value, Value>)
    requires d != []
    ensures Flattened(d) == Flattened(d[..|d| - 1]) + EntryPairs(d[|d| - 1].0, d[|d| - 1].1)
  {
  }

  /** The loop building `t_inputs`. */
  method FlattenInput(input: Dict<Value, Value>) returns (t: seq<(Value, Value)>)
    ensures t == Flattened(input)
  {
    t := [];
    var i := 0;
    while i < |input|
      invariant 0 <= i <= |input|
      invariant t == Flattened(input[..i])
    {
      var ps := EntryLoop(input[i].0, input[i].1);
      FlattenedLast(input[..i + 1]);
      assert input[..i + 1][..i] == input[..i];
      t := t + ps;
      i := i + 1;
    }
    assert input[..i] == input;
  }

  /** One turn of the outer loop: the pairs appended for one entry. */
  method EntryLoop(key: Value, value: Value) returns (ps: seq<(Value, Value)>)
    ensures ps == EntryPairs(key, value)
  {
    if value.VStr? {
      return [(key, value)];
    }
    var xs := Iterated(value);
    if xs.None? {
      return [(key, value)];
    }
    ps := [];
    var j := 0;
    while j < |xs.value|
      invariant 0 <= j <= |xs.value|
      invariant ps == seq(j, k requires 0 <= k < j => (key, xs.value[k]))
    {
      ps := ps + [(key, xs.value[j])];
      j := j + 1;
    }
  }

  /** Flattening keeps the entries' order: the pairs of two dicts in a row are the first's
      followed by the second's. */
  lemma {:induction false} FlattenedAppend(a: Dict<Value, Value>, b: Dict<Value, Value>)
    ensures Flattened(a + b) == Flattened(a) + Flattened(b)
    decreases |b|
  {
    if b == [] {
      assert a + b == a;
    } else {
      var b' := b[..|b| - 1];
      var last := EntryPairs(b[|b| - 1].0, b[|b| - 1].1);
      FlattenedAppend(a, b');
      FlattenedLast(a + b);
      FlattenedLast(b);
      SplitLast(a, b);
      AppendAssoc(Flattened(a), Flattened(b'), last);
    }
  }

  // ---------------------------------------------------------------------------
  // testprint

  /** The text a `print` inside a testset logs: the `str` of each argument joined by `sep` when
      it is a string, and by nothing otherwise. */
  function PrintedText(args: seq<Value>, sep: Option<Value>): string
  {
    var strs := seq(|args|, i requires 0 <= i < |args| => Str(args[i]));
    if sep.Some? && sep.value.VStr? then Join(sep.value.s, strs) else Join("", strs)
  }

  /** With a one-character separator that no string argument holds, the logged text splits back
      into the arguments. */
  lemma PrintedTextSplits(args: seq<string>, c: char)
    requires |args| >= 1 && forall i :: 0 <= i < |args| ==> c !in args[i]
    ensures var vs := seq(|args|, i requires 0 <= i < |args| => VStr(args[i]));
      Split(PrintedText(vs, Some(VStr([c]))), [c]) == args
  {
    var vs := seq(|args|, i requires 0 <= i < |args| => VStr(args[i]));
    assert seq(|vs|, i requires 0 <= i < |vs| => Str(vs[i])) == args;
    SplitJoin(args, c);
  }

  /** The log a testset's `print` calls append to. */
  class TestsetOuts {
    var lines: seq<string>

    constructor (opening: string)
      ensures lines == [opening]
    {
      lines := [opening];
    }

    /** `testprint(*args, **kwargs)` inside a testset: a call with a `file` keyword goes to the
        real `print` and leaves the log alone; any other appends `[time] text`. */
    method TestPrint(args: seq<Value>, sep: Option<Value>, hasFile: bool, time: string)
      modifies this
      ensures lines == old(lines) + (if hasFile then [] else [Stamp(time, PrintedText(args, sep))])
    {
      if !hasFile {
        var strs: seq<string> := [];
        var i := 0;
        while i < |args|
          invariant 0 <= i <= |args|
          invariant strs == seq(i, k requires 0 <= k < i => Str(args[k]))
        {
          strs := strs + [Str(args[i])];
          i := i + 1;
        }
        var msg := if sep.Some? && sep.value.VStr? then Join(sep.value.s, strs) else Join("", strs);
        lines := lines + ["[" + time + "] " + msg];
      }
    }
  }
}
