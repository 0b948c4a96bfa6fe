/** lib/darkchoco/core/decorators.py: `weblocation`, which stages a function, or every public
    method of a class, in the url tables of lib/darkchoco/core/urls.py, and the argument checks of
    the `run` decorators, which schedule a function on a timer. The timers themselves are not part
    of this model. */
module DarkchocoDecorators {
  import opened Wrappers
  import opened PyStr
  import opened PyDict
  import opened PyValue
  import DarkchocoUtils
  import opened DarkchocoUrls

  // ---------------------------------------------------------------------------
  // weblocation

  /** A method of the class's instance as `inspect.getmembers(target(), ismethod)` lists it: its
      name, the identity of the invoker made for it and of its signature. */
  datatype Member = Member(name: string, invoker: nat, signature: nat)

  /** What `weblocation(parameter)` is applied to. A class and a function carry their module's
      identity and the file `inspect.getfile` gives; any other object is named by its type and
      has a file only when `inspect.getfile` accepts it (a method, say). */
  datatype Target =
    | ClassTarget(modId: nat, file: string, members: seq<Member>)
    | FunctionTarget(modId: nat, file: string, invoker: nat, signature: nat, wrapper: nat)
    | OtherTarget(typeName: string, hasFile: bool)

  /** What the decorator returns: the class itself, or the wrapper around the function. */
  datatype Decorated = SameClass | FunctionWrapper(wrapper: nat)

  datatype DecoratorError =
    | NotAUrl                       // "The decorator <weblocation> requires URL string as argument."
    | NoSourceFile                  // `inspect.getfile` raises `TypeError`
    | Unsupported(typeName: string) // "Not implemented to support <type>"
    | NoNamespace                   // `get_namespace` raises `ValueError`
    | StageDeleted                  // `add_url` after `initialize`: a `NameError`

  /** A special method, which the class loop skips. */
  predicate IsDunder(name: string)
  {
    StartsWith(name, "__") && EndsWith(name, "__")
  }

  /** The url of a class method: the parameter and the method name, with a "/" between them
      unless the parameter already ends with one. */
  function MethodUrl(parameter: string, name: string): string
  {
    if EndsWith(parameter, "/") then parameter + name else parameter + "/" + name
  }

  /** The `details` the class loop passes to `add_url` for one method. */
  function MethodDetails(parameter: string, file: string, ns: string, m: Member): Details
  {
    Details(MethodUrl(parameter, m.name), m.invoker, m.signature, ns, file)
  }

  /** The `add_url` calls of the class loop, in member order. */
  function ClassRegistrations(parameter: string, file: string, ns: string, members: seq<Member>): seq<Details>
    decreases |members|
  {
    if members == [] then []
    else
      var m := members[|members| - 1];
      ClassRegistrations(parameter, file, ns, members[..|members| - 1])
      + if IsDunder(m.name) then [] else [MethodDetails(parameter, file, ns, m)]
  }

  /** The same calls for the first `n` members, counted rather than sliced: what the class loop
      has made after `n` iterations. */
  function RegistrationsUpTo(parameter: string, file: string, ns: string, members: seq<Member>, n: nat): seq<Details>
    requires n <= |members|
    decreases n
  {
    if n == 0 then []
    else
      RegistrationsUpTo(parameter, file, ns, members, n - 1)
      + if IsDunder(members[n - 1].name) then [] else [MethodDetails(parameter, file, ns, members[n - 1])]
  }

  lemma {:induction false} RegistrationsUpToPrefix(parameter: string, file: string, ns: string, members: seq<Member>, n: nat)
    requires n <= |members|
    ensures RegistrationsUpTo(parameter, file, ns, members, n) == ClassRegistrations(parameter, file, ns, members[..n])
    decreases n
  {
    if n > 0 {
      RegistrationsUpToPrefix(parameter, file, ns, members, n - 1);
      assert members[..n][..n - 1] == members[..n - 1];
    }
  }

  /** The `add_url` calls `weblocation(parameter)` makes for a target whose module is named `ns`. */
  function Registrations(parameter: string, target: Target, ns: string): seq<Details>
  {
    match target
    case ClassTarget(_, file, members) => ClassRegistrations(parameter, file, ns, members)
    case FunctionTarget(_, file, invoker, signature, _) => [Details(parameter, invoker, signature, ns, file)]
    case OtherTarget(_, _) => []
  }

  /** The stagings those calls write, as key/value pairs in order. */
  function StagePairs(ds: seq<Details>): (r: seq<(StageKey, Staged)>)
    ensures |r| == |ds|
    ensures forall i :: 0 <= i < |ds| ==> r[i] == ((ds[i].url, ds[i].moduleLoc), StagedOf(ds[i]))
  {
    seq(|ds|, i requires 0 <= i < |ds| => ((ds[i].url, ds[i].moduleLoc), StagedOf(ds[i])))
  }

  /** The outcome of `weblocation(parameter)(target)` against `sys.modules` and the binding of
      the staging map. A target that registers nothing never asks for its namespace. */
  function WebLocationOutcome(parameter: Value, target: Target, modules: Dict<string, nat>, stageBound: bool)
    : Result<Decorated, DecoratorError>
  {
    if !parameter.VStr? then Err(NotAUrl)
    else if target.OtherTarget? then (if target.hasFile then Err(Unsupported(target.typeName)) else Err(NoSourceFile))
    else if Registrations(parameter.s, target, "") == [] then Ok(SameClass)
    else if DarkchocoUtils.FirstBound(modules, target.modId).None? then Err(NoNamespace)
    else if !stageBound then Err(StageDeleted)
    else if target.ClassTarget? then Ok(SameClass)
    else Ok(FunctionWrapper(target.wrapper))
  }

  /** What a successful `weblocation(parameter)(target)` stages. */
  function WebLocationStaging(parameter: Value, target: Target, modules: Dict<string, nat>): seq<(StageKey, Staged)>
  {
    if !parameter.VStr? || target.OtherTarget? then []
    else match DarkchocoUtils.FirstBound(modules, target.modId)
      case None => []
      case Some(ns) => StagePairs(Registrations(parameter.s, target, ns))
  }

  /** Whether the class loop registers anything does not depend on the namespace. */
  lemma {:induction false} ClassRegistrationsEmpty(parameter: string, file: string, ns: string, ns': string, members: seq<Member>)
    ensures ClassRegistrations(parameter, file, ns, members) == [] <==> ClassRegistrations(parameter, file, ns', members) == []
    decreases |members|
  {
    if members != [] {
      ClassRegistrationsEmpty(parameter, file, ns, ns', members[..|members| - 1]);
    }
  }

  /** The stagings of one more registration. */
  lemma StagePairsAppend(ds: seq<Details>, more: seq<Details>)
    ensures StagePairs(ds + more) == StagePairs(ds) + StagePairs(more)
  {
  }

  /** `weblocation(parameter)` applied to `target`: the class branch calls `add_url` once per
      method that is not special, the function branch once at the parameter itself. */
  method WebLocation(tables: UrlTables, parameter: Value, target: Target, modules: Dict<string, nat>)
    returns (r: Result<Decorated, DecoratorError>)
    requires tables.Valid()
    modifies tables
    ensures tables.Valid()
    ensures r == WebLocationOutcome(parameter, target, modules, old(tables.stageBound))
    ensures tables.urlMap == old(tables.urlMap) && tables.stageBound == old(tables.stageBound)
    ensures tables.stage == if r.Ok? then Assigned(old(tables.stage), WebLocationStaging(parameter, target, modules))
                            else old(tables.stage)
  {
    if !parameter.VStr? {
      return Err(NotAUrl);
    }
    var p := parameter.s;
    match target {
      case OtherTarget(t, hasFile) =>
        if hasFile {
          return Err(Unsupported(t));
        }
        return Err(NoSourceFile);
      case FunctionTarget(modId, file, invoker, signature, wrapper) =>
        var ns := DarkchocoUtils.GetNamespace(modules, modId);
        if ns.None? {
          return Err(NoNamespace);
        }
        var ok := tables.AddUrl(Details(p, invoker, signature, ns.value, file));
        if !ok {
          return Err(StageDeleted);
        }
        return Ok(FunctionWrapper(wrapper));
      case ClassTarget(modId, file, members) =>
        r := WebLocationClass(tables, p, modId, file, members, modules);
    }
  }

  /** The class branch of `weblocation`: the loop over the instance's methods. */
  method WebLocationClass(tables: UrlTables, p: string, modId: nat, file: string, members: seq<Member>,
                          modules: Dict<string, nat>)
    returns (r: Result<Decorated, DecoratorError>)
    requires tables.Valid()
    modifies tables
    ensures tables.Valid()
    ensures r == WebLocationOutcome(VStr(p), ClassTarget(modId, file, members), modules, old(tables.stageBound))
    ensures tables.urlMap == old(tables.urlMap) && tables.stageBound == old(tables.stageBound)
    ensures tables.stage == if r.Ok? then Assigned(old(tables.stage), WebLocationStaging(VStr(p), ClassTarget(modId, file, members), modules))
                            else old(tables.stage)
  {
    ghost var ns0 := DarkchocoUtils.FirstBound(modules, modId);
    ghost var nsv := if ns0.Some? then ns0.value else "";
    ClassOutcome(p, modId, file, members, modules, old(tables.stageBound), nsv);
    var i := 0;
    while i < |members|
      invariant 0 <= i <= |members| && tables.Valid()
      invariant tables.urlMap == old(tables.urlMap) && tables.stageBound == old(tables.stageBound)
      invariant RegistrationsUpTo(p, file, nsv, members, i) != [] ==> ns0.Some? && tables.stageBound
      invariant tables.stage == Assigned(old(tables.stage), StagePairs(RegistrationsUpTo(p, file, nsv, members, i)))
    {
      var m := members[i];
      ghost var before := tables.stage;
      if !IsDunder(m.name) {
        var e := AddMethodUrl(tables, p, modId, file, m, modules);
        if e.Some? {
          assert RegistrationsUpTo(p, file, nsv, members, i) == [];
          assert tables.stage == old(tables.stage);
          NonDunderRegisters(p, file, nsv, members, i);
          return Err(e.value);
        }
        assert nsv == DarkchocoUtils.FirstBound(modules, modId).value;
      }
      StageLoopStep(old(tables.stage), before, tables.stage, p, file, nsv, members, i);
      i := i + 1;
    }
    RegistrationsUpToPrefix(p, file, nsv, members, i);
    assert members[..i] == members;
    return Ok(SameClass);
  }

  /** The outcome and the staging of the class branch, in terms of the class loop's registrations
      under the namespace `get_namespace` finds (any name when it finds none). */
  lemma ClassOutcome(p: string, modId: nat, file: string, members: seq<Member>, modules: Dict<string, nat>,
                     stageBound: bool, nsv: string)
    requires nsv == if DarkchocoUtils.FirstBound(modules, modId).Some? then DarkchocoUtils.FirstBound(modules, modId).value else ""
    ensures var c := ClassRegistrations(p, file, nsv, members);
      WebLocationOutcome(VStr(p), ClassTarget(modId, file, members), modules, stageBound)
      == if c == [] then Ok(SameClass)
         else if DarkchocoUtils.FirstBound(modules, modId).None? then Err(NoNamespace)
         else if !stageBound then Err(StageDeleted)
         else Ok(SameClass)
    ensures WebLocationStaging(VStr(p), ClassTarget(modId, file, members), modules)
      == if DarkchocoUtils.FirstBound(modules, modId).None? then [] else StagePairs(ClassRegistrations(p, file, nsv, members))
  {
    ClassRegistrationsEmpty(p, file, "", nsv, members);
  }

  /** The staging after one more method that is not special. */
  lemma StagedStep(stage: Dict<StageKey, Staged>, p: string, file: string, ns: string, members: seq<Member>, i: nat)
    requires i < |members| && !IsDunder(members[i].name)
    ensures var d := MethodDetails(p, file, ns, members[i]);
      Assigned(stage, StagePairs(RegistrationsUpTo(p, file, ns, members, i + 1)))
      == Put(Assigned(stage, StagePairs(RegistrationsUpTo(p, file, ns, members, i))), (d.url, d.moduleLoc), StagedOf(d))
  {
    var d := MethodDetails(p, file, ns, members[i]);
    var c := RegistrationsUpTo(p, file, ns, members, i);
    StagePairsAppend(c, [d]);
    AssignedStep(stage, StagePairs(c), ((d.url, d.moduleLoc), StagedOf(d)));
  }

  /** A special method adds no registration. */
  lemma UpToSpecial(p: string, file: string, ns: string, members: seq<Member>, i: nat)
    requires i < |members| && IsDunder(members[i].name)
    ensures RegistrationsUpTo(p, file, ns, members, i + 1) == RegistrationsUpTo(p, file, ns, members, i)
  {
    assert RegistrationsUpTo(p, file, ns, members, i + 1) == RegistrationsUpTo(p, file, ns, members, i) + [];
  }

  /** One turn of the class loop: a special method leaves the staging map alone, any other
      puts its method url and location. */
  lemma StageLoopStep(stage0: Dict<StageKey, Staged>, before: Dict<StageKey, Staged>, after: Dict<StageKey, Staged>,
                      p: string, file: string, ns: string, members: seq<Member>, i: nat)
    requires i < |members|
    requires before == Assigned(stage0, StagePairs(RegistrationsUpTo(p, file, ns, members, i)))
    requires IsDunder(members[i].name) ==> after == before
    requires !IsDunder(members[i].name) ==>
      var d := MethodDetails(p, file, ns, members[i]); after == Put(before, (d.url, d.moduleLoc), StagedOf(d))
    ensures after == Assigned(stage0, StagePairs(RegistrationsUpTo(p, file, ns, members, i + 1)))
  {
    if IsDunder(members[i].name) {
      UpToSpecial(p, file, ns, members, i);
    } else {
      StagedStep(stage0, p, file, ns, members, i);
    }
  }

  /** One method of the class loop that is not special: `get_namespace`, then `add_url` at its
      method url. */
  method AddMethodUrl(tables: UrlTables, p: string, modId: nat, file: string, m: Member, modules: Dict<string, nat>)
    returns (e: Option<DecoratorError>)
    requires tables.Valid()
    modifies tables
    ensures tables.Valid()
    ensures tables.urlMap == old(tables.urlMap) && tables.stageBound == old(tables.stageBound)
    ensures e == if DarkchocoUtils.FirstBound(modules, modId).None? then Some(NoNamespace)
                 else if !old(tables.stageBound) then Some(StageDeleted) else None
    ensures tables.stage == if e.Some? then old(tables.stage)
      else var d := MethodDetails(p, file, DarkchocoUtils.FirstBound(modules, modId).value, m);
        Put(old(tables.stage), (d.url, d.moduleLoc), StagedOf(d))
  {
    var url := MethodUrl(p, m.name);
    var ns := DarkchocoUtils.GetNamespace(modules, modId);
    if ns.None? {
      return Some(NoNamespace);
    }
    var ok := tables.AddUrl(Details(url, m.invoker, m.signature, ns.value, file));
    if !ok {
      return Some(StageDeleted);
    }
    return None;
  }

  /** A class with a method that is not special registers something. */
  lemma NonDunderRegisters(p: string, file: string, ns: string, members: seq<Member>, i: nat)
    requires i < |members| && !IsDunder(members[i].name)
    ensures ClassRegistrations(p, file, ns, members) != []
  {
    MembersRegistered(p, file, ns, members);
  }

  // ---------------------------------------------------------------------------
  // Properties of weblocation

  /** The class loop's last member adds its registration unless it is special. */
  lemma ClassRegistrationsLast(p: string, file: string, ns: string, members: seq<Member>)
    requires members != []
    ensures var n := |members| - 1;
      ClassRegistrations(p, file, ns, members)
      == ClassRegistrations(p, file, ns, members[..n])
         + if IsDunder(members[n].name) then [] else [MethodDetails(p, file, ns, members[n])]
  {
  }

  /** Every registration of the class loop comes from a member that is not special. */
  lemma {:induction false} RegistrationsFromMembers(p: string, file: string, ns: string, members: seq<Member>)
    ensures forall j :: 0 <= j < |ClassRegistrations(p, file, ns, members)| ==>
      exists i :: 0 <= i < |members| && !IsDunder(members[i].name)
        && ClassRegistrations(p, file, ns, members)[j] == MethodDetails(p, file, ns, members[i])
    decreases |members|
  {
    if members != [] {
      var n := |members| - 1;
      var init := members[..n];
      RegistrationsFromMembers(p, file, ns, init);
      ClassRegistrationsLast(p, file, ns, members);
      var c := ClassRegistrations(p, file, ns, members);
      var c0 := ClassRegistrations(p, file, ns, init);
      forall j | 0 <= j < |c|
        ensures exists i :: 0 <= i < |members| && !IsDunder(members[i].name) && c[j] == MethodDetails(p, file, ns, members[i])
      {
        if j < |c0| {
          var i :| 0 <= i < |init| && !IsDunder(init[i].name) && c0[j] == MethodDetails(p, file, ns, init[i]);
          assert members[i] == init[i];
          assert c[j] == c0[j];
        } else {
          assert c[j] == MethodDetails(p, file, ns, members[n]);
        }
      }
    } else {
      assert ClassRegistrations(p, file, ns, members) == [];
    }
  }

  /** Every member that is not special is registered by the class loop. */
  lemma {:induction false} MembersRegistered(p: string, file: string, ns: string, members: seq<Member>)
    ensures forall i :: 0 <= i < |members| && !IsDunder(members[i].name) ==>
      MethodDetails(p, file, ns, members[i]) in ClassRegistrations(p, file, ns, members)
    decreases |members|
  {
    if members != [] {
      var n := |members| - 1;
      var init := members[..n];
      MembersRegistered(p, file, ns, init);
      ClassRegistrationsLast(p, file, ns, members);
      var c := ClassRegistrations(p, file, ns, members);
      var c0 := ClassRegistrations(p, file, ns, init);
      forall i | 0 <= i < |members| && !IsDunder(members[i].name)
        ensures MethodDetails(p, file, ns, members[i]) in c
      {
        if i < n {
          assert init[i] == members[i];
          assert MethodDetails(p, file, ns, members[i]) in c0;
        } else {
          assert c[|c| - 1] == MethodDetails(p, file, ns, members[n]);
        }
      }
    }
  }

  /** A class with only special methods registers nothing, so decorating it succeeds whatever
      `sys.modules` and the staging map are. */
  lemma {:induction false} OnlyDundersRegisterNothing(p: string, file: string, ns: string, members: seq<Member>)
    requires forall i :: 0 <= i < |members| ==> IsDunder(members[i].name)
    ensures ClassRegistrations(p, file, ns, members) == []
    decreases |members|
  {
    if members != [] {
      var n := |members| - 1;
      forall i | 0 <= i < n ensures IsDunder(members[..n][i].name) {
        assert members[..n][i] == members[i];
      }
      OnlyDundersRegisterNothing(p, file, ns, members[..n]);
    }
  }

  /** A method url is the parameter, then one "/" that is either the parameter's last character
      or added after it, then the method name. */
  lemma MethodUrlShape(parameter: string, name: string)
    ensures var u := MethodUrl(parameter, name);
      && |u| >= |parameter| && u[..|parameter|] == parameter
      && |u| >= |name| + 1 && u[|u| - |name| - 1..] == "/" + name
      && (|u| == |parameter| + |name| <==> EndsWith(parameter, "/"))
  {
    var u := MethodUrl(parameter, name);
    if EndsWith(parameter, "/") {
      assert u == parameter + name;
      assert u[|u| - |name| - 1..] == [parameter[|parameter| - 1]] + name;
    } else {
      assert u == (parameter + "/") + name;
      assert u[|u| - |name| - 1..] == "/" + name;
    }
  }

  /** A trailing "/" on the parameter does not change the urls of the class's methods. */
  lemma TrailingSlashIrrelevant(parameter: string, name: string)
    requires !EndsWith(parameter, "/")
    ensures MethodUrl(parameter + "/", name) == MethodUrl(parameter, name)
  {
    assert EndsWith(parameter + "/", "/") by {
      assert (parameter + "/")[|parameter|..] == "/";
    }
  }

  /** A decorated function is staged at exactly the parameter url, under its own file, with the
      namespace `get_namespace` finds and no webapp yet. */
  lemma FunctionStagedAtParameter(stage: Dict<StageKey, Staged>, p: string, target: Target, modules: Dict<string, nat>)
    requires target.FunctionTarget? && DarkchocoUtils.FirstBound(modules, target.modId).Some?
    ensures Get(Assigned(stage, WebLocationStaging(VStr(p), target, modules)), (p, target.file))
         == Some(Staged(target.invoker, target.signature, DarkchocoUtils.FirstBound(modules, target.modId).value, []))
  {
    var s := WebLocationStaging(VStr(p), target, modules);
    assert s == [] + [s[0]];
    AssignedStep(stage, [], s[0]);
  }

  // ---------------------------------------------------------------------------
  // run

  /** How the scheduled function is re-armed: `runevery` restarts the timer before each call,
      `runinterval` after it, `runonce` does not. */
  datatype RunKind = Every | Interval | Once

  /** The first timer `run` starts, after `seconds`, and how its function re-arms it. */
  datatype Scheduled = Scheduled(kind: RunKind, seconds: int)

  /** What a `run` decorator is applied to: a function with its number of parameters, or any
      other object. */
  datatype RunTarget = RunFunction(arity: nat) | RunNonFunction

  datatype RunError =
    | SecondsNotInt                       // "... requires time in seconds as parameter of type integer"
    | HasParameters                       // "... only supported for functions without parameters"
    | UnsupportedRuntype(runtype: string) // "Unsupported runtype <...>"
    | NotAFunction                        // "... only supported for functions"

  /** `isinstance(seconds, int)`, which holds for a `bool` too. */
  predicate IsInt(v: Value)
  {
    v.VInt? || v.VBool?
  }

  function IntOf(v: Value): int
    requires IsInt(v)
  {
    if v.VInt? then v.i else if v.b then 1 else 0
  }

  /** The runtypes `run` knows. */
  function KindOf(runtype: string): Option<RunKind>
  {
    if runtype == "runevery" then Some(Every)
    else if runtype == "runinterval" then Some(Interval)
    else if runtype == "runonce" then Some(Once)
    else None
  }

  /** `run(seconds, runtype)(target)`: the checks in the order the source makes them. */
  function Run(seconds: Value, runtype: string, target: RunTarget): Result<Scheduled, RunError>
  {
    if !IsInt(seconds) then Err(SecondsNotInt)
    else if target.RunNonFunction? then Err(NotAFunction)
    else if target.arity != 0 then Err(HasParameters)
    else match KindOf(runtype)
      case None => Err(UnsupportedRuntype(runtype))
      case Some(k) => Ok(Scheduled(k, IntOf(seconds)))
  }

  /** Whether the scheduled function keeps running. */
  predicate Repeats(s: Scheduled)
  {
    s.kind != Once
  }

  function RunEvery(seconds: Value, target: RunTarget): Result<Scheduled, RunError>
  {
    Run(seconds, "runevery", target)
  }

  function RunInterval(seconds: Value, target: RunTarget): Result<Scheduled, RunError>
  {
    Run(seconds, "runinterval", target)
  }

  /** `runonce` as written: it passes the runtype "runinterval". */
  function RunOnceAsWritten(seconds: Value, target: RunTarget): Result<Scheduled, RunError>
  {
    Run(seconds, "runinterval", target)
  }

  /** `runonce` as its name and the "runonce" branch of `run` intend. */
  function RunOnce(seconds: Value, target: RunTarget): Result<Scheduled, RunError>
  {
    Run(seconds, "runonce", target)
  }

  /** `run` schedules exactly a parameterless function with integer seconds and a known runtype;
      otherwise it raises the first error the checks meet: seconds, then function, then
      parameters, then runtype. */
  lemma RunChecks(seconds: Value, runtype: string, target: RunTarget)
    ensures Run(seconds, runtype, target).Ok? <==> IsInt(seconds) && target == RunFunction(0) && KindOf(runtype).Some?
    ensures Run(seconds, runtype, target).Ok? ==>
      Run(seconds, runtype, target).value == Scheduled(KindOf(runtype).value, IntOf(seconds))
    ensures !IsInt(seconds) ==> Run(seconds, runtype, target) == Err(SecondsNotInt)
    ensures IsInt(seconds) && target.RunNonFunction? ==> Run(seconds, runtype, target) == Err(NotAFunction)
    ensures IsInt(seconds) && target.RunFunction? && target.arity != 0 ==> Run(seconds, runtype, target) == Err(HasParameters)
    ensures IsInt(seconds) && target == RunFunction(0) && KindOf(runtype).None? ==>
      Run(seconds, runtype, target) == Err(UnsupportedRuntype(runtype))
  {
  }

  /** Of the three runtypes only "runonce" does not repeat. */
  lemma OnlyOnceStops(runtype: string)
    requires KindOf(runtype).Some?
    ensures !Repeats(Scheduled(KindOf(runtype).value, 0)) <==> runtype == "runonce"
  {
  }

  /** As written, `runonce` schedules a function that keeps running on an interval, and so is
      `runinterval` under another name; the intended one schedules it once. */
  lemma RunOnceRepeats(seconds: Value)
    requires IsInt(seconds)
    ensures RunOnceAsWritten(seconds, RunFunction(0)).Ok? && Repeats(RunOnceAsWritten(seconds, RunFunction(0)).value)
    ensures RunOnceAsWritten(seconds, RunFunction(0)) == RunInterval(seconds, RunFunction(0))
    ensures RunOnce(seconds, RunFunction(0)).Ok? && !Repeats(RunOnce(seconds, RunFunction(0)).value)
    ensures RunOnce(seconds, RunFunction(0)).value.seconds == IntOf(seconds)
  {
  }
}
