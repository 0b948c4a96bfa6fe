/** lib/BlackPearl/core/decorators.py: the decorators that expose functions and classes to the
    web, mark preprocessors and posthandlers, and the invokers that call a handler. Functions,
    classes and methods are opaque identities; what `inspect` reports about them is data. */
module CoreDecorators {
  import opened Wrappers
  import opened PyStr
  import opened PyDict
  import opened PyValue

  /** A function as `inspect` sees it: its name, the name of the module `get_module_name` finds for it, its
      number of parameters and its doc string. */
  datatype FunctionInfo = FunctionInfo(id: nat, name: string, moduleName: string, arity: nat, doc: Option<string>)

  /** A bound method of the class's instance, with the `__webname__` it carries, if any. */
  datatype MethodInfo = MethodInfo(name: string, webname: Option<string>, handler: nat)

  /** What a decorator is applied to; `methods` is what `inspect.getmembers(target(), ismethod)`
      lists, in its order. */
  datatype Target =
    | ClassTarget(id: nat, doc: Option<string>, methods: seq<MethodInfo>)
    | FunctionTarget(f: FunctionInfo)
    | OtherTarget(typeName: string)

  /** `ClassMethodInvoker(name, target)` or `FunctionInvoker(target)`. */
  datatype Invoker = ClassMethodInvoker(name: string, target: nat) | FunctionInvoker(target: nat)

  /** One `{url, func, handler, desc}` dict. */
  datatype Exposed = Exposed(url: string, func: Invoker, handler: nat, desc: Option<string>)

  /** What `weblocation` attaches: `__webmodules__` on a class or `__webmodule__` on a function. */
  datatype Decorated = ExposedClass(webmodules: seq<Exposed>) | ExposedFunction(webmodule: Exposed)

  datatype DecoratorError =
    | NotAString(decorator: string)   // the argument of `webname` or `weblocation` is not a `str`
    | Unsupported(typeName: string)   // "Not implemented to support <type>"

  /** A `__preprocessor__` or `__posthandler__` dict. */
  datatype Mark = Mark(name: string, func: nat, desc: Option<string>)

  // ---------------------------------------------------------------------------
  // webname

  /** `webname(parameter)`: the name it attaches as `__webname__`, or the error it raises. */
  function Webname(parameter: Value): (r: Result<string, DecoratorError>)
    ensures r.Ok? <==> parameter.VStr?
    ensures r.Ok? ==> r.value == parameter.s
  {
    if parameter.VStr? then Ok(parameter.s) else Err(NotAString("webname"))
  }

  // ---------------------------------------------------------------------------
  // weblocation

  /** The url of an exposed method: the location itself for an empty webname, otherwise the
      location and the webname with one "/" between them. */
  function MethodUrl(location: string, webname: string): string
  {
    if |webname| == 0 then location
    else if EndsWith(location, "/") then location + webname
    else location + "/" + webname
  }

  /** A method url starts with the location and ends with the webname, and between a non-empty
      webname and the location there is exactly one "/", either the location's last character or
      one added after it. */
  lemma MethodUrlShape(location: string, webname: string)
    ensures var u := MethodUrl(location, webname); |u| >= |location| && u[..|location|] == location
    ensures |webname| == 0 ==> MethodUrl(location, webname) == location
    ensures |webname| > 0 ==>
      var u := MethodUrl(location, webname);
      var k := |u| - |webname|;
      u[k..] == webname && 1 <= k && u[k - 1] == '/' && |location| <= k <= |location| + 1
      && (k == |location| + 1 <==> !EndsWith(location, "/"))
  {
    if |webname| > 0 {
      var u := MethodUrl(location, webname);
      var k := |u| - |webname|;
      if EndsWith(location, "/") {
        assert u == location + webname;
        assert u[k - 1] == location[|location| - 1];
      } else {
        assert u == (location + "/") + webname;
        assert u[k - 1] == (location + "/")[|location|];
      }
    }
  }

  /** Whether a class method is exposed, and with which webname: a `__webname__` wins, and
      `__call__` without one is exposed with the empty name. */
  function ExposedName(m: MethodInfo): Option<string>
  {
    if m.webname.Some? then m.webname else if m.name == "__call__" then Some("") else None
  }

  /** The `__webmodules__` a class decorated with `weblocation(location)` gets. */
  function ClassWebModules(location: string, id: nat, doc: Option<string>, methods: seq<MethodInfo>): seq<Exposed>
    decreases |methods|
  {
    if methods == [] then []
    else
      var m := methods[|methods| - 1];
      ClassWebModules(location, id, doc, methods[..|methods| - 1])
      + match ExposedName(m)
        case None => []
        case Some(w) => [Exposed(MethodUrl(location, w), ClassMethodInvoker(m.name, id), m.handler, doc)]
  }

  lemma ClassWebModulesStep(location: string, id: nat, doc: Option<string>, methods: seq<MethodInfo>, i: nat)
    requires i < |methods|
    ensures ClassWebModules(location, id, doc, methods[..i + 1])
         == ClassWebModules(location, id, doc, methods[..i])
            + match ExposedName(methods[i])
              case None => []
              case Some(w) => [Exposed(MethodUrl(location, w), ClassMethodInvoker(methods[i].name, id), methods[i].handler, doc)]
  {
    assert methods[..i + 1][..i] == methods[..i];
  }

  /** The loop of `weblocation` over a class's methods. */
  method CollectWebModules(location: string, id: nat, doc: Option<string>, methods: seq<MethodInfo>) returns (webmodules: seq<Exposed>)
    ensures webmodules == ClassWebModules(location, id, doc, methods)
  {
    webmodules := [];
    var i := 0;
    while i < |methods|
      invariant 0 <= i <= |methods|
      invariant webmodules == ClassWebModules(location, id, doc, methods[..i])
    {
      ClassWebModulesStep(location, id, doc, methods, i);
      var m := methods[i];
      var webname: string;
      if m.webname.Some? {
        webname := m.webname.value;
      } else if m.name == "__call__" {
        webname := "";
      } else {
        i := i + 1;
        continue;
      }
      var url := if |webname| == 0 then location else if EndsWith(location, "/") then location + webname else location + "/" + webname;
      webmodules := webmodules + [Exposed(url, ClassMethodInvoker(m.name, id), m.handler, doc)];
      i := i + 1;
    }
    assert methods[..i] == methods;
  }

  /** The entry a method is exposed as. */
  function EntryOf(location: string, id: nat, doc: Option<string>, m: MethodInfo): Exposed
    requires ExposedName(m).Some?
  {
    Exposed(MethodUrl(location, ExposedName(m).value), ClassMethodInvoker(m.name, id), m.handler, doc)
  }

  /** Every method that has a webname, and `__call__`, is exposed... */
  lemma {:induction false} ClassWebModulesCovers(location: string, id: nat, doc: Option<string>, methods: seq<MethodInfo>)
    ensures forall i :: 0 <= i < |methods| && ExposedName(methods[i]).Some? ==>
      EntryOf(location, id, doc, methods[i]) in ClassWebModules(location, id, doc, methods)
    decreases |methods|
  {
    if methods != [] {
      var init := methods[..|methods| - 1];
      ClassWebModulesCovers(location, id, doc, init);
      forall i | 0 <= i < |methods| - 1 && ExposedName(methods[i]).Some?
        ensures EntryOf(location, id, doc, methods[i]) in ClassWebModules(location, id, doc, methods)
      {
        assert methods[i] == init[i];
      }
    }
  }

  /** ... and nothing else is: every entry is the entry of an exposed method. */
  lemma {:induction false} ClassWebModulesOnly(location: string, id: nat, doc: Option<string>, methods: seq<MethodInfo>)
    ensures forall e :: e in ClassWebModules(location, id, doc, methods) ==>
      exists i :: 0 <= i < |methods| && ExposedName(methods[i]).Some? && e == EntryOf(location, id, doc, methods[i])
    decreases |methods|
  {
    if methods != [] {
      var init := methods[..|methods| - 1];
      ClassWebModulesOnly(location, id, doc, init);
      var r' := ClassWebModules(location, id, doc, init);
      forall e | e in ClassWebModules(location, id, doc, methods)
        ensures exists i :: 0 <= i < |methods| && ExposedName(methods[i]).Some? && e == EntryOf(location, id, doc, methods[i])
      {
        if e in r' {
          var i :| 0 <= i < |init| && ExposedName(init[i]).Some? && e == EntryOf(location, id, doc, init[i]);
          assert methods[i] == init[i];
        } else {
          assert e == EntryOf(location, id, doc, methods[|methods| - 1]);
        }
      }
    }
  }

  /** `weblocation(parameter)` applied to `target`. */
  method WebLocation(parameter: Value, target: Target) returns (r: Result<Decorated, DecoratorError>)
    ensures !parameter.VStr? ==> r == Err(NotAString("weblocation"))
    ensures parameter.VStr? && target.ClassTarget? ==>
      r == Ok(ExposedClass(ClassWebModules(parameter.s, target.id, target.doc, target.methods)))
    ensures parameter.VStr? && target.FunctionTarget? ==>
      r == Ok(ExposedFunction(Exposed(parameter.s, FunctionInvoker(target.f.id), target.f.id, target.f.doc)))
    ensures parameter.VStr? && target.OtherTarget? ==> r == Err(Unsupported(target.typeName))
  {
    if !parameter.VStr? {
      return Err(NotAString("weblocation"));
    }
    match target {
      case ClassTarget(id, doc, methods) =>
        var webmodules := CollectWebModules(parameter.s, id, doc, methods);
        r := Ok(ExposedClass(webmodules));
      case FunctionTarget(f) =>
        r := Ok(ExposedFunction(Exposed(parameter.s, FunctionInvoker(f.id), f.id, f.doc)));
      case OtherTarget(t) =>
        r := Err(Unsupported(t));
    }
  }

  // ---------------------------------------------------------------------------
  // preprocessor and posthandler

  /** The mark left on a function with exactly `arity` parameters; anything else is returned
      unmarked. */
  function MarkOf(target: Target, arity: nat): (r: Option<Mark>)
    ensures r.Some? <==> target.FunctionTarget? && target.f.arity == arity
    ensures r.Some? ==> r.value == Mark(target.f.moduleName + "." + target.f.name, target.f.id, target.f.doc)
  {
    if target.FunctionTarget? && target.f.arity == arity then
      Some(Mark(target.f.moduleName + "." + target.f.name, target.f.id, target.f.doc))
    else None
  }

  /** `preprocessor`: only a function of two parameters is marked. */
  function Preprocessor(target: Target): Option<Mark>
  {
    MarkOf(target, 2)
  }

  /** `posthandler`: only a function of three parameters is marked. */
  function Posthandler(target: Target): Option<Mark>
  {
    MarkOf(target, 3)
  }

  // ---------------------------------------------------------------------------
  // invokers

  /** An instance created for one call. */
  class Instance {
    var session: Option<nat>

    constructor ()
      ensures session.None?
    {
      session := None;
    }
  }

  /** Calling an invoker. A class-method invoker makes a fresh instance, stores the session on
      it, and calls the named method with the arguments as keywords; `callMethod` gives that
      method's result for the session it sees. A function invoker calls the function with the
      arguments and never looks at the session. */
  method Invoke<R>(invoker: Invoker, session: nat, args: Dict<string, Value>,
                   callMethod: (nat, string, Option<nat>, Dict<string, Value>) -> R,
                   callFunction: (nat, Dict<string, Value>) -> R)
    returns (result: R, instance: Option<Instance>)
    ensures invoker.ClassMethodInvoker? ==>
      instance.Some? && fresh(instance.value) && instance.value.session == Some(session)
      && result == callMethod(invoker.target, invoker.name, Some(session), args)
    ensures invoker.FunctionInvoker? ==> instance.None? && result == callFunction(invoker.target, args)
  {
    match invoker {
      case ClassMethodInvoker(name, target) =>
        var obj := new Instance();
        obj.session := Some(session);
        result := callMethod(target, name, obj.session, args);
        instance := Some(obj);
      case FunctionInvoker(target) =>
        result := callFunction(target, args);
        instance := None;
    }
  }
}
