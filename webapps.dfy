/** lib/BlackPearl/core/webapps.py: a web application's settings, the registration of its web
    modules, preprocessors, posthandlers and testsets, and the answer to one request. Imported
    modules, their members and the handlers' outcomes are parameters. */
module CoreWebapps {
  import opened Wrappers
  import opened PyStr
  import opened PyDict
  import opened PyValue
  import CoreUtils

  /** A `__webmodule__` dict: the url as declared, the invoker and handler (opaque identities),
      the doc string, and the signature the request is validated against. */
  datatype WebModule = WebModule(url: string, func: nat, handler: nat, desc: Option<string>, signature: seq<CoreUtils.Param>)

  /** A `__preprocessor__` or `__posthandler__` dict. */
  datatype Marker = Marker(name: string, func: nat, desc: Option<string>)

  /** A member of a handler module, as `inspect.getmembers` lists it: a function with the marks
      the decorators left on it, a class with its `__webmodules__`, or anything else. */
  datatype Member =
    | FunctionMember(webmodule: Option<WebModule>, preprocessor: Option<Marker>, posthandler: Option<Marker>)
    | ClassMember(webmodules: Option<seq<WebModule>>)
    | OtherMember

  /** A `__testset__` dict; `invoker` is its `func` and `invokerWebmodule` that invoker's
      `webmodule` attribute. */
  datatype Testset = Testset(name: string, desc: Option<string>, webmodule: string, invoker: nat, invokerWebmodule: string)

  /** The attributes a webapp's `config` module may define; `None` is an absent attribute. */
  datatype Config = Config(
    enabled: Option<Value>,
    name: Option<string>,
    sessionEnabled: Option<Value>,
    sessionRetention: Option<Value>,
    urlPrefix: Option<string>,
    handlers: Option<seq<string>>,
    preprocessors: Option<seq<string>>,
    posthandlers: Option<seq<string>>)

  /** The handler module every webapp loads first. */
  const CoreHandlers: string := "BlackPearl.core.handlers"

  // ---------------------------------------------------------------------------
  // _init_basics

  /** `enabled` is missing or truthy: any other value stops the initialisation. */
  predicate IsEnabled(config: Config)
  {
    config.enabled.None? || Truthy(config.enabled.value)
  }

  /** The url prefix `_init_basics` settles on, given the prefix the webapp already has (`None`
      when the attribute does not exist yet) and the configured one. Reading a missing attribute
      falls back to "/" and the folder name. */
  function UrlPrefixOf(current: Option<string>, folderName: string, configured: Option<string>): string
  {
    if current.None? then "/" + folderName
    else if |current.value| == 0 then folderName
    else if StartsWith(current.value, "/") then
      (if configured.Some? then configured.value else "/" + folderName)
    else if configured.Some? then "/" + configured.value
    else "/" + folderName
  }

  /** The id: the prefix without its first character, with every "/" turned into "_". */
  function IdOf(prefix: string): string
  {
    ReplaceChar(if |prefix| == 0 then "" else prefix[1..], '/', '_')
  }

  /** On a webapp whose prefix was never set, the prefix is "/" and the folder name, whatever the
      configuration says, and the id is the folder name with "/" turned into "_". */
  lemma FirstPrefixIgnoresConfig(folderName: string, configured: Option<string>)
    ensures UrlPrefixOf(None, folderName, configured) == "/" + folderName
    ensures IdOf(UrlPrefixOf(None, folderName, configured)) == ReplaceChar(folderName, '/', '_')
  {
    assert ("/" + folderName)[1..] == folderName;
  }

  /** An id never holds a "/". */
  lemma IdHasNoSlash(prefix: string)
    ensures '/' !in IdOf(prefix)
  {
    var id := IdOf(prefix);
    forall i | 0 <= i < |id| ensures id[i] != '/' { }
  }

  // ---------------------------------------------------------------------------
  // _check_url and _parse_module

  /** The url a web module is registered under. */
  function RegisteredUrl(prefix: string, url: string): string
  {
    if |prefix| == 0 then CoreUtils.NormalizedUrl(url) else prefix + CoreUtils.NormalizedUrl(url)
  }

  /** `_check_url` and the store that follows it: a url already registered keeps its module. */
  function Register(wms: map<string, WebModule>, prefix: string, wm: WebModule): map<string, WebModule>
  {
    var u := RegisteredUrl(prefix, wm.url);
    if u in wms then wms else wms[u := wm]
  }

  /** A class's `__webmodules__` registered in order. */
  function RegisterEach(wms: map<string, WebModule>, prefix: string, ws: seq<WebModule>): map<string, WebModule>
    decreases |ws|
  {
    if ws == [] then wms else Register(RegisterEach(wms, prefix, ws[..|ws| - 1]), prefix, ws[|ws| - 1])
  }

  /** What `_parse_module` fills in. */
  datatype Registry = Registry(webmodules: map<string, WebModule>, preprocessors: seq<Marker>, posthandlers: seq<Marker>)

  /** One member: a web module before a preprocessor before a posthandler; a preprocessor or a
      posthandler is kept only when the configuration lists its name. */
  function ParseMember(reg: Registry, prefix: string, definedPre: seq<string>, definedPost: seq<string>, m: Member): Registry
  {
    match m
    case FunctionMember(wm, pre, post) =>
      if wm.Some? then reg.(webmodules := Register(reg.webmodules, prefix, wm.value))
      else if pre.Some? then
        (if pre.value.name in definedPre then reg.(preprocessors := reg.preprocessors + [pre.value]) else reg)
      else if post.Some? then
        (if post.value.name in definedPost then reg.(posthandlers := reg.posthandlers + [post.value]) else reg)
      else reg
    case ClassMember(ws) =>
      if ws.Some? then reg.(webmodules := RegisterEach(reg.webmodules, prefix, ws.value)) else reg
    case OtherMember => reg
  }

  /** `_parse_module` over the members in order. */
  function ParseMembers(reg: Registry, prefix: string, definedPre: seq<string>, definedPost: seq<string>, ms: seq<Member>): Registry
    decreases |ms|
  {
    if ms == [] then reg
    else ParseMember(ParseMembers(reg, prefix, definedPre, definedPost, ms[..|ms| - 1]), prefix, definedPre, definedPost, ms[|ms| - 1])
  }

  lemma ParseMembersStep(reg: Registry, prefix: string, definedPre: seq<string>, definedPost: seq<string>, ms: seq<Member>, i: nat)
    requires i < |ms|
    ensures ParseMembers(reg, prefix, definedPre, definedPost, ms[..i + 1])
         == ParseMember(ParseMembers(reg, prefix, definedPre, definedPost, ms[..i]), prefix, definedPre, definedPost, ms[i])
  {
    assert ms[..i + 1][..i] == ms[..i];
  }

  lemma RegisterEachStep(wms: map<string, WebModule>, prefix: string, ws: seq<WebModule>, j: nat)
    requires j < |ws|
    ensures RegisterEach(wms, prefix, ws[..j + 1]) == Register(RegisterEach(wms, prefix, ws[..j]), prefix, ws[j])
  {
    assert ws[..j + 1][..j] == ws[..j];
  }

  /** Once a url is registered its module never changes: the first registration wins. */
  lemma {:induction false} RegisterEachKeeps(wms: map<string, WebModule>, prefix: string, ws: seq<WebModule>)
    ensures forall u :: u in wms ==> u in RegisterEach(wms, prefix, ws) && RegisterEach(wms, prefix, ws)[u] == wms[u]
    decreases |ws|
  {
    if ws != [] {
      RegisterEachKeeps(wms, prefix, ws[..|ws| - 1]);
    }
  }

  lemma {:induction false} ParseMembersKeeps(reg: Registry, prefix: string, definedPre: seq<string>, definedPost: seq<string>, ms: seq<Member>)
    ensures var r := ParseMembers(reg, prefix, definedPre, definedPost, ms);
      forall u :: u in reg.webmodules ==> u in r.webmodules && r.webmodules[u] == reg.webmodules[u]
    decreases |ms|
  {
    if ms != [] {
      var prev := ParseMembers(reg, prefix, definedPre, definedPost, ms[..|ms| - 1]);
      ParseMembersKeeps(reg, prefix, definedPre, definedPost, ms[..|ms| - 1]);
      var m := ms[|ms| - 1];
      if m.ClassMember? && m.webmodules.Some? {
        RegisterEachKeeps(prev.webmodules, prefix, m.webmodules.value);
      }
    }
  }

  /** Every url a class exposes is registered afterwards. */
  lemma {:induction false} RegisterEachCovers(wms: map<string, WebModule>, prefix: string, ws: seq<WebModule>)
    ensures forall j :: 0 <= j < |ws| ==> RegisteredUrl(prefix, ws[j].url) in RegisterEach(wms, prefix, ws)
    decreases |ws|
  {
    if ws != [] {
      var init := ws[..|ws| - 1];
      RegisterEachCovers(wms, prefix, init);
      var r := RegisterEach(wms, prefix, ws);
      assert r == Register(RegisterEach(wms, prefix, init), prefix, ws[|ws| - 1]);
      forall j | 0 <= j < |ws| - 1 ensures RegisteredUrl(prefix, ws[j].url) in r {
        assert ws[j] == init[j];
      }
    }
  }

  /** Every url a class adds is the registered url of one of its web modules, which is stored
      there. */
  lemma {:induction false} RegisterEachNew(wms: map<string, WebModule>, prefix: string, ws: seq<WebModule>)
    ensures forall u :: u in RegisterEach(wms, prefix, ws) && u !in wms ==>
      exists j :: 0 <= j < |ws| && u == RegisteredUrl(prefix, ws[j].url) && RegisterEach(wms, prefix, ws)[u] == ws[j]
    decreases |ws|
  {
    if ws != [] {
      var init := ws[..|ws| - 1];
      RegisterEachNew(wms, prefix, init);
      var prev := RegisterEach(wms, prefix, init);
      var r := RegisterEach(wms, prefix, ws);
      assert r == Register(prev, prefix, ws[|ws| - 1]);
      forall u | u in r && u !in wms
        ensures exists j :: 0 <= j < |ws| && u == RegisteredUrl(prefix, ws[j].url) && r[u] == ws[j]
      {
        if u in prev {
          var j :| 0 <= j < |init| && u == RegisteredUrl(prefix, init[j].url) && prev[u] == init[j];
          assert ws[j] == init[j];
        } else {
          assert u == RegisteredUrl(prefix, ws[|ws| - 1].url);
        }
      }
    }
  }

  /** A function's web module is registered under `prefix + fixurl(url)` (or `fixurl(url)` for an
      empty prefix), and the module stored there is the first one that claimed that url. */
  lemma WebModuleRegistered(reg: Registry, prefix: string, definedPre: seq<string>, definedPost: seq<string>, wm: WebModule, pre: Option<Marker>, post: Option<Marker>)
    ensures var r := ParseMember(reg, prefix, definedPre, definedPost, FunctionMember(Some(wm), pre, post));
      var u := RegisteredUrl(prefix, wm.url);
      u in r.webmodules && r.webmodules[u] == (if u in reg.webmodules then reg.webmodules[u] else wm)
      && r.preprocessors == reg.preprocessors && r.posthandlers == reg.posthandlers
  {
  }

  /** A preprocessor is appended exactly when its name is listed, and nothing else changes. */
  lemma PreprocessorGate(reg: Registry, prefix: string, definedPre: seq<string>, definedPost: seq<string>, p: Marker, post: Option<Marker>)
    ensures var r := ParseMember(reg, prefix, definedPre, definedPost, FunctionMember(None, Some(p), post));
      r.preprocessors == (if p.name in definedPre then reg.preprocessors + [p] else reg.preprocessors)
      && r.webmodules == reg.webmodules && r.posthandlers == reg.posthandlers
  {
  }

  /** A posthandler is appended exactly when its name is listed, and nothing else changes. */
  lemma PosthandlerGate(reg: Registry, prefix: string, definedPre: seq<string>, definedPost: seq<string>, p: Marker)
    ensures var r := ParseMember(reg, prefix, definedPre, definedPost, FunctionMember(None, None, Some(p)));
      r.posthandlers == (if p.name in definedPost then reg.posthandlers + [p] else reg.posthandlers)
      && r.webmodules == reg.webmodules && r.preprocessors == reg.preprocessors
  {
  }

  /** Parsing only appends preprocessors and posthandlers, and every one appended is listed. */
  lemma {:induction false} ParseMembersListed(reg: Registry, prefix: string, definedPre: seq<string>, definedPost: seq<string>, ms: seq<Member>)
    ensures var r := ParseMembers(reg, prefix, definedPre, definedPost, ms);
      |reg.preprocessors| <= |r.preprocessors| && r.preprocessors[..|reg.preprocessors|] == reg.preprocessors
      && (forall i :: |reg.preprocessors| <= i < |r.preprocessors| ==> r.preprocessors[i].name in definedPre)
      && |reg.posthandlers| <= |r.posthandlers| && r.posthandlers[..|reg.posthandlers|] == reg.posthandlers
      && (forall i :: |reg.posthandlers| <= i < |r.posthandlers| ==> r.posthandlers[i].name in definedPost)
    decreases |ms|
  {
    if ms != [] {
      ParseMembersListed(reg, prefix, definedPre, definedPost, ms[..|ms| - 1]);
      var prev := ParseMembers(reg, prefix, definedPre, definedPost, ms[..|ms| - 1]);
      var r := ParseMembers(reg, prefix, definedPre, definedPost, ms);
      assert r == ParseMember(prev, prefix, definedPre, definedPost, ms[|ms| - 1]);
      assert r.preprocessors == prev.preprocessors || r.preprocessors == prev.preprocessors + [r.preprocessors[|r.preprocessors| - 1]];
      assert r.posthandlers == prev.posthandlers || r.posthandlers == prev.posthandlers + [r.posthandlers[|r.posthandlers| - 1]];
    }
  }

  /** A url one member adds is the registered url of one of its web modules. */
  lemma ParseMemberNew(prev: Registry, prefix: string, definedPre: seq<string>, definedPost: seq<string>, m: Member)
    ensures var r := ParseMember(prev, prefix, definedPre, definedPost, m);
      forall u :: u in r.webmodules && u !in prev.webmodules ==> exists v :: u == RegisteredUrl(prefix, v)
  {
    if m.ClassMember? && m.webmodules.Some? {
      RegisterEachNew(prev.webmodules, prefix, m.webmodules.value);
    }
  }

  /** With a non-empty prefix every url registered is the prefix followed by a normalised url. */
  lemma {:induction false} PrefixedUrls(reg: Registry, prefix: string, definedPre: seq<string>, definedPost: seq<string>, ms: seq<Member>)
    requires prefix != []
    ensures var r := ParseMembers(reg, prefix, definedPre, definedPost, ms);
      forall u :: u in r.webmodules && u !in reg.webmodules ==>
        exists v :: u == prefix + CoreUtils.NormalizedUrl(v)
    decreases |ms|
  {
    if ms != [] {
      PrefixedUrls(reg, prefix, definedPre, definedPost, ms[..|ms| - 1]);
      var prev := ParseMembers(reg, prefix, definedPre, definedPost, ms[..|ms| - 1]);
      ParseMemberNew(prev, prefix, definedPre, definedPost, ms[|ms| - 1]);
      var r := ParseMembers(reg, prefix, definedPre, definedPost, ms);
      assert r == ParseMember(prev, prefix, definedPre, definedPost, ms[|ms| - 1]);
      forall u | u in r.webmodules && u !in reg.webmodules
        ensures exists v :: u == prefix + CoreUtils.NormalizedUrl(v)
      {
        if u !in prev.webmodules {
          var v :| u == RegisteredUrl(prefix, v);
          assert u == prefix + CoreUtils.NormalizedUrl(v);
        }
      }
    }
  }

  // ---------------------------------------------------------------------------
  // _init_handlers

  /** The registry after each handler module is imported and parsed, and how many imports
      succeeded (`None` from `modules` is a failed import). */
  function ParseHandlers(reg: Registry, prefix: string, definedPre: seq<string>, definedPost: seq<string>, hs: seq<string>, modules: string -> Option<seq<Member>>): (Registry, nat)
    decreases |hs|
  {
    if hs == [] then (reg, 0)
    else
      var prev := ParseHandlers(reg, prefix, definedPre, definedPost, hs[..|hs| - 1], modules);
      match modules(hs[|hs| - 1])
      case None => prev
      case Some(ms) => (ParseMembers(prev.0, prefix, definedPre, definedPost, ms), prev.1 + 1)
  }

  lemma ParseHandlersStep(reg: Registry, prefix: string, definedPre: seq<string>, definedPost: seq<string>, hs: seq<string>, modules: string -> Option<seq<Member>>, i: nat)
    requires i < |hs|
    ensures var prev := ParseHandlers(reg, prefix, definedPre, definedPost, hs[..i], modules);
      ParseHandlers(reg, prefix, definedPre, definedPost, hs[..i + 1], modules)
      == match modules(hs[i]) case None => prev case Some(ms) => (ParseMembers(prev.0, prefix, definedPre, definedPost, ms), prev.1 + 1)
  {
    assert hs[..i + 1][..i] == hs[..i];
  }

  /** The count is zero exactly when no handler module could be imported. */
  lemma {:induction false} NoHandlerImported(reg: Registry, prefix: string, definedPre: seq<string>, definedPost: seq<string>, hs: seq<string>, modules: string -> Option<seq<Member>>)
    ensures ParseHandlers(reg, prefix, definedPre, definedPost, hs, modules).1 == 0
        <==> forall i :: 0 <= i < |hs| ==> modules(hs[i]).None?
    decreases |hs|
  {
    if hs != [] {
      var init := hs[..|hs| - 1];
      NoHandlerImported(reg, prefix, definedPre, definedPost, init, modules);
      if modules(hs[|hs| - 1]).None? {
        forall i | 0 <= i < |init| ensures hs[i] == init[i] { }
      }
    }
  }

  // ---------------------------------------------------------------------------
  // _init_testcases

  /** The testset as stored: its `webmodule` and its invoker's `webmodule` become the key. */
  function StoredTestset(prefix: string, t: Testset): Testset
  {
    t.(webmodule := prefix + t.webmodule, invokerWebmodule := prefix + t.webmodule)
  }

  /** The testsets after the members of the test module (`Some` for ones carrying
      `__testset__`) are filed in order under `url_prefix + webmodule`. */
  function GroupTestsets(ts: map<string, seq<Testset>>, prefix: string, members: seq<Option<Testset>>): map<string, seq<Testset>>
    decreases |members|
  {
    if members == [] then ts
    else
      var prev := GroupTestsets(ts, prefix, members[..|members| - 1]);
      match members[|members| - 1]
      case None => prev
      case Some(t) =>
        var key := prefix + t.webmodule;
        prev[key := (if key in prev then prev[key] else []) + [StoredTestset(prefix, t)]]
  }

  lemma GroupTestsetsStep(ts: map<string, seq<Testset>>, prefix: string, members: seq<Option<Testset>>, i: nat)
    requires i < |members|
    ensures var prev := GroupTestsets(ts, prefix, members[..i]);
      GroupTestsets(ts, prefix, members[..i + 1])
      == match members[i]
         case None => prev
         case Some(t) =>
           var key := prefix + t.webmodule;
           prev[key := (if key in prev then prev[key] else []) + [StoredTestset(prefix, t)]]
  {
    assert members[..i + 1][..i] == members[..i];
  }

  /** The testsets of `members` filed under `key`, in order: an independent reading of the
      grouping as a filter. */
  function FiledUnder(prefix: string, members: seq<Option<Testset>>, key: string): seq<Testset>
    decreases |members|
  {
    if members == [] then []
    else
      var m := members[|members| - 1];
      FiledUnder(prefix, members[..|members| - 1], key)
      + (if m.Some? && prefix + m.value.webmodule == key then [StoredTestset(prefix, m.value)] else [])
  }

  /** Each key holds what it held before followed by its testsets in the order they were seen. */
  lemma {:induction false} GroupTestsetsFiles(ts: map<string, seq<Testset>>, prefix: string, members: seq<Option<Testset>>, key: string)
    ensures var r := GroupTestsets(ts, prefix, members);
      (key in r <==> key in ts || FiledUnder(prefix, members, key) != [])
      && (key in r ==> r[key] == (if key in ts then ts[key] else []) + FiledUnder(prefix, members, key))
    decreases |members|
  {
    if members != [] {
      GroupTestsetsFiles(ts, prefix, members[..|members| - 1], key);
    }
  }

  /** Every stored testset, and its invoker, names the key it is filed under. */
  lemma {:induction false} FiledUnderRewritten(prefix: string, members: seq<Option<Testset>>, key: string)
    ensures forall i :: 0 <= i < |FiledUnder(prefix, members, key)| ==>
      FiledUnder(prefix, members, key)[i].webmodule == key && FiledUnder(prefix, members, key)[i].invokerWebmodule == key
    decreases |members|
  {
    if members != [] {
      FiledUnderRewritten(prefix, members[..|members| - 1], key);
    }
  }

  // ---------------------------------------------------------------------------
  // handle_request

  /** What a handler does when it is called. */
  datatype Outcome = Returned(data: Value) | RaisedRequestInvalid(message: string) | Raised(trace: string)

  /** The reply dict: `data` with status 0, or `desc` with a negative status. */
  datatype Reply =
    | Served(data: Value)
    | BadParameter(error: CoreUtils.ValidateError)
    | Rejected(message: string)
    | Crashed(trace: string)

  function Status(r: Reply): int
  {
    match r
    case Served(_) => 0
    case BadParameter(_) => -201
    case Rejected(_) => -202
    case Crashed(_) => -203
  }

  /** The `ValueError` raised for an unregistered url. */
  datatype InvalidUrl = InvalidUrl(url: string)

  /** `handle_request`: look the url up, validate the parameters against the module's
      signature, then call its invoker (`invoke` gives the outcome of calling an invoker with a
      session and the validated arguments). */
  function HandleRequest(webmodules: map<string, WebModule>, session: nat, url: string, parameter: Option<Dict<string, CoreUtils.FieldValue>>,
                         matches: (string, string) -> bool, invoke: (nat, nat, Dict<string, CoreUtils.Arg>) -> Outcome): (r: Result<Reply, InvalidUrl>)
    ensures r.Err? <==> url !in webmodules
    ensures r.Err? ==> r.error.url == url
  {
    if url !in webmodules then Err(InvalidUrl(url))
    else
      var wm := webmodules[url];
      match CoreUtils.Validated(wm.signature, parameter, matches)
      case Err(e) => Ok(BadParameter(e))
      case Ok(args) =>
        match invoke(wm.func, session, args)
        case Returned(data) => Ok(Served(data))
        case RaisedRequestInvalid(m) => Ok(Rejected(m))
        case Raised(t) => Ok(Crashed(t))
  }

  /** For a registered url: -201 exactly when validation fails, and otherwise 0, -202 or -203 as
      the handler returns, raises `RequestInvalid` or raises anything else; the data and the
      validation error are passed through. */
  lemma HandleRequestCodes(webmodules: map<string, WebModule>, session: nat, url: string, parameter: Option<Dict<string, CoreUtils.FieldValue>>,
                           matches: (string, string) -> bool, invoke: (nat, nat, Dict<string, CoreUtils.Arg>) -> Outcome)
    requires url in webmodules
    ensures var r := HandleRequest(webmodules, session, url, parameter, matches, invoke).value;
      var v := CoreUtils.Validated(webmodules[url].signature, parameter, matches);
      (Status(r) == -201 <==> v.Err?)
      && (v.Err? ==> r == BadParameter(v.error))
      && (v.Ok? ==> var o := invoke(webmodules[url].func, session, v.value);
            (Status(r) == 0 <==> o.Returned?) && (Status(r) == -202 <==> o.RaisedRequestInvalid?)
            && (Status(r) == -203 <==> o.Raised?) && (o.Returned? ==> r.data == o.data))
  {
  }

  // ---------------------------------------------------------------------------
  // Webapp

  /** How `initialize` ends: `False` for a missing config module or failed handlers, the
      `NotEnabledError` that escapes it, or `True`. */
  datatype InitOutcome = ConfigMissing | NotEnabled | HandlersFailed | Initialized

  class Webapp {
    var id: string
    var location: string
    var folderName: string
    var name: Option<string>
    var enabled: bool                 // meaningful once `_init_basics` has run
    var desc: Option<string>
    var sessionEnabled: Option<Value>
    var sessionRetention: Option<Value>
    var urlPrefix: Option<string>     // `None` until `_init_basics` sets the attribute
    var handlers: seq<string>
    var webmodules: map<string, WebModule>
    var testsets: map<string, seq<Testset>>
    var preprocessors: seq<Marker>
    var posthandlers: seq<Marker>
    var definedPreprocessors: seq<string>
    var definedPosthandlers: seq<string>

    constructor (appLocation: string, folderName: string)
      ensures id == "" && location == appLocation + "/" + folderName && this.folderName == folderName
      ensures name.None? && urlPrefix.None? && handlers == [] && webmodules == map[] && testsets == map[]
      ensures preprocessors == [] && posthandlers == [] && definedPreprocessors == [] && definedPosthandlers == []
    {
      id := "";
      location := appLocation + "/" + folderName;
      this.folderName := folderName;
      name := None;
      enabled := false;
      desc := None;
      sessionEnabled := None;
      sessionRetention := None;
      urlPrefix := None;
      handlers := [];
      webmodules := map[];
      testsets := map[];
      preprocessors := [];
      posthandlers := [];
      definedPreprocessors := [];
      definedPosthandlers := [];
    }

    function Registered(): Registry
      reads this
    {
      Registry(webmodules, preprocessors, posthandlers)
    }

    /** `_init_basics`: `doc` is the `__doc__` of the webapp's package. A disabled webapp raises
        before any attribute is set. */
    method InitBasics(config: Config, doc: Option<string>) returns (ok: bool)
      modifies this`enabled, this`name, this`desc, this`sessionEnabled, this`sessionRetention
      modifies this`urlPrefix, this`id, this`definedPosthandlers, this`definedPreprocessors
      ensures ok <==> IsEnabled(config)
      ensures !ok ==> unchanged(this)
      ensures ok ==> enabled && name == Some(if config.name.Some? then config.name.value else folderName) && desc == doc
      ensures ok ==> sessionEnabled == config.sessionEnabled
      ensures ok ==> sessionRetention == (if config.sessionEnabled.Some? && Truthy(config.sessionEnabled.value)
                                          then config.sessionRetention else old(sessionRetention))
      ensures ok ==> urlPrefix == Some(UrlPrefixOf(old(urlPrefix), folderName, config.urlPrefix)) && id == IdOf(urlPrefix.value)
      ensures ok ==> definedPosthandlers == (if config.posthandlers.Some? then config.posthandlers.value else old(definedPosthandlers))
      ensures ok ==> definedPreprocessors == (if config.preprocessors.Some? then config.preprocessors.value else old(definedPreprocessors))
    {
      if !IsEnabled(config) {
        return false;
      }
      InitSettings(config, doc);
      InitUrlPrefix(config);
      InitDefined(config);
      ok := true;
    }

    /** The part of `_init_basics` after the enabled check that sets the name, the description
        and the session settings. */
    method InitSettings(config: Config, doc: Option<string>)
      modifies this`enabled, this`name, this`desc, this`sessionEnabled, this`sessionRetention
      ensures enabled && name == Some(if config.name.Some? then config.name.value else folderName) && desc == doc
      ensures sessionEnabled == config.sessionEnabled
      ensures sessionRetention == (if config.sessionEnabled.Some? && Truthy(config.sessionEnabled.value)
                                   then config.sessionRetention else old(sessionRetention))
    {
      enabled := true;
      name := Some(if config.name.Some? then config.name.value else folderName);
      desc := doc;
      if config.sessionEnabled.Some? {
        sessionEnabled := config.sessionEnabled;
        if Truthy(config.sessionEnabled.value) {
          sessionRetention := config.sessionRetention;
        }
      } else {
        // the fallback assigns False, then None
        sessionEnabled := Some(VBool(false));
        sessionEnabled := None;
      }
    }

    /** The url prefix and the id. */
    method InitUrlPrefix(config: Config)
      modifies this`urlPrefix, this`id
      ensures urlPrefix == Some(UrlPrefixOf(old(urlPrefix), folderName, config.urlPrefix)) && id == IdOf(urlPrefix.value)
    {
      var prefix := UrlPrefixOf(urlPrefix, folderName, config.urlPrefix);
      urlPrefix := Some(prefix);
      id := IdOf(prefix);
    }

    /** The configured preprocessor and posthandler names, when the configuration has them. */
    method InitDefined(config: Config)
      modifies this`definedPosthandlers, this`definedPreprocessors
      ensures definedPosthandlers == (if config.posthandlers.Some? then config.posthandlers.value else old(definedPosthandlers))
      ensures definedPreprocessors == (if config.preprocessors.Some? then config.preprocessors.value else old(definedPreprocessors))
    {
      if config.posthandlers.Some? {
        definedPosthandlers := config.posthandlers.value;
      }
      if config.preprocessors.Some? {
        definedPreprocessors := config.preprocessors.value;
      }
    }

    /** `_check_url`. */
    method CheckUrl(url: string) returns (isNew: bool)
      ensures isNew <==> url !in webmodules
    {
      isNew := url !in webmodules;
    }

    /** Registers one web module under its url unless the url is taken. */
    method AddWebModule(wm: WebModule)
      requires urlPrefix.Some?
      modifies this`webmodules
      ensures webmodules == Register(old(webmodules), urlPrefix.value, wm)
    {
      var fixed := CoreUtils.FixUrl(wm.url);
      var url := if |urlPrefix.value| == 0 then fixed else urlPrefix.value + fixed;
      var isNew := CheckUrl(url);
      if isNew {
        webmodules := webmodules[url := wm];
      }
    }

    /** `_parse_module` over the members `inspect.getmembers` lists. */
    method ParseModule(members: seq<Member>)
      requires urlPrefix.Some?
      modifies this`webmodules, this`preprocessors, this`posthandlers
      ensures Registered() == ParseMembers(old(Registered()), urlPrefix.value, definedPreprocessors, definedPosthandlers, members)
    {
      var prefix := urlPrefix.value;
      var i := 0;
      while i < |members|
        invariant 0 <= i <= |members|
        invariant Registered() == ParseMembers(old(Registered()), prefix, definedPreprocessors, definedPosthandlers, members[..i])
      {
        ParseMembersStep(old(Registered()), prefix, definedPreprocessors, definedPosthandlers, members, i);
        match members[i] {
        case FunctionMember(wm, pre, post) =>
          if wm.Some? {
            AddWebModule(wm.value);
          } else if pre.Some? {
            if pre.value.name in definedPreprocessors {
              preprocessors := preprocessors + [pre.value];
            }
          } else if post.Some? {
            if post.value.name in definedPosthandlers {
              posthandlers := posthandlers + [post.value];
            }
          }
        case ClassMember(ws) =>
          if ws.Some? {
            var start := webmodules;
            var j := 0;
            while j < |ws.value|
              invariant 0 <= j <= |ws.value|
              invariant webmodules == RegisterEach(start, prefix, ws.value[..j])
              modifies this`webmodules
            {
              RegisterEachStep(start, prefix, ws.value, j);
              AddWebModule(ws.value[j]);
              j := j + 1;
            }
            assert ws.value[..j] == ws.value;
          }
        case OtherMember =>
        }
        i := i + 1;
      }
      assert members[..i] == members;
    }

    /** `_init_handlers`: `modules` gives the members of an importable module, `None` for one
        that fails to import. */
    method InitHandlers(config: Config, modules: string -> Option<seq<Member>>) returns (ok: bool)
      requires urlPrefix.Some?
      modifies this`handlers, this`webmodules, this`preprocessors, this`posthandlers
      ensures ok ==> |handlers| >= 1 && handlers[0] == CoreHandlers
      ensures config.handlers.None? ==> !ok && handlers == old(handlers) && Registered() == old(Registered())
      ensures config.handlers == Some([]) ==> !ok && handlers == [] && Registered() == old(Registered())
      ensures config.handlers.Some? && config.handlers.value != [] ==>
        && handlers == [CoreHandlers] + config.handlers.value
        && var p := ParseHandlers(old(Registered()), urlPrefix.value, definedPreprocessors, definedPosthandlers, handlers, modules);
           Registered() == p.0 && (ok <==> p.1 > 0)
    {
      if config.handlers.None? {
        return false;
      }
      handlers := config.handlers.value;
      if |handlers| == 0 {
        return false;
      }
      handlers := [CoreHandlers] + handlers;
      var count := 0;
      var i := 0;
      while i < |handlers|
        invariant 0 <= i <= |handlers|
        invariant handlers == [CoreHandlers] + config.handlers.value
        invariant (Registered(), count) == ParseHandlers(old(Registered()), urlPrefix.value, definedPreprocessors, definedPosthandlers, handlers[..i], modules)
      {
        ParseHandlersStep(old(Registered()), urlPrefix.value, definedPreprocessors, definedPosthandlers, handlers, modules, i);
        var imported := modules(handlers[i]);
        if imported.Some? {
          ParseModule(imported.value);
          count := count + 1;
        }
        i := i + 1;
      }
      assert handlers[..i] == handlers;
      ok := count > 0;
    }

    /** `_init_testcases` over the members of the test module. */
    method InitTestcases(members: seq<Option<Testset>>)
      requires urlPrefix.Some?
      modifies this`testsets
      ensures testsets == GroupTestsets(old(testsets), urlPrefix.value, members)
    {
      var i := 0;
      while i < |members|
        invariant 0 <= i <= |members|
        invariant testsets == GroupTestsets(old(testsets), urlPrefix.value, members[..i])
      {
        GroupTestsetsStep(old(testsets), urlPrefix.value, members, i);
        if members[i].Some? {
          var t := members[i].value;
          var webmodule := if |urlPrefix.value| == 0 then t.webmodule else urlPrefix.value + t.webmodule;
          assert webmodule == urlPrefix.value + t.webmodule;
          var stored := t.(webmodule := webmodule, invokerWebmodule := webmodule);
          assert stored == StoredTestset(urlPrefix.value, t);
          if webmodule in testsets {
            testsets := testsets[webmodule := testsets[webmodule] + [stored]];
          } else {
            assert [] + [stored] == [stored];
            testsets := testsets[webmodule := [stored]];
          }
        }
        i := i + 1;
      }
      assert members[..i] == members;
    }

    /** `initialize`: `configModule` and `testModule` are the imports of `<folder>.config` and
        `<folder>.test` (`None` when they fail), `doc` the package's doc string. */
    method Initialize(configModule: Option<Config>, doc: Option<string>, modules: string -> Option<seq<Member>>, testModule: Option<seq<Option<Testset>>>)
      returns (r: InitOutcome)
      modifies this
      ensures r == ConfigMissing <==> configModule.None?
      ensures r == NotEnabled <==> configModule.Some? && !IsEnabled(configModule.value)
      ensures r == Initialized ==> |handlers| >= 1 && handlers[0] == CoreHandlers
      ensures r == HandlersFailed ==> configModule.Some? && IsEnabled(configModule.value)
      ensures r == ConfigMissing || r == NotEnabled ==> unchanged(this)
      ensures configModule.Some? && IsEnabled(configModule.value) ==>
        var config := configModule.value;
        && urlPrefix == Some(UrlPrefixOf(old(urlPrefix), folderName, config.urlPrefix))
        && definedPreprocessors == (if config.preprocessors.Some? then config.preprocessors.value else old(definedPreprocessors))
        && definedPosthandlers == (if config.posthandlers.Some? then config.posthandlers.value else old(definedPosthandlers))
        && (config.handlers.None? || config.handlers == Some([]) ==>
              r == HandlersFailed && Registered() == old(Registered()) && testsets == old(testsets)
              && handlers == if config.handlers.None? then old(handlers) else [])
        && (config.handlers.Some? && config.handlers.value != [] ==>
              && handlers == [CoreHandlers] + config.handlers.value
              && var p := ParseHandlers(old(Registered()), urlPrefix.value, definedPreprocessors, definedPosthandlers, handlers, modules);
                 && Registered() == p.0
                 && (r == Initialized <==> p.1 > 0)
                 && (r == HandlersFailed <==> p.1 == 0)
                 && testsets == if r == Initialized && testModule.Some?
                                then GroupTestsets(old(testsets), urlPrefix.value, testModule.value)
                                else old(testsets))
    {
      if configModule.None? {
        return ConfigMissing;
      }
      var config := configModule.value;
      ghost var reg0, ts0, hs0 := Registered(), testsets, handlers;
      var enabledOk := InitBasics(config, doc);
      if !enabledOk {
        return NotEnabled;
      }
      assert Registered() == reg0 && testsets == ts0 && handlers == hs0;
      r := InitAfterBasics(config, modules, testModule);
    }

    /** The part of `initialize` after `_init_basics`: the handlers, then the testcases when
        `<folder>.test` imports and the handlers succeeded. */
    method InitAfterBasics(config: Config, modules: string -> Option<seq<Member>>, testModule: Option<seq<Option<Testset>>>)
      returns (r: InitOutcome)
      requires urlPrefix.Some?
      modifies this`handlers, this`webmodules, this`preprocessors, this`posthandlers, this`testsets
      ensures r == Initialized || r == HandlersFailed
      ensures r == Initialized ==> |handlers| >= 1 && handlers[0] == CoreHandlers
      ensures config.handlers.None? || config.handlers == Some([]) ==>
        r == HandlersFailed && Registered() == old(Registered()) && testsets == old(testsets)
        && handlers == if config.handlers.None? then old(handlers) else []
      ensures config.handlers.Some? && config.handlers.value != [] ==>
        && handlers == [CoreHandlers] + config.handlers.value
        && var p := ParseHandlers(old(Registered()), urlPrefix.value, definedPreprocessors, definedPosthandlers, handlers, modules);
           && Registered() == p.0
           && (r == Initialized <==> p.1 > 0)
           && testsets == if r == Initialized && testModule.Some?
                          then GroupTestsets(old(testsets), urlPrefix.value, testModule.value)
                          else old(testsets)
    {
      var handled := InitHandlers(config, modules);
      if !handled {
        return HandlersFailed;
      }
      ghost var reg1 := Registered();
      var hs := handlers;
      if testModule.Some? {
        InitTestcases(testModule.value);
      }
      assert handlers == hs && Registered() == reg1;
      r := Initialized;
    }
  }
}
