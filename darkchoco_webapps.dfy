/** darkchoco/core/webapps.py: a webapp of the earlier framework, which reads its settings from
    its `config` module and imports its preprocessors, posthandlers and handler modules, and the
    two lookups into the url tables of lib/darkchoco/core/urls.py that answer a request. The
    imports are a parameter naming the module each import gives, or `None` when it raises. */
module DarkchocoWebapps {
  import opened Wrappers
  import opened PyDict
  import opened PyValue
  import DarkchocoUtils
  import opened DarkchocoUrls

  /** The attributes of a webapp's `config` module; `None` is an attribute it does not define. */
  datatype Config = Config(
    name: Option<Value>,
    desc: Option<Value>,
    sessionEnabled: Option<Value>,
    sessionRetension: Option<Value>,
    urlPrefix: Option<Value>,
    preprocessors: Option<Value>,
    posthandlers: Option<Value>,
    handlers: Option<Value>)

  datatype InitError =
    | ConfigMissing      // the `ImportError` handler of `initilize` names `seld`: a `NameError`
    | PreprocessorFailed // "Error in initializing preprocessor"
    | PosthandlerFailed  // "Error in initializing posthandler"
    | HandlersUndefined  // "Error initializing handlers" for a missing or empty list
    | HandlersUnsized    // `len` of the configured value raises `TypeError`
    | NoHandlerImported  // "Error initializing handlers" when not one import succeeds

  /** `__import__(v)`: the module `imports` gives for a name; anything but a string fails. */
  function Import(imports: string -> Option<nat>, v: Value): Option<nat>
  {
    if v.VStr? then imports(v.s) else None
  }

  /** `len(v)`, defined for the values that can be iterated here. */
  function Len(v: Value): Option<nat>
  {
    match Iterated(v)
    case None => None
    case Some(items) => Some(|items|)
  }

  /** How many of `items` import before the first that fails. */
  function Imported(items: seq<Value>, imports: string -> Option<nat>): (k: nat)
    ensures k <= |items|
    ensures forall j :: 0 <= j < k ==> Import(imports, items[j]).Some?
    ensures k < |items| ==> Import(imports, items[k]).None?
    decreases |items|
  {
    if items == [] || Import(imports, items[0]).None? then 0
    else
      var k := Imported(items[1..], imports);
      assert forall j :: 1 <= j < k + 1 ==> items[j] == items[1..][j - 1];
      1 + k
  }

  /** The modules of the first `k` items, which all import. */
  function ModulesOf(items: seq<Value>, imports: string -> Option<nat>, k: nat): (r: seq<nat>)
    requires k <= |items| && forall j :: 0 <= j < k ==> Import(imports, items[j]).Some?
    ensures |r| == k && forall j :: 0 <= j < k ==> Some(r[j]) == Import(imports, items[j])
  {
    seq(k, j requires 0 <= j < k => Import(imports, items[j]).value)
  }

  /** The import loop: appends each module in turn and stops at the first import that fails. */
  method ImportEach(items: seq<Value>, imports: string -> Option<nat>) returns (mods: seq<nat>, failed: bool)
    ensures failed <==> Imported(items, imports) < |items|
    ensures mods == ModulesOf(items, imports, Imported(items, imports))
  {
    mods := [];
    var i := 0;
    while i < |items|
      invariant 0 <= i <= |items| && i <= Imported(items, imports)
      invariant mods == ModulesOf(items, imports, i)
    {
      var m := Import(imports, items[i]);
      if m.None? {
        return mods, true;
      }
      mods := mods + [m.value];
      i := i + 1;
    }
    return mods, false;
  }

  // ---------------------------------------------------------------------------
  // Settings

  /** The prefix `__init_basics__` settles on, given the `url_prefix` attribute the webapp already
      has (`None` when it has none) and the configured one. A configured "ROOT" gives the empty
      prefix; any other configured value first reads the webapp's own attribute, and a missing
      attribute, like a missing configuration, falls back to the folder name. */
  function UrlPrefixOf(current: Option<Value>, foldername: string, configured: Option<Value>): Value
  {
    if configured.None? then VStr(foldername)
    else if configured.value == VStr("ROOT") then VStr("")
    else if current.None? || current.value == VStr("") then VStr(foldername)
    else configured.value
  }

  /** The modules a `preprocessors` or `posthandlers` value loads, and whether loading succeeds:
      nothing for a missing value, the modules before the first failing import otherwise. */
  function LoadedModules(value: Option<Value>, imports: string -> Option<nat>): seq<nat>
  {
    match value
    case None => []
    case Some(v) =>
      match Iterated(v)
      case None => []
      case Some(items) => ModulesOf(items, imports, Imported(items, imports))
  }

  predicate LoadOk(value: Option<Value>, imports: string -> Option<nat>)
  {
    match value
    case None => true
    case Some(v) => Iterated(v).Some? && Imported(Iterated(v).value, imports) == |Iterated(v).value|
  }

  /** The outcome of `__init_handlers__`. */
  function HandlersOutcome(value: Option<Value>, imports: string -> Option<nat>): Result<(), InitError>
  {
    match value
    case None => Err(HandlersUndefined)
    case Some(v) =>
      match Len(v)
      case None => Err(HandlersUnsized)
      case Some(n) =>
        if n == 0 then Err(HandlersUndefined)
        else if Imported(Iterated(v).value, imports) == 0 then Err(NoHandlerImported)
        else Ok(())
  }

  /** A webapp: its folder and what its initialisation has set. An attribute the source has not
      assigned yet is `None`. */
  class Webapp {
    var location: string
    var foldername: string
    var name: Value
    var desc: Option<Value>
    var sessionEnabled: Option<Value>
    var sessionRetension: Option<Value>
    var urlPrefix: Option<Value>
    var preprocessors: Option<seq<nat>>
    var posthandlers: Option<seq<nat>>
    var handlers: Value

    /** `Webapp(app_location, foldername)`. */
    constructor(appLocation: string, foldername: string)
      ensures location == appLocation + "/" + foldername && this.foldername == foldername
      ensures name == VNone && handlers == VList([])
      ensures desc == None && sessionEnabled == None && sessionRetension == None && urlPrefix == None
      ensures preprocessors == None && posthandlers == None
    {
      location := appLocation + "/" + foldername;
      this.foldername := foldername;
      name := VNone;
      handlers := VList([]);
      desc := None;
      sessionEnabled := None;
      sessionRetension := None;
      urlPrefix := None;
      preprocessors := None;
      posthandlers := None;
    }

    /** `__init_basics__`: the name defaults to the folder name and the description to `None`;
        without `session_enabled` the flag is `None`, and with a true one the retention is read,
        `None` when missing; then the url prefix. */
    method InitBasics(config: Config)
      modifies this
      ensures name == if config.name.Some? then config.name.value else VStr(foldername)
      ensures desc == Some(if config.desc.Some? then config.desc.value else VNone)
      ensures sessionEnabled == Some(if config.sessionEnabled.Some? then config.sessionEnabled.value else VNone)
      ensures sessionRetension ==
        if config.sessionEnabled.Some? && Truthy(config.sessionEnabled.value)
        then Some(if config.sessionRetension.Some? then config.sessionRetension.value else VNone)
        else old(sessionRetension)
      ensures urlPrefix == Some(UrlPrefixOf(old(urlPrefix), foldername, config.urlPrefix))
      ensures location == old(location) && foldername == old(foldername) && handlers == old(handlers)
      ensures preprocessors == old(preprocessors) && posthandlers == old(posthandlers)
    {
      if config.name.Some? {
        name := config.name.value;
      } else {
        name := VStr(foldername);
      }
      if config.desc.Some? {
        desc := config.desc;
      } else {
        desc := Some(VNone);
      }
      InitSession(config);
      InitUrlPrefix(config);
    }

    /** The `session_enabled` part of `__init_basics__`. */
    method InitSession(config: Config)
      modifies this`sessionEnabled, this`sessionRetension
      ensures sessionEnabled == Some(if config.sessionEnabled.Some? then config.sessionEnabled.value else VNone)
      ensures sessionRetension ==
        if config.sessionEnabled.Some? && Truthy(config.sessionEnabled.value)
        then Some(if config.sessionRetension.Some? then config.sessionRetension.value else VNone)
        else old(sessionRetension)
    {
      if config.sessionEnabled.Some? {
        sessionEnabled := config.sessionEnabled;
        if Truthy(config.sessionEnabled.value) {
          sessionRetension := if config.sessionRetension.Some? then config.sessionRetension else Some(VNone);
        }
      } else {
        sessionEnabled := Some(VBool(false));
        sessionEnabled := Some(VNone);
      }
    }

    /** The `url_prefix` part of `__init_basics__`. */
    method InitUrlPrefix(config: Config)
      modifies this`urlPrefix
      ensures urlPrefix == Some(UrlPrefixOf(old(urlPrefix), foldername, config.urlPrefix))
    {
      if config.urlPrefix.None? {
        urlPrefix := Some(VStr(foldername));
      } else if config.urlPrefix.value == VStr("ROOT") {
        urlPrefix := Some(VStr(""));
      } else if urlPrefix.None? {
        urlPrefix := Some(VStr(foldername));
      } else if urlPrefix.value == VStr("") {
        urlPrefix := Some(VStr(foldername));
      } else {
        urlPrefix := config.urlPrefix;
      }
    }

    /** `__init_preprocessors__`. */
    method InitPreprocessors(config: Config, imports: string -> Option<nat>) returns (r: Result<(), InitError>)
      modifies this
      ensures preprocessors == Some(LoadedModules(config.preprocessors, imports))
      ensures r == if LoadOk(config.preprocessors, imports) then Ok(()) else Err(PreprocessorFailed)
      ensures location == old(location) && foldername == old(foldername) && name == old(name)
      ensures desc == old(desc) && sessionEnabled == old(sessionEnabled) && sessionRetension == old(sessionRetension)
      ensures urlPrefix == old(urlPrefix) && posthandlers == old(posthandlers) && handlers == old(handlers)
    {
      var mods, ok := LoadModules(config.preprocessors, imports);
      preprocessors := Some(mods);
      r := if ok then Ok(()) else Err(PreprocessorFailed);
    }

    /** `__init_posthandlers__`, the same loop over `config.posthandlers`. */
    method InitPosthandlers(config: Config, imports: string -> Option<nat>) returns (r: Result<(), InitError>)
      modifies this
      ensures posthandlers == Some(LoadedModules(config.posthandlers, imports))
      ensures r == if LoadOk(config.posthandlers, imports) then Ok(()) else Err(PosthandlerFailed)
      ensures location == old(location) && foldername == old(foldername) && name == old(name)
      ensures desc == old(desc) && sessionEnabled == old(sessionEnabled) && sessionRetension == old(sessionRetension)
      ensures urlPrefix == old(urlPrefix) && preprocessors == old(preprocessors) && handlers == old(handlers)
    {
      var mods, ok := LoadModules(config.posthandlers, imports);
      posthandlers := Some(mods);
      r := if ok then Ok(()) else Err(PosthandlerFailed);
    }

    /** `__init_handlers__`: the configured value is stored before it is checked; the import loop
        counts the modules it imports and stops at the first failure. */
    method InitHandlers(config: Config, imports: string -> Option<nat>) returns (r: Result<(), InitError>)
      modifies this
      ensures handlers == if config.handlers.Some? then config.handlers.value else old(handlers)
      ensures r == HandlersOutcome(config.handlers, imports)
      ensures location == old(location) && foldername == old(foldername) && name == old(name)
      ensures desc == old(desc) && sessionEnabled == old(sessionEnabled) && sessionRetension == old(sessionRetension)
      ensures urlPrefix == old(urlPrefix) && preprocessors == old(preprocessors) && posthandlers == old(posthandlers)
    {
      if config.handlers.None? {
        return Err(HandlersUndefined);
      }
      handlers := config.handlers.value;
      var n := Len(handlers);
      if n.None? {
        return Err(HandlersUnsized);
      }
      if n.value == 0 {
        return Err(HandlersUndefined);
      }
      var mods, _ := ImportEach(Iterated(handlers).value, imports);
      var count := |mods|;
      if count == 0 {
        return Err(NoHandlerImported);
      }
      return Ok(());
    }

    /** `initilize`: a missing `config` module raises; otherwise the settings are read, and the
        three loading steps run in turn, the first failure making the result false. */
    method Initilize(config: Option<Config>, imports: string -> Option<nat>) returns (r: Result<bool, InitError>)
      modifies this
      ensures r.Err? <==> config.None?
      ensures r.Err? ==> r.error == ConfigMissing
      ensures r == Ok(true) <==>
        config.Some? && LoadOk(config.value.preprocessors, imports) && LoadOk(config.value.posthandlers, imports)
        && HandlersOutcome(config.value.handlers, imports).Ok?
      ensures config.None? ==> unchanged(this)
      ensures config.Some? ==>
        && name == (if config.value.name.Some? then config.value.name.value else VStr(foldername))
        && desc == Some(if config.value.desc.Some? then config.value.desc.value else VNone)
        && sessionEnabled == Some(if config.value.sessionEnabled.Some? then config.value.sessionEnabled.value else VNone)
        && sessionRetension ==
             (if config.value.sessionEnabled.Some? && Truthy(config.value.sessionEnabled.value)
              then Some(if config.value.sessionRetension.Some? then config.value.sessionRetension.value else VNone)
              else old(sessionRetension))
      ensures config.Some? && !LoadOk(config.value.preprocessors, imports) ==>
        posthandlers == old(posthandlers) && handlers == old(handlers)
      ensures config.Some? && LoadOk(config.value.preprocessors, imports) && !LoadOk(config.value.posthandlers, imports) ==>
        handlers == old(handlers)
      ensures config.Some? && LoadOk(config.value.preprocessors, imports) && LoadOk(config.value.posthandlers, imports) ==>
        handlers == if config.value.handlers.Some? then config.value.handlers.value else old(handlers)
      ensures config.Some? ==>
        && urlPrefix == Some(UrlPrefixOf(old(urlPrefix), foldername, config.value.urlPrefix))
        && preprocessors == Some(LoadedModules(config.value.preprocessors, imports))
        && (LoadOk(config.value.preprocessors, imports) ==> posthandlers == Some(LoadedModules(config.value.posthandlers, imports)))
      ensures location == old(location) && foldername == old(foldername)
    {
      if config.None? {
        return Err(ConfigMissing);
      }
      InitBasics(config.value);
      var p := InitPreprocessors(config.value, imports);
      if p.Err? {
        return Ok(false);
      }
      var q := InitPosthandlers(config.value, imports);
      if q.Err? {
        return Ok(false);
      }
      var h := InitHandlers(config.value, imports);
      if h.Err? {
        return Ok(false);
      }
      return Ok(true);
    }
  }

  /** The loading loop shared by preprocessors and posthandlers, on the configured value. */
  method LoadModules(value: Option<Value>, imports: string -> Option<nat>) returns (mods: seq<nat>, ok: bool)
    ensures mods == LoadedModules(value, imports) && ok == LoadOk(value, imports)
  {
    if value.None? {
      return [], true;
    }
    var items := Iterated(value.value);
    if items.None? {
      return [], false;
    }
    var failed;
    mods, failed := ImportEach(items.value, imports);
    ok := !failed;
  }

  // ---------------------------------------------------------------------------
  // Properties of the initialisation

  /** On a webapp that has no `url_prefix` yet, the prefix is empty exactly when the
      configuration says "ROOT", and the folder name in every other case: a configured prefix
      other than "ROOT" is never used. */
  lemma FreshPrefix(foldername: string, configured: Option<Value>)
    ensures UrlPrefixOf(None, foldername, configured) == VStr("") <==> configured == Some(VStr("ROOT")) || foldername == ""
    ensures configured != Some(VStr("ROOT")) ==> UrlPrefixOf(None, foldername, configured) == VStr(foldername)
  {
  }

  /** Read a second time, a configuration takes effect: a webapp that already has a non-empty
      prefix gets the configured one, unless it is "ROOT". */
  lemma SecondBasicsUsesConfig(current: Value, foldername: string, configured: Value)
    requires current != VStr("") && configured != VStr("ROOT")
    ensures UrlPrefixOf(Some(current), foldername, Some(configured)) == configured
  {
  }

  /** A missing `preprocessors`/`posthandlers` value loads nothing and succeeds; a present one
      succeeds exactly when it can be iterated and every item imports, and then loads every
      module in order; a failure keeps the modules imported before it. */
  lemma LoadedModulesSpec(value: Option<Value>, imports: string -> Option<nat>)
    ensures value.None? ==> LoadedModules(value, imports) == [] && LoadOk(value, imports)
    ensures value.Some? ==>
      (LoadOk(value, imports) <==>
         Iterated(value.value).Some? && forall j :: 0 <= j < |Iterated(value.value).value| ==> Import(imports, Iterated(value.value).value[j]).Some?)
    ensures LoadOk(value, imports) && value.Some? ==>
      var items := Iterated(value.value).value;
      |LoadedModules(value, imports)| == |items|
      && forall j :: 0 <= j < |items| ==> Some(LoadedModules(value, imports)[j]) == Import(imports, items[j])
    ensures !LoadOk(value, imports) && Iterated(value.value).Some? ==>
      var items := Iterated(value.value).value;
      var k := |LoadedModules(value, imports)|;
      k < |items| && Import(imports, items[k]).None? && forall j :: 0 <= j < k ==> Some(LoadedModules(value, imports)[j]) == Import(imports, items[j])
  {
  }

  /** A non-empty handler list initialises exactly when its first handler imports: the loop
      stops at the first failure and initialisation fails only when nothing was imported. */
  lemma HandlersNeedFirstImport(v: Value, imports: string -> Option<nat>)
    requires Iterated(v).Some? && |Iterated(v).value| > 0
    ensures HandlersOutcome(Some(v), imports).Ok? <==> Import(imports, Iterated(v).value[0]).Some?
    ensures HandlersOutcome(Some(v), imports).Err? ==> HandlersOutcome(Some(v), imports) == Err(NoHandlerImported)
  {
  }

  /** A missing or empty handler list is refused, and so is a value `len` cannot measure. */
  lemma HandlersRefused(value: Option<Value>, imports: string -> Option<nat>)
    ensures value.None? ==> HandlersOutcome(value, imports) == Err(HandlersUndefined)
    ensures value.Some? && Iterated(value.value) == Some([]) ==> HandlersOutcome(value, imports) == Err(HandlersUndefined)
    ensures value.Some? && Iterated(value.value).None? ==> HandlersOutcome(value, imports) == Err(HandlersUnsized)
  {
  }

  // ---------------------------------------------------------------------------
  // get_webapp and __invoke_web_func__

  datatype LookupError =
    | UrlNotFound(url: string) // "Requested URL not found : <url>" (`ValueError`)
    | NoWebappIndex            // `url_map[url][3]` on a list of three: an `IndexError`
    | InvalidUrl(url: string)  // "Invalid url : <url>" (`ValueError`)

  /** `get_webapp(url)`: the element after `[func, signature, module_ns]` of the published list,
      which is its first webapp. The list always holds those three, so it is never falsy and the
      source's `None` branch cannot be taken. */
  function GetWebapp(tables: UrlTables, url: string): (r: Result<nat, LookupError>)
    reads tables
    ensures r == Err(UrlNotFound(url)) <==> tables.Lookup(url).None?
    ensures r.Ok? <==> tables.Lookup(url).Some? && tables.Lookup(url).value.apps != []
    ensures r.Ok? ==> r.value == tables.Lookup(url).value.apps[0]
  {
    match tables.Lookup(url)
    case None => Err(UrlNotFound(url))
    case Some(st) => if |st.apps| == 0 then Err(NoWebappIndex) else Ok(st.apps[0])
  }

  /** What `__invoke_web_func__` returns: status 0 with the handler's data, -1 with the
      validation error, -2 with the handler's traceback. */
  datatype WebReply = Success(data: Value) | InvalidParameters(error: DarkchocoUtils.ValidateError) | HandlerFailed(trace: string)

  function Status(r: WebReply): int
  {
    match r
    case Success(_) => 0
    case InvalidParameters(_) => -1
    case HandlerFailed(_) => -2
  }

  /** `__invoke_web_func__(session, url, parameter)`. The published list must unpack into
      exactly four names, so it must hold exactly one webapp. `signatures` gives the parameters
      of a signature, `call` the outcome of calling an invoker with the session and the validated
      arguments (an exception as its traceback), and `matches` the `Format` test. */
  function InvokeWebFunc(tables: UrlTables, session: Value, url: string, parameter: Dict<string, seq<string>>,
                         signatures: nat -> seq<DarkchocoUtils.Param>,
                         call: (nat, Value, Dict<string, DarkchocoUtils.Arg>) -> Result<Value, string>,
                         matches: (string, string) -> bool): (r: Result<WebReply, LookupError>)
    reads tables
  {
    match tables.Lookup(url)
    case None => Err(InvalidUrl(url))
    case Some(st) =>
      if |st.apps| != 1 then Err(InvalidUrl(url))
      else
        match DarkchocoUtils.Validated(signatures(st.signature), parameter, matches)
        case Err(e) => Ok(InvalidParameters(e))
        case Ok(args) =>
          match call(st.handler, session, args)
          case Err(trace) => Ok(HandlerFailed(trace))
          case Ok(data) => Ok(Success(data))
  }

  /** The request fails with a `ValueError` unless its url is published with exactly one
      webapp; then it is -1 exactly when validation fails, -2 exactly when the handler raises on
      the validated arguments, and 0 with the handler's data otherwise. */
  lemma InvokeStatuses(tables: UrlTables, session: Value, url: string, parameter: Dict<string, seq<string>>,
                       signatures: nat -> seq<DarkchocoUtils.Param>,
                       call: (nat, Value, Dict<string, DarkchocoUtils.Arg>) -> Result<Value, string>,
                       matches: (string, string) -> bool)
    ensures var r := InvokeWebFunc(tables, session, url, parameter, signatures, call, matches);
      && (r.Err? <==> tables.Lookup(url).None? || |tables.Lookup(url).value.apps| != 1)
      && (r.Err? ==> r.error == InvalidUrl(url))
    ensures var r := InvokeWebFunc(tables, session, url, parameter, signatures, call, matches);
      r.Ok? ==>
        var st := tables.Lookup(url).value;
        var v := DarkchocoUtils.Validated(signatures(st.signature), parameter, matches);
        && (Status(r.value) == -1 <==> v.Err?)
        && (v.Err? ==> r.value == InvalidParameters(v.error))
        && (Status(r.value) == -2 <==> v.Ok? && call(st.handler, session, v.value).Err?)
        && (Status(r.value) == 0 <==> v.Ok? && call(st.handler, session, v.value).Ok?)
        && (Status(r.value) == 0 ==> r.value.data == call(st.handler, session, v.value).value)
  {
  }

  // ---------------------------------------------------------------------------
  // After initialize

  /** The stage key `k` is staged and some webapp of `apps` takes its entry. */
  ghost predicate ClaimedKey(stage: Dict<StageKey, Staged>, apps: seq<WebappInfo>, k: StageKey)
  {
    exists i :: 0 <= i < |stage| && stage[i].0 == k && ClaimingIds(apps, stage[i]) != []
  }

  /** Every pair `Claimed` produces comes from an entry the webapp takes. */
  lemma {:induction false} ClaimedEntries(stage: Dict<StageKey, Staged>, app: WebappInfo)
    ensures forall j :: 0 <= j < |Claimed(stage, app)| ==>
      exists m :: 0 <= m < |stage| && Claims(app, stage[m]) && Claimed(stage, app)[j].1 == stage[m].0
    decreases |stage|
  {
    if stage != [] {
      var n := |stage| - 1;
      ClaimedEntries(stage[..n], app);
      var c := Claimed(stage, app);
      var c0 := Claimed(stage[..n], app);
      forall j | 0 <= j < |c| ensures exists m :: 0 <= m < |stage| && Claims(app, stage[m]) && c[j].1 == stage[m].0 {
        if j < |c0| {
          var m :| 0 <= m < n && Claims(app, stage[..n][m]) && c0[j].1 == stage[..n][m].0;
          assert stage[m] == stage[..n][m];
          assert c[j] == c0[j];
        } else {
          assert Claims(app, stage[n]) && c[j].1 == stage[n].0;
        }
      }
    } else {
      assert Claimed(stage, app) == [];
    }
  }

  /** Registering one more webapp keeps every entry claimed that was. */
  lemma ClaimingIdsGrow(apps: seq<WebappInfo>, e: (StageKey, Staged), n: nat)
    requires n < |apps|
    ensures ClaimingIds(apps[..n + 1], e) == ClaimingIds(apps[..n], e) + if Claims(apps[n], e) then [apps[n].id] else []
  {
    assert apps[..n + 1][..n] == apps[..n];
  }

  /** After `initialize` from an empty `url_map`, every published url names an entry that some
      webapp took. */
  lemma {:induction false} PublishedAreClaimed(stage: Dict<StageKey, Staged>, apps: seq<WebappInfo>)
    ensures var u := AfterApps(stage, [], apps).1;
      forall j :: 0 <= j < |u| ==> ClaimedKey(stage, apps, u[j].1)
    decreases |apps|
  {
    if apps != [] {
      var n := |apps| - 1;
      var app := apps[n];
      PublishedAreClaimed(stage, apps[..n]);
      var p := AfterApps(stage, [], apps[..n]);
      assert apps[..n] == apps[..n + 1][..n] && apps == apps[..n + 1];
      InitializeAppends(stage, [], apps[..n]);
      var q := (k: StageKey) => ClaimedKey(stage, apps, k);
      forall j | 0 <= j < |p.1| ensures q(p.1[j].1) {
        var i :| 0 <= i < |stage| && stage[i].0 == p.1[j].1 && ClaimingIds(apps[..n], stage[i]) != [];
        ClaimingIdsGrow(apps, stage[i], n);
      }
      ClaimedEntries(p.0, app);
      forall j | 0 <= j < |Claimed(p.0, app)| ensures q(Claimed(p.0, app)[j].1) {
        var m :| 0 <= m < |p.0| && Claims(app, p.0[m]) && Claimed(p.0, app)[j].1 == p.0[m].0;
        ClaimsIgnoreApps(app, stage[m], p.0[m].1.apps);
        assert p.0[m] == (stage[m].0, stage[m].1.(apps := p.0[m].1.apps));
        ClaimingIdsGrow(apps, stage[m], n);
      }
      AssignedValues(p.1, Claimed(p.0, app), q);
    } else {
      assert AfterApps(stage, [], apps).1 == [];
    }
  }

  /** Once `initialize` has registered `apps` over handlers staged by `add_url` alone, a
      published url finds the staged entry of a handler some webapp took, holding the webapps
      that took it in registration order. */
  lemma PublishedEntry(tables: UrlTables, stage: Dict<StageKey, Staged>, apps: seq<WebappInfo>, url: string)
    returns (i: nat)
    requires UniqueKeys(stage)
    requires forall i :: 0 <= i < |stage| ==> stage[i].1.apps == []
    requires tables.stage == AfterApps(stage, [], apps).0 && tables.urlMap == AfterApps(stage, [], apps).1
    requires Get(tables.urlMap, url).Some?
    ensures i < |stage| && stage[i].0 == Get(tables.urlMap, url).value
    ensures ClaimingIds(apps, stage[i]) != []
    ensures tables.Lookup(url) == Some(stage[i].1.(apps := ClaimingIds(apps, stage[i])))
  {
    i := PublishedEntryOf(stage, apps, url);
  }

  lemma PublishedEntryOf(stage: Dict<StageKey, Staged>, apps: seq<WebappInfo>, url: string) returns (i: nat)
    requires UniqueKeys(stage)
    requires forall i :: 0 <= i < |stage| ==> stage[i].1.apps == []
    requires Get(AfterApps(stage, [], apps).1, url).Some?
    ensures i < |stage| && stage[i].0 == Get(AfterApps(stage, [], apps).1, url).value
    ensures ClaimingIds(apps, stage[i]) != []
    ensures Get(AfterApps(stage, [], apps).0, stage[i].0) == Some(stage[i].1.(apps := ClaimingIds(apps, stage[i])))
  {
    var s := AfterApps(stage, [], apps).0;
    var u := AfterApps(stage, [], apps).1;
    var k := Get(u, url).value;
    var j := GetFound(u, url);
    PublishedAreClaimed(stage, apps);
    assert ClaimedKey(stage, apps, u[j].1);
    i :| 0 <= i < |stage| && stage[i].0 == k && ClaimingIds(apps, stage[i]) != [];
    InitializeAppends(stage, [], apps);
    assert UniqueKeys(s) by {
      forall a, b | 0 <= a < b < |s| ensures s[a].0 != s[b].0 {
        assert s[a].0 == stage[a].0 && s[b].0 == stage[b].0;
      }
    }
    GetAt(s, i);
    assert s[i].0 == stage[i].0;
    assert stage[i].1.apps + ClaimingIds(apps, stage[i]) == ClaimingIds(apps, stage[i]);
    assert s[i].1 == stage[i].1.(apps := ClaimingIds(apps, stage[i]));
  }

  /** So `get_webapp` answers every published url with the first webapp, in registration
      order, that took its entry. */
  lemma GetWebappFirstClaimer(tables: UrlTables, stage: Dict<StageKey, Staged>, apps: seq<WebappInfo>, url: string)
    requires UniqueKeys(stage)
    requires forall i :: 0 <= i < |stage| ==> stage[i].1.apps == []
    requires tables.stage == AfterApps(stage, [], apps).0 && tables.urlMap == AfterApps(stage, [], apps).1
    requires Get(tables.urlMap, url).Some?
    ensures exists i ::
      (0 <= i < |stage| && stage[i].0 == Get(tables.urlMap, url).value && ClaimingIds(apps, stage[i]) != []
       && GetWebapp(tables, url) == Ok(ClaimingIds(apps, stage[i])[0]))
  {
    var i := PublishedEntry(tables, stage, apps, url);
  }

  /** And a request to a published url gets past the unpacking exactly when one webapp alone
      took its entry. */
  lemma InvokeNeedsOneClaimer(tables: UrlTables, stage: Dict<StageKey, Staged>, apps: seq<WebappInfo>, url: string,
                              session: Value, parameter: Dict<string, seq<string>>,
                              signatures: nat -> seq<DarkchocoUtils.Param>,
                              call: (nat, Value, Dict<string, DarkchocoUtils.Arg>) -> Result<Value, string>,
                              matches: (string, string) -> bool)
    requires UniqueKeys(stage)
    requires forall i :: 0 <= i < |stage| ==> stage[i].1.apps == []
    requires tables.stage == AfterApps(stage, [], apps).0 && tables.urlMap == AfterApps(stage, [], apps).1
    requires Get(tables.urlMap, url).Some?
    ensures exists i ::
      (0 <= i < |stage| && stage[i].0 == Get(tables.urlMap, url).value
       && (InvokeWebFunc(tables, session, url, parameter, signatures, call, matches).Ok? <==> |ClaimingIds(apps, stage[i])| == 1))
  {
    var i := PublishedEntry(tables, stage, apps, url);
    InvokeStatuses(tables, session, url, parameter, signatures, call, matches);
  }
}
