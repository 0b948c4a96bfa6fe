/** lib/BlackPearl/core/handlers.py: the web modules every webapp carries, which run its
    testsets and describe the application and one url. The running webapp is passed in and only
    read; `run` gives what calling a testset's invoker returns. */
module CoreHandlers {
  import opened Wrappers
  import opened PyStr
  import opened PyValue
  import opened PySort
  import CoreUtils
  import W = CoreWebapps

  /** The errors these handlers raise. The first three are `RequestInvalid`, which
      `handle_request` answers with status -202; the others are any other exception (-203). */
  datatype HandlerError =
    | UrlNotFound(url: string)         // "The URL <url> not found"
    | NameNotFound(name: string)       // "The name <name> not found"
    | NoTestsets(url: string)          // "No testsets found for url <url>"
    | MissingKey(key: string)          // a `KeyError`
    | TypeError                        // indexing a string with a string

  predicate IsRequestInvalid(e: HandlerError)
  {
    e.UrlNotFound? || e.NameNotFound? || e.NoTestsets?
  }

  // ---------------------------------------------------------------------------
  // run_testset

  /** The index of the first testset with the given name. */
  function FirstNamed(ts: seq<W.Testset>, name: string): (r: Option<nat>)
    ensures r.Some? ==> r.value < |ts| && ts[r.value].name == name
    ensures r.Some? ==> forall j :: 0 <= j < r.value ==> ts[j].name != name
    ensures r.None? ==> forall j :: 0 <= j < |ts| ==> ts[j].name != name
    decreases |ts|
  {
    if ts == [] then None
    else if ts[0].name == name then Some(0)
    else
      match FirstNamed(ts[1..], name)
      case None => None
      case Some(i) => Some(i + 1)
  }

  /** What `run_testset(url, name)` returns or raises. A registered url without testsets fails
      on the dictionary lookup with a `KeyError`. */
  function RunTestsetResult(webmodules: map<string, W.WebModule>, testsets: map<string, seq<W.Testset>>, url: string, name: string, run: nat -> Value): Result<Value, HandlerError>
  {
    if url !in webmodules then Err(UrlNotFound(url))
    else if url !in testsets then Err(MissingKey(url))
    else
      match FirstNamed(testsets[url], name)
      case None => Err(NameNotFound(name))
      case Some(i) => Ok(run(testsets[url][i].invoker))
  }

  /** `run_testset`: scans the url's testsets for the first with that name and runs it. */
  method RunTestset(app: W.Webapp, url: string, name: string, run: nat -> Value) returns (r: Result<Value, HandlerError>)
    ensures r == RunTestsetResult(app.webmodules, app.testsets, url, name, run)
  {
    if url !in app.webmodules {
      return Err(UrlNotFound(url));
    }
    if url !in app.testsets {
      return Err(MissingKey(url));
    }
    var ts := app.testsets[url];
    var found: Option<nat> := None;
    var i := 0;
    while i < |ts|
      invariant 0 <= i <= |ts|
      invariant found.None? ==> forall j :: 0 <= j < i ==> ts[j].name != name
      invariant found.Some? ==> found == FirstNamed(ts, name)
      invariant found.None? || i == |ts|
    {
      if ts[i].name == name {
        found := Some(i);
        FirstNamedIs(ts, name, i);
        break;
      }
      i := i + 1;
    }
    if found.None? {
      NoneNamed(ts, name);
      r := Err(NameNotFound(name));
    } else {
      r := Ok(run(ts[found.value].invoker));
    }
  }

  lemma NoneNamed(ts: seq<W.Testset>, name: string)
    requires forall j :: 0 <= j < |ts| ==> ts[j].name != name
    ensures FirstNamed(ts, name).None?
  {
  }

  lemma FirstNamedIs(ts: seq<W.Testset>, name: string, i: nat)
    requires i < |ts| && ts[i].name == name
    requires forall j :: 0 <= j < i ==> ts[j].name != name
    ensures FirstNamed(ts, name) == Some(i)
  {
  }

  /** The testset run is the first with the name, and every refusal is a `RequestInvalid` except
      the `KeyError` of a url that has no testsets. */
  lemma RunTestsetRunsFirst(webmodules: map<string, W.WebModule>, testsets: map<string, seq<W.Testset>>, url: string, name: string, run: nat -> Value)
    ensures var r := RunTestsetResult(webmodules, testsets, url, name, run);
      && (r.Err? && !IsRequestInvalid(r.error) <==> url in webmodules && url !in testsets)
      && (r.Ok? <==> url in webmodules && url in testsets && exists i :: 0 <= i < |testsets[url]| && testsets[url][i].name == name)
      && (r.Ok? ==> exists i :: 0 <= i < |testsets[url]| && testsets[url][i].name == name && r.value == run(testsets[url][i].invoker)
                      && forall j :: 0 <= j < i ==> testsets[url][j].name != name)
  {
    var r := RunTestsetResult(webmodules, testsets, url, name, run);
    if url in webmodules && url in testsets {
      var f := FirstNamed(testsets[url], name);
      if f.Some? {
        assert r.value == run(testsets[url][f.value].invoker);
      }
    }
  }

  // ---------------------------------------------------------------------------
  // run_all_testset

  /** One `{TestSet, data}` entry. */
  datatype TestsetRun = TestsetRun(testSet: string, data: Value)

  /** `run_all_testset`: runs every testset of the url in stored order. */
  method RunAllTestset(app: W.Webapp, url: string, run: nat -> Value) returns (r: Result<seq<TestsetRun>, HandlerError>)
    ensures url !in app.webmodules ==> r == Err(UrlNotFound(url))
    ensures url in app.webmodules && url !in app.testsets ==> r == Err(NoTestsets(url))
    ensures url in app.webmodules && url in app.testsets ==>
      r.Ok? && |r.value| == |app.testsets[url]|
      && forall i :: 0 <= i < |r.value| ==>
           r.value[i] == TestsetRun(app.testsets[url][i].name, run(app.testsets[url][i].invoker))
  {
    if url !in app.webmodules {
      return Err(UrlNotFound(url));
    }
    if url !in app.testsets {
      return Err(NoTestsets(url));
    }
    var ts := app.testsets[url];
    var ret: seq<TestsetRun> := [];
    var i := 0;
    while i < |ts|
      invariant 0 <= i <= |ts|
      invariant |ret| == i
      invariant forall k :: 0 <= k < i ==> ret[k] == TestsetRun(ts[k].name, run(ts[k].invoker))
    {
      ret := ret + [TestsetRun(ts[i].name, run(ts[i].invoker))];
      i := i + 1;
    }
    r := Ok(ret);
  }

  // ---------------------------------------------------------------------------
  // this_app

  /** A url is listed unless its last "/"-segment starts with "_". */
  predicate Listed(url: string)
  {
    var segs := Split(url, "/");
    !StartsWith(segs[|segs| - 1], "_")
  }

  /** The urls `this_app` lists. */
  function ListedUrls(webmodules: map<string, W.WebModule>): set<string>
  {
    set u | u in webmodules && Listed(u)
  }

  function MarkerNames(ms: seq<W.Marker>): (r: seq<string>)
    ensures |r| == |ms| && forall i :: 0 <= i < |ms| ==> r[i] == ms[i].name
  {
    seq(|ms|, i requires 0 <= i < |ms| => ms[i].name)
  }

  /** The dict `this_app` returns. */
  datatype AppInfo = AppInfo(
    name: Option<string>,
    urlPrefix: Option<string>,
    description: Option<string>,
    modules: seq<string>,
    preprocessors: seq<string>,
    posthandlers: seq<string>,
    handlers: seq<string>)

  /** The loop over the registered urls, which keeps the listed ones, and the sort. The urls are
      visited in any order, as the result is sorted. */
  method ListedModules(app: W.Webapp) returns (urls: seq<string>)
    ensures Sorted(urls)
    ensures multiset(urls) == multiset(ListedUrls(app.webmodules))
  {
    var listed := ListedUrls(app.webmodules);
    var rest := app.webmodules.Keys;
    urls := [];
    while rest != {}
      invariant Sorted(urls)
      invariant multiset(urls) == multiset(listed - rest)
      decreases |rest|
    {
      var u :| u in rest;
      ListedStep(listed, rest, u);
      if u in listed {
        InsertSorted(urls, u);
        InsertMultiset(urls, u);
        urls := Insert(urls, u);
      }
      rest := rest - {u};
    }
  }

  /** Visiting `u` adds it to the visited part of `listed` when it is listed. */
  lemma ListedStep(listed: set<string>, rest: set<string>, u: string)
    requires u in rest
    ensures u in listed ==> multiset(listed - (rest - {u})) == multiset(listed - rest) + multiset{u}
    ensures u !in listed ==> listed - (rest - {u}) == listed - rest
  {
    if u in listed {
      assert listed - (rest - {u}) == (listed - rest) + {u};
      assert u !in listed - rest;
    }
  }

  /** `this_app` as written: the names are strings, but they are sorted by the key
      `p['name']`, which raises a `TypeError` as soon as there is one of them. */
  method ThisAppAsWritten(app: W.Webapp) returns (r: Result<AppInfo, HandlerError>)
    ensures r.Err? <==> app.preprocessors != [] || app.posthandlers != []
    ensures r.Err? ==> r.error == TypeError
    ensures r.Ok? ==> Sorted(r.value.modules) && multiset(r.value.modules) == multiset(ListedUrls(app.webmodules))
    ensures r.Ok? ==> r.value.preprocessors == [] && r.value.posthandlers == []
  {
    var urls := ListedModules(app);
    if app.preprocessors != [] || app.posthandlers != [] {
      return Err(TypeError);
    }
    r := Ok(AppInfo(app.name, app.urlPrefix, app.desc, urls, [], [], app.handlers));
  }

  /** `this_app` with the names sorted as strings. */
  method ThisApp(app: W.Webapp) returns (info: AppInfo)
    ensures info.name == app.name && info.urlPrefix == app.urlPrefix && info.description == app.desc
    ensures info.handlers == app.handlers
    ensures Sorted(info.modules) && multiset(info.modules) == multiset(ListedUrls(app.webmodules))
    ensures Sorted(info.preprocessors) && multiset(info.preprocessors) == multiset(MarkerNames(app.preprocessors))
    ensures Sorted(info.posthandlers) && multiset(info.posthandlers) == multiset(MarkerNames(app.posthandlers))
  {
    var urls := ListedModules(app);
    var pre := SortStrings(MarkerNames(app.preprocessors));
    var post := SortStrings(MarkerNames(app.posthandlers));
    info := AppInfo(app.name, app.urlPrefix, app.desc, urls, pre, post, app.handlers);
  }

  /** A registered url whose last segment starts with "_" is never listed, and every other
      registered url is. */
  lemma ListedUrlsExactly(webmodules: map<string, W.WebModule>, u: string)
    ensures u in ListedUrls(webmodules) <==> u in webmodules && Listed(u)
  {
  }

  // ---------------------------------------------------------------------------
  // signature

  /** One `{name, desc}` entry. */
  datatype TestsetSummary = TestsetSummary(name: string, desc: Option<string>)

  /** The dict `signature` returns. */
  datatype SignatureInfo = SignatureInfo(signature: seq<CoreUtils.Param>, desc: Option<string>, testsets: seq<TestsetSummary>)

  /** The name and desc of each testset of the url, in order; none when it has no testsets. */
  method Summaries(app: W.Webapp, url: string) returns (ts: seq<TestsetSummary>)
    ensures url !in app.testsets ==> ts == []
    ensures url in app.testsets ==>
      |ts| == |app.testsets[url]|
      && forall i :: 0 <= i < |ts| ==> ts[i] == TestsetSummary(app.testsets[url][i].name, app.testsets[url][i].desc)
  {
    ts := [];
    if url in app.testsets {
      var sets := app.testsets[url];
      var i := 0;
      while i < |sets|
        invariant 0 <= i <= |sets|
        invariant |ts| == i
        invariant forall k :: 0 <= k < i ==> ts[k] == TestsetSummary(sets[k].name, sets[k].desc)
      {
        ts := ts + [TestsetSummary(sets[i].name, sets[i].desc)];
        i := i + 1;
      }
    }
  }

  /** `signature` as written: it reads the key `arguments`, which no web module dict has, so
      every registered url fails with a `KeyError`. */
  method SignatureAsWritten(app: W.Webapp, url: string) returns (r: Result<SignatureInfo, HandlerError>)
    ensures url !in app.webmodules ==> r == Err(UrlNotFound(url))
    ensures url in app.webmodules ==> r == Err(MissingKey("arguments"))
  {
    if url !in app.webmodules {
      return Err(UrlNotFound(url));
    }
    var ts := Summaries(app, url);
    r := Err(MissingKey("arguments"));
  }

  /** `signature` reading the web module's `signature`. */
  method Signature(app: W.Webapp, url: string) returns (r: Result<SignatureInfo, HandlerError>)
    ensures url !in app.webmodules ==> r == Err(UrlNotFound(url))
    ensures url in app.webmodules ==>
      && r.Ok?
      && r.value.signature == app.webmodules[url].signature && r.value.desc == app.webmodules[url].desc
      && (url !in app.testsets ==> r.value.testsets == [])
      && (url in app.testsets ==>
            |r.value.testsets| == |app.testsets[url]|
            && forall i :: 0 <= i < |r.value.testsets| ==>
                 r.value.testsets[i] == TestsetSummary(app.testsets[url][i].name, app.testsets[url][i].desc))
  {
    if url !in app.webmodules {
      return Err(UrlNotFound(url));
    }
    var ts := Summaries(app, url);
    r := Ok(SignatureInfo(app.webmodules[url].signature, app.webmodules[url].desc, ts));
  }
}
