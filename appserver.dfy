/** The orchestration layer of lib/BlackPearl/server/appserver.py: the uWSGI process group and its
    ini files, the nginx configuration, and the application server's decisions (the cross-monitor
    between the two services, code reloading and the code-change callback).

    `ProcessGroup`, `AsyncTask` and `ProcessStatus` are not part of this model: the uWSGI group is
    represented by the log of calls made on it, the tasks the server schedules by a log of effects,
    and the server status by a field. */
module AppServer {
  import opened Wrappers
  import opened Seqs
  import opened ServiceStatus
  import PyStr
  import PyDict
  import PyValue

  /** `WebAppMinimal`, with the `socket` attribute the server assigns to it. */
  datatype WebApp = WebApp(id: string, name: string, location: string, pickleFile: string,
                           urlPrefix: string, socket: string)

  function Ids(ws: seq<WebApp>): (r: seq<string>)
    ensures |r| == |ws|
    ensures forall i :: 0 <= i < |ws| ==> r[i] == ws[i].id
  {
    if ws == [] then [] else Ids(ws[..|ws| - 1]) + [ws[|ws| - 1].id]
  }

  /** `os.path.join(a, b)` for a relative `b`. */
  function PathJoin(a: string, b: string): string
  {
    if a == "" || PyStr.EndsWith(a, "/") then a + b else a + "/" + b
  }

  // ---------------------------------------------------------------------------
  // The uWSGI process group

  /** A child process handed to the group: its name, command line and environment. */
  datatype ProcSpec = ProcSpec(name: string, command: seq<string>, env: PyDict.Dict<string, string>)

  /** A call made on the `ProcessGroup` the uWSGI service extends. */
  datatype GroupCall = AddProcess(spec: ProcSpec) | RemoveProcess(name: string) | SignalGroup(sig: int)

  const SIGHUP := 1

  /** The settings the `Uwsgi` constructor stores. */
  datatype UwsgiSettings = UwsgiSettings(
    uwsgiLoc: string, uwsgiFile: string, logsDir: string, runLoc: string,
    securityKey: string, securityBlockSize: int, nginxBind: string, pypath: string,
    options: PyDict.Dict<string, PyValue.Value>)

  /** The name under which one webapp's worker process is registered. */
  function ProcName(id: string): string
  {
    "'" + id + "' uWsgi Service"
  }

  /** The per-webapp process `_add_apps` registers. */
  function WorkerSpec(u: UwsgiSettings, w: WebApp): ProcSpec
  {
    ProcSpec(
      ProcName(w.id),
      [u.uwsgiLoc, "--ini", u.runLoc + "/uwsgi/" + w.id + ".conf"],
      [("BLACKPEARL_DEPLOYED_APPS_PICKLE", u.runLoc + "/uwsgi/pickle/deployed_apps.pickle"),
       ("BLACKPEARL_PICKLE_FILE", w.pickleFile),
       ("BLACKPEARL_ENCRYPT_KEY", u.securityKey),
       ("BLACKPEARL_ENCRYPT_BLOCK_SIZE", PyStr.IntToString(u.securityBlockSize)),
       ("BLACKPEARL_LISTEN", u.nginxBind),
       ("PYTHONPATH", PyStr.Join(":", [u.pypath, PathJoin(w.location, "src"),
                                       PathJoin(w.location, "lib"), PathJoin(w.location, "test")]))])
  }

  function AddCalls(u: UwsgiSettings, ws: seq<WebApp>): (r: seq<GroupCall>)
    ensures |r| == |ws|
    ensures forall i :: 0 <= i < |ws| ==> r[i] == AddProcess(WorkerSpec(u, ws[i]))
  {
    if ws == [] then [] else AddCalls(u, ws[..|ws| - 1]) + [AddProcess(WorkerSpec(u, ws[|ws| - 1]))]
  }

  function RemoveCalls(ws: seq<WebApp>): (r: seq<GroupCall>)
    ensures |r| == |ws|
    ensures forall i :: 0 <= i < |ws| ==> r[i] == RemoveProcess(ProcName(ws[i].id))
  {
    if ws == [] then [] else RemoveCalls(ws[..|ws| - 1]) + [RemoveProcess(ProcName(ws[|ws| - 1].id))]
  }

  /** The webapps of `ws` whose id is (`present`) or is not (`!present`) among `ids`, in order. */
  function SelectById(ws: seq<WebApp>, ids: seq<string>, present: bool): (r: seq<WebApp>)
    ensures forall w :: w in r <==> w in ws && ((w.id in ids) == present)
  {
    if ws == [] then []
    else SelectById(ws[..|ws| - 1], ids, present)
         + (if (ws[|ws| - 1].id in ids) == present then [ws[|ws| - 1]] else [])
  }

  /** `apps_to_start`: the new webapps whose id is not deployed. */
  function AppsToStart(deployed: seq<WebApp>, incoming: seq<WebApp>): seq<WebApp>
  {
    SelectById(incoming, Ids(deployed), false)
  }

  /** `apps_to_stop`: the deployed webapps whose id is not among the new ones. */
  function AppsToStop(deployed: seq<WebApp>, incoming: seq<WebApp>): seq<WebApp>
  {
    SelectById(deployed, Ids(incoming), false)
  }

  lemma IdsMember(ws: seq<WebApp>, id: string)
    ensures id in Ids(ws) <==> exists w :: w in ws && w.id == id
  {
    if id in Ids(ws) {
      var i :| 0 <= i < |ws| && Ids(ws)[i] == id;
      assert ws[i] in ws;
    }
  }

  /** `add_apps` starts exactly the new webapps whose id was not deployed, stops exactly the
      deployed webapps whose id is gone, and an id present on both sides is neither started nor
      stopped. */
  lemma AddAppsDiff(deployed: seq<WebApp>, incoming: seq<WebApp>)
    ensures forall w :: w in AppsToStart(deployed, incoming) <==>
      w in incoming && !(exists d :: d in deployed && d.id == w.id)
    ensures forall w :: w in AppsToStop(deployed, incoming) <==>
      w in deployed && !(exists n :: n in incoming && n.id == w.id)
    ensures forall id :: id in Ids(deployed) && id in Ids(incoming) ==>
      id !in Ids(AppsToStart(deployed, incoming)) && id !in Ids(AppsToStop(deployed, incoming))
  {
    forall w ensures w in AppsToStart(deployed, incoming) <==> w in incoming && !(exists d :: d in deployed && d.id == w.id) {
      IdsMember(deployed, w.id);
    }
    forall w ensures w in AppsToStop(deployed, incoming) <==> w in deployed && !(exists n :: n in incoming && n.id == w.id) {
      IdsMember(incoming, w.id);
    }
    forall id | id in Ids(deployed) && id in Ids(incoming)
      ensures id !in Ids(AppsToStart(deployed, incoming)) && id !in Ids(AppsToStop(deployed, incoming))
    {
      IdsMember(AppsToStart(deployed, incoming), id);
      IdsMember(AppsToStop(deployed, incoming), id);
    }
  }

  /** Keys a user may not override in a worker's ini file, spelled as in the source. */
  const ImmutableOptions: seq<string> := ["socket", "wsgi-file", "log-to", "pidfile", "touch-workers-reload", "lazy-apps"]

  /** The user options that survive the immutable-key filter, rendered with `str`, in order. */
  function UserOptions(opts: PyDict.Dict<string, PyValue.Value>): (r: PyDict.Dict<string, string>)
    decreases |opts|
  {
    if opts == [] then []
    else if opts[0].0 in ImmutableOptions then UserOptions(opts[1..])
    else [(opts[0].0, PyValue.Str(opts[0].1))] + UserOptions(opts[1..])
  }

  lemma KeysTail<V>(d: PyDict.Dict<string, V>)
    requires d != []
    ensures PyDict.Keys(d) == [d[0].0] + PyDict.Keys(d[1..])
  {
  }

  lemma UniqueTail<V>(d: PyDict.Dict<string, V>)
    requires d != [] && PyDict.UniqueKeys(d)
    ensures PyDict.UniqueKeys(d[1..])
    ensures d[0].0 !in PyDict.Keys(d[1..])
  {
    forall i, j | 0 <= i < j < |d[1..]| ensures d[1..][i].0 != d[1..][j].0 {
      assert d[1..][i] == d[i + 1] && d[1..][j] == d[j + 1];
    }
    forall i | 0 <= i < |d[1..]| ensures PyDict.Keys(d[1..])[i] != d[0].0 {
      assert d[1..][i] == d[i + 1];
    }
  }

  /** The filter keeps exactly the non-immutable keys, each with `str` of the user's value, and
      a dict stays a dict. */
  lemma {:induction false} UserOptionsGet(opts: PyDict.Dict<string, PyValue.Value>, k: string)
    requires PyDict.UniqueKeys(opts)
    ensures PyDict.UniqueKeys(UserOptions(opts))
    ensures k in PyDict.Keys(UserOptions(opts)) <==> k in PyDict.Keys(opts) && k !in ImmutableOptions
    ensures k in PyDict.Keys(UserOptions(opts)) ==>
      PyDict.Get(UserOptions(opts), k) == Some(PyValue.Str(PyDict.Get(opts, k).value))
    decreases |opts|
  {
    if opts != [] {
      UniqueTail(opts);
      UserOptionsGet(opts[1..], k);
      KeysTail(opts);
      var rest := UserOptions(opts[1..]);
      if opts[0].0 !in ImmutableOptions {
        UserOptionsGet(opts[1..], opts[0].0);
        var r := [(opts[0].0, PyValue.Str(opts[0].1))] + rest;
        assert r[1..] == rest;
        KeysTail(r);
        forall i, j | 0 <= i < j < |r| ensures r[i].0 != r[j].0 {
          if i > 0 {
            assert r[i] == rest[i - 1] && r[j] == rest[j - 1];
          } else {
            assert r[j] == rest[j - 1];
            assert PyDict.Keys(rest)[j - 1] == rest[j - 1].0;
          }
        }
      }
    }
  }

  /** The keys the server writes for every worker, before the user's options are applied. */
  function DefaultEntries(u: UwsgiSettings, w: WebApp, virtenv: Option<string>, cpus: nat): PyDict.Dict<string, string>
  {
    var base := [
      ("socket", w.socket),
      ("wsgi-file", u.uwsgiFile),
      ("logto", u.logsDir + "/uwsgi/" + w.id + ".log"),
      ("pidfile", u.runLoc + "/uwsgi/" + w.id + ".pid"),
      ("buffer-size", "32768"),
      ("touch-workers-reload", u.runLoc + "/uwsgi/" + w.id + ".reload"),
      ("workers", PyStr.IntToString(cpus)),
      ("lazy-apps", "true"),
      ("log-maxsize", "10485760")];
    if virtenv.Some? && virtenv.value != "" then PyDict.Put(base, "home", virtenv.value) else base
  }

  /** One worker's ini entries, in file order. */
  function WorkerEntries(u: UwsgiSettings, w: WebApp, virtenv: Option<string>, cpus: nat): PyDict.Dict<string, string>
  {
    PyDict.Update(DefaultEntries(u, w, virtenv, cpus), UserOptions(u.options))
  }

  /** A user option overrides a generated value unless its key is in the immutable list; every
      generated key the user does not mention keeps its generated value. */
  lemma WorkerEntryValue(u: UwsgiSettings, w: WebApp, virtenv: Option<string>, cpus: nat, k: string)
    requires PyDict.UniqueKeys(u.options)
    ensures var e := WorkerEntries(u, w, virtenv, cpus);
      if k in PyDict.Keys(u.options) && k !in ImmutableOptions
      then PyDict.Get(e, k) == Some(PyValue.Str(PyDict.Get(u.options, k).value))
      else PyDict.Get(e, k) == PyDict.Get(DefaultEntries(u, w, virtenv, cpus), k)
  {
    UserOptionsGet(u.options, k);
    PyDict.UpdateGet(DefaultEntries(u, w, virtenv, cpus), UserOptions(u.options), k);
  }

  /** The immutable list spells `log-to`, so a user's `logto` replaces the generated log file,
      while a user's `socket` is ignored. */
  lemma LogtoIsOverridable(u: UwsgiSettings, w: WebApp, virtenv: Option<string>, cpus: nat)
    requires PyDict.UniqueKeys(u.options)
    ensures PyDict.Get(u.options, "logto").Some? ==>
      PyDict.Get(WorkerEntries(u, w, virtenv, cpus), "logto") == Some(PyValue.Str(PyDict.Get(u.options, "logto").value))
    ensures PyDict.Get(WorkerEntries(u, w, virtenv, cpus), "socket") == Some(w.socket)
  {
    assert "logto" !in ImmutableOptions;
    assert "socket" in ImmutableOptions;
    WorkerEntryValue(u, w, virtenv, cpus, "logto");
    WorkerEntryValue(u, w, virtenv, cpus, "socket");
    var base := DefaultEntries(u, w, virtenv, cpus);
    assert base[0] == ("socket", w.socket);
  }

  function IniLines(d: PyDict.Dict<string, string>): (r: seq<string>)
    ensures |r| == |d|
    ensures forall i :: 0 <= i < |d| ==> r[i] == d[i].0 + " = " + d[i].1
  {
    if d == [] then [] else IniLines(d[..|d| - 1]) + [d[|d| - 1].0 + " = " + d[|d| - 1].1]
  }

  /** The text of one worker's ini file: `[uwsgi]` and one `key = value` line per entry. */
  function IniText(d: PyDict.Dict<string, string>): string
  {
    PyStr.Join("\n", [IniHeader] + IniLines(d))
  }

  const IniHeader: string := "[uwsgi]"

  lemma IniHeaderOneLine()
    ensures '\n' !in IniHeader
  {
  }

  lemma NoNewlineInLine(a: string, b: string)
    requires '\n' !in a && '\n' !in b
    ensures '\n' !in a + " = " + b
  {
    var l := a + " = " + b;
    forall i | 0 <= i < |l| ensures l[i] != '\n' {
      if i < |a| {
        assert l[i] == a[i];
      } else if i >= |a| + 3 {
        assert l[i] == b[i - |a| - 3];
      }
    }
  }

  lemma {:induction false} IniLinesLackNewline(d: PyDict.Dict<string, string>)
    requires forall i :: 0 <= i < |d| ==> '\n' !in d[i].0 && '\n' !in d[i].1
    ensures forall i :: 0 <= i < |IniLines(d)| ==> '\n' !in IniLines(d)[i]
  {
    forall i | 0 <= i < |IniLines(d)| ensures '\n' !in IniLines(d)[i] {
      NoNewlineInLine(d[i].0, d[i].1);
    }
  }

  /** When no key or value holds a newline, the lines of the ini text are exactly `[uwsgi]`
      followed by one `key = value` line per entry, in order. */
  lemma IniTextLines(d: PyDict.Dict<string, string>)
    requires forall i :: 0 <= i < |d| ==> '\n' !in d[i].0 && '\n' !in d[i].1
    ensures PyStr.Split(IniText(d), "\n") == [IniHeader] + IniLines(d)
  {
    IniHeaderOneLine();
    IniLinesLackNewline(d);
    HeadedSplitJoin(IniHeader, IniLines(d), '\n');
  }

  lemma HeadedSplitJoin(h: string, body: seq<string>, c: char)
    requires c !in h
    requires forall i :: 0 <= i < |body| ==> c !in body[i]
    ensures PyStr.Split(PyStr.Join([c], [h] + body), [c]) == [h] + body
  {
    var lines := [h] + body;
    assert forall i :: 0 <= i < |lines| ==> c !in lines[i] by {
      forall i | 0 <= i < |lines| ensures c !in lines[i] {
        if i > 0 {
          assert lines[i] == body[i - 1];
        }
      }
    }
    PyStr.SplitJoin(lines, c);
  }

  /** One ini file `generate_conf_file` writes, given by what fixes its path and text: the
      webapp, the virtual environment in effect and the CPU count. */
  datatype IniFile = IniFile(app: WebApp, virtenv: Option<string>, cpus: nat)

  function IniPath(u: UwsgiSettings, f: IniFile): string
  {
    u.runLoc + "/uwsgi/" + f.app.id + ".conf"
  }

  function IniContent(u: UwsgiSettings, f: IniFile): string
  {
    IniText(WorkerEntries(u, f.app, f.virtenv, f.cpus))
  }

  /** The files `generate_conf_file` writes: one ini file per webapp, in list order. */
  function IniFiles(ws: seq<WebApp>, virtenv: Option<string>, cpus: nat): (r: seq<IniFile>)
    ensures |r| == |ws|
    ensures forall i :: 0 <= i < |ws| ==> r[i].app == ws[i] && r[i].virtenv == virtenv && r[i].cpus == cpus
  {
    if ws == [] then [] else IniFiles(ws[..|ws| - 1], virtenv, cpus) + [IniFile(ws[|ws| - 1], virtenv, cpus)]
  }

  /** The calls `add_apps` makes on the group when `incoming` replaces `deployed`: one removal
      per vanished webapp, then, when some webapp is new, one addition per new webapp. */
  function DeployCalls(u: UwsgiSettings, deployed: seq<WebApp>, incoming: seq<WebApp>): seq<GroupCall>
  {
    var start := AppsToStart(deployed, incoming);
    RemoveCalls(AppsToStop(deployed, incoming)) + (if |start| > 0 then AddCalls(u, start) else [])
  }

  /** The ini files `add_apps` writes: all of them, for the new list, when some webapp is new. */
  function DeployFiles(deployed: seq<WebApp>, incoming: seq<WebApp>, virtenv: Option<string>, cpus: nat): seq<IniFile>
  {
    if |AppsToStart(deployed, incoming)| > 0 then IniFiles(incoming, virtenv, cpus) else []
  }

  /** The `Uwsgi` process group: its deployed webapps, the calls it made on its group and the
      ini files it wrote. */
  class Uwsgi {
    const settings: UwsgiSettings
    var webapps: seq<WebApp>
    var calls: seq<GroupCall>
    var written: seq<IniFile>

    /** `Uwsgi.__init__`: one worker per webapp. */
    constructor (settings: UwsgiSettings, ws: seq<WebApp>)
      ensures this.settings == settings && webapps == ws
      ensures calls == AddCalls(settings, ws) && written == []
    {
      this.settings := settings;
      webapps := [];
      calls := [];
      written := [];
      new;
      AddWorkers(ws);
      EmptyAppend(AddCalls(settings, ws));
      webapps := ws;
    }

    /** `_add_apps`: register one worker process per webapp, in order. */
    method AddWorkers(ws: seq<WebApp>)
      modifies this`calls
      ensures calls == old(calls) + AddCalls(settings, ws)
    {
      var i := 0;
      while i < |ws|
        invariant 0 <= i <= |ws|
        invariant calls == old(calls) + AddCalls(settings, ws[..i])
      {
        calls := calls + [AddProcess(WorkerSpec(settings, ws[i]))];
        assert ws[..i + 1][..i] == ws[..i];
        i := i + 1;
      }
      assert ws[..|ws|] == ws;
    }

    /** `generate_conf_file`: one ini file per deployed webapp. */
    method GenerateConfFile(virtenv: Option<string>, cpus: nat)
      modifies this`written
      ensures written == old(written) + IniFiles(webapps, virtenv, cpus)
    {
      var ws := webapps;
      var i := 0;
      while i < |ws|
        invariant 0 <= i <= |ws|
        invariant written == old(written) + IniFiles(ws[..i], virtenv, cpus)
      {
        written := written + [IniFile(ws[i], virtenv, cpus)];
        assert ws[..i + 1][..i] == ws[..i];
        i := i + 1;
      }
      assert ws[..|ws|] == ws;
    }

    /** `add_apps`: remove the workers of vanished webapps, adopt the new list, and when some
        webapp is new, rewrite every ini file and start the new workers. */
    method AddApps(ws: seq<WebApp>, virtenv: Option<string>, cpus: nat)
      modifies this`webapps, this`calls, this`written
      ensures webapps == ws
      ensures calls == old(calls) + DeployCalls(settings, old(webapps), ws)
      ensures written == old(written) + DeployFiles(old(webapps), ws, virtenv, cpus)
    {
      ghost var before, files, deployed := calls, written, webapps;
      var toStart := AppsToStart(webapps, ws);
      var toStop := AppsToStop(webapps, ws);
      RemoveWorkers(toStop);
      assert calls == before + RemoveCalls(toStop);
      webapps := ws;
      if |toStart| > 0 {
        GenerateConfFile(virtenv, cpus);
        assert written == files + DeployFiles(deployed, ws, virtenv, cpus);
        AddWorkers(toStart);
        AppendAssoc(before, RemoveCalls(toStop), AddCalls(settings, toStart));
        assert calls == before + DeployCalls(settings, deployed, ws);
      } else {
        assert DeployCalls(settings, deployed, ws) == RemoveCalls(toStop) + [];
        assert DeployFiles(deployed, ws, virtenv, cpus) == [];
        assert written == files + [];
      }
    }

    /** The removal loop of `add_apps`: one `remove_process` per vanished webapp. */
    method RemoveWorkers(ws: seq<WebApp>)
      modifies this`calls
      ensures calls == old(calls) + RemoveCalls(ws)
    {
      var i := 0;
      while i < |ws|
        invariant 0 <= i <= |ws|
        invariant calls == old(calls) + RemoveCalls(ws[..i])
      {
        calls := calls + [RemoveProcess(ProcName(ws[i].id))];
        assert ws[..i + 1][..i] == ws[..i];
        i := i + 1;
      }
      assert ws[..|ws|] == ws;
    }

    /** `reload_conf`: SIGHUP to the group. */
    method ReloadConf()
      modifies this`calls
      ensures calls == old(calls) + [SignalGroup(SIGHUP)]
    {
      calls := calls + [SignalGroup(SIGHUP)];
    }
  }

  // ---------------------------------------------------------------------------
  // The nginx configuration

  /** A `location ~ <path>` block with its directives. */
  datatype Location = Location(path: string, values: seq<(string, string)>)

  datatype NginxSettings = NginxSettings(hostname: string, listen: string, runLoc: string,
                                         shareLoc: string, logsLoc: string)

  /** The two static-file locations of a webapp with a real prefix. */
  function PrefixedPair(w: WebApp): seq<Location>
  {
    [Location(w.urlPrefix + "/(.+\\..+)", [("alias", w.location + "/static/$1")]),
     Location(w.urlPrefix + "(.*/$)", [("alias", w.location + "/static$1")])]
  }

  /** The two static-file locations of a webapp mounted at the root. */
  function RootPair(w: WebApp): seq<Location>
  {
    [Location("/(.+\\..+)", [("alias", w.location + "/static/$1")]),
     Location("(/$)", [("alias", w.location + "/static$1")])]
  }

  predicate HasPrefix(w: WebApp)
  {
    |w.urlPrefix| > 1
  }

  /** The `locations` list: two entries per webapp whose prefix is longer than one character. */
  function PrefixedLocations(ws: seq<WebApp>): seq<Location>
  {
    if ws == [] then []
    else PrefixedLocations(ws[..|ws| - 1]) + (if HasPrefix(ws[|ws| - 1]) then PrefixedPair(ws[|ws| - 1]) else [])
  }

  /** The `root_location` list: two entries per other webapp. */
  function RootLocations(ws: seq<WebApp>): seq<Location>
  {
    if ws == [] then []
    else RootLocations(ws[..|ws| - 1]) + (if HasPrefix(ws[|ws| - 1]) then [] else RootPair(ws[|ws| - 1]))
  }

  /** Location lists are built webapp by webapp: the lists of a concatenation are the
      concatenations of the lists. */
  lemma LocationsAppend(a: seq<WebApp>, b: seq<WebApp>)
    ensures PrefixedLocations(a + b) == PrefixedLocations(a) + PrefixedLocations(b)
    ensures RootLocations(a + b) == RootLocations(a) + RootLocations(b)
  {
    PrefixedAppend(a, b);
    RootAppend(a, b);
  }

  lemma {:induction false} PrefixedAppend(a: seq<WebApp>, b: seq<WebApp>)
    ensures PrefixedLocations(a + b) == PrefixedLocations(a) + PrefixedLocations(b)
    decreases |b|
  {
    if b == [] {
      assert a + b == a;
    } else {
      var b' := b[..|b| - 1];
      assert (a + b)[..|a + b| - 1] == a + b';
      assert (a + b)[|a + b| - 1] == b[|b| - 1];
      PrefixedAppend(a, b');
    }
  }

  lemma {:induction false} RootAppend(a: seq<WebApp>, b: seq<WebApp>)
    ensures RootLocations(a + b) == RootLocations(a) + RootLocations(b)
    decreases |b|
  {
    if b == [] {
      assert a + b == a;
    } else {
      var b' := b[..|b| - 1];
      assert (a + b)[..|a + b| - 1] == a + b';
      assert (a + b)[|a + b| - 1] == b[|b| - 1];
      RootAppend(a, b');
    }
  }

  /** Every webapp contributes exactly two static locations, to one list or the other. */
  lemma {:induction false} LocationsCount(ws: seq<WebApp>)
    ensures |PrefixedLocations(ws)| + |RootLocations(ws)| == 2 * |ws|
    decreases |ws|
  {
    if ws != [] {
      LocationsCount(ws[..|ws| - 1]);
    }
  }

  /** A webapp's pair sits in the prefixed list when its prefix is longer than one character,
      and in the root list otherwise, after the pairs of the webapps before it. */
  lemma LocationsOf(before: seq<WebApp>, w: WebApp, after: seq<WebApp>)
    ensures HasPrefix(w) ==>
      PrefixedLocations(before + [w] + after) == PrefixedLocations(before) + PrefixedPair(w) + PrefixedLocations(after)
    ensures !HasPrefix(w) ==>
      RootLocations(before + [w] + after) == RootLocations(before) + RootPair(w) + RootLocations(after)
  {
    PrefixedAppend(before + [w], after);
    PrefixedAppend(before, [w]);
    PrefixedSingle(w);
    RootAppend(before + [w], after);
    RootAppend(before, [w]);
    RootSingle(w);
  }

  /** A single webapp's pair goes to the list its prefix selects. */
  lemma PrefixedSingle(w: WebApp)
    ensures PrefixedLocations([w]) == if HasPrefix(w) then PrefixedPair(w) else []
  {
    assert [w][..0] == [];
  }

  lemma RootSingle(w: WebApp)
    ensures RootLocations([w]) == if HasPrefix(w) then [] else RootPair(w)
  {
    assert [w][..0] == [];
  }

  function RenderValues(vs: seq<(string, string)>): string
  {
    if vs == [] then "" else RenderValues(vs[..|vs| - 1]) + "\n\t\t\t " + vs[|vs| - 1].0 + " '" + vs[|vs| - 1].1 + "';"
  }

  function RenderLocations(ls: seq<Location>): string
  {
    if ls == [] then "" else RenderLocations(ls[..|ls| - 1]) + LocationBlock(ls[|ls| - 1])
  }

  function LocationBlock(l: Location): string
  {
    "\n\n\t\t location ~ " + l.path + " {" + RenderValues(l.values) + "\n\t\t }"
  }

  /** One webapp's `uwsgi_pass` block: its prefix handed to its socket. */
  function PassBlock(w: WebApp, share: string): string
  {
    "\n\n\t\t location " + w.urlPrefix + " {"
    + "\n\t\t\t uwsgi_pass 'unix://" + w.socket + "';"
    + "\n\t\t\t include '" + share + "/uwsgi_params';"
    + "\n\t\t }"
  }

  function RenderPasses(ws: seq<WebApp>, share: string): string
  {
    if ws == [] then "" else RenderPasses(ws[..|ws| - 1], share) + PassBlock(ws[|ws| - 1], share)
  }

  function NginxHeader(n: NginxSettings, cpus: nat): string
  {
    "\n pid  " + n.runLoc + "/nginx/nginx.pid;"
    + "\n daemon off;"
    + "\n error_log " + n.logsLoc + "/nginx.error.log  warn;"
    + "\n worker_processes " + PyStr.IntToString(cpus) + ";"
    + "\n\n events {"
    + "\n\t worker_connections  1024;"
    + "\n }"
    + "\n\n http {"
    + "\n\t include      '" + n.shareLoc + "/mime.types';"
    + "\n\t default_type  application/octet-stream;"
    + "\n\t sendfile        on;"
    + "\n\t keepalive_timeout  65;"
    + "\n\t client_body_temp_path  " + n.runLoc + "/nginx/cache 1 2;"
    + "\n\t proxy_temp_path " + n.runLoc + "/nginx/proxy;"
    + "\n\t fastcgi_temp_path " + n.runLoc + "/nginx/fastcgi;"
    + "\n\t scgi_temp_path " + n.runLoc + "/nginx/scgi;"
    + "\n\t uwsgi_temp_path " + n.runLoc + "/nginx/uwsgi;"
    + "\n\t log_format  main  '$remote_addr - $remote_user "
    + " [$time_local] \"$request\" '"
    + "\n\t '$status $body_bytes_sent \"$http_referer\" '"
    + "\n\t '\"$http_user_agent\" \"$http_x_forwarded_for\"';"
    + "\n\n\t server {"
    + "\n\t\t listen " + n.listen + ";"
    + "\n\t\t server_name " + n.hostname + ";"
    + "\n\t\t access_log " + n.logsLoc + "/nginx.access.log  main;"
  }

  /** `Nginx.generate_conf_file`: the header, the prefixed static locations, the root static
      locations, one `uwsgi_pass` block per webapp, and the closing braces. */
  function NginxConf(n: NginxSettings, ws: seq<WebApp>, cpus: nat): string
  {
    NginxHeader(n, cpus)
    + RenderLocations(PrefixedLocations(ws))
    + RenderLocations(RootLocations(ws))
    + RenderPasses(ws, n.shareLoc)
    + NginxFooter
  }

  const NginxFooter: string := "\n\t }\n }"

  lemma {:induction false} RenderLocationsAppend(a: seq<Location>, b: seq<Location>)
    ensures RenderLocations(a + b) == RenderLocations(a) + RenderLocations(b)
    decreases |b|
  {
    if b == [] {
      assert a + b == a;
    } else {
      var b' := b[..|b| - 1];
      assert (a + b)[..|a + b| - 1] == a + b';
      assert (a + b)[|a + b| - 1] == b[|b| - 1];
      RenderLocationsAppend(a, b');
      AppendAssoc(RenderLocations(a), RenderLocations(b'), LocationBlock(b[|b| - 1]));
    }
  }

  lemma {:induction false} RenderPassesAppend(a: seq<WebApp>, b: seq<WebApp>, share: string)
    ensures RenderPasses(a + b, share) == RenderPasses(a, share) + RenderPasses(b, share)
    decreases |b|
  {
    if b == [] {
      assert a + b == a;
    } else {
      var b' := b[..|b| - 1];
      assert (a + b)[..|a + b| - 1] == a + b';
      assert (a + b)[|a + b| - 1] == b[|b| - 1];
      RenderPassesAppend(a, b', share);
      AppendAssoc(RenderPasses(a, share), RenderPasses(b', share), PassBlock(b[|b| - 1], share));
    }
  }

  lemma RenderPassesSingle(w: WebApp, share: string)
    ensures RenderPasses([w], share) == PassBlock(w, share)
  {
    assert [w][..0] == [];
    EmptyAppend(PassBlock(w, share));
  }

  lemma RenderLocationsPair(x: Location, y: Location)
    ensures RenderLocations([x, y]) == LocationBlock(x) + LocationBlock(y)
  {
    assert [x, y][..1] == [x] && [x][..0] == [];
    EmptyAppend(LocationBlock(x));
    assert RenderLocations([x]) == LocationBlock(x);
  }

  /** A webapp whose prefix is longer than one character has its two static locations
      rendered one after the other among the prefixed blocks, after those of the earlier
      prefixed webapps and before those of the later ones. */
  lemma NginxConfPrefixed(n: NginxSettings, before: seq<WebApp>, w: WebApp, after: seq<WebApp>, cpus: nat)
    requires HasPrefix(w)
    ensures var ws := before + [w] + after;
      NginxConf(n, ws, cpus) == NginxHeader(n, cpus)
        + RenderLocations(PrefixedLocations(before))
        + LocationBlock(PrefixedPair(w)[0]) + LocationBlock(PrefixedPair(w)[1])
        + RenderLocations(PrefixedLocations(after))
        + RenderLocations(RootLocations(ws)) + RenderPasses(ws, n.shareLoc) + NginxFooter
  {
    var ws, pair := before + [w] + after, PrefixedPair(w);
    var ls0, ls1 := PrefixedLocations(before), PrefixedLocations(after);
    LocationsOf(before, w, after);
    RenderLocationsAppend(ls0 + pair, ls1);
    RenderLocationsAppend(ls0, pair);
    RenderLocationsPair(pair[0], pair[1]);
    var h, p, r, s := NginxHeader(n, cpus), RenderLocations(PrefixedLocations(ws)),
                      RenderLocations(RootLocations(ws)), RenderPasses(ws, n.shareLoc);
    SpliceSecond(h, p, r, s, NginxFooter, RenderLocations(ls0), LocationBlock(pair[0]), LocationBlock(pair[1]), RenderLocations(ls1));
  }

  /** Any other webapp has its two static locations rendered one after the other among the
      root blocks, which all follow the prefixed ones, in the order of the webapps. */
  lemma NginxConfRoot(n: NginxSettings, before: seq<WebApp>, w: WebApp, after: seq<WebApp>, cpus: nat)
    requires !HasPrefix(w)
    ensures var ws := before + [w] + after;
      NginxConf(n, ws, cpus) == NginxHeader(n, cpus) + RenderLocations(PrefixedLocations(ws))
        + RenderLocations(RootLocations(before))
        + LocationBlock(RootPair(w)[0]) + LocationBlock(RootPair(w)[1])
        + RenderLocations(RootLocations(after))
        + RenderPasses(ws, n.shareLoc) + NginxFooter
  {
    var ws, pair := before + [w] + after, RootPair(w);
    var ls0, ls1 := RootLocations(before), RootLocations(after);
    LocationsOf(before, w, after);
    RenderLocationsAppend(ls0 + pair, ls1);
    RenderLocationsAppend(ls0, pair);
    RenderLocationsPair(pair[0], pair[1]);
    var h, p, r, s := NginxHeader(n, cpus), RenderLocations(PrefixedLocations(ws)),
                      RenderLocations(RootLocations(ws)), RenderPasses(ws, n.shareLoc);
    SpliceThird(h, p, r, s, NginxFooter, RenderLocations(ls0), LocationBlock(pair[0]), LocationBlock(pair[1]), RenderLocations(ls1));
  }

  /** Every webapp gets one `uwsgi_pass` block, at its position in the list, after all the
      static locations and before the closing braces. */
  lemma NginxConfPass(n: NginxSettings, before: seq<WebApp>, w: WebApp, after: seq<WebApp>, cpus: nat)
    ensures var ws := before + [w] + after;
      NginxConf(n, ws, cpus) == NginxHeader(n, cpus)
        + RenderLocations(PrefixedLocations(ws)) + RenderLocations(RootLocations(ws))
        + RenderPasses(before, n.shareLoc) + PassBlock(w, n.shareLoc) + RenderPasses(after, n.shareLoc)
        + NginxFooter
  {
    var ws := before + [w] + after;
    RenderPassesAppend(before + [w], after, n.shareLoc);
    RenderPassesAppend(before, [w], n.shareLoc);
    RenderPassesSingle(w, n.shareLoc);
    var h, p, r := NginxHeader(n, cpus), RenderLocations(PrefixedLocations(ws)), RenderLocations(RootLocations(ws));
    SpliceFourth(h, p, r, RenderPasses(ws, n.shareLoc), NginxFooter,
                 RenderPasses(before, n.shareLoc), PassBlock(w, n.shareLoc), RenderPasses(after, n.shareLoc));
  }

  // ---------------------------------------------------------------------------
  // The application server

  datatype Service = UwsgiService | NginxService

  function Other(s: Service): Service
  {
    if s == UwsgiService then NginxService else UwsgiService
  }

  /** What the server asks its event loop or the file system to do. */
  datatype Effect =
    | StartService(service: Service)
    | StopService(service: Service)
    | RestartService(service: Service)
    | ScheduleReloadCode
    | WatchPathsUpdated
    | GenerateNginxConf(apps: seq<WebApp>)  // `nginx.generate_conf_file(apps)`, which writes `NginxConf`
    | WriteReloadMarkers(paths: set<string>)
    | SignalNginx(sig: int)

  datatype ServerError = CodeReloadInProgress | NoApplicationDeployed

  /** The decision of the cross-monitor: the new server status, and whether the other service
      must be stopped. */
  datatype Decision = Decision(server: Status, stopOther: bool)

  /** `_service_status_update_cb`: a service reported `status`; `other` is the other service's
      status and `server` the server's. */
  function CrossMonitor(status: Status, other: Status, server: Status): Decision
  {
    if Terminal(status) then
      if !Terminal(other) then Decision(server, server != Stopping)
      else if server == NotStarted || server == Restarting || server == Started then Decision(Terminated, false)
      else if server == Stopping then Decision(Stopped, false)
      else Decision(server, false)
    else if status == Restarting then Decision(server, false)
    else if status == Started && other == Started then
      Decision(if server == Restarting then Started else if server != Started then Started else server, false)
    else Decision(server, false)
  }

  /** The other service is stopped exactly when this one has finished while the other has not
      and the server is not itself stopping; the server status is then left alone. */
  lemma CrossMonitorStopsPartner(status: Status, other: Status, server: Status)
    ensures CrossMonitor(status, other, server).stopOther <==>
      Terminal(status) && !Terminal(other) && server != Stopping
    ensures CrossMonitor(status, other, server).stopOther ==> CrossMonitor(status, other, server).server == server
  {
  }

  /** When both services have finished, STOPPING becomes STOPPED and NOTSTARTED, RESTARTING and
      STARTED become TERMINATED; when both are started, the server is STARTED. */
  lemma CrossMonitorSettles(status: Status, other: Status, server: Status)
    ensures Terminal(status) && Terminal(other) ==>
      CrossMonitor(status, other, server).server ==
        (if server == Stopping then Stopped
         else if server in {NotStarted, Restarting, Started} then Terminated
         else server)
    ensures status == Started && other == Started ==> CrossMonitor(status, other, server).server == Started
    ensures !Terminal(status) && !(status == Started && other == Started) ==>
      CrossMonitor(status, other, server) == Decision(server, false)
  {
  }

  /** The server status only ever moves to STARTED, STOPPED or TERMINATED. */
  lemma CrossMonitorTargets(status: Status, other: Status, server: Status)
    ensures var d := CrossMonitor(status, other, server).server;
      d == server || d == Started || d == Stopped || d == Terminated
  {
  }

  /** An orderly shutdown: the server is STOPPING, one service stops while the other still runs,
      then the other stops. No stop is scheduled and the server ends STOPPED. */
  lemma ShutdownSettlesStopped(first: Status, second: Status, running: Status)
    requires Terminal(first) && Terminal(second) && !Terminal(running)
    ensures var d1 := CrossMonitor(first, running, Stopping);
      !d1.stopOther && d1.server == Stopping &&
      CrossMonitor(second, first, d1.server) == Decision(Stopped, false)
  {
  }

  /** An unexpected exit while STARTED: the other service is stopped, and once it has stopped
      too the server is TERMINATED. */
  lemma UnexpectedExitTerminates(first: Status, second: Status)
    requires Terminal(first) && Terminal(second)
    ensures var d1 := CrossMonitor(first, Started, Started);
      d1 == Decision(Started, true) && CrossMonitor(second, first, d1.server) == Decision(Terminated, false)
  {
  }

  /** The webapps of `ws` with some modified file under their location, each once per match, in
      the order of the source's nested loop. */
  function ModifiedList(ws: seq<WebApp>, files: seq<string>): seq<WebApp>
  {
    if ws == [] then [] else ModifiedList(ws[..|ws| - 1], files) + Matches(ws[|ws| - 1], files)
  }

  function Matches(w: WebApp, files: seq<string>): seq<WebApp>
  {
    if files == [] then []
    else Matches(w, files[..|files| - 1]) + (if PyStr.StartsWith(files[|files| - 1], w.location) then [w] else [])
  }

  lemma {:induction false} MatchesMember(w: WebApp, files: seq<string>, x: WebApp)
    ensures x in Matches(w, files) <==> x == w && exists f :: f in files && PyStr.StartsWith(f, w.location)
    decreases |files|
  {
    if files != [] {
      var init := files[..|files| - 1];
      MatchesMember(w, init, x);
      assert files == init + [files[|files| - 1]];
      if exists f :: f in files && PyStr.StartsWith(f, w.location) {
        var f :| f in files && PyStr.StartsWith(f, w.location);
        if f != files[|files| - 1] {
          assert f in init;
        }
      }
    }
  }

  /** The modified set of `reload_code`: exactly the webapps whose location is a prefix of some
      modified file. */
  lemma {:induction false} ModifiedListMember(ws: seq<WebApp>, files: seq<string>, x: WebApp)
    ensures x in ModifiedList(ws, files) <==> x in ws && exists f :: f in files && PyStr.StartsWith(f, x.location)
    decreases |ws|
  {
    if ws != [] {
      var init := ws[..|ws| - 1];
      ModifiedListMember(init, files, x);
      MatchesMember(ws[|ws| - 1], files, x);
      assert ws == init + [ws[|ws| - 1]];
    }
  }

  function WithSockets(ws: seq<WebApp>, run: string): (r: seq<WebApp>)
    ensures |r| == |ws|
    ensures forall i :: 0 <= i < |ws| ==> r[i] == ws[i].(socket := run + "/uwsgi/" + ws[i].id + ".socket")
  {
    if ws == [] then [] else WithSockets(ws[..|ws| - 1], run) + [ws[|ws| - 1].(socket := run + "/uwsgi/" + ws[|ws| - 1].id + ".socket")]
  }

  function ReloadMarker(run: string, w: WebApp): string
  {
    run + "/uwsgi/" + w.id + ".reload"
  }

  /** The reload markers `reload_code` touches: one per webapp of the modified set. */
  function ReloadMarkers(run: string, modified: set<WebApp>): set<string>
  {
    set w | w in modified :: ReloadMarker(run, w)
  }

  /** The effects of deploying a non-empty discovery: the nginx configuration for the new list,
      the reload markers of the modified webapps, and SIGHUP to nginx. */
  function RedeployEffects(run: string, ws: seq<WebApp>, discovered: seq<WebApp>, files: seq<string>): seq<Effect>
  {
    [GenerateNginxConf(ws),
     WriteReloadMarkers(ReloadMarkers(run, set w | w in ModifiedList(discovered, files))),
     SignalNginx(SIGHUP)]
  }

  class Server {
    const runLoc: string
    const nginx: NginxSettings
    const uwsgi: Uwsgi
    var status: Status
    var reloadingCode: bool
    var modifiedFiles: seq<string>
    var effects: seq<Effect>

    /** The part of `AppServer.__init__` after discovery, given a non-empty webapp list. */
    constructor (runLoc: string, nginx: NginxSettings, uwsgi: Uwsgi)
      ensures this.runLoc == runLoc && this.nginx == nginx && this.uwsgi == uwsgi
      ensures status == NotStarted && !reloadingCode && modifiedFiles == [] && effects == []
    {
      this.runLoc := runLoc;
      this.nginx := nginx;
      this.uwsgi := uwsgi;
      status := NotStarted;
      reloadingCode := false;
      modifiedFiles := [];
      effects := [];
    }

    /** `start`: both services are started concurrently; the server status is left to the
        cross-monitor. */
    method Start()
      modifies this`effects
      ensures effects == old(effects) + [StartService(UwsgiService), StartService(NginxService)]
    {
      effects := effects + [StartService(UwsgiService), StartService(NginxService)];
    }

    /** `stop`: STOPPING, then both services are stopped. */
    method Stop()
      modifies this`status, this`effects
      ensures status == Stopping
      ensures effects == old(effects) + [StopService(UwsgiService), StopService(NginxService)]
    {
      status := Stopping;
      effects := effects + [StopService(UwsgiService), StopService(NginxService)];
    }

    /** `restart`: RESTARTING, then both services are restarted. */
    method Restart()
      modifies this`status, this`effects
      ensures status == Restarting
      ensures effects == old(effects) + [RestartService(UwsgiService), RestartService(NginxService)]
    {
      status := Restarting;
      effects := effects + [RestartService(UwsgiService), RestartService(NginxService)];
    }

    /** `reload_conf`: SIGHUP to the uWSGI group and to nginx. */
    method ReloadConf()
      modifies uwsgi`calls, this`effects
      ensures uwsgi.calls == old(uwsgi.calls) + [SignalGroup(SIGHUP)]
      ensures effects == old(effects) + [SignalNginx(SIGHUP)]
    {
      uwsgi.ReloadConf();
      effects := effects + [SignalNginx(SIGHUP)];
    }

    /** `_service_status_update_cb` for `service`, reporting `reported`, while the other service's
        status is `other`. The listener always asks to stay registered. */
    method ServiceStatusUpdate(service: Service, reported: Status, other: Status) returns (keep: bool)
      modifies this`status, this`effects
      ensures keep
      ensures status == CrossMonitor(reported, other, old(status)).server
      ensures effects == old(effects)
        + (if CrossMonitor(reported, other, old(status)).stopOther then [StopService(Other(service))] else [])
    {
      var d := CrossMonitor(reported, other, status);
      if d.stopOther {
        effects := effects + [StopService(Other(service))];
      }
      status := d.server;
      keep := true;
    }

    /** `_code_update_cb`: a directory or a `.py` file is recorded, and a reload is scheduled
        unless one is in flight. */
    method CodeUpdate(path: string, isDir: bool)
      modifies this`modifiedFiles, this`effects
      ensures isDir || PyStr.EndsWith(path, ".py") ==>
        modifiedFiles == old(modifiedFiles) + [path]
        && effects == old(effects) + (if old(reloadingCode) then [] else [ScheduleReloadCode])
      ensures !(isDir || PyStr.EndsWith(path, ".py")) ==>
        modifiedFiles == old(modifiedFiles) && effects == old(effects)
    {
      if isDir || PyStr.EndsWith(path, ".py") {
        modifiedFiles := modifiedFiles + [path];
        if !reloadingCode {
          effects := effects + [ScheduleReloadCode];
        }
      }
    }

    /** `reload_code` up to its first `yield from`: the in-flight guard, then the flag. */
    method ReloadCodeBegin() returns (r: Result<(), ServerError>)
      modifies this`reloadingCode
      ensures old(reloadingCode) ==> r == Err(CodeReloadInProgress) && reloadingCode
      ensures !old(reloadingCode) ==> r == Ok(()) && reloadingCode
    {
      if reloadingCode {
        return Err(CodeReloadInProgress);
      }
      reloadingCode := true;
      r := Ok(());
    }

    /** The modified set, by the source's nested loop. */
    method SelectModified(ws: seq<WebApp>) returns (m: set<WebApp>)
      ensures m == set w | w in ModifiedList(ws, modifiedFiles)
    {
      var found: seq<WebApp> := [];
      var i := 0;
      while i < |ws|
        invariant 0 <= i <= |ws|
        invariant found == ModifiedList(ws[..i], modifiedFiles)
      {
        var j := 0;
        ghost var before := found;
        while j < |modifiedFiles|
          invariant 0 <= j <= |modifiedFiles|
          invariant found == before + Matches(ws[i], modifiedFiles[..j])
        {
          if PyStr.StartsWith(modifiedFiles[j], ws[i].location) {
            found := found + [ws[i]];
          }
          assert modifiedFiles[..j + 1][..j] == modifiedFiles[..j];
          j := j + 1;
        }
        assert modifiedFiles[..|modifiedFiles|] == modifiedFiles;
        assert ws[..i + 1][..i] == ws[..i];
        i := i + 1;
      }
      assert ws[..|ws|] == ws;
      m := set w | w in found;
    }

    /** `reload_code` resumed after its sleep, with the result of webapp discovery. When the
        server is STARTED the watch is refreshed, and a non-empty discovery is deployed. The flag
        is cleared on the way out. */
    method ReloadCodeResume(discovered: seq<WebApp>, virtenv: Option<string>, cpus: nat)
      modifies this`reloadingCode, this`effects, uwsgi`webapps, uwsgi`calls, uwsgi`written
      ensures !reloadingCode && modifiedFiles == old(modifiedFiles) && status == old(status)
      ensures status != Started ==> effects == old(effects) && unchanged(uwsgi)
      ensures status == Started && discovered == [] ==> effects == old(effects) + [WatchPathsUpdated] && unchanged(uwsgi)
      ensures status == Started && discovered != [] ==>
        effects == old(effects) + [WatchPathsUpdated] + RedeployEffects(uwsgi.settings.runLoc, WithSockets(discovered, runLoc), discovered, modifiedFiles)
      ensures status == Started && discovered != [] ==>
        uwsgi.webapps == WithSockets(discovered, runLoc)
        && uwsgi.calls == old(uwsgi.calls) + DeployCalls(uwsgi.settings, old(uwsgi.webapps), WithSockets(discovered, runLoc))
        && uwsgi.written == old(uwsgi.written) + DeployFiles(old(uwsgi.webapps), WithSockets(discovered, runLoc), virtenv, cpus)
    {
      if status == Started {
        effects := effects + [WatchPathsUpdated];
        if |discovered| > 0 {
          Redeploy(discovered, virtenv, cpus);
        }
      }
      reloadingCode := false;
    }

    /** The discovery branch of `reload_code`. */
    method Redeploy(discovered: seq<WebApp>, virtenv: Option<string>, cpus: nat)
      modifies this`effects, uwsgi`webapps, uwsgi`calls, uwsgi`written
      ensures effects == old(effects) + RedeployEffects(uwsgi.settings.runLoc, WithSockets(discovered, runLoc), discovered, modifiedFiles)
      ensures uwsgi.webapps == WithSockets(discovered, runLoc)
      ensures uwsgi.calls == old(uwsgi.calls) + DeployCalls(uwsgi.settings, old(uwsgi.webapps), WithSockets(discovered, runLoc))
      ensures uwsgi.written == old(uwsgi.written) + DeployFiles(old(uwsgi.webapps), WithSockets(discovered, runLoc), virtenv, cpus)
    {
      var modified := SelectModified(discovered);
      var ws := WithSockets(discovered, runLoc);
      var written := [GenerateNginxConf(ws), WriteReloadMarkers(ReloadMarkers(uwsgi.settings.runLoc, modified))];
      effects := effects + written;
      uwsgi.AddApps(ws, virtenv, cpus);
      AppendAssoc(old(effects), written, [SignalNginx(SIGHUP)]);
      effects := effects + [SignalNginx(SIGHUP)];
    }
  }

  /** `AppServer.__init__` after discovery: no webapp is an error; otherwise every webapp gets its
      socket, the uWSGI group is built and writes its ini files, and the nginx configuration is
      written. */
  method NewServer(runLoc: string, discovered: seq<WebApp>, u: UwsgiSettings, n: NginxSettings,
                   virtenv: Option<string>, cpus: nat) returns (r: Result<Server, ServerError>)
    requires u.runLoc == runLoc
    ensures discovered == [] ==> r == Err(NoApplicationDeployed)
    ensures discovered != [] ==> r.Ok? && fresh(r.value) && fresh(r.value.uwsgi)
    ensures discovered != [] ==>
      r.Ok? && r.value.status == NotStarted && !r.value.reloadingCode && r.value.modifiedFiles == []
    ensures discovered != [] ==>
      var ws := WithSockets(discovered, runLoc);
      r.Ok? && r.value.uwsgi.webapps == ws && r.value.uwsgi.calls == AddCalls(u, ws)
      && r.value.uwsgi.written == IniFiles(ws, virtenv, cpus)
      && r.value.effects == [GenerateNginxConf(ws)]
  {
    if |discovered| == 0 {
      return Err(NoApplicationDeployed);
    }
    var s := Assemble(runLoc, WithSockets(discovered, runLoc), u, n, virtenv, cpus);
    r := Ok(s);
  }

  /** The server built for the socketed webapps `ws`. */
  method Assemble(runLoc: string, ws: seq<WebApp>, u: UwsgiSettings, n: NginxSettings,
                  virtenv: Option<string>, cpus: nat) returns (s: Server)
    ensures fresh(s) && fresh(s.uwsgi)
    ensures s.status == NotStarted && !s.reloadingCode && s.modifiedFiles == []
    ensures s.uwsgi.webapps == ws && s.uwsgi.calls == AddCalls(u, ws)
    ensures s.uwsgi.written == IniFiles(ws, virtenv, cpus) && s.effects == [GenerateNginxConf(ws)]
  {
    var g := NewGroup(u, ws, virtenv, cpus);
    s := new Server(runLoc, n, g);
    s.effects := [GenerateNginxConf(ws)];
  }

  /** The uWSGI group of a new server, with its ini files written. */
  method NewGroup(u: UwsgiSettings, ws: seq<WebApp>, virtenv: Option<string>, cpus: nat) returns (g: Uwsgi)
    ensures fresh(g) && g.settings == u && g.webapps == ws
    ensures g.calls == AddCalls(u, ws) && g.written == IniFiles(ws, virtenv, cpus)
  {
    g := new Uwsgi(u, ws);
    g.GenerateConfFile(virtenv, cpus);
  }
}
