/** lib/server/appserver.py: the thread-based application server. An `AppServer` runs a uWSGI
    process and an nginx process, both `LegacyProcess.Process`es; nginx's configuration
    file is generated from the deployed webapps when the nginx side is built.

    The configuration values come from the server's configuration dictionary, and the deployed
    webapps (their url prefix and folder name) from webapp discovery, which is not part of this
    model; both arrive as parameters. */
module LegacyAppServer {
  import opened Wrappers
  import opened ServiceStatus
  import SupervisedProcess
  import opened LegacyProcess
  import Seqs

  /** The configuration keys the server reads. */
  datatype ServerConf = ServerConf(
    apps: string,      // DARKCHOCO_APPS
    tmp: string,       // DARKCHOCO_TMP
    share: string,     // DARKCHOCO_SHARE
    logs: string,      // DARKCHOCO_LOGS
    home: string,      // DARKCHOCO_HOME
    hostName: string,  // DARKCHOCO_HOST_NAME
    uwsgi: string,     // UWSGI
    nginx: string,     // NGINX
    appBind: string,   // APPBIND
    webBind: string)   // WEBBIND

  /** What nginx needs of a deployed webapp. */
  datatype AppDir = AppDir(urlPrefix: string, foldername: string)

  /** `Uwsgi.__init__`'s command line. */
  function UwsgiCommand(c: ServerConf): seq<string>
  {
    [c.uwsgi, "--plugins", "python", "--socket", c.appBind,
     "--wsgi-file", c.home + "/lib/darkchoco/application.py",
     "--enable-threads", "--logto", c.logs + "/uwsgi.log",
     "--pidfile", c.tmp + "/uwsgi.pid", "--buffer-size=32768"]
  }

  /** `Nginx.__init__`'s command line. */
  function NginxCommand(c: ServerConf): seq<string>
  {
    [c.nginx, "-c", c.tmp + "/nginx.conf"]
  }

  // ---------------------------------------------------------------------------
  // Static-file locations

  /** A `_Location`: a path regular expression and its directives, in order. */
  datatype Location = Location(path: string, values: seq<(string, string)>)

  predicate Prefixed(w: AppDir)
  {
    |w.urlPrefix| > 0
  }

  /** The location serving a webapp's `static` folder: under `/<prefix>/` when it has a url
      prefix, at the root otherwise. */
  function StaticLocation(appLoc: string, w: AppDir): Location
  {
    var alias := ("alias", appLoc + "/" + w.foldername + "/static/$1");
    if Prefixed(w) then Location("/" + w.urlPrefix + "/(.+\\..+)", [alias])
    else Location("/(.+\\..+)", [alias])
  }

  /** The locations of the prefixed webapps, in list order. */
  function PrefixedLocations(appLoc: string, ws: seq<AppDir>): seq<Location>
    decreases |ws|
  {
    if ws == [] then []
    else
      var init := PrefixedLocations(appLoc, ws[..|ws| - 1]);
      if Prefixed(ws[|ws| - 1]) then init + [StaticLocation(appLoc, ws[|ws| - 1])] else init
  }

  /** The root location that the webapps of `ws` leave behind, if any of them has no prefix. */
  function RootLocation(appLoc: string, ws: seq<AppDir>): Option<Location>
    decreases |ws|
  {
    if ws == [] then None
    else if !Prefixed(ws[|ws| - 1]) then Some(StaticLocation(appLoc, ws[|ws| - 1]))
    else RootLocation(appLoc, ws[..|ws| - 1])
  }

  lemma {:induction false} PrefixedLocationsAppend(appLoc: string, a: seq<AppDir>, b: seq<AppDir>)
    ensures PrefixedLocations(appLoc, a + b) == PrefixedLocations(appLoc, a) + PrefixedLocations(appLoc, b)
    decreases |b|
  {
    if b == [] {
      assert a + b == a;
    } else {
      var b' := b[..|b| - 1];
      assert (a + b)[..|a + b| - 1] == a + b';
      assert (a + b)[|a + b| - 1] == b[|b| - 1];
      PrefixedLocationsAppend(appLoc, a, b');
    }
  }

  /** A location is generated for a prefixed webapp exactly when some prefixed webapp of the list
      produced it; root webapps add nothing to the list. */
  lemma {:induction false} PrefixedLocationsFrom(appLoc: string, ws: seq<AppDir>, l: Location)
    ensures l in PrefixedLocations(appLoc, ws) <==>
      exists i :: 0 <= i < |ws| && Prefixed(ws[i]) && l == StaticLocation(appLoc, ws[i])
    ensures |PrefixedLocations(appLoc, ws)| <= |ws|
    decreases |ws|
  {
    if ws != [] {
      var init := ws[..|ws| - 1];
      PrefixedLocationsFrom(appLoc, init, l);
      if exists i :: 0 <= i < |ws| && Prefixed(ws[i]) && l == StaticLocation(appLoc, ws[i]) {
        var i :| 0 <= i < |ws| && Prefixed(ws[i]) && l == StaticLocation(appLoc, ws[i]);
        if i < |ws| - 1 {
          assert init[i] == ws[i];
        }
      }
      if exists i :: 0 <= i < |init| && Prefixed(init[i]) && l == StaticLocation(appLoc, init[i]) {
        var i :| 0 <= i < |init| && Prefixed(init[i]) && l == StaticLocation(appLoc, init[i]);
        assert ws[i] == init[i];
      }
    }
  }

  /** The root location is the one of the last webapp without a prefix: a later root webapp
      replaces an earlier one, and with no root webapp there is none. */
  lemma {:induction false} RootLocationIsLast(appLoc: string, ws: seq<AppDir>)
    ensures RootLocation(appLoc, ws).None? <==> forall i :: 0 <= i < |ws| ==> Prefixed(ws[i])
    ensures RootLocation(appLoc, ws).Some? ==>
      exists i :: (0 <= i < |ws| && !Prefixed(ws[i]) && RootLocation(appLoc, ws) == Some(StaticLocation(appLoc, ws[i]))
        && forall j :: i < j < |ws| ==> Prefixed(ws[j]))
    decreases |ws|
  {
    if ws != [] {
      var n := |ws| - 1;
      var init := ws[..n];
      RootLocationIsLast(appLoc, init);
      if Prefixed(ws[n]) {
        if forall i :: 0 <= i < |init| ==> Prefixed(init[i]) {
          forall i | 0 <= i < |ws| ensures Prefixed(ws[i]) {
            if i < n { assert init[i] == ws[i]; }
          }
        } else {
          var i :| 0 <= i < |init| && !Prefixed(init[i]);
          assert ws[i] == init[i];
        }
        if RootLocation(appLoc, init).Some? {
          var i :| 0 <= i < |init| && !Prefixed(init[i])
            && RootLocation(appLoc, init) == Some(StaticLocation(appLoc, init[i]))
            && forall j :: i < j < |init| ==> Prefixed(init[j]);
          assert ws[i] == init[i];
          forall j | i < j < |ws| ensures Prefixed(ws[j]) {
            if j < n { assert init[j] == ws[j]; }
          }
        }
      }
    }
  }

  /** One webapp more: a prefixed one extends the list, a root one becomes the root location. */
  lemma GenerateStep(appLoc: string, ws: seq<AppDir>, i: nat)
    requires i < |ws|
    ensures PrefixedLocations(appLoc, ws[..i + 1]) ==
      PrefixedLocations(appLoc, ws[..i]) + (if Prefixed(ws[i]) then [StaticLocation(appLoc, ws[i])] else [])
    ensures RootLocation(appLoc, ws[..i + 1]) ==
      if Prefixed(ws[i]) then RootLocation(appLoc, ws[..i]) else Some(StaticLocation(appLoc, ws[i]))
  {
    assert ws[..i + 1][..i] == ws[..i];
    assert ws[..i + 1][i] == ws[i];
  }

  // ---------------------------------------------------------------------------
  // The upstream address

  /** Whether `re.match(".*\..*\..*\..*:.*", s)` succeeds: three dots and then a colon, with no
      newline before the colon (`.` does not match one). */
  predicate LooksLikeHostPort(s: string)
  {
    exists a, b, c, d :: 0 <= a < b < c < d < |s| && s[a] == '.' && s[b] == '.' && s[c] == '.'
      && s[d] == ':' && '\n' !in s[..d]
  }

  /** The address nginx passes requests to: `APPBIND` as it is when it looks like
      `host:port` with a dotted host, a unix socket path otherwise. */
  function Upstream(appBind: string): string
  {
    if LooksLikeHostPort(appBind) then appBind else "unix://" + appBind
  }

  /** An address with no colon, such as a socket file path, is always taken as a unix socket. */
  lemma NoColonIsSocket(appBind: string)
    requires ':' !in appBind
    ensures Upstream(appBind) == "unix://" + appBind
  {
  }

  /** A dotted-quad host with a port is passed as it is. */
  lemma DottedHostKept(h1: string, h2: string, h3: string, h4: string, port: string)
    requires '\n' !in h1 && '\n' !in h2 && '\n' !in h3 && '\n' !in h4
    ensures Upstream(h1 + "." + h2 + "." + h3 + "." + h4 + ":" + port) ==
      h1 + "." + h2 + "." + h3 + "." + h4 + ":" + port
  {
    var s := h1 + "." + h2 + "." + h3 + "." + h4 + ":" + port;
    var a := |h1|;
    var b := a + 1 + |h2|;
    var c := b + 1 + |h3|;
    var d := c + 1 + |h4|;
    assert s[a] == '.' && s[b] == '.' && s[c] == '.' && s[d] == ':';
    assert s[..d] == h1 + "." + h2 + "." + h3 + "." + h4;
  }

  /** A host name with a port but no dot, such as `localhost:3031`, is taken as a unix socket
      path as well. */
  lemma NoDotIsSocket(appBind: string)
    requires '.' !in appBind
    ensures Upstream(appBind) == "unix://" + appBind
  {
  }

  // ---------------------------------------------------------------------------
  // The configuration text

  function ValuesText(vs: seq<(string, string)>): string
    decreases |vs|
  {
    if vs == [] then ""
    else ValuesText(vs[..|vs| - 1]) + "\n\t\t\t" + vs[|vs| - 1].0 + " " + vs[|vs| - 1].1 + ";"
  }

  function LocationText(l: Location): string
  {
    "\n\n\t\tlocation ~ " + l.path + " {" + ValuesText(l.values) + "\n\t\t}"
  }

  function LocationsText(ls: seq<Location>): string
    decreases |ls|
  {
    if ls == [] then "" else LocationsText(ls[..|ls| - 1]) + LocationText(ls[|ls| - 1])
  }

  /** Everything before the locations: pid file, events, http settings, the upstream and the
      start of the server block. */
  function NginxHead(c: ServerConf): string
  {
    "\npid  " + c.tmp + "/nginx.pid;"
    + "\n\nevents {" + "\n\tworker_connections  1024;" + "\n}"
    + "\n\nhttp {" + "\n\tinclude      " + c.share + "/mime.types;"
    + "\n\tdefault_type  application/octet-stream;"
    + "\n\tsendfile        on;"
    + "\n\tkeepalive_timeout  65;"
    + "\n\tlog_format  main  '$remote_addr - $remote_user " + "[$time_local] \"$request\" '"
    + "\n\t'$status $body_bytes_sent \"$http_referer\" '"
    + "\n\t'\"$http_user_agent\" \"$http_x_forwarded_for\"';"
    + "\n\n\tupstream darkchoco {" + "\n\t\tserver " + Upstream(c.appBind) + ";" + "\n\t}"
    + "\n\n\tserver {" + "\n\t\tlisten " + c.webBind + ";"
    + "\n\t\tserver_name " + c.hostName + ";"
    + "\n\t\troot " + c.apps + ";"
    + "\n\t\taccess_log " + c.logs + "/nginx.access.log  main;"
  }

  /** The catch-all location handing every other request to uWSGI, and the closing braces. */
  function NginxTail(c: ServerConf): string
  {
    "\n\n\t\tlocation / {" + "\n\t\t\tuwsgi_pass darkchoco;"
    + "\n\t\t\tinclude " + c.share + "/uwsgi_params;" + "\n\t\t}"
    + "\n\t}" + "\n}"
  }

  function RootText(root: Option<Location>): string
  {
    if root.Some? then LocationText(root.value) else ""
  }

  /** The text `generate_conf_file` writes: the prefixed locations in order, then the root
      location if there is one, then the catch-all. */
  function ConfText(c: ServerConf, locations: seq<Location>, root: Option<Location>): string
  {
    NginxHead(c) + LocationsText(locations) + RootText(root) + NginxTail(c)
  }

  /** The configuration file as written: its text is `Text()`. */
  datatype NginxFile = NginxFile(conf: ServerConf, locations: seq<Location>, root: Option<Location>) {
    function Text(): string
    {
      ConfText(conf, locations, root)
    }
  }

  lemma {:induction false} LocationsTextAppend(a: seq<Location>, b: seq<Location>)
    ensures LocationsText(a + b) == LocationsText(a) + LocationsText(b)
    decreases |b|
  {
    if b == [] {
      assert a + b == a;
    } else {
      var b' := b[..|b| - 1];
      assert (a + b)[..|a + b| - 1] == a + b';
      assert (a + b)[|a + b| - 1] == b[|b| - 1];
      LocationsTextAppend(a, b');
      Seqs.AppendAssoc(LocationsText(a), LocationsText(b'), LocationText(b[|b| - 1]));
    }
  }

  /** Each webapp's block appears in the order of the webapp list: the text of `ws1 + ws2`
      renders the prefixed locations of `ws1` before those of `ws2`. */
  lemma RenderedInListOrder(c: ServerConf, ws1: seq<AppDir>, ws2: seq<AppDir>)
    ensures ConfText(c, PrefixedLocations(c.apps, ws1 + ws2), RootLocation(c.apps, ws1 + ws2)) ==
      NginxHead(c) + LocationsText(PrefixedLocations(c.apps, ws1)) + LocationsText(PrefixedLocations(c.apps, ws2))
      + RootText(RootLocation(c.apps, ws1 + ws2)) + NginxTail(c)
  {
    PrefixedLocationsAppend(c.apps, ws1, ws2);
    LocationsTextAppend(PrefixedLocations(c.apps, ws1), PrefixedLocations(c.apps, ws2));
    Seqs.AppendAssoc(NginxHead(c), LocationsText(PrefixedLocations(c.apps, ws1)), LocationsText(PrefixedLocations(c.apps, ws2)));
  }

  // ---------------------------------------------------------------------------
  // The nginx side

  /** The loop of `generate_conf_file` over the webapps, starting from the locations `ls0` and
      the root location `root0` already configured. */
  method AddLocations(appLoc: string, ws: seq<AppDir>, ls0: seq<Location>, root0: Option<Location>)
    returns (ls: seq<Location>, root: Option<Location>)
    ensures ls == ls0 + PrefixedLocations(appLoc, ws)
    ensures root == if RootLocation(appLoc, ws).Some? then RootLocation(appLoc, ws) else root0
  {
    ls, root := ls0, root0;
    var i := 0;
    while i < |ws|
      invariant 0 <= i <= |ws|
      invariant ls == ls0 + PrefixedLocations(appLoc, ws[..i])
      invariant root == if RootLocation(appLoc, ws[..i]).Some? then RootLocation(appLoc, ws[..i]) else root0
    {
      GenerateStep(appLoc, ws, i);
      var location := StaticLocation(appLoc, ws[i]);
      if |ws[i].urlPrefix| > 0 {
        ls := ls + [location];
      } else {
        root := Some(location);
      }
      i := i + 1;
    }
    assert ws[..i] == ws;
  }

  class Nginx {
    const conf: ServerConf
    const process: Process
    var locations: seq<Location>      // `nginxconf.locations`
    var rootLocation: Option<Location> // `nginxconf.root_location`
    var written: Option<NginxFile>    // what `<DARKCHOCO_TMP>/nginx.conf` was written from

    /** `Nginx.__init__`: generate the configuration file for the deployed webapps, then set up
        the nginx process. */
    constructor (c: ServerConf, ws: seq<AppDir>)
      ensures conf == c && fresh(process)
      ensures process.name == "Nginx Service" && process.command == NginxCommand(c)
      ensures process.sigTimeout == DefaultSigTimeout
      ensures process.pid == None && process.status == NotStarted
      ensures locations == PrefixedLocations(c.apps, ws) && rootLocation == RootLocation(c.apps, ws)
      ensures written == Some(NginxFile(c, locations, rootLocation))
    {
      conf := c;
      process := new Process("Nginx Service", NginxCommand(c), DefaultSigTimeout);
      locations := [];
      rootLocation := None;
      written := None;
      new;
      GenerateConfFile(ws);
    }

    /** `generate_conf_file`: add a location per webapp (a prefixed one to the list, a root one
        in place of the root location) and write the configuration text. */
    method GenerateConfFile(ws: seq<AppDir>)
      modifies this`locations, this`rootLocation, this`written
      ensures locations == old(locations) + PrefixedLocations(conf.apps, ws)
      ensures rootLocation == if RootLocation(conf.apps, ws).Some? then RootLocation(conf.apps, ws) else old(rootLocation)
      ensures written == Some(NginxFile(conf, locations, rootLocation))
    {
      var ls, root := AddLocations(conf.apps, ws, locations, rootLocation);
      locations, rootLocation := ls, root;
      written := Some(NginxFile(conf, ls, root));
    }
  }

  // ---------------------------------------------------------------------------
  // The server

  /** Stopping `first` and then `second`, as `AppServer.stop` does: an exception from the first
      stop leaves the second process alone. */
  function StopPair(first: Option<int>, firstTimeout: int, second: Option<int>, secondTimeout: int,
                    alive: Alive, k: nat): Effect<()>
  {
    var a := StopOutcome(first, SupervisedProcess.SigInt, firstTimeout, alive, k);
    if a.result.Err? then Effect(Err(a.result.error), a.sent, a.probes)
    else
      var b := StopOutcome(second, SupervisedProcess.SigInt, secondTimeout, alive, a.probes);
      Effect(if b.result.Err? then Err(b.result.error) else Ok(()), a.sent + b.sent, b.probes)
  }

  /** The second half of `AppServer.isrunning`, reached when not both services were found
      running: probe uWSGI again and stop it if it runs, otherwise probe nginx and stop it if
      it runs. */
  function StopSurvivor(u: Option<int>, uTimeout: int, n: Option<int>, nTimeout: int, alive: Alive, k: nat): Effect<bool>
  {
    match Probe(u, alive, k)
    case Err(e) => Effect(Err(e), [], k)
    case Ok(uRunning) =>
      if uRunning then
        var s := StopOutcome(u, SupervisedProcess.SigInt, uTimeout, alive, k + 1);
        Effect(if s.result.Err? then Err(s.result.error) else Ok(false), s.sent, s.probes)
      else match Probe(n, alive, k + 1)
        case Err(e) => Effect(Err(e), [], k + 1)
        case Ok(nRunning) =>
          if nRunning then
            var s := StopOutcome(n, SupervisedProcess.SigInt, nTimeout, alive, k + 2);
            Effect(if s.result.Err? then Err(s.result.error) else Ok(false), s.sent, s.probes)
          else Effect(Ok(false), [], k + 2)
  }

  /** `AppServer.isrunning`. */
  function CrossCheck(u: Option<int>, uTimeout: int, n: Option<int>, nTimeout: int, alive: Alive, k: nat): Effect<bool>
  {
    match Probe(u, alive, k)
    case Err(e) => Effect(Err(e), [], k)
    case Ok(uRunning) =>
      if !uRunning then StopSurvivor(u, uTimeout, n, nTimeout, alive, k + 1)
      else match Probe(n, alive, k + 1)
        case Err(e) => Effect(Err(e), [], k + 1)
        case Ok(nRunning) =>
          if nRunning then Effect(Ok(true), [], k + 2)
          else StopSurvivor(u, uTimeout, n, nTimeout, alive, k + 2)
  }

  /** The server reports running exactly when the uWSGI probe and then the nginx probe both
      succeed; before uWSGI has a pid it raises `NotStartedYet` and does nothing else. */
  lemma CrossCheckRunning(u: Option<int>, uTimeout: int, n: Option<int>, nTimeout: int, alive: Alive, k: nat)
    ensures CrossCheck(u, uTimeout, n, nTimeout, alive, k).result == Ok(true) <==>
      u.Some? && n.Some? && alive(u.value, k) && alive(n.value, k + 1)
    ensures CrossCheck(u, uTimeout, n, nTimeout, alive, k).result == Ok(true) ==>
      CrossCheck(u, uTimeout, n, nTimeout, alive, k).sent == []
    ensures u.None? ==> CrossCheck(u, uTimeout, n, nTimeout, alive, k) == Effect(Err(NotStartedYet), [], k)
  {
  }

  /** A process whose liveness does not change while it is being probed. */
  ghost predicate Steady(alive: Alive, p: int)
  {
    forall k: nat :: alive(p, k) == alive(p, 0)
  }

  /** What stopping a steady process sends: nothing if it is not running, otherwise SIGINT and,
      since it never goes, SIGKILL. */
  function SteadyStop(p: int, running: bool): seq<(int, Signal)>
  {
    if running then [(p, SupervisedProcess.SigInt), (p, SupervisedProcess.SigKill)] else []
  }

  lemma SteadyStopOutcome(p: int, timeout: int, alive: Alive, k: nat)
    requires Steady(alive, p)
    ensures StopOutcome(Some(p), SupervisedProcess.SigInt, timeout, alive, k).result == Ok(alive(p, 0))
    ensures StopOutcome(Some(p), SupervisedProcess.SigInt, timeout, alive, k).sent == SteadyStop(p, alive(p, 0))
  {
    assert alive(p, k) == alive(p, 0);
    assert alive(p, k + 1 + Polls(timeout)) == alive(p, 0);
    StopSpec(p, SupervisedProcess.SigInt, timeout, alive, k);
  }

  /** With both services started and neither changing state while probed, `isrunning` answers
      whether both run; when exactly one runs it stops that one and no other, and when neither
      runs it sends nothing. */
  lemma CrossCheckSteady(pu: int, uTimeout: int, pn: int, nTimeout: int, alive: Alive, k: nat)
    requires Steady(alive, pu) && Steady(alive, pn)
    ensures CrossCheck(Some(pu), uTimeout, Some(pn), nTimeout, alive, k).result == Ok(alive(pu, 0) && alive(pn, 0))
    ensures CrossCheck(Some(pu), uTimeout, Some(pn), nTimeout, alive, k).sent ==
      if alive(pu, 0) == alive(pn, 0) then []
      else if alive(pu, 0) then SteadyStop(pu, true)
      else SteadyStop(pn, true)
  {
    assert alive(pu, k) == alive(pu, 0) && alive(pu, k + 2) == alive(pu, 0) && alive(pu, k + 1) == alive(pu, 0);
    assert alive(pn, k + 1) == alive(pn, 0) && alive(pn, k + 2) == alive(pn, 0);
    if alive(pu, 0) && !alive(pn, 0) {
      SteadyStopOutcome(pu, uTimeout, alive, k + 3);
    } else if !alive(pu, 0) && alive(pn, 0) {
      SteadyStopOutcome(pn, nTimeout, alive, k + 3);
    }
  }

  /** `AppServer.stop` on two started, steady services: nginx's signals come first and then
      uWSGI's, each process being signalled only if it runs. Before nginx has a pid it raises
      and leaves uWSGI alone. */
  lemma StopPairSteady(pn: int, nTimeout: int, pu: int, uTimeout: int, alive: Alive, k: nat)
    requires Steady(alive, pn) && Steady(alive, pu)
    ensures StopPair(Some(pn), nTimeout, Some(pu), uTimeout, alive, k).result == Ok(())
    ensures StopPair(Some(pn), nTimeout, Some(pu), uTimeout, alive, k).sent ==
      SteadyStop(pn, alive(pn, 0)) + SteadyStop(pu, alive(pu, 0))
  {
    SteadyStopOutcome(pn, nTimeout, alive, k);
    var a := StopOutcome(Some(pn), SupervisedProcess.SigInt, nTimeout, alive, k);
    SteadyStopOutcome(pu, uTimeout, alive, a.probes);
  }

  lemma StopPairUnstarted(nTimeout: int, u: Option<int>, uTimeout: int, alive: Alive, k: nat)
    ensures StopPair(None, nTimeout, u, uTimeout, alive, k) == Effect(Err(NotStartedYet), [], k)
  {
  }

  class AppServer {
    const uwsgi: Process
    const nginx: Nginx

    /** `AppServer.__init__`: the uWSGI process and the nginx side, whose construction writes the
        nginx configuration for `ws`. */
    constructor (c: ServerConf, ws: seq<AppDir>)
      ensures fresh(uwsgi) && fresh(nginx) && fresh(nginx.process)
      ensures uwsgi.name == "uWsgi Service" && uwsgi.command == UwsgiCommand(c)
      ensures uwsgi.sigTimeout == DefaultSigTimeout && uwsgi.pid == None && uwsgi.status == NotStarted
      ensures nginx.conf == c && nginx.process.pid == None && nginx.process.status == NotStarted
      ensures nginx.written == Some(NginxFile(c, PrefixedLocations(c.apps, ws), RootLocation(c.apps, ws)))
    {
      uwsgi := new Process("uWsgi Service", UwsgiCommand(c), DefaultSigTimeout);
      nginx := new Nginx(c, ws);
    }

    /** `start`: uWSGI's worker thread and then nginx's. */
    method Start(os: Os)
      modifies os`threads
      ensures os.threads == old(os.threads) + [uwsgi, nginx.process]
    {
      uwsgi.Start(os);
      nginx.process.Start(os);
    }

    /** `stop`: nginx first, then uWSGI. */
    method Stop(os: Os, alive: Alive) returns (r: Result<(), Error>)
      modifies os`probes, os`sent
      ensures r == StopPair(nginx.process.pid, nginx.process.sigTimeout, uwsgi.pid, uwsgi.sigTimeout, alive, old(os.probes)).result
      ensures os.sent == old(os.sent) + StopPair(nginx.process.pid, nginx.process.sigTimeout, uwsgi.pid, uwsgi.sigTimeout, alive, old(os.probes)).sent
      ensures os.probes == StopPair(nginx.process.pid, nginx.process.sigTimeout, uwsgi.pid, uwsgi.sigTimeout, alive, old(os.probes)).probes
    {
      var _ :- nginx.process.Stop(os, alive);
      var _ :- uwsgi.Stop(os, alive);
      return Ok(());
    }

    /** `restart`: `stop`, then `start` unless stopping raised. */
    method Restart(os: Os, alive: Alive) returns (r: Result<(), Error>)
      modifies os`probes, os`sent, os`threads
      ensures r == StopPair(nginx.process.pid, nginx.process.sigTimeout, uwsgi.pid, uwsgi.sigTimeout, alive, old(os.probes)).result
      ensures os.sent == old(os.sent) + StopPair(nginx.process.pid, nginx.process.sigTimeout, uwsgi.pid, uwsgi.sigTimeout, alive, old(os.probes)).sent
      ensures os.threads == old(os.threads) + (if r.Ok? then [uwsgi, nginx.process] else [])
    {
      r := Stop(os, alive);
      if r.Ok? {
        Start(os);
      }
    }

    /** The else branch of `isrunning`. */
    method StopSurvivorOf(os: Os, alive: Alive) returns (r: Result<bool, Error>)
      modifies os`probes, os`sent
      ensures r == StopSurvivor(uwsgi.pid, uwsgi.sigTimeout, nginx.process.pid, nginx.process.sigTimeout, alive, old(os.probes)).result
      ensures os.sent == old(os.sent) + StopSurvivor(uwsgi.pid, uwsgi.sigTimeout, nginx.process.pid, nginx.process.sigTimeout, alive, old(os.probes)).sent
      ensures os.probes == StopSurvivor(uwsgi.pid, uwsgi.sigTimeout, nginx.process.pid, nginx.process.sigTimeout, alive, old(os.probes)).probes
    {
      var uRunning :- uwsgi.IsRunning(os, alive);
      if uRunning {
        var _ :- uwsgi.Stop(os, alive);
      } else {
        var nRunning :- nginx.process.IsRunning(os, alive);
        if nRunning {
          var _ :- nginx.process.Stop(os, alive);
        }
      }
      return Ok(false);
    }

    /** `isrunning`: true when both services run; otherwise the one still running is stopped. */
    method IsRunning(os: Os, alive: Alive) returns (r: Result<bool, Error>)
      modifies os`probes, os`sent
      ensures r == CrossCheck(uwsgi.pid, uwsgi.sigTimeout, nginx.process.pid, nginx.process.sigTimeout, alive, old(os.probes)).result
      ensures os.sent == old(os.sent) + CrossCheck(uwsgi.pid, uwsgi.sigTimeout, nginx.process.pid, nginx.process.sigTimeout, alive, old(os.probes)).sent
      ensures os.probes == CrossCheck(uwsgi.pid, uwsgi.sigTimeout, nginx.process.pid, nginx.process.sigTimeout, alive, old(os.probes)).probes
    {
      var uRunning :- uwsgi.IsRunning(os, alive);
      if uRunning {
        var nRunning :- nginx.process.IsRunning(os, alive);
        if nRunning {
          return Ok(true);
        }
      }
      r := StopSurvivorOf(os, alive);
    }
  }
}
