/** lib/BlackPearl/common/configuration.py: `validate_and_update`, which checks a loaded
    configuration dict against the known categories and keys and completes it, in place, from the
    hard-coded defaults. The working directory and the key generator (`base64` of `urandom`) are
    parameters. */
module Configuration {
  import opened Wrappers
  import opened PyStr
  import opened PyValue
  import opened PyDict

  type Section = Dict<Value, Value>

  /** The exceptions `validate_and_update` raises. */
  datatype ConfigError =
    | UnknownCategory(key: Value)                 // the `ValueError` of an unknown top-level key
    | UnknownValue(category: string, key: Value)  // the `ValueError` of an unknown key in a category
    | NotADict(category: string)                  // `.keys()` or `.update` on a value that is no dict
    | NotAString(entry: Value)                    // `.startswith` on a path that is no string
    | NotIterable(entry: Value)                   // `for` over a `webapps` value that is not iterable
    | MissingKey(name: string)                    // a `KeyError`
    | KeyNotDefined                               // no key and no `auto_generate_key`

  const Categories: seq<string> := ["path", "server", "hostname", "listen", "security", "uwsgi_options"]
  const PathNames: seq<string> := ["lib", "share", "webapps", "run", "log"]
  const ServerNames: seq<string> := ["nginx", "uwsgi"]
  const SecurityNames: seq<string> := ["block_size", "auto_generate_key", "key"]
  /** The path entries that are single directories, in the order they are made absolute. */
  const DirNames: seq<string> := ["lib", "share", "run", "log"]

  // ---------------------------------------------------------------------------
  // Defaults

  /** The default `webapps` list holds ONE string: its two literals have no comma between them,
      so Python concatenates them. */
  function DefaultWebapps(): Value
  {
    VList([VStr("/usr/share/blackpearl/builtinapps" + "/usr/share/blackpearl/webapps")])
  }

  function DefaultPath(): Section
  {
    [(VStr("lib"), VStr("/usr/lib/blackpearl")),
     (VStr("share"), VStr("/usr/share/blackpearl")),
     (VStr("webapps"), DefaultWebapps()),
     (VStr("run"), VStr("/run/blackpearl")),
     (VStr("log"), VStr("/var/log/blackpearl"))]
  }

  function DefaultServer(): Section
  {
    [(VStr("nginx"), VStr("/usr/sbin/nginx")), (VStr("uwsgi"), VStr("/usr/sbin/uwsgi"))]
  }

  function DefaultSecurity(): Section
  {
    [(VStr("block_size"), VInt(16)), (VStr("auto_generate_key"), VBool(true))]
  }

  function DefaultUwsgiOptions(): Section
  {
    [(VStr("plugins"), VStr("python")), (VStr("log-truncate"), VBool(true))]
  }

  const DefaultHostname: Value := VStr("localhost")
  const DefaultListen: Value := VStr("127.0.0.1:80")

  // ---------------------------------------------------------------------------
  // Key checks

  predicate Allowed(k: Value, names: seq<string>)
  {
    k.VStr? && k.s in names
  }

  /** The first key outside `names`, which is the one the error names. */
  function FirstUnknown(keys: seq<Value>, names: seq<string>): (r: Option<Value>)
    ensures r.None? <==> forall i :: 0 <= i < |keys| ==> Allowed(keys[i], names)
    ensures r.Some? ==> exists i :: 0 <= i < |keys| && keys[i] == r.value && !Allowed(keys[i], names)
                                    && forall j :: 0 <= j < i ==> Allowed(keys[j], names)
    decreases |keys|
  {
    if keys == [] then None
    else if !Allowed(keys[0], names) then Some(keys[0])
    else
      var r := FirstUnknown(keys[1..], names);
      assert r.Some? ==> exists i :: 0 <= i < |keys[1..]| && keys[1..][i] == r.value && !Allowed(keys[1..][i], names)
                                    && forall j :: 0 <= j < i ==> Allowed(keys[1..][j], names);
      assert r.Some? ==> exists i :: 1 <= i < |keys| && keys[i] == r.value && !Allowed(keys[i], names)
                                    && forall j :: 1 <= j < i ==> Allowed(keys[j], names);
      r
  }

  /** The `for key in d.keys(): if key not in names: raise` loop. */
  method CheckKeys(keys: seq<Value>, names: seq<string>) returns (r: Option<Value>)
    ensures r == FirstUnknown(keys, names)
  {
    var i := 0;
    while i < |keys|
      invariant 0 <= i <= |keys|
      invariant FirstUnknown(keys, names) == FirstUnknown(keys[i..], names)
    {
      if !Allowed(keys[i], names) {
        return Some(keys[i]);
      }
      assert keys[i..][1..] == keys[i + 1..];
      i := i + 1;
    }
    return None;
  }

  // ---------------------------------------------------------------------------
  // Paths

  /** `os.path.join(cwd, p)`. */
  function JoinPath(cwd: string, p: string): string
  {
    if StartsWith(p, "/") then p
    else if cwd == [] || EndsWith(cwd, "/") then cwd + p
    else cwd + "/" + p
  }

  /** What a path entry becomes: absolute entries stay, relative ones are joined onto `cwd`. */
  function Absolute(cwd: string, p: string): string
  {
    if StartsWith(p, "/") then p else JoinPath(cwd, p)
  }

  /** An absolute entry is untouched; a relative one lies under `cwd` and is absolute when `cwd` is. */
  lemma AbsoluteShape(cwd: string, p: string)
    ensures StartsWith(p, "/") ==> Absolute(cwd, p) == p
    ensures !StartsWith(p, "/") ==> StartsWith(Absolute(cwd, p), cwd) && EndsWith(Absolute(cwd, p), p)
    ensures StartsWith(cwd, "/") ==> StartsWith(Absolute(cwd, p), "/")
  {
    var r := Absolute(cwd, p);
    if !StartsWith(p, "/") {
      if cwd == [] || EndsWith(cwd, "/") {
        assert r == cwd + p;
        assert r[..|cwd|] == cwd && r[|r| - |p|..] == p;
      } else {
        assert r == cwd + "/" + p;
        assert r[..|cwd|] == cwd && r[|r| - |p|..] == p;
      }
    }
  }

  /** One turn of the `for i in ('lib', 'share', 'run', 'log')` loop. */
  function AbsoluteEntry(c: Section, name: string, cwd: string): Result<Section, ConfigError>
  {
    match Get(c, VStr(name))
    case None => Err(MissingKey(name))
    case Some(v) =>
      if !v.VStr? then Err(NotAString(v))
      else if StartsWith(v.s, "/") then Ok(c)
      else Ok(Put(c, VStr(name), VStr(JoinPath(cwd, v.s))))
  }

  function AbsoluteEntries(c: Section, names: seq<string>, cwd: string): Result<Section, ConfigError>
    decreases |names|
  {
    if names == [] then Ok(c)
    else
      var c1 :- AbsoluteEntry(c, names[0], cwd);
      AbsoluteEntries(c1, names[1..], cwd)
  }

  /** The `t_list` built from the `webapps` entries. */
  function AbsoluteWebapps(items: seq<Value>, cwd: string): (r: Result<seq<Value>, ConfigError>)
    decreases |items|
  {
    if items == [] then Ok([])
    else if !items[0].VStr? then Err(NotAString(items[0]))
    else
      var rest :- AbsoluteWebapps(items[1..], cwd);
      Ok([VStr(Absolute(cwd, items[0].s))] + rest)
  }

  /** Every entry of a successful `t_list` is the absolute form of the entry at its index. */
  lemma {:induction false} AbsoluteWebappsEntries(items: seq<Value>, cwd: string)
    ensures AbsoluteWebapps(items, cwd).Ok? <==> forall i :: 0 <= i < |items| ==> items[i].VStr?
    ensures AbsoluteWebapps(items, cwd).Ok? ==>
      var t := AbsoluteWebapps(items, cwd).value;
      |t| == |items| && forall i :: 0 <= i < |t| ==> t[i] == VStr(Absolute(cwd, items[i].s))
    decreases |items|
  {
    if items != [] {
      AbsoluteWebappsEntries(items[1..], cwd);
      var r := AbsoluteWebapps(items, cwd);
      if items[0].VStr? {
        var r' := AbsoluteWebapps(items[1..], cwd);
        if r'.Ok? {
          assert r.value == [VStr(Absolute(cwd, items[0].s))] + r'.value;
          forall i | 0 <= i < |r.value| ensures r.value[i] == VStr(Absolute(cwd, items[i].s)) {
            if i > 0 {
              assert r.value[i] == r'.value[i - 1] && items[1..][i - 1] == items[i];
            }
          }
        } else {
          var i :| 0 <= i < |items[1..]| && !items[1..][i].VStr?;
          assert !items[i + 1].VStr?;
        }
      }
    }
  }

  /** The merged `path` section with its entries made absolute. */
  function PathSection(es: Section, cwd: string): Result<Section, ConfigError>
  {
    var c :- AbsoluteEntries(Update(DefaultPath(), es), DirNames, cwd);
    match Get(c, VStr("webapps"))
    case None => Err(MissingKey("webapps"))
    case Some(w) =>
      match Iterated(w)
      case None => Err(NotIterable(w))
      case Some(items) =>
        var t :- AbsoluteWebapps(items, cwd);
        Ok(Put(c, VStr("webapps"), VList(t)))
  }

  // ---------------------------------------------------------------------------
  // The steps of validate_and_update

  /** The `path` category: filled with the defaults when missing, else checked, merged over the
      defaults and made absolute. */
  function PathStep(d: Section, cwd: string): Result<Section, ConfigError>
  {
    match Get(d, VStr("path"))
    case None => Ok(Put(d, VStr("path"), VDict(DefaultPath())))
    case Some(v) =>
      if !v.VDict? then Err(NotADict("path"))
      else if FirstUnknown(Keys(v.entries), PathNames).Some? then
        Err(UnknownValue("path", FirstUnknown(Keys(v.entries), PathNames).value))
      else
        var c :- PathSection(v.entries, cwd);
        Ok(Put(d, VStr("path"), VDict(c)))
  }

  /** The `server` category: filled when missing, else checked and merged over the defaults. */
  function ServerStep(d: Section): Result<Section, ConfigError>
  {
    match Get(d, VStr("server"))
    case None => Ok(Put(d, VStr("server"), VDict(DefaultServer())))
    case Some(v) =>
      if !v.VDict? then Err(NotADict("server"))
      else if FirstUnknown(Keys(v.entries), ServerNames).Some? then
        Err(UnknownValue("server", FirstUnknown(Keys(v.entries), ServerNames).value))
      else Ok(Put(d, VStr("server"), VDict(Update(DefaultServer(), v.entries))))
  }

  /** A configuration dict and the exception it was left with, if any. */
  datatype Outcome = Outcome(config: Section, error: Option<ConfigError>)

  /** The `security` category. A present one is merged over the defaults and stored BEFORE the
      key is settled, so a missing key leaves the merged section in place. */
  function SecurityStep(d: Section, keyOf: Value -> Value): Outcome
  {
    match Get(d, VStr("security"))
    case None => Outcome(Put(d, VStr("security"), VDict(DefaultSecurity())), None)
    case Some(v) =>
      if !v.VDict? then Outcome(d, Some(NotADict("security")))
      else if FirstUnknown(Keys(v.entries), SecurityNames).Some? then
        Outcome(d, Some(UnknownValue("security", FirstUnknown(Keys(v.entries), SecurityNames).value)))
      else SettleKey(d, Update(DefaultSecurity(), v.entries), keyOf)
  }

  /** The key rule on the merged section `c`, which is stored whatever the rule decides. */
  function SettleKey(d: Section, c: Section, keyOf: Value -> Value): Outcome
  {
    Outcome(Put(d, VStr("security"), VDict(WithKey(c, keyOf))), KeyProblem(c))
  }

  /** `c` with a generated key when `auto_generate_key` is truthy. */
  function WithKey(c: Section, keyOf: Value -> Value): Section
  {
    match Get(c, VStr("auto_generate_key"))
    case None => c
    case Some(auto) =>
      if !Truthy(auto) then c
      else
        match Get(c, VStr("block_size"))
        case None => c
        case Some(size) => Put(c, VStr("key"), keyOf(size))
  }

  /** What the key rule raises: a missing key is an error only without `auto_generate_key`. */
  function KeyProblem(c: Section): Option<ConfigError>
  {
    match Get(c, VStr("auto_generate_key"))
    case None => Some(MissingKey("auto_generate_key"))
    case Some(auto) =>
      if Truthy(auto) then
        if Get(c, VStr("block_size")).None? then Some(MissingKey("block_size")) else None
      else if Get(c, VStr("key")).None? then Some(KeyNotDefined)
      else None
  }

  /** `hostname` and `listen`: set to the default when missing. */
  function FillDefault(d: Section, key: string, default: Value): Section
  {
    if Get(d, VStr(key)).None? then Put(d, VStr(key), default) else d
  }

  /** `uwsgi_options`: merged over the defaults, its keys unchecked. */
  function UwsgiStep(d: Section): Result<Section, ConfigError>
  {
    match Get(d, VStr("uwsgi_options"))
    case None => Ok(Put(d, VStr("uwsgi_options"), VDict(DefaultUwsgiOptions())))
    case Some(v) =>
      if !v.VDict? then Err(NotADict("uwsgi_options"))
      else Ok(Put(d, VStr("uwsgi_options"), VDict(Update(DefaultUwsgiOptions(), v.entries))))
  }

  /** `validate_and_update`: the dict it leaves and what it raises, step by step; a step that
      raises leaves the changes of the earlier steps in place. */
  function Validated(d: Section, cwd: string, keyOf: Value -> Value): Outcome
  {
    match FirstUnknown(Keys(d), Categories)
    case Some(k) => Outcome(d, Some(UnknownCategory(k)))
    case None =>
      match PathStep(d, cwd)
      case Err(e) => Outcome(d, Some(e))
      case Ok(d1) =>
        match ServerStep(d1)
        case Err(e) => Outcome(d1, Some(e))
        case Ok(d2) =>
          var s := SecurityStep(d2, keyOf);
          if s.error.Some? then s
          else
            var d4 := FillDefault(FillDefault(s.config, "hostname", DefaultHostname), "listen", DefaultListen);
            match UwsgiStep(d4)
            case Err(e) => Outcome(d4, Some(e))
            case Ok(d5) => Outcome(d5, None)
  }

  // ---------------------------------------------------------------------------
  // The loaded configuration, updated in place

  class LoadedConfig {
    var entries: Section

    constructor (loaded: Section)
      ensures entries == loaded
    {
      entries := loaded;
    }

    /** `validate_and_update(loaded_config)`. */
    method ValidateAndUpdate(cwd: string, keyOf: Value -> Value) returns (error: Option<ConfigError>)
      modifies this
      ensures Outcome(entries, error) == Validated(old(entries), cwd, keyOf)
    {
      var unknown := CheckKeys(Keys(entries), Categories);
      if unknown.Some? {
        return Some(UnknownCategory(unknown.value));
      }
      var p := UpdatePath(entries, cwd);
      if p.Err? {
        return Some(p.error);
      }
      entries := p.value;
      var s := UpdateServer(entries);
      if s.Err? {
        return Some(s.error);
      }
      entries := s.value;
      var sec := SecurityStep(entries, keyOf);
      entries := sec.config;
      if sec.error.Some? {
        return sec.error;
      }
      entries := FillDefault(FillDefault(entries, "hostname", DefaultHostname), "listen", DefaultListen);
      var u := UwsgiStep(entries);
      if u.Err? {
        return Some(u.error);
      }
      entries := u.value;
      error := None;
    }
  }

  /** The `path` part of `validate_and_update`, with its loops. */
  method UpdatePath(d: Section, cwd: string) returns (r: Result<Section, ConfigError>)
    ensures r == PathStep(d, cwd)
  {
    var got := Get(d, VStr("path"));
    if got.None? {
      return Ok(Put(d, VStr("path"), VDict(DefaultPath())));
    }
    var v := got.value;
    if !v.VDict? {
      return Err(NotADict("path"));
    }
    var unknown := CheckKeys(Keys(v.entries), PathNames);
    if unknown.Some? {
      return Err(UnknownValue("path", unknown.value));
    }
    var c := Update(DefaultPath(), v.entries);
    var i := 0;
    while i < |DirNames|
      invariant 0 <= i <= |DirNames|
      invariant AbsoluteEntries(c, DirNames[i..], cwd) == AbsoluteEntries(Update(DefaultPath(), v.entries), DirNames, cwd)
    {
      var e := AbsoluteEntry(c, DirNames[i], cwd);
      if e.Err? {
        return Err(e.error);
      }
      assert DirNames[i..][1..] == DirNames[i + 1..];
      c := e.value;
      i := i + 1;
    }
    var w := Get(c, VStr("webapps"));
    if w.None? {
      return Err(MissingKey("webapps"));
    }
    var items := Iterated(w.value);
    if items.None? {
      return Err(NotIterable(w.value));
    }
    var t := WebappsList(items.value, cwd);
    if t.Err? {
      return Err(t.error);
    }
    r := Ok(Put(d, VStr("path"), VDict(Put(c, VStr("webapps"), VList(t.value)))));
  }

  /** The `for i in c['webapps']` loop building `t_list`. */
  method WebappsList(items: seq<Value>, cwd: string) returns (r: Result<seq<Value>, ConfigError>)
    ensures r == AbsoluteWebapps(items, cwd)
  {
    var t: seq<Value> := [];
    var i := 0;
    PrependedNone(AbsoluteWebapps(items, cwd));
    while i < |items|
      invariant 0 <= i <= |items|
      invariant AbsoluteWebapps(items, cwd) == Prepended(t, AbsoluteWebapps(items[i..], cwd))
    {
      if !items[i].VStr? {
        return Err(NotAString(items[i]));
      }
      assert items[i..][1..] == items[i + 1..];
      PrependedStep(t, VStr(Absolute(cwd, items[i].s)), AbsoluteWebapps(items[i + 1..], cwd));
      t := t + [VStr(Absolute(cwd, items[i].s))];
      i := i + 1;
    }
    assert t + [] == t;
    return Ok(t);
  }

  /** `r` with `t` in front of its value. */
  function Prepended(t: seq<Value>, r: Result<seq<Value>, ConfigError>): Result<seq<Value>, ConfigError>
  {
    if r.Err? then r else Ok(t + r.value)
  }

  lemma PrependedNone(r: Result<seq<Value>, ConfigError>)
    ensures Prepended([], r) == r
  {
    if r.Ok? {
      assert [] + r.value == r.value;
    }
  }

  lemma PrependedStep(t: seq<Value>, x: Value, r: Result<seq<Value>, ConfigError>)
    ensures Prepended(t, if r.Err? then r else Ok([x] + r.value)) == Prepended(t + [x], r)
  {
    if r.Ok? {
      assert t + ([x] + r.value) == (t + [x]) + r.value;
    }
  }

  /** The `server` part of `validate_and_update`. */
  method UpdateServer(d: Section) returns (r: Result<Section, ConfigError>)
    ensures r == ServerStep(d)
  {
    var got := Get(d, VStr("server"));
    if got.None? {
      return Ok(Put(d, VStr("server"), VDict(DefaultServer())));
    }
    var v := got.value;
    if !v.VDict? {
      return Err(NotADict("server"));
    }
    var unknown := CheckKeys(Keys(v.entries), ServerNames);
    if unknown.Some? {
      return Err(UnknownValue("server", unknown.value));
    }
    r := Ok(Put(d, VStr("server"), VDict(Update(DefaultServer(), v.entries))));
  }

  // ---------------------------------------------------------------------------
  // Properties

  /** An unknown top-level key is refused before anything is changed. */
  lemma UnknownCategoryRefused(d: Section, cwd: string, keyOf: Value -> Value, i: nat)
    requires i < |d| && !Allowed(d[i].0, Categories)
    ensures Validated(d, cwd, keyOf).config == d
    ensures Validated(d, cwd, keyOf).error.Some? && Validated(d, cwd, keyOf).error.value.UnknownCategory?
    ensures !Allowed(Validated(d, cwd, keyOf).error.value.key, Categories)
  {
    assert Keys(d)[i] == d[i].0;
  }

  /** A missing `server` category becomes a copy of the defaults. */
  lemma MissingServerFilled(d: Section)
    requires Get(d, VStr("server")).None?
    ensures ServerStep(d) == Ok(Put(d, VStr("server"), VDict(DefaultServer())))
  {
  }

  /** A supplied `server` section overrides the defaults key by key and keeps the others; an
      unknown key is refused. */
  lemma ServerMerged(d: Section, es: Section, k: Value)
    requires Get(d, VStr("server")) == Some(VDict(es)) && UniqueKeys(es)
    ensures ServerStep(d).Err? <==> exists i :: 0 <= i < |es| && !Allowed(es[i].0, ServerNames)
    ensures ServerStep(d).Ok? ==>
      var s := Get(ServerStep(d).value, VStr("server"));
      s.Some? && s.value.VDict? &&
      Get(s.value.entries, k) == if k in Keys(es) then Get(es, k) else Get(DefaultServer(), k)
  {
    var ks := Keys(es);
    if FirstUnknown(ks, ServerNames).Some? {
      var i :| 0 <= i < |ks| && !Allowed(ks[i], ServerNames);
      assert ks[i] == es[i].0;
    } else {
      forall i | 0 <= i < |es| ensures Allowed(es[i].0, ServerNames) {
        assert ks[i] == es[i].0;
      }
      UpdateGet(DefaultServer(), es, k);
    }
  }

  /** A missing `path` category becomes a copy of the defaults. */
  lemma MissingPathFilled(d: Section, cwd: string)
    requires Get(d, VStr("path")).None?
    ensures PathStep(d, cwd) == Ok(Put(d, VStr("path"), VDict(DefaultPath())))
  {
  }

  /** The default `webapps` entry is a list of one string. */
  lemma DefaultWebappsOneString()
    ensures Get(DefaultPath(), VStr("webapps")) == Some(DefaultWebapps())
    ensures DefaultWebapps().VList? && |DefaultWebapps().items| == 1 && DefaultWebapps().items[0].VStr?
  {
    assert DefaultPath()[0].0 != VStr("webapps") && DefaultPath()[1].0 != VStr("webapps");
    assert DefaultPath()[2].0 == VStr("webapps");
  }

  /** The merged section keeps every default key. */
  lemma MergedPathKeys(es: Section)
    ensures forall n :: n in PathNames ==> VStr(n) in Keys(Update(DefaultPath(), es))
  {
    UpdateKeepsKeys(DefaultPath(), es);
    DefaultPathKeys();
  }

  lemma DefaultPathKeys()
    ensures forall n :: n in PathNames ==> VStr(n) in Keys(DefaultPath())
  {
    var kd := Keys(DefaultPath());
    assert kd[0] == VStr("lib") && kd[1] == VStr("share") && kd[2] == VStr("webapps");
    assert kd[3] == VStr("run") && kd[4] == VStr("log");
  }

  /** One absolutised entry: the entry becomes its absolute form, as a string; every other key
      keeps its value. */
  lemma AbsoluteEntryEffect(c: Section, name: string, cwd: string)
    requires VStr(name) in Keys(c)
    ensures AbsoluteEntry(c, name, cwd).Ok? <==> Get(c, VStr(name)).value.VStr?
    ensures AbsoluteEntry(c, name, cwd).Ok? ==>
      var c1 := AbsoluteEntry(c, name, cwd).value;
      && Get(c1, VStr(name)) == Some(VStr(Absolute(cwd, Get(c, VStr(name)).value.s)))
      && Keys(c1) == Keys(c)
      && forall k :: k != VStr(name) ==> Get(c1, k) == Get(c, k)
  {
  }

  /** Making the directory entries absolute: each listed entry that was a string becomes its
      absolute form, and every other key keeps its value. */
  lemma {:induction false} AbsoluteEntriesEffect(c: Section, names: seq<string>, cwd: string, k: Value)
    requires forall n :: n in names ==> VStr(n) in Keys(c)
    requires forall i, j :: 0 <= i < j < |names| ==> names[i] != names[j]
    ensures AbsoluteEntries(c, names, cwd).Ok? <==> forall n :: n in names ==> Get(c, VStr(n)).value.VStr?
    ensures AbsoluteEntries(c, names, cwd).Ok? ==>
      var c1 := AbsoluteEntries(c, names, cwd).value;
      && (k.VStr? && k.s in names ==> Get(c1, k) == Some(VStr(Absolute(cwd, Get(c, k).value.s))))
      && (!(k.VStr? && k.s in names) ==> Get(c1, k) == Get(c, k))
    decreases |names|
  {
    if names != [] {
      var n := names[0];
      AbsoluteEntryEffect(c, n, cwd);
      var e := AbsoluteEntry(c, n, cwd);
      if e.Ok? {
        var c1 := e.value;
        assert forall m :: m in names[1..] ==> VStr(m) in Keys(c1);
        DistinctTail(names);
        AbsoluteEntriesEffect(c1, names[1..], cwd, k);
        forall m | m in names[1..] ensures Get(c1, VStr(m)) == Get(c, VStr(m)) {
          assert VStr(m) != VStr(n);
        }
        if k.VStr? && k.s == n && AbsoluteEntries(c, names, cwd).Ok? {
          assert Get(AbsoluteEntries(c, names, cwd).value, k) == Get(c1, k);
        }
      } else {
        assert n in names;
      }
    }
  }

  /** The rest of a list of distinct names is distinct and lacks the first. */
  lemma DistinctTail(names: seq<string>)
    requires names != [] && forall i, j :: 0 <= i < j < |names| ==> names[i] != names[j]
    ensures forall i, j :: 0 <= i < j < |names[1..]| ==> names[1..][i] != names[1..][j]
    ensures names[0] !in names[1..]
  {
    forall i, j | 0 <= i < j < |names[1..]| ensures names[1..][i] != names[1..][j] {
      assert names[1..][i] == names[i + 1] && names[1..][j] == names[j + 1];
    }
    forall i | 0 <= i < |names[1..]| ensures names[1..][i] != names[0] {
      assert names[1..][i] == names[i + 1];
    }
  }

  lemma DirNamesFacts()
    ensures forall x :: x in DirNames ==> x in PathNames
    ensures "webapps" !in DirNames
    ensures forall i, j :: 0 <= i < j < |DirNames| ==> DirNames[i] != DirNames[j]
  {
  }

  /** With a supplied `path` section, every directory entry ends up in absolute form: unchanged
      when it starts with "/", joined onto `cwd` otherwise. */
  lemma PathDirsAbsolutised(es: Section, cwd: string, n: string)
    requires n in DirNames
    requires PathSection(es, cwd).Ok?
    ensures var m := Update(DefaultPath(), es);
      && Get(m, VStr(n)).Some? && Get(m, VStr(n)).value.VStr?
      && Get(PathSection(es, cwd).value, VStr(n)) == Some(VStr(Absolute(cwd, Get(m, VStr(n)).value.s)))
  {
    var m := Update(DefaultPath(), es);
    MergedPathKeys(es);
    DirNamesFacts();
    AbsoluteEntriesEffect(m, DirNames, cwd, VStr(n));
    var c := AbsoluteEntries(m, DirNames, cwd).value;
    PathSectionIs(es, cwd);
  }

  /** The successful `path` section is the absolutised merge with `webapps` rebuilt. */
  lemma PathSectionIs(es: Section, cwd: string)
    requires PathSection(es, cwd).Ok?
    ensures var c := AbsoluteEntries(Update(DefaultPath(), es), DirNames, cwd);
      && c.Ok? && Get(c.value, VStr("webapps")).Some? && Iterated(Get(c.value, VStr("webapps")).value).Some?
      && var items := Iterated(Get(c.value, VStr("webapps")).value).value;
      && AbsoluteWebapps(items, cwd).Ok?
      && PathSection(es, cwd).value == Put(c.value, VStr("webapps"), VList(AbsoluteWebapps(items, cwd).value))
  {
  }

  /** With a supplied `path` section, every `webapps` entry is a string, absolute when `cwd` is. */
  lemma PathWebappsAbsolutised(es: Section, cwd: string)
    requires PathSection(es, cwd).Ok?
    ensures var w := Get(PathSection(es, cwd).value, VStr("webapps"));
      w.Some? && w.value.VList? && forall i :: 0 <= i < |w.value.items| ==>
        w.value.items[i].VStr? && (StartsWith(cwd, "/") ==> StartsWith(w.value.items[i].s, "/"))
  {
    PathSectionIs(es, cwd);
    var c := AbsoluteEntries(Update(DefaultPath(), es), DirNames, cwd).value;
    var items := Iterated(Get(c, VStr("webapps")).value).value;
    AbsoluteWebappsEntries(items, cwd);
    var t := AbsoluteWebapps(items, cwd).value;
    forall i | 0 <= i < |t| ensures t[i].VStr? && (StartsWith(cwd, "/") ==> StartsWith(t[i].s, "/")) {
      AbsoluteShape(cwd, items[i].s);
    }
  }

  lemma AllAllowed(es: Section, names: seq<string>)
    requires forall i :: 0 <= i < |es| ==> Allowed(es[i].0, names)
    ensures FirstUnknown(Keys(es), names).None?
  {
    var ks := Keys(es);
    forall i | 0 <= i < |ks| ensures Allowed(ks[i], names) {
      assert ks[i] == es[i].0;
    }
  }

  lemma DefaultSecurityGets()
    ensures Get(DefaultSecurity(), VStr("auto_generate_key")) == Some(VBool(true))
    ensures Get(DefaultSecurity(), VStr("block_size")) == Some(VInt(16))
    ensures Get(DefaultSecurity(), VStr("key")) == None
  {
    assert DefaultSecurity()[0].0 != VStr("auto_generate_key");
    assert DefaultSecurity()[0].0 != VStr("key") && DefaultSecurity()[1].0 != VStr("key");
  }

  /** The key rule: with `auto_generate_key` set (the default) a fresh key replaces any supplied
      one; without it a supplied key is kept and a missing one is refused. */
  lemma SecurityKey(d: Section, es: Section, keyOf: Value -> Value)
    requires Get(d, VStr("security")) == Some(VDict(es)) && UniqueKeys(es)
    requires forall i :: 0 <= i < |es| ==> Allowed(es[i].0, SecurityNames)
    ensures var c := Update(DefaultSecurity(), es);
      var auto := if VStr("auto_generate_key") in Keys(es) then Get(es, VStr("auto_generate_key")).value else VBool(true);
      var size := if VStr("block_size") in Keys(es) then Get(es, VStr("block_size")).value else VInt(16);
      var s := SecurityStep(d, keyOf);
      && (Truthy(auto) ==> s.error.None? && s.config == Put(d, VStr("security"), VDict(Put(c, VStr("key"), keyOf(size)))))
      && (!Truthy(auto) && VStr("key") !in Keys(es) ==> s.error == Some(KeyNotDefined))
      && (!Truthy(auto) && VStr("key") in Keys(es) ==> s.error.None? && s.config == Put(d, VStr("security"), VDict(c)))
  {
    AllAllowed(es, SecurityNames);
    var c := Update(DefaultSecurity(), es);
    DefaultSecurityGets();
    UpdateGet(DefaultSecurity(), es, VStr("auto_generate_key"));
    UpdateGet(DefaultSecurity(), es, VStr("block_size"));
    UpdateGet(DefaultSecurity(), es, VStr("key"));
    assert SecurityStep(d, keyOf) == SettleKey(d, c, keyOf);
  }

  /** Without a `security` category no key is generated: the defaults hold none. */
  lemma NoSecurityNoKey(d: Section, keyOf: Value -> Value)
    requires Get(d, VStr("security")).None?
    ensures SecurityStep(d, keyOf) == Outcome(Put(d, VStr("security"), VDict(DefaultSecurity())), None)
    ensures Get(DefaultSecurity(), VStr("key")).None?
  {
  }

  /** `uwsgi_options` keys are not validated: any dict is merged. */
  lemma UwsgiUnchecked(d: Section, es: Section, k: Value)
    requires Get(d, VStr("uwsgi_options")) == Some(VDict(es)) && UniqueKeys(es)
    ensures UwsgiStep(d).Ok?
    ensures var u := Get(UwsgiStep(d).value, VStr("uwsgi_options")).value.entries;
      Get(u, k) == if k in Keys(es) then Get(es, k) else Get(DefaultUwsgiOptions(), k)
  {
    UpdateGet(DefaultUwsgiOptions(), es, k);
  }

  /** A completed configuration has every category, whatever was missing. */
  lemma CompletedHasCategories(d: Section, cwd: string, keyOf: Value -> Value, n: string)
    requires n in Categories
    requires Validated(d, cwd, keyOf).error.None?
    ensures Get(Validated(d, cwd, keyOf).config, VStr(n)).Some?
  {
    var d1 := PathStep(d, cwd).value;
    var d2 := ServerStep(d1).value;
    var s := SecurityStep(d2, keyOf);
    var d3 := FillDefault(s.config, "hostname", DefaultHostname);
    var d4 := FillDefault(d3, "listen", DefaultListen);
    var d5 := UwsgiStep(d4).value;
    assert Validated(d, cwd, keyOf).config == d5;
    CategoryCases(n);
    StepsKeep(d, cwd, keyOf, VStr(n));
  }

  lemma CategoryCases(n: string)
    requires n in Categories
    ensures n == "path" || n == "server" || n == "hostname" || n == "listen" || n == "security" || n == "uwsgi_options"
  {
  }

  /** Each step keeps the keys it finds and adds its own category. */
  lemma StepsKeep(d: Section, cwd: string, keyOf: Value -> Value, k: Value)
    requires PathStep(d, cwd).Ok?
    requires ServerStep(PathStep(d, cwd).value).Ok?
    requires SecurityStep(ServerStep(PathStep(d, cwd).value).value, keyOf).error.None?
    requires var d3 := SecurityStep(ServerStep(PathStep(d, cwd).value).value, keyOf).config;
      UwsgiStep(FillDefault(FillDefault(d3, "hostname", DefaultHostname), "listen", DefaultListen)).Ok?
    requires k == VStr("path") || k == VStr("server") || k == VStr("security") || k == VStr("hostname")
          || k == VStr("listen") || k == VStr("uwsgi_options")
    ensures var d3 := SecurityStep(ServerStep(PathStep(d, cwd).value).value, keyOf).config;
      Get(UwsgiStep(FillDefault(FillDefault(d3, "hostname", DefaultHostname), "listen", DefaultListen)).value, k).Some?
  {
    var d1 := PathStep(d, cwd).value;
    var d2 := ServerStep(d1).value;
    var d3 := SecurityStep(d2, keyOf).config;
    var d4 := FillDefault(FillDefault(d3, "hostname", DefaultHostname), "listen", DefaultListen);
    var d5 := UwsgiStep(d4).value;
    PathStepKeeps(d, cwd, k);
    ServerStepKeeps(d1, k);
    SecurityStepKeeps(d2, keyOf, k);
    FillKeeps(d3, "hostname", DefaultHostname, k);
    FillKeeps(FillDefault(d3, "hostname", DefaultHostname), "listen", DefaultListen, k);
    UwsgiStepKeeps(d4, k);
    if k != VStr("uwsgi_options") {
      if k != VStr("listen") {
        if k != VStr("hostname") {
          if k != VStr("security") {
            assert Get(d2, k).Some?;
          }
          assert Get(d3, k).Some?;
        }
        assert Get(FillDefault(d3, "hostname", DefaultHostname), k).Some?;
      }
      assert Get(d4, k).Some?;
    }
  }

  lemma PathStepKeeps(d: Section, cwd: string, k: Value)
    requires PathStep(d, cwd).Ok?
    ensures Get(PathStep(d, cwd).value, VStr("path")).Some?
    ensures Get(d, k).Some? ==> Get(PathStep(d, cwd).value, k).Some?
  {
    var got := Get(d, VStr("path"));
    var x := if got.None? then VDict(DefaultPath()) else VDict(PathSection(got.value.entries, cwd).value);
    assert PathStep(d, cwd).value == Put(d, VStr("path"), x);
    PutKeeps(d, VStr("path"), x, k);
  }

  lemma PutKeeps(d: Section, key: Value, v: Value, k: Value)
    ensures Get(Put(d, key, v), key).Some?
    ensures Get(d, k).Some? ==> Get(Put(d, key, v), k).Some?
  {
    if k != key {
      assert Get(Put(d, key, v), k) == Get(d, k);
    }
  }

  lemma ServerStepKeeps(d: Section, k: Value)
    requires ServerStep(d).Ok?
    ensures Get(ServerStep(d).value, VStr("server")).Some?
    ensures Get(d, k).Some? ==> Get(ServerStep(d).value, k).Some?
  {
  }

  lemma SecurityStepKeeps(d: Section, keyOf: Value -> Value, k: Value)
    requires SecurityStep(d, keyOf).error.None?
    ensures Get(SecurityStep(d, keyOf).config, VStr("security")).Some?
    ensures Get(d, k).Some? ==> Get(SecurityStep(d, keyOf).config, k).Some?
  {
    var got := Get(d, VStr("security"));
    if got.None? {
      PutKeeps(d, VStr("security"), VDict(DefaultSecurity()), k);
    } else {
      PutKeeps(d, VStr("security"), VDict(WithKey(Update(DefaultSecurity(), got.value.entries), keyOf)), k);
    }
  }

  lemma FillKeeps(d: Section, key: string, v: Value, k: Value)
    ensures Get(FillDefault(d, key, v), VStr(key)).Some?
    ensures Get(d, k).Some? ==> Get(FillDefault(d, key, v), k).Some?
  {
  }

  lemma UwsgiStepKeeps(d: Section, k: Value)
    requires UwsgiStep(d).Ok?
    ensures Get(UwsgiStep(d).value, VStr("uwsgi_options")).Some?
    ensures Get(d, k).Some? ==> Get(UwsgiStep(d).value, k).Some?
  {
  }
}
