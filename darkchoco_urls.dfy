/** lib/darkchoco/core/urls.py: the module-level url tables. `add_url` stages a handler under its
    url and the file defining it; `initialize` hands every staged handler to the webapp whose
    folder holds its file and whose handler list names its module, and publishes it in `url_map`
    under the webapp's url prefix. A staged value is a Python list that the registration appends
    the webapp to and that `url_map` then shares; the model keeps one copy of each list in
    `stage` and lets `url_map` name it by its stage key. */
module DarkchocoUrls {
  import opened Wrappers
  import opened PyStr
  import opened PyDict
  import Seqs

  /** A stage key: the handler's url and the path of the file that defines it. */
  type StageKey = (string, string)

  /** The `details` dict a decorator passes to `add_url`. */
  datatype Details = Details(url: string, handler: nat, signature: nat, moduleNs: string, moduleLoc: string)

  /** A staged value list: `[func, signature, module_ns]`, then the webapps appended to it. */
  datatype Staged = Staged(handler: nat, signature: nat, moduleNs: string, apps: seq<nat>)

  /** What registration reads of a webapp: its identity, folder path, url prefix and handler
      module names. */
  datatype WebappInfo = WebappInfo(id: nat, location: string, urlPrefix: string, handlers: seq<string>)

  /** The entry the new staging assignment writes. */
  function StagedOf(d: Details): Staged
  {
    Staged(d.handler, d.signature, d.moduleNs, [])
  }

  /** The webapp takes a staged entry: the defining file lies under the webapp's folder (a plain
      prefix test on the path) and its module is in the webapp's handler list. */
  predicate Claims(app: WebappInfo, e: (StageKey, Staged))
  {
    StartsWith(e.0.1, app.location) && e.1.moduleNs in app.handlers
  }

  /** The published url: the staged one under an empty prefix, "/" + prefix + url otherwise. */
  function MappedUrl(app: WebappInfo, url: string): string
  {
    if |app.urlPrefix| == 0 then url else "/" + app.urlPrefix + url
  }

  /** One staged entry after the registration loop has seen it. */
  function MarkOne(app: WebappInfo, e: (StageKey, Staged)): (StageKey, Staged)
  {
    if Claims(app, e) then (e.0, e.1.(apps := e.1.apps + [app.id])) else e
  }

  /** The stage after one webapp's registration: each entry it takes has the webapp appended. */
  function Marked(stage: Dict<StageKey, Staged>, app: WebappInfo): (r: Dict<StageKey, Staged>)
    ensures |r| == |stage| && forall i :: 0 <= i < |stage| ==> r[i] == MarkOne(app, stage[i])
  {
    seq(|stage|, i requires 0 <= i < |stage| => MarkOne(app, stage[i]))
  }

  /** The `url_map` assignments of one webapp's registration, in stage order. */
  function Claimed(stage: Dict<StageKey, Staged>, app: WebappInfo): seq<(string, StageKey)>
    decreases |stage|
  {
    if stage == [] then []
    else
      var e := stage[|stage| - 1];
      Claimed(stage[..|stage| - 1], app) + if Claims(app, e) then [(MappedUrl(app, e.0.0), e.0)] else []
  }

  /** The tables after `initialize` has registered the webapps in order. */
  function AfterApps(stage: Dict<StageKey, Staged>, urlMap: Dict<string, StageKey>, apps: seq<WebappInfo>)
    : (Dict<StageKey, Staged>, Dict<string, StageKey>)
    decreases |apps|
  {
    if apps == [] then (stage, urlMap)
    else
      var (s, u) := AfterApps(stage, urlMap, apps[..|apps| - 1]);
      var app := apps[|apps| - 1];
      (Marked(s, app), Assigned(u, Claimed(s, app)))
  }

  /** The ids of the webapps that take an entry, in registration order. */
  function ClaimingIds(apps: seq<WebappInfo>, e: (StageKey, Staged)): seq<nat>
    decreases |apps|
  {
    if apps == [] then []
    else ClaimingIds(apps[..|apps| - 1], e) + if Claims(apps[|apps| - 1], e) then [apps[|apps| - 1].id] else []
  }

  /** The module's two tables and whether the name `url_map_stage` is still bound. */
  class UrlTables {
    var urlMap: Dict<string, StageKey>
    var stage: Dict<StageKey, Staged>
    var stageBound: bool

    /** Each dict holds a key once and every published url names a staged list. */
    predicate Valid()
      reads this
    {
      UniqueKeys(stage) && UniqueKeys(urlMap)
      && forall i :: 0 <= i < |urlMap| ==> urlMap[i].1 in Keys(stage)
    }

    /** `url_map[url]`: the staged list the url was published with. */
    function Lookup(url: string): Option<Staged>
      reads this
    {
      match Get(urlMap, url)
      case None => None
      case Some(k) => Get(stage, k)
    }

    /** The tables at import: both empty. */
    constructor()
      ensures Valid() && urlMap == [] && stage == [] && stageBound
    {
      urlMap := [];
      stage := [];
      stageBound := true;
    }

    /** `add_url`: stages the entry under (url, module_loc), overwriting one with the same key;
        once `initialize` has deleted the staging map it fails with a `NameError` (`ok` false). */
    method AddUrl(d: Details) returns (ok: bool)
      requires Valid()
      modifies this
      ensures Valid()
      ensures ok == old(stageBound) && stageBound == old(stageBound) && urlMap == old(urlMap)
      ensures stage == if ok then Put(old(stage), (d.url, d.moduleLoc), StagedOf(d)) else old(stage)
    {
      if !stageBound {
        return false;
      }
      var key := (d.url, d.moduleLoc);
      PutKeepsUnique(stage, key, StagedOf(d));
      PutKeys(stage, key, StagedOf(d));
      stage := Put(stage, key, StagedOf(d));
      return true;
    }

    /** `ammend_urls_with_webapp_info`: walks the stage in order; an entry the webapp takes gets
        the webapp appended and is published under its mapped url; the others are skipped. */
    method Amend(app: WebappInfo) returns (ok: bool)
      requires Valid()
      modifies this
      ensures Valid()
      ensures ok == old(stageBound) && stageBound == old(stageBound)
      ensures ok ==> stage == Marked(old(stage), app) && urlMap == Assigned(old(urlMap), Claimed(old(stage), app))
      ensures !ok ==> stage == old(stage) && urlMap == old(urlMap)
    {
      if !stageBound {
        return false;
      }
      var s := stage;
      var u := urlMap;
      var i := 0;
      while i < |s|
        invariant |s| == |old(stage)| && 0 <= i <= |s| && stageBound
        invariant s == PartMarked(old(stage), app, i)
        invariant u == Assigned(old(urlMap), Claimed(old(stage)[..i], app))
      {
        MarkStep(old(stage), app, i);
        PublishStep(old(stage), old(urlMap), app, i);
        var (key, value) := s[i];
        if StartsWith(key.1, app.location) && value.moduleNs in app.handlers {
          s := s[i := (key, value.(apps := value.apps + [app.id]))];
          var url := if |app.urlPrefix| == 0 then key.0 else "/" + app.urlPrefix + key.0;
          u := Put(u, url, key);
        }
        i := i + 1;
      }
      AmendDone(old(stage), old(urlMap), app);
      stage, urlMap := s, u;
      return true;
    }

    /** `initialize`: registers the webapps in order, then deletes the staging map; with the name
        already gone it fails with a `NameError` before changing anything. */
    method Initialize(apps: seq<WebappInfo>) returns (ok: bool)
      requires Valid()
      modifies this
      ensures Valid()
      ensures ok == old(stageBound) && !stageBound
      ensures ok ==> (stage, urlMap) == AfterApps(old(stage), old(urlMap), apps)
      ensures !ok ==> stage == old(stage) && urlMap == old(urlMap)
    {
      if !stageBound {
        return false;
      }
      var k := 0;
      while k < |apps|
        invariant 0 <= k <= |apps| && Valid() && stageBound
        invariant stage == AfterApps(old(stage), old(urlMap), apps[..k]).0
        invariant urlMap == AfterApps(old(stage), old(urlMap), apps[..k]).1
      {
        AfterAppsStep(old(stage), old(urlMap), apps, k);
        var _ := Amend(apps[k]);
        k := k + 1;
      }
      assert apps[..k] == apps;
      stageBound := false;
      return true;
    }
  }

  // ---------------------------------------------------------------------------
  // Frame lemmas for the methods

  lemma PutKeys<K(!new), V>(d: Dict<K, V>, k: K, v: V)
    ensures forall j :: 0 <= j < |d| ==> d[j].0 in Keys(Put(d, k, v))
  {
    forall j | 0 <= j < |d| ensures d[j].0 in Keys(Put(d, k, v)) {
      assert Keys(d)[j] == d[j].0;
      if d[j].0 != k {
        assert Get(d, d[j].0).Some?;
      }
    }
  }

  /** The stage part-way through the registration loop: the first `i` entries seen. */
  function PartMarked(stage: Dict<StageKey, Staged>, app: WebappInfo, i: nat): Dict<StageKey, Staged>
  {
    seq(|stage|, j requires 0 <= j < |stage| => if j < i then MarkOne(app, stage[j]) else stage[j])
  }

  /** One round of the registration loop on the stage, from the state after `i` entries. */
  lemma MarkStep(stage: Dict<StageKey, Staged>, app: WebappInfo, i: nat)
    requires i < |stage|
    ensures |PartMarked(stage, app, i)| == |stage| && PartMarked(stage, app, i)[i] == stage[i]
    ensures PartMarked(stage, app, i + 1) == PartMarked(stage, app, i)[i := MarkOne(app, stage[i])]
  {
    var s := PartMarked(stage, app, i);
    var t := PartMarked(stage, app, i + 1);
    assert |t| == |s[i := MarkOne(app, stage[i])]|;
    forall j | 0 <= j < |t| ensures t[j] == s[i := MarkOne(app, stage[i])][j] {
    }
  }

  /** One round of the registration loop on `url_map`. */
  lemma PublishStep(stage: Dict<StageKey, Staged>, urlMap: Dict<string, StageKey>, app: WebappInfo, i: nat)
    requires i < |stage|
    ensures Assigned(urlMap, Claimed(stage[..i + 1], app)) ==
      if Claims(app, stage[i]) then Put(Assigned(urlMap, Claimed(stage[..i], app)), MappedUrl(app, stage[i].0.0), stage[i].0)
      else Assigned(urlMap, Claimed(stage[..i], app))
  {
    ClaimedStep(stage, app, i);
    var c := Claimed(stage[..i], app);
    if Claims(app, stage[i]) {
      AssignedStep(urlMap, c, (MappedUrl(app, stage[i].0.0), stage[i].0));
    } else {
      assert c + [] == c;
    }
  }

  /** One round of the `initialize` loop. */
  lemma AfterAppsStep(stage: Dict<StageKey, Staged>, urlMap: Dict<string, StageKey>, apps: seq<WebappInfo>, k: nat)
    requires k < |apps|
    ensures var p := AfterApps(stage, urlMap, apps[..k]);
      AfterApps(stage, urlMap, apps[..k + 1]) == (Marked(p.0, apps[k]), Assigned(p.1, Claimed(p.0, apps[k])))
  {
    assert apps[..k + 1][..k] == apps[..k];
  }

  /** The loop's end state. */
  lemma AmendDone(stage: Dict<StageKey, Staged>, urlMap: Dict<string, StageKey>, app: WebappInfo)
    requires UniqueKeys(stage) && UniqueKeys(urlMap)
    requires forall i :: 0 <= i < |urlMap| ==> urlMap[i].1 in Keys(stage)
    ensures PartMarked(stage, app, |stage|) == Marked(stage, app)
    ensures stage[..|stage|] == stage
    ensures var s := Marked(stage, app); var u := Assigned(urlMap, Claimed(stage, app));
      UniqueKeys(s) && UniqueKeys(u) && forall i :: 0 <= i < |u| ==> u[i].1 in Keys(s)
  {
    assert stage[..|stage|] == stage;
    AmendKeepsValid(stage, urlMap, app);
  }

  /** One round of the registration loop. */
  lemma ClaimedStep(stage: Dict<StageKey, Staged>, app: WebappInfo, i: nat)
    requires i < |stage|
    ensures Claimed(stage[..i + 1], app) == Claimed(stage[..i], app)
      + if Claims(app, stage[i]) then [(MappedUrl(app, stage[i].0.0), stage[i].0)] else []
  {
    assert stage[..i + 1][..i] == stage[..i];
  }

  /** Registration changes no key of the stage. */
  lemma MarkedKeys(stage: Dict<StageKey, Staged>, app: WebappInfo)
    ensures Keys(Marked(stage, app)) == Keys(stage)
  {
  }

  /** Every url `Claimed` publishes names an entry of the stage. */
  lemma {:induction false} ClaimedFromStage(stage: Dict<StageKey, Staged>, app: WebappInfo)
    ensures forall i :: 0 <= i < |Claimed(stage, app)| ==> Claimed(stage, app)[i].1 in Keys(stage)
    decreases |stage|
  {
    if stage != [] {
      var n := |stage| - 1;
      ClaimedFromStage(stage[..n], app);
      assert Keys(stage[..n]) == Keys(stage)[..n];
      assert Keys(stage)[n] == stage[n].0;
    }
  }

  /** The values after the assignments come from the dict before or from the pairs. */
  lemma {:induction false} AssignedValues<K(!new), V>(d: Dict<K, V>, kvs: seq<(K, V)>, p: V -> bool)
    requires forall i :: 0 <= i < |d| ==> p(d[i].1)
    requires forall i :: 0 <= i < |kvs| ==> p(kvs[i].1)
    ensures forall i :: 0 <= i < |Assigned(d, kvs)| ==> p(Assigned(d, kvs)[i].1)
    decreases |kvs|
  {
    if kvs != [] {
      var n := |kvs| - 1;
      AssignedValues(d, kvs[..n], p);
      var a := Assigned(d, kvs[..n]);
      PutEntries(a, kvs[n].0, kvs[n].1);
      var r := Put(a, kvs[n].0, kvs[n].1);
      forall i | 0 <= i < |r| ensures p(r[i].1) {
        if r[i] != (kvs[n].0, kvs[n].1) {
          var j :| 0 <= j < |a| && a[j] == r[i];
        }
      }
    }
  }

  lemma AmendKeepsValid(stage: Dict<StageKey, Staged>, urlMap: Dict<string, StageKey>, app: WebappInfo)
    requires UniqueKeys(stage) && UniqueKeys(urlMap)
    requires forall i :: 0 <= i < |urlMap| ==> urlMap[i].1 in Keys(stage)
    ensures var s := Marked(stage, app); var u := Assigned(urlMap, Claimed(stage, app));
      UniqueKeys(s) && UniqueKeys(u) && forall i :: 0 <= i < |u| ==> u[i].1 in Keys(s)
  {
    MarkedKeys(stage, app);
    var s := Marked(stage, app);
    assert UniqueKeys(s) by {
      forall i, j | 0 <= i < j < |s| ensures s[i].0 != s[j].0 {
        assert s[i].0 == stage[i].0 && s[j].0 == stage[j].0;
      }
    }
    AssignedUnique(urlMap, Claimed(stage, app));
    ClaimedFromStage(stage, app);
    AssignedValues(urlMap, Claimed(stage, app), (k: StageKey) => k in Keys(stage));
  }

  // ---------------------------------------------------------------------------
  // Properties

  /** A repeated stage key overwrites: staging twice under one key leaves the second entry, in
      the place the first took, and every other key keeps its entry. */
  lemma {:induction false} AddUrlOverwrites(stage: Dict<StageKey, Staged>, d1: Details, d2: Details)
    requires (d1.url, d1.moduleLoc) == (d2.url, d2.moduleLoc)
    ensures Put(Put(stage, (d1.url, d1.moduleLoc), StagedOf(d1)), (d2.url, d2.moduleLoc), StagedOf(d2))
      == Put(stage, (d2.url, d2.moduleLoc), StagedOf(d2))
    decreases |stage|
  {
    var k := (d1.url, d1.moduleLoc);
    if stage != [] && stage[0].0 != k {
      AddUrlOverwrites(stage[1..], d1, d2);
      PutFirstOther(stage, k, StagedOf(d1));
      PutFirstOther(Put(stage, k, StagedOf(d1)), k, StagedOf(d2));
      PutFirstOther(stage, k, StagedOf(d2));
    }
  }

  /** The last pair with key `k` in a sequence extended by some pairs. */
  lemma LastValueAppend<K, V>(kvs: seq<(K, V)>, more: seq<(K, V)>, k: K)
    requires |more| <= 1
    ensures LastValue(kvs + more, k) == if more != [] && more[0].0 == k then Some(more[0].1) else LastValue(kvs, k)
  {
    if more != [] {
      assert (kvs + more)[..|kvs + more| - 1] == kvs;
    } else {
      assert kvs + more == kvs;
    }
  }

  /** The url `u` receives an assignment exactly when some entry the webapp takes maps to it, and
      the entry assigned last is the last such entry in stage order. */
  lemma {:induction false} ClaimedLast(stage: Dict<StageKey, Staged>, app: WebappInfo, u: string)
    ensures LastValue(Claimed(stage, app), u).None? <==>
      forall i :: 0 <= i < |stage| ==> !(Claims(app, stage[i]) && MappedUrl(app, stage[i].0.0) == u)
    ensures forall i ::
      (0 <= i < |stage| && Claims(app, stage[i]) && MappedUrl(app, stage[i].0.0) == u
       && forall j :: i < j < |stage| ==> !(Claims(app, stage[j]) && MappedUrl(app, stage[j].0.0) == u))
      ==> LastValue(Claimed(stage, app), u) == Some(stage[i].0)
    decreases |stage|
  {
    if stage != [] {
      var n := |stage| - 1;
      var init := stage[..n];
      var e := stage[n];
      var more := if Claims(app, e) then [(MappedUrl(app, e.0.0), e.0)] else [];
      ClaimedLast(init, app, u);
      LastValueAppend(Claimed(init, app), more, u);
      forall i | 0 <= i < n ensures init[i] == stage[i] {
      }
    }
  }

  /** After one webapp's registration, `url_map[u]` names the last entry the webapp takes that
      maps to `u`, and keeps its earlier value when no such entry exists: an entry whose module
      is not in the handler list, or whose file lies outside the webapp, is never published. */
  lemma AmendLookup(stage: Dict<StageKey, Staged>, urlMap: Dict<string, StageKey>, app: WebappInfo, u: string)
    ensures (forall i :: 0 <= i < |stage| ==> !(Claims(app, stage[i]) && MappedUrl(app, stage[i].0.0) == u))
      ==> Get(Assigned(urlMap, Claimed(stage, app)), u) == Get(urlMap, u)
    ensures forall i ::
      (0 <= i < |stage| && Claims(app, stage[i]) && MappedUrl(app, stage[i].0.0) == u
       && forall j :: i < j < |stage| ==> !(Claims(app, stage[j]) && MappedUrl(app, stage[j].0.0) == u))
      ==> Get(Assigned(urlMap, Claimed(stage, app)), u) == Some(stage[i].0)
  {
    AssignedGet(urlMap, Claimed(stage, app), u);
    ClaimedLast(stage, app, u);
  }

  /** Whether a webapp takes an entry does not depend on the webapps already appended to it. */
  lemma ClaimsIgnoreApps(app: WebappInfo, e: (StageKey, Staged), ids: seq<nat>)
    ensures Claims(app, (e.0, e.1.(apps := ids))) == Claims(app, e)
  {
  }

  /** So a webapp's registration sees the same entries whatever was registered before it. */
  lemma {:induction false} ClaimedAfterMarking(stage: Dict<StageKey, Staged>, a: WebappInfo, b: WebappInfo)
    ensures Claimed(Marked(stage, a), b) == Claimed(stage, b)
    decreases |stage|
  {
    if stage != [] {
      var n := |stage| - 1;
      var m := Marked(stage, a);
      assert m[..n] == Marked(stage[..n], a);
      ClaimedAfterMarking(stage[..n], a, b);
    }
  }

  /** `initialize` keeps every stage key in place, and each staged list ends up with the webapps
      that take it appended in registration order; an entry no webapp takes is left as staged. */
  lemma {:induction false} InitializeAppends(stage: Dict<StageKey, Staged>, urlMap: Dict<string, StageKey>, apps: seq<WebappInfo>)
    ensures var s := AfterApps(stage, urlMap, apps).0;
      |s| == |stage| && forall i :: 0 <= i < |stage| ==>
        s[i].0 == stage[i].0 && s[i].1 == stage[i].1.(apps := stage[i].1.apps + ClaimingIds(apps, stage[i]))
    decreases |apps|
  {
    if apps != [] {
      var n := |apps| - 1;
      InitializeAppends(stage, urlMap, apps[..n]);
      var s0 := AfterApps(stage, urlMap, apps[..n]).0;
      var s := AfterApps(stage, urlMap, apps).0;
      assert s == Marked(s0, apps[n]);
      forall i | 0 <= i < |stage|
        ensures s[i].0 == stage[i].0 && s[i].1 == stage[i].1.(apps := stage[i].1.apps + ClaimingIds(apps, stage[i]))
      {
        ClaimsIgnoreApps(apps[n], stage[i], s0[i].1.apps);
        assert s0[i] == (stage[i].0, stage[i].1.(apps := s0[i].1.apps));
        var add := if Claims(apps[n], stage[i]) then [apps[n].id] else [];
        assert ClaimingIds(apps, stage[i]) == ClaimingIds(apps[..n], stage[i]) + add;
        assert s[i] == MarkOne(apps[n], s0[i]);
        assert s[i].1.apps == s0[i].1.apps + add;
        Seqs.AppendAssoc(stage[i].1.apps, ClaimingIds(apps[..n], stage[i]), add);
      }
    }
  }

  /** An entry staged by `add_url` and taken by exactly one webapp holds that webapp alone, so
      its published value is the four-element list `[func, signature, module_ns, webapp]`. */
  lemma {:induction false} OneClaimOneApp(apps: seq<WebappInfo>, e: (StageKey, Staged), k: nat)
    requires k < |apps| && Claims(apps[k], e)
    requires forall j :: 0 <= j < |apps| && j != k ==> !Claims(apps[j], e)
    ensures ClaimingIds(apps, e) == [apps[k].id]
    decreases |apps|
  {
    var n := |apps| - 1;
    var init := apps[..n];
    if k < n {
      forall j | 0 <= j < |init| && j != k ensures !Claims(init[j], e) {
        assert init[j] == apps[j];
      }
      assert init[k] == apps[k];
      OneClaimOneApp(init, e, k);
    } else {
      NoClaims(init, e);
    }
  }

  lemma {:induction false} NoClaims(apps: seq<WebappInfo>, e: (StageKey, Staged))
    requires forall j :: 0 <= j < |apps| ==> !Claims(apps[j], e)
    ensures ClaimingIds(apps, e) == []
    decreases |apps|
  {
    if apps != [] {
      var n := |apps| - 1;
      forall j | 0 <= j < n ensures !Claims(apps[..n][j], e) {
        assert apps[..n][j] == apps[j];
      }
      NoClaims(apps[..n], e);
    }
  }
}
