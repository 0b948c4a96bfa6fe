/** lib/BlackPearl/core/urls.py: the module-level staging map in which `add_url` files a
    handler under its normalised url and the location of the module that defines it. */
module CoreUrls {
  import CoreUtils

  /** The `details` dict passed to `add_url`; handlers are opaque identities. */
  datatype Details = Details(url: string, handler: nat, signature: seq<CoreUtils.Param>, moduleNs: string, moduleLoc: string)

  /** The staged value `[func, signature, module_ns]`. */
  datatype Staged = Staged(handler: nat, signature: seq<CoreUtils.Param>, moduleNs: string)

  /** The key `add_url` stores under: the normalised url and the module location. */
  function StageKey(d: Details): (string, string)
  {
    (CoreUtils.NormalizedUrl(d.url), d.moduleLoc)
  }

  function StagedOf(d: Details): Staged
  {
    Staged(d.handler, d.signature, d.moduleNs)
  }

  /** `url_map_stage`. */
  class UrlStage {
    var stage: map<(string, string), Staged>

    constructor ()
      ensures stage == map[]
    {
      stage := map[];
    }

    /** `add_url`: the url is normalised by the same segment loop as `fixurl`, and the
        entry under `(url, module_loc)` is overwritten. */
    method AddUrl(details: Details)
      modifies this
      ensures stage == old(stage)[StageKey(details) := StagedOf(details)]
    {
      var url := CoreUtils.FixUrl(details.url);
      stage := stage[(url, details.moduleLoc) := Staged(details.handler, details.signature, details.moduleNs)];
    }
  }

  /** The staging map after `add_url(d)`. */
  function AddedUrl(stage: map<(string, string), Staged>, d: Details): map<(string, string), Staged>
  {
    stage[StageKey(d) := StagedOf(d)]
  }

  /** Staging a key that is already staged replaces its entry; every other entry is kept. */
  lemma AddUrlOverwrites(stage: map<(string, string), Staged>, d: Details)
    ensures StageKey(d) in AddedUrl(stage, d) && AddedUrl(stage, d)[StageKey(d)] == StagedOf(d)
    ensures AddedUrl(stage, d).Keys == stage.Keys + {StageKey(d)}
    ensures forall k :: k in stage && k != StageKey(d) ==> AddedUrl(stage, d)[k] == stage[k]
  {
  }

  /** The same url from two module locations gives two entries; the later registration does not
      disturb the earlier one. */
  lemma SameUrlOtherLocation(stage: map<(string, string), Staged>, d1: Details, d2: Details)
    requires d1.moduleLoc != d2.moduleLoc
    ensures var s := AddedUrl(AddedUrl(stage, d1), d2);
      StageKey(d1) in s && s[StageKey(d1)] == StagedOf(d1) && s[StageKey(d2)] == StagedOf(d2)
  {
  }

  /** The staged url starts with "/", holds no "//", and is already normalised, so staging it
      again gives the same key. */
  lemma StagedUrlNormalised(d: Details)
    ensures var u := StageKey(d).0; |u| >= 1 && u[0] == '/' && CoreUtils.NoDoubleSlash(u)
    ensures StageKey(d.(url := StageKey(d).0)) == StageKey(d)
  {
    CoreUtils.NormalizedUrlShape(d.url);
    CoreUtils.FixUrlIdempotent(d.url);
  }
}
