/**
 * The asset loading of `loadTextures`: every load callback stores its
 * resource under its name and counts itself; the load resolves when the
 * count reaches the number of assets requested.
 *
 * The fetches themselves and the Promise are not modelled: a callback is an
 * input, and resolving the Promise is the `resolved` flag together with a
 * count of the calls to the resolve function.
 */
module Loading {
  import opened Optional

  /** Handle of a loaded asset: the glTF scene or a texture. */
  type Resource = nat

  /**
   * The names of the assets fetched with the glTF loader (the fox model,
   * from `/assets/models/Fox/glTF-Binary/Fox.glb`).
   */
  const GltfAssets: seq<string> := ["fox"]

  /**
   * The names of the assets fetched with the plain texture loader (the two
   * dirt textures under `assets/textures/dirt/`).
   */
  const CommonAssets: seq<string> := ["floorColor", "floorNormal"]

  /** `resourcesToLoad`: one callback is expected per asset. */
  const ResourcesToLoad: nat := |GltfAssets| + |CommonAssets|

  /** The names of all requested assets. */
  function AssetNames(): set<string> {
    set n | n in GltfAssets + CommonAssets
  }

  /** The three assets have three distinct names. */
  lemma AssetNamesAreDistinct()
    ensures AssetNames() == {"fox", "floorColor", "floorNormal"}
    ensures |AssetNames()| == ResourcesToLoad == 3
  {
  }

  /** One call of `onLoadCallback(name, texture)`. */
  datatype Callback = Callback(name: string, resource: Resource)

  /** The loader's state: the resource map, `resourcesLoaded`, and the Promise. */
  datatype Progress = Progress(resources: map<string, Resource>, loaded: nat, resolved: bool, resolveCalls: nat)

  const Start: Progress := Progress(map[], 0, false, 0)

  /** `onLoadCallback`: store, count, and resolve when the count equals the total. */
  function OnLoad(p: Progress, cb: Callback): (r: Progress)
    ensures r.resources == p.resources[cb.name := cb.resource] && cb.name in r.resources
    ensures r.loaded == p.loaded + 1
    // the Promise becomes resolved exactly at the callback that brings the count to the total
    ensures r.resolved <==> p.resolved || r.loaded == ResourcesToLoad
    ensures r.resolveCalls == p.resolveCalls + (if p.loaded + 1 == ResourcesToLoad then 1 else 0)
  {
    var stored := p.(resources := p.resources[cb.name := cb.resource], loaded := p.loaded + 1);
    if stored.loaded == ResourcesToLoad then stored.(resolved := true, resolveCalls := stored.resolveCalls + 1)
    else stored
  }

  /** The loader after the callbacks of `cbs`, in order. */
  function Deliver(p: Progress, cbs: seq<Callback>): Progress {
    if cbs == [] then p else OnLoad(Deliver(p, cbs[..|cbs| - 1]), cbs[|cbs| - 1])
  }

  /** The resource the last callback for `name` delivered, if any did. */
  function LatestFor(cbs: seq<Callback>, name: string): Option<Resource> {
    if cbs == [] then None
    else if cbs[|cbs| - 1].name == name then Some(cbs[|cbs| - 1].resource)
    else LatestFor(cbs[..|cbs| - 1], name)
  }

  /** The names of the callbacks of `cbs`. */
  function Names(cbs: seq<Callback>): set<string> {
    if cbs == [] then {} else Names(cbs[..|cbs| - 1]) + {cbs[|cbs| - 1].name}
  }

  /** No two callbacks of `cbs` are for the same name. */
  predicate DistinctNames(cbs: seq<Callback>) {
    forall i, j :: 0 <= i < j < |cbs| ==> cbs[i].name != cbs[j].name
  }

  /**
   * After `n` callbacks the counter is `n`, the map holds the latest
   * resource of every name called back, and the Promise was resolved (once)
   * exactly when `n` reached the total; fewer callbacks never resolve it.
   */
  lemma {:induction false} DeliverCounts(cbs: seq<Callback>)
    ensures Deliver(Start, cbs).loaded == |cbs|
    ensures Deliver(Start, cbs).resolved <==> |cbs| >= ResourcesToLoad
    ensures Deliver(Start, cbs).resolveCalls == if |cbs| >= ResourcesToLoad then 1 else 0
    ensures forall n :: n in Deliver(Start, cbs).resources <==> LatestFor(cbs, n).Some?
    ensures forall n :: n in Deliver(Start, cbs).resources ==> LatestFor(cbs, n) == Some(Deliver(Start, cbs).resources[n])
  {
    if cbs != [] {
      DeliverCounts(cbs[..|cbs| - 1]);
    }
  }

  /** A name has a latest resource exactly when it was called back. */
  lemma {:induction false} LatestForNames(cbs: seq<Callback>)
    ensures forall n :: LatestFor(cbs, n).Some? <==> n in Names(cbs)
  {
    if cbs != [] {
      LatestForNames(cbs[..|cbs| - 1]);
    }
  }

  /** The names called back are among the names every callback carries. */
  lemma {:induction false} NamesWithin(cbs: seq<Callback>, allowed: set<string>)
    requires forall i :: 0 <= i < |cbs| ==> cbs[i].name in allowed
    ensures Names(cbs) <= allowed
  {
    if cbs != [] {
      var front := cbs[..|cbs| - 1];
      assert forall i :: 0 <= i < |front| ==> front[i] == cbs[i];
      NamesWithin(front, allowed);
    }
  }

  /** A name no callback carries is not among the names called back. */
  lemma {:induction false} NamesAvoid(cbs: seq<Callback>, n: string)
    requires forall i :: 0 <= i < |cbs| ==> cbs[i].name != n
    ensures n !in Names(cbs)
  {
    if cbs != [] {
      var front := cbs[..|cbs| - 1];
      assert forall i :: 0 <= i < |front| ==> front[i] == cbs[i];
      NamesAvoid(front, n);
    }
  }

  /** Distinct names number as many as the callbacks. */
  lemma {:induction false} DistinctNamesCount(cbs: seq<Callback>)
    requires DistinctNames(cbs)
    ensures |Names(cbs)| == |cbs|
  {
    if cbs != [] {
      var front := cbs[..|cbs| - 1];
      assert forall i :: 0 <= i < |front| ==> front[i] == cbs[i];
      DistinctNamesCount(front);
      NamesAvoid(front, cbs[|cbs| - 1].name);
    }
  }

  /** A subset at least as large as its superset is the superset itself. */
  lemma SubsetAsLarge(a: set<string>, b: set<string>)
    requires a <= b
    ensures |a| >= |b| ==> a == b
  {
    assert b == a + (b - a);
    assert a * (b - a) == {};
    assert |b| == |a| + |b - a|;
  }

  /**
   * When every callback is for one of the requested assets, and none comes
   * twice, the load resolves exactly when every asset has been called back,
   * and then the fox and both floor textures are in the map.
   */
  lemma ResolvesIffAllArrived(cbs: seq<Callback>)
    requires forall i :: 0 <= i < |cbs| ==> cbs[i].name in AssetNames()
    requires DistinctNames(cbs)
    ensures Deliver(Start, cbs).resolved <==> Names(cbs) == AssetNames()
    ensures Deliver(Start, cbs).resolved ==>
      "fox" in Deliver(Start, cbs).resources &&
      "floorColor" in Deliver(Start, cbs).resources &&
      "floorNormal" in Deliver(Start, cbs).resources
  {
    AssetNamesAreDistinct();
    DeliverCounts(cbs);
    DistinctNamesCount(cbs);
    NamesWithin(cbs, AssetNames());
    SubsetAsLarge(Names(cbs), AssetNames());
    LatestForNames(cbs);
  }

  /** The `onLoadCallback` closure with the variables it captures. */
  class TextureLoad {
    var resources: map<string, Resource>
    var loaded: nat
    var resolved: bool
    /** How often `res()` was called; not a variable of the component. */
    ghost var resolveCalls: nat
    const total: nat := ResourcesToLoad

    ghost function State(): Progress
      reads this
    {
      Progress(resources, loaded, resolved, resolveCalls)
    }

    constructor ()
      ensures State() == Start
    {
      resources, loaded, resolved, resolveCalls := map[], 0, false, 0;
    }

    /** `res()`: resolve the Promise. */
    method Resolve()
      modifies this`resolved, this`resolveCalls
      ensures resolved && resolveCalls == old(resolveCalls) + 1
    {
      resolved := true;
      resolveCalls := resolveCalls + 1;
    }

    /** `onLoadCallback(name, texture)`. */
    method OnLoadCallback(name: string, texture: Resource)
      modifies this
      ensures State() == OnLoad(old(State()), Callback(name, texture))
      ensures resources == old(resources)[name := texture] && loaded == old(loaded) + 1
      ensures resolved == (old(resolved) || loaded == total)
    {
      resources := resources[name := texture];
      loaded := loaded + 1;
      if loaded == total {
        Resolve();
      }
    }
  }
}
