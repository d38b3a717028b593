/**
 * Assembly of the registered plugin list (`providesPlugins`): the map of
 * all plugins keyed by registration priority is overlaid with the
 * pump-driver, APS and non-NSClient plugin maps, each admitted by a build
 * flag (`PUMPDRIVERS`, `APS`, `!NSCLIENT`), and with the unfinished plugin
 * map, admitted by `buildHelper.isUnfinishedMode()`. A later overlay wins
 * on a shared key, and the result is listed in ascending key order.
 */
module PluginList {
  import opened Interfaces

  // Keys in ascending order.

  ghost predicate StrictlyAscending(ks: seq<int>)
  {
    forall i, j :: 0 <= i < j < |ks| ==> ks[i] < ks[j]
  }

  lemma {:induction false} SomeKey(keys: set<int>)
    requires keys != {}
    ensures exists k :: k in keys
  {
    if forall k :: k !in keys {
      assert false;
    }
  }

  lemma {:induction false} LeastKeyExists(keys: set<int>)
    requires keys != {}
    ensures exists m :: m in keys && forall k :: k in keys ==> m <= k
  {
    SomeKey(keys);
    var x :| x in keys;
    var least := x;
    if keys - {x} != {} {
      LeastKeyExists(keys - {x});
      var m :| m in keys - {x} && forall k :: k in keys - {x} ==> m <= k;
      least := if x < m then x else m;
    }
    forall k | k in keys
      ensures least <= k
    {
      if k != x {
        assert k in keys - {x};
      }
    }
  }

  function LeastKey(keys: set<int>): (m: int)
    requires keys != {}
    ensures m in keys
    ensures forall k :: k in keys ==> m <= k
  {
    LeastKeyExists(keys);
    var m :| m in keys && forall k :: k in keys ==> m <= k;
    m
  }

  lemma RemoveOne(keys: set<int>, m: int)
    requires m in keys
    ensures |keys - {m}| == |keys| - 1
  {
  }

  /** The keys of a map, each once, in ascending order (what `sortedBy { it.first }` yields). */
  function KeysAscending(keys: set<int>): (ks: seq<int>)
    ensures |ks| == |keys|
    ensures forall i :: 0 <= i < |ks| ==> ks[i] in keys
    ensures forall k :: k in keys ==> k in ks
    ensures StrictlyAscending(ks)
    decreases keys
  {
    if keys == {} then []
    else
      var m := LeastKey(keys);
      var rest := keys - {m};
      var tail := KeysAscending(rest);
      RemoveOne(keys, m);
      assert forall k :: k in keys && k != m ==> k in rest;
      assert forall i :: 0 <= i < |tail| ==> tail[i] in rest && m < tail[i];
      [m] + tail
  }

  /** The entries of `m` at the keys `ks`, in the order of `ks`. */
  function EntriesAt<P>(m: map<int, P>, ks: seq<int>): (entries: seq<(int, P)>)
    requires forall i :: 0 <= i < |ks| ==> ks[i] in m
    ensures |entries| == |ks|
    ensures forall i :: 0 <= i < |ks| ==> entries[i] == (ks[i], m[ks[i]])
  {
    seq(|ks|, i requires 0 <= i < |ks| => (ks[i], m[ks[i]]))
  }

  /** `toList().sortedBy { it.first }`: the entries of a map in ascending key order. */
  function SortedEntries<P>(m: map<int, P>): (entries: seq<(int, P)>)
    ensures |entries| == |m.Keys|
    ensures forall i :: 0 <= i < |entries| ==> entries[i].0 in m && entries[i].1 == m[entries[i].0]
    ensures forall i, j :: 0 <= i < j < |entries| ==> entries[i].0 < entries[j].0
    ensures forall k :: k in m ==> (k, m[k]) in entries
  {
    var ks := KeysAscending(m.Keys);
    var entries := EntriesAt(m, ks);
    forall k | k in m
      ensures (k, m[k]) in entries
    {
      var i :| 0 <= i < |ks| && ks[i] == k;
      assert entries[i] == (k, m[k]);
    }
    entries
  }

  /** `.map { it.second }`: the plugins of the sorted entries. */
  function Plugins<P>(entries: seq<(int, P)>): (plugins: seq<P>)
    ensures |plugins| == |entries|
    ensures forall i :: 0 <= i < |entries| ==> plugins[i] == entries[i].1
  {
    seq(|entries|, i requires 0 <= i < |entries| => entries[i].1)
  }

  /**
   * The listed plugins of a map: one per key, the i-th being the value at
   * the i-th smallest key.
   */
  lemma PluginsInKeyOrder<P>(m: map<int, P>)
    ensures var ps, ks := Plugins(SortedEntries(m)), KeysAscending(m.Keys);
      && |ps| == |ks| == |m.Keys|
      && (forall i :: 0 <= i < |ks| ==> ks[i] in m && ps[i] == m[ks[i]])
      && (forall i, j :: 0 <= i < j < |ks| ==> ks[i] < ks[j])
      && (forall k :: k in m ==> k in ks)
  {
    var ks := KeysAscending(m.Keys);
    assert SortedEntries(m) == EntriesAt(m, ks);
  }

  /** The index of the last map of `layers` that holds `k`, or -1 when none does. */
  function Owner<P>(layers: seq<map<int, P>>, k: int): (i: int)
    ensures -1 <= i < |layers|
    ensures i >= 0 ==> k in layers[i]
    ensures forall j :: i < j < |layers| ==> k !in layers[j]
  {
    if layers == [] then -1
    else if k in layers[|layers| - 1] then |layers| - 1
    else Owner(layers[..|layers| - 1], k)
  }

  /**
   * The maps of `layers` put into one map in order (`+=` one after the
   * other): a key's value comes from the last map that holds the key.
   */
  function Overlay<P>(layers: seq<map<int, P>>): (m: map<int, P>)
    ensures forall k :: k in m <==> Owner(layers, k) >= 0
    ensures forall k :: k in m ==> m[k] == layers[Owner(layers, k)][k]
  {
    if layers == [] then map[]
    else if |layers| == 1 then layers[0]
    else Overlay(layers[..|layers| - 1]) + layers[|layers| - 1]
  }

  /** The maps merged by `providesPlugins`, in merge order, each present only when its guard admits it. */
  function AdmittedLayers<P>(config: Config, unfinishedMode: bool, allConfigs: map<int, P>,
                             pumpDrivers: map<int, P>, aps: map<int, P>,
                             notNsClient: map<int, P>, unfinished: map<int, P>): seq<map<int, P>>
  {
    [allConfigs]
      + (if config.PUMPDRIVERS then [pumpDrivers] else [])
      + (if config.APS then [aps] else [])
      + (if !config.NSCLIENT then [notNsClient] else [])
      + (if unfinishedMode then [unfinished] else [])
  }

  function Merged<P>(config: Config, unfinishedMode: bool, allConfigs: map<int, P>,
                     pumpDrivers: map<int, P>, aps: map<int, P>,
                     notNsClient: map<int, P>, unfinished: map<int, P>): map<int, P>
  {
    Overlay(AdmittedLayers(config, unfinishedMode, allConfigs, pumpDrivers, aps, notNsClient, unfinished))
  }

  /** Adding one more map on top is one more `+=`. */
  lemma OverlayStep<P>(layers: seq<map<int, P>>, top: map<int, P>)
    requires layers != []
    ensures Overlay(layers + [top]) == Overlay(layers) + top
  {
    assert (layers + [top])[..|layers|] == layers;
  }

  /**
   * A `dagger.Lazy` plugin map: its contents are produced only when `Get`
   * is called, and `gets` counts the calls.
   */
  class LazyPluginMap<P> {
    const contents: map<int, P>
    var gets: nat

    constructor (contents: map<int, P>)
      ensures this.contents == contents && gets == 0
    {
      this.contents := contents;
      gets := 0;
    }

    method Get() returns (m: map<int, P>)
      modifies this
      ensures m == contents && gets == old(gets) + 1
    {
      m := contents;
      gets := gets + 1;
    }
  }

  /** The flag-independent part of the result: the plugins of the merged map in key order. */
  function PluginOrder<P>(config: Config, unfinishedMode: bool, allConfigs: map<int, P>,
                          pumpDrivers: map<int, P>, aps: map<int, P>,
                          notNsClient: map<int, P>, unfinished: map<int, P>): seq<P>
  {
    Plugins(SortedEntries(Merged(config, unfinishedMode, allConfigs, pumpDrivers, aps, notNsClient, unfinished)))
  }

  /** `if (admitted) plugins += lazy.get()`. */
  method MergeIfAdmitted<P>(admitted: bool, plugins: map<int, P>, lazy: LazyPluginMap<P>,
                            ghost layers: seq<map<int, P>>)
    returns (merged: map<int, P>, ghost layers': seq<map<int, P>>)
    requires layers != [] && plugins == Overlay(layers)
    modifies lazy
    ensures layers' == layers + (if admitted then [lazy.contents] else [])
    ensures merged == Overlay(layers')
    ensures lazy.gets == old(lazy.gets) + (if admitted then 1 else 0)
  {
    merged, layers' := plugins, layers;
    if admitted {
      var m := lazy.Get();
      OverlayStep(layers, m);
      merged, layers' := plugins + m, layers + [m];
    }
  }

  /**
   * `providesPlugins`: `unfinishedMode` is the answer of
   * `buildHelper.isUnfinishedMode()`. Each lazy map is read once if its
   * guard admits it and not at all otherwise.
   */
  method ProvidesPlugins<P>(config: Config, unfinishedMode: bool, allConfigs: map<int, P>,
                            pumpDrivers: LazyPluginMap<P>, notNsClient: LazyPluginMap<P>,
                            aps: LazyPluginMap<P>, unfinished: LazyPluginMap<P>)
    returns (plugins: seq<P>)
    requires pumpDrivers != aps && pumpDrivers != notNsClient && pumpDrivers != unfinished
    requires aps != notNsClient && aps != unfinished && notNsClient != unfinished
    modifies pumpDrivers, notNsClient, aps, unfinished
    ensures plugins == PluginOrder(config, unfinishedMode, allConfigs, pumpDrivers.contents,
                                   aps.contents, notNsClient.contents, unfinished.contents)
    ensures pumpDrivers.gets == old(pumpDrivers.gets) + (if config.PUMPDRIVERS then 1 else 0)
    ensures aps.gets == old(aps.gets) + (if config.APS then 1 else 0)
    ensures notNsClient.gets == old(notNsClient.gets) + (if !config.NSCLIENT then 1 else 0)
    ensures unfinished.gets == old(unfinished.gets) + (if unfinishedMode then 1 else 0)
  {
    var merged := allConfigs;
    ghost var layers := [allConfigs];
    merged, layers := MergeIfAdmitted(config.PUMPDRIVERS, merged, pumpDrivers, layers);
    merged, layers := MergeIfAdmitted(config.APS, merged, aps, layers);
    merged, layers := MergeIfAdmitted(!config.NSCLIENT, merged, notNsClient, layers);
    merged, layers := MergeIfAdmitted(unfinishedMode, merged, unfinished, layers);
    assert layers == AdmittedLayers(config, unfinishedMode, allConfigs, pumpDrivers.contents,
                                    aps.contents, notNsClient.contents, unfinished.contents);
    plugins := Plugins(SortedEntries(merged));
  }

  // Properties of the assembled list.

  /** Every plugin key of `allConfigs` is represented in the sorted entries. */
  lemma AllConfigsRepresented<P>(config: Config, unfinishedMode: bool, allConfigs: map<int, P>,
                                 pumpDrivers: map<int, P>, aps: map<int, P>,
                                 notNsClient: map<int, P>, unfinished: map<int, P>, k: int)
    requires k in allConfigs
    ensures var merged := Merged(config, unfinishedMode, allConfigs, pumpDrivers, aps, notNsClient, unfinished);
      k in merged && (k, merged[k]) in SortedEntries(merged)
  {
    var layers := AdmittedLayers(config, unfinishedMode, allConfigs, pumpDrivers, aps, notNsClient, unfinished);
    assert layers[0] == allConfigs;
    assert Owner(layers, k) >= 0;
  }

  /** `plugins += m` when admitted. */
  function PlusIf<P>(admitted: bool, plugins: map<int, P>, m: map<int, P>): map<int, P>
  {
    if admitted then plugins + m else plugins
  }

  lemma {:induction false} OverlayPlusIf<P>(layers: seq<map<int, P>>, admitted: bool, m: map<int, P>)
    requires layers != []
    ensures Overlay(layers + (if admitted then [m] else [])) == PlusIf(admitted, Overlay(layers), m)
  {
    if admitted {
      OverlayStep(layers, m);
    } else {
      assert layers + [] == layers;
    }
  }

  /** The merged map is the chain of guarded `+=` of the source. */
  lemma {:induction false} MergedIsChain<P>(config: Config, unfinishedMode: bool, allConfigs: map<int, P>,
                                           pumpDrivers: map<int, P>, aps: map<int, P>,
                                           notNsClient: map<int, P>, unfinished: map<int, P>)
    ensures Merged(config, unfinishedMode, allConfigs, pumpDrivers, aps, notNsClient, unfinished)
      == PlusIf(unfinishedMode, PlusIf(!config.NSCLIENT, PlusIf(config.APS,
           PlusIf(config.PUMPDRIVERS, allConfigs, pumpDrivers), aps), notNsClient), unfinished)
  {
    var l1 := [allConfigs];
    var l2 := l1 + (if config.PUMPDRIVERS then [pumpDrivers] else []);
    var l3 := l2 + (if config.APS then [aps] else []);
    var l4 := l3 + (if !config.NSCLIENT then [notNsClient] else []);
    var l5 := l4 + (if unfinishedMode then [unfinished] else []);
    assert l5 == AdmittedLayers(config, unfinishedMode, allConfigs, pumpDrivers, aps, notNsClient, unfinished);
    OverlayPlusIf(l1, config.PUMPDRIVERS, pumpDrivers);
    OverlayPlusIf(l2, config.APS, aps);
    OverlayPlusIf(l3, !config.NSCLIENT, notNsClient);
    OverlayPlusIf(l4, unfinishedMode, unfinished);
  }

  /**
   * On a shared key the later merge wins, in the order
   * allConfigs, pumpDrivers, aps, notNsClient, unfinished.
   */
  lemma LaterMergeWins<P>(config: Config, unfinishedMode: bool, allConfigs: map<int, P>,
                          pumpDrivers: map<int, P>, aps: map<int, P>,
                          notNsClient: map<int, P>, unfinished: map<int, P>, k: int)
    ensures var merged := Merged(config, unfinishedMode, allConfigs, pumpDrivers, aps, notNsClient, unfinished);
      var inUnfinished := unfinishedMode && k in unfinished;
      var inNotNsClient := !config.NSCLIENT && k in notNsClient;
      var inAps := config.APS && k in aps;
      var inPumpDrivers := config.PUMPDRIVERS && k in pumpDrivers;
      && (k in merged <==> k in allConfigs || inPumpDrivers || inAps || inNotNsClient || inUnfinished)
      && (inUnfinished ==> merged[k] == unfinished[k])
      && (!inUnfinished && inNotNsClient ==> merged[k] == notNsClient[k])
      && (!inUnfinished && !inNotNsClient && inAps ==> merged[k] == aps[k])
      && (!inUnfinished && !inNotNsClient && !inAps && inPumpDrivers ==> merged[k] == pumpDrivers[k])
      && (!inUnfinished && !inNotNsClient && !inAps && !inPumpDrivers && k in allConfigs ==> merged[k] == allConfigs[k])
  {
    MergedIsChain(config, unfinishedMode, allConfigs, pumpDrivers, aps, notNsClient, unfinished);
  }

  /** A map whose guard is off does not influence the list. */
  lemma ExcludedMapsIgnored<P>(config: Config, unfinishedMode: bool, allConfigs: map<int, P>,
                               pumpDrivers: map<int, P>, aps: map<int, P>,
                               notNsClient: map<int, P>, unfinished: map<int, P>)
    ensures !config.PUMPDRIVERS ==>
      PluginOrder(config, unfinishedMode, allConfigs, pumpDrivers, aps, notNsClient, unfinished)
      == PluginOrder(config, unfinishedMode, allConfigs, map[], aps, notNsClient, unfinished)
    ensures !config.APS ==>
      PluginOrder(config, unfinishedMode, allConfigs, pumpDrivers, aps, notNsClient, unfinished)
      == PluginOrder(config, unfinishedMode, allConfigs, pumpDrivers, map[], notNsClient, unfinished)
    ensures config.NSCLIENT ==>
      PluginOrder(config, unfinishedMode, allConfigs, pumpDrivers, aps, notNsClient, unfinished)
      == PluginOrder(config, unfinishedMode, allConfigs, pumpDrivers, aps, map[], unfinished)
    ensures !unfinishedMode ==>
      PluginOrder(config, unfinishedMode, allConfigs, pumpDrivers, aps, notNsClient, unfinished)
      == PluginOrder(config, unfinishedMode, allConfigs, pumpDrivers, aps, notNsClient, map[])
  {
  }

  /** The list has one plugin per distinct key of the merged map. */
  lemma OnePluginPerKey<P>(config: Config, unfinishedMode: bool, allConfigs: map<int, P>,
                           pumpDrivers: map<int, P>, aps: map<int, P>,
                           notNsClient: map<int, P>, unfinished: map<int, P>)
    ensures |PluginOrder(config, unfinishedMode, allConfigs, pumpDrivers, aps, notNsClient, unfinished)|
      == |Merged(config, unfinishedMode, allConfigs, pumpDrivers, aps, notNsClient, unfinished).Keys|
  {
  }

  /**
   * The provided list in full: the i-th plugin is the merged plugin at the
   * i-th smallest merged key, and every merged key is listed once.
   */
  lemma ProvidedListInKeyOrder<P>(config: Config, unfinishedMode: bool, allConfigs: map<int, P>,
                                  pumpDrivers: map<int, P>, aps: map<int, P>,
                                  notNsClient: map<int, P>, unfinished: map<int, P>)
    ensures var merged := Merged(config, unfinishedMode, allConfigs, pumpDrivers, aps, notNsClient, unfinished);
      var ps := PluginOrder(config, unfinishedMode, allConfigs, pumpDrivers, aps, notNsClient, unfinished);
      var ks := KeysAscending(merged.Keys);
      && |ps| == |ks| == |merged.Keys|
      && (forall i :: 0 <= i < |ks| ==> ks[i] in merged && ps[i] == merged[ks[i]])
      && (forall i, j :: 0 <= i < j < |ks| ==> ks[i] < ks[j])
      && (forall k :: k in merged ==> k in ks)
  {
    PluginsInKeyOrder(Merged(config, unfinishedMode, allConfigs, pumpDrivers, aps, notNsClient, unfinished));
  }
}
