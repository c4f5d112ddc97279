/** What the bulk rename does to layers and to the report: every object on
    the source layer moves to the target layer, and each one is recorded
    first under the source layer's name. */
module Rewrite {
  import opened Layers
  import opened Hierarchy
  import opened Reporting

  /** The one assignment the rename makes to an object's layer. */
  function Retargeted(layer: int, source: int, target: int): int
  {
    if layer == source then target else layer
  }

  /** Every layer of a run of objects after the rename. */
  function Retarget(layersBefore: seq<int>, source: int, target: int): (after: seq<int>)
    ensures |after| == |layersBefore|
    ensures forall i :: 0 <= i < |layersBefore| ==> after[i] == Retargeted(layersBefore[i], source, target)
  {
    seq(|layersBefore|, i requires 0 <= i < |layersBefore| => Retargeted(layersBefore[i], source, target))
  }

  lemma RetargetConcat(xs: seq<int>, ys: seq<int>, source: int, target: int)
    ensures Retarget(xs + ys, source, target) == Retarget(xs, source, target) + Retarget(ys, source, target)
  {
  }

  /** How many of the layers are `layer`. */
  function CountOnLayer(ls: seq<int>, layer: int): nat
  {
    if ls == [] then 0
    else CountOnLayer(ls[..|ls| - 1], layer) + (if ls[|ls| - 1] == layer then 1 else 0)
  }

  /** After the rename nothing is left on the source layer (unless source
      and target coincide, when nothing changes), and the target layer
      gains exactly the objects that were on the source layer. */
  lemma {:induction false} RetargetCounts(ls: seq<int>, source: int, target: int)
    ensures source == target ==> Retarget(ls, source, target) == ls
    ensures source != target ==> CountOnLayer(Retarget(ls, source, target), source) == 0
    ensures source != target ==>
      CountOnLayer(Retarget(ls, source, target), target) == CountOnLayer(ls, target) + CountOnLayer(ls, source)
  {
    if ls != [] {
      var n := |ls| - 1;
      RetargetCounts(ls[..n], source, target);
      assert Retarget(ls, source, target)[..n] == Retarget(ls[..n], source, target);
    }
  }

  /** The custom message of every rename finding. */
  function ChangeMessage(sourceName: string, targetName: string): string
  {
    "<color=#7DDA58>Changed Layer: " + sourceName + " -> " + targetName + "</color>"
  }

  /** The finding recorded for a renamed object. */
  function RenameEntry(obj: GameObject, assetPath: string, message: string): AssetReport
  {
    AssetReport(obj, obj.name, "File path: " + assetPath, FullPath(obj.name, obj.ancestors), message)
  }

  /** The findings the rename records, in visit order: one per visited
      object that was on the source layer. */
  function RenameItems(vs: seq<Visit>, source: int, key: string, message: string): seq<Keyed>
  {
    if vs == [] then []
    else
      var last := vs[|vs| - 1];
      RenameItems(vs[..|vs| - 1], source, key, message)
        + (if last.layer == source then [Keyed(key, RenameEntry(last.node, last.filePath, message))] else [])
  }

  lemma {:induction false} RenameItemsConcat(xs: seq<Visit>, ys: seq<Visit>, source: int, key: string, message: string)
    ensures RenameItems(xs + ys, source, key, message)
         == RenameItems(xs, source, key, message) + RenameItems(ys, source, key, message)
  {
    if ys == [] {
      assert xs + ys == xs;
    } else {
      var n := |ys| - 1;
      RenameItemsConcat(xs, ys[..n], source, key, message);
      assert (xs + ys)[..|xs + ys| - 1] == xs + ys[..n];
    }
  }

  /** Handling the visits in [m, next) after the first `m` appends their
      findings to the report. */
  lemma ReportStep(start: LayerReport, vs: seq<Visit>, m: int, next: int, source: int, key: string, message: string)
    requires 0 <= m <= next <= |vs|
    ensures Fold(start, RenameItems(vs[..next], source, key, message))
         == Fold(Fold(start, RenameItems(vs[..m], source, key, message)), RenameItems(vs[m..next], source, key, message))
  {
    assert vs[..next] == vs[..m] + vs[m..next];
    RenameItemsConcat(vs[..m], vs[m..next], source, key, message);
    FoldConcat(start, RenameItems(vs[..m], source, key, message), RenameItems(vs[m..next], source, key, message));
  }

  /** Extending the handled prefix by a visit on the source layer files
      one more finding. */
  lemma RenameStepHit(start: LayerReport, vs: seq<Visit>, j: int, source: int, key: string, message: string)
    requires 0 <= j < |vs| && vs[j].layer == source
    ensures Fold(start, RenameItems(vs[..j + 1], source, key, message))
         == Appended(Fold(start, RenameItems(vs[..j], source, key, message)), key, RenameEntry(vs[j].node, vs[j].filePath, message))
  {
    assert vs[..j + 1][..j] == vs[..j];
    var items := RenameItems(vs[..j], source, key, message);
    var one := [Keyed(key, RenameEntry(vs[j].node, vs[j].filePath, message))];
    assert RenameItems(vs[..j + 1], source, key, message) == items + one;
    FoldConcat(start, items, one);
    assert Fold(Fold(start, items), one) == Appended(Fold(Fold(start, items), []), key, one[0].entry);
  }

  /** Extending the handled prefix by a visit on another layer files
      nothing. */
  lemma RenameStepMiss(start: LayerReport, vs: seq<Visit>, j: int, source: int, key: string, message: string)
    requires 0 <= j < |vs| && vs[j].layer != source
    ensures Fold(start, RenameItems(vs[..j + 1], source, key, message))
         == Fold(start, RenameItems(vs[..j], source, key, message))
  {
    assert vs[..j + 1][..j] == vs[..j];
    assert RenameItems(vs[..j + 1], source, key, message) == RenameItems(vs[..j], source, key, message);
  }

  /** Retargeting one more layer appends its retargeted value. */
  lemma RetargetStep(ls: seq<int>, j: int, source: int, target: int)
    requires 0 <= j < |ls|
    ensures Retarget(ls[..j + 1], source, target) == Retarget(ls[..j], source, target) + [Retargeted(ls[j], source, target)]
    ensures ls[j..] == [ls[j]] + ls[j + 1..]
    ensures ls[..j + 1] == ls[..j] + [ls[j]]
  {
    assert ls[..j + 1] == ls[..j] + [ls[j]];
    RetargetConcat(ls[..j], [ls[j]], source, target);
  }

  /** The retargeted layers of [0, m) and of [m, next) make those of
      [0, next). */
  lemma PrefixLayers(nodes: seq<GameObject>, before: seq<Visit>, m: int, next: int, source: int, target: int)
    requires 0 <= m <= next <= |nodes| == |before|
    requires LayersOf(nodes[..m]) == Retarget(VisitLayers(before[..m]), source, target)
    requires LayersOf(nodes[m..next]) == Retarget(VisitLayers(before[m..next]), source, target)
    ensures LayersOf(nodes[..next]) == Retarget(VisitLayers(before[..next]), source, target)
  {
    LayersSplit(nodes, m, next);
    VisitLayersSplit(before, m, next);
    RetargetConcat(VisitLayers(before[..m]), VisitLayers(before[m..next]), source, target);
  }

  /** The objects of the loaded prefabs. */
  ghost function PrefabObjects(assets: seq<Asset>): set<GameObject>
  {
    set p, n | p in Prefabs(assets) && n in p.transforms :: n
  }

  /** The loaded prefabs that have an object on `layer`. */
  ghost function HitPrefabs(assets: seq<Asset>, layer: int): (hit: set<Prefab>)
    reads PrefabObjects(assets)
    ensures hit <= Prefabs(assets)
  {
    set p | p in Prefabs(assets) && layer in (
      assert forall n :: n in p.transforms ==> n in PrefabObjects(assets);
      LayersOf(p.transforms))
  }

  /** What the bulk rename relies on about the project it walks: `nodes`
      lists the objects of the loaded prefabs, no object twice, and `before`
      their visits; the objects of the asset at position a are
      nodes[offsets[a]..offsets[a + 1]]; `loaded` holds the loaded prefabs
      and `hit` those whose visits include the source layer. */
  ghost predicate RenamePlan(assets: seq<Asset>, nodes: seq<GameObject>, before: seq<Visit>, offsets: seq<int>,
                             loaded: set<Prefab>, hit: set<Prefab>, source: int)
  {
    && PlanCuts(assets, nodes, before, offsets)
    && PlanAssets(assets, nodes, before, offsets, loaded, hit, source)
    && PlanVisits(assets, nodes, before, offsets)
    && hit <= loaded
    && (forall p :: p in loaded ==> exists a :: 0 <= a < |assets| && assets[a].prefab == p)
  }

  /** The offsets cut `nodes` into one run per asset, empty for an asset
      without a prefab. */
  ghost predicate PlanCuts(assets: seq<Asset>, nodes: seq<GameObject>, before: seq<Visit>, offsets: seq<int>)
  {
    && |offsets| == |assets| + 1 && offsets[0] == 0 && offsets[|assets|] == |nodes| == |before|
    && (forall a, b :: 0 <= a <= b <= |assets| ==> offsets[a] <= offsets[b])
    && (forall a {:trigger assets[a]} :: 0 <= a < |assets| && assets[a].prefab == null ==> offsets[a + 1] == offsets[a])
  }

  /** The run of a loaded prefab is its hierarchy, and it is hit exactly
      when one of its visits is on the source layer. */
  ghost predicate PlanAssets(assets: seq<Asset>, nodes: seq<GameObject>, before: seq<Visit>, offsets: seq<int>,
                             loaded: set<Prefab>, hit: set<Prefab>, source: int)
    requires PlanCuts(assets, nodes, before, offsets)
  {
    forall a {:trigger assets[a]} :: 0 <= a < |assets| && assets[a].prefab != null ==>
      && assets[a].prefab.Valid() && nodes[offsets[a]..offsets[a + 1]] == assets[a].prefab.transforms
      && assets[a].prefab in loaded
      && (assets[a].prefab in hit <==> source in VisitLayers(before[offsets[a]..offsets[a + 1]]))
  }

  /** Each visit names its object and the file of its asset, and no object
      is visited twice. */
  ghost predicate PlanVisits(assets: seq<Asset>, nodes: seq<GameObject>, before: seq<Visit>, offsets: seq<int>)
    requires PlanCuts(assets, nodes, before, offsets)
  {
    && (forall a, k {:trigger assets[a], before[k]} :: 0 <= a < |assets| && offsets[a] <= k < offsets[a + 1] ==>
          before[k].filePath == assets[a].path)
    && (forall k :: 0 <= k < |nodes| ==> before[k].node == nodes[k])
    && (forall i, j :: 0 <= i < j < |nodes| ==> nodes[i] != nodes[j])
  }

  /** The project as the editor hands it over satisfies the plan, with
      AllNodes, FileVisits and Offsets. */
  lemma RenamePlanHolds(assets: seq<Asset>, source: int)
    requires WellFormed(assets)
    ensures RenamePlan(assets, AllNodes(assets), FileVisits(assets), Offsets(assets), Prefabs(assets), HitPrefabs(assets, source), source)
  {
    PlanCutsHold(assets);
    PlanAssetsHold(assets, source);
    PlanVisitsHold(assets);
    forall p | p in Prefabs(assets) ensures exists a :: 0 <= a < |assets| && assets[a].prefab == p {
    }
  }

  lemma PlanCutsHold(assets: seq<Asset>)
    ensures PlanCuts(assets, AllNodes(assets), FileVisits(assets), Offsets(assets))
  {
    NodesOfFileVisits(assets);
    OffsetsCutAllNodes(assets);
  }

  lemma PlanAssetsHold(assets: seq<Asset>, source: int)
    requires WellFormed(assets)
    ensures PlanCuts(assets, AllNodes(assets), FileVisits(assets), Offsets(assets))
    ensures PlanAssets(assets, AllNodes(assets), FileVisits(assets), Offsets(assets), Prefabs(assets), HitPrefabs(assets, source), source)
  {
    PlanCutsHold(assets);
    OffsetsCutAllNodes(assets);
    var before, offsets := FileVisits(assets), Offsets(assets);
    var hit := HitPrefabs(assets, source);
    forall a {:trigger assets[a]} | 0 <= a < |assets| && assets[a].prefab != null
      ensures assets[a].prefab in Prefabs(assets)
      ensures assets[a].prefab in hit <==> source in VisitLayers(before[offsets[a]..offsets[a + 1]])
    {
      FileVisitsSlice(assets, a);
      VisitLayersOf(assets[a].prefab.transforms, assets[a].path);
      assert assets[a].prefab in Prefabs(assets);
    }
  }

  lemma PlanVisitsHold(assets: seq<Asset>)
    requires WellFormed(assets)
    ensures PlanCuts(assets, AllNodes(assets), FileVisits(assets), Offsets(assets))
    ensures PlanVisits(assets, AllNodes(assets), FileVisits(assets), Offsets(assets))
  {
    PlanCutsHold(assets);
    PlanPathsHold(assets);
    NodesOfFileVisits(assets);
    AllNodesDistinct(assets);
    var nodes, before := AllNodes(assets), FileVisits(assets);
    forall k | 0 <= k < |nodes| ensures before[k].node == nodes[k] {
      assert Nodes(before)[k] == nodes[k];
    }
  }

  lemma PlanPathsHold(assets: seq<Asset>)
    ensures |FileVisits(assets)| == |AllNodes(assets)|
    ensures forall a, k {:trigger assets[a], FileVisits(assets)[k]} ::
      0 <= a < |assets| && Offsets(assets)[a] <= k < Offsets(assets)[a + 1] <= |FileVisits(assets)| ==>
        FileVisits(assets)[k].filePath == assets[a].path
  {
    NodesOfFileVisits(assets);
    forall a, k | 0 <= a < |assets| && Offsets(assets)[a] <= k < Offsets(assets)[a + 1] <= |FileVisits(assets)|
      ensures FileVisits(assets)[k].filePath == assets[a].path
    {
      if assets[a].prefab == null {
        EmptyCut(assets, a);
      } else {
        PathAt(assets, a, k);
      }
    }
  }

  /** An asset without a prefab has an empty run. */
  lemma EmptyCut(assets: seq<Asset>, a: int)
    requires 0 <= a < |assets| && assets[a].prefab == null
    ensures Offsets(assets)[a + 1] == Offsets(assets)[a]
  {
    assert assets[..a + 1][..a] == assets[..a];
  }

  /** A visit in the run of asset a carries that asset's path. */
  lemma PathAt(assets: seq<Asset>, a: int, k: int)
    requires 0 <= a < |assets| && assets[a].prefab != null
    requires |AllNodes(assets[..a])| <= k < |AllNodes(assets[..a + 1])|
    ensures k < |FileVisits(assets)| && FileVisits(assets)[k].filePath == assets[a].path
  {
    FileVisitsSlice(assets, a);
    var fv := FileVisits(assets);
    var lo, hi := |AllNodes(assets[..a])|, |AllNodes(assets[..a + 1])|;
    var run := VisitsOf(assets[a].prefab.transforms, assets[a].path);
    assert fv[lo..hi] == run;
    assert fv[k] == run[k - lo];
  }

  /** A run whose every object holds the retargeted layer of its visit has
      the retargeted layers of the visits. */
  lemma PointwiseLayers(nodes: seq<GameObject>, vs: seq<Visit>, source: int, target: int)
    requires |nodes| == |vs|
    requires forall k :: 0 <= k < |nodes| ==> nodes[k].layer == Retargeted(vs[k].layer, source, target)
    ensures LayersOf(nodes) == Retarget(VisitLayers(vs), source, target)
  {
  }

  /** One finding per object that was on the source layer, every one filed
      under the source layer's name. */
  lemma {:induction false} RenameItemsCount(vs: seq<Visit>, source: int, key: string, message: string)
    ensures |RenameItems(vs, source, key, message)| == CountOnLayer(VisitLayers(vs), source)
    ensures forall i :: 0 <= i < |RenameItems(vs, source, key, message)| ==>
      RenameItems(vs, source, key, message)[i].key == key
  {
    if vs != [] {
      var n := |vs| - 1;
      RenameItemsCount(vs[..n], source, key, message);
      assert VisitLayers(vs)[..n] == VisitLayers(vs[..n]);
    }
  }

  /** The rename's report: the source layer's bucket gains one finding per
      object that was on the source layer, and no other bucket changes. */
  lemma RenameBucket(report: LayerReport, vs: seq<Visit>, source: int, key: string, message: string)
    requires key != ""
    ensures |Bucket(Fold(report, RenameItems(vs, source, key, message)), key)|
         == |Bucket(report, key)| + CountOnLayer(VisitLayers(vs), source)
    ensures forall k :: k != "" && k != key ==>
      Bucket(Fold(report, RenameItems(vs, source, key, message)), k) == Bucket(report, k)
  {
    var items := RenameItems(vs, source, key, message);
    RenameItemsCount(vs, source, key, message);
    SelectAllKeyed(items, key);
    FoldBuckets(report, items);
  }

  /** When every item is filed under `key`, that bucket gains all of them
      and every other key gains none. */
  lemma {:induction false} SelectAllKeyed(items: seq<Keyed>, key: string)
    requires forall i :: 0 <= i < |items| ==> items[i].key == key
    ensures |Select(items, key)| == |items|
    ensures forall k :: k != key ==> Select(items, k) == []
  {
    if items != [] {
      SelectAllKeyed(items[..|items| - 1], key);
    }
  }
}
