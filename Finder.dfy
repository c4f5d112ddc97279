/** The editor window: its settings, its report state, and the searches,
    report and rename it runs when its button is pressed. */
module Finder {
  import opened Layers
  import opened Hierarchy
  import opened FieldScan
  import opened Reporting
  import opened Rewrite

  /** The window's modes, in the source's order. */
  datatype SearchMode = None | Scene | Files | Layermask | Report | Rename

  /** The action button's caption for each selectable mode. */
  const ModeActionTexts: map<SearchMode, string> := map[
    Scene := "Search",
    Files := "Search",
    Layermask := "Find in Monobehaviors",
    Report := "Generate Report",
    Rename := "Rename"]

  /** GetToggleOption: the mode after one mode toggle is drawn, given the
      value the toggle returned (it is drawn on when `target` is the current
      mode). Clicking the toggle of the current mode cannot switch it off,
      and the mode stays one with a button caption. */
  function ToggleOption(current: SearchMode, target: SearchMode, toggleValue: bool): (mode: SearchMode)
    ensures mode == current || mode == target
    ensures current == target ==> mode == current
    ensures current in ModeActionTexts && target in ModeActionTexts ==> mode in ModeActionTexts
  {
    if toggleValue then target else current
  }

  /** The colour of the status line, kept as its meaning only. */
  datatype Severity = Unset | Warning | Error

  class LayersFinder {
    var layerName: string
    var newLayerName: string
    var currentSearchMode: SearchMode
    var layerReport: LayerReport
    var layerFoldouts: map<string, bool>
    var includeChildrenObjects: bool
    var reportGenerated: bool
    var debugLog: string
    var debugColor: Severity
    var doFoldouts: bool

    /** No finding is ever filed under the empty name. */
    ghost predicate Valid()
      reads this
    {
      "" !in layerReport
    }

    constructor ()
      ensures Valid()
      ensures layerName == "" && newLayerName == "" && currentSearchMode == Files
      ensures layerReport == map[] && layerFoldouts == map[]
      ensures !includeChildrenObjects && !reportGenerated && !doFoldouts
      ensures debugLog == "" && debugColor == Unset
    {
      layerName := "";
      newLayerName := "";
      currentSearchMode := Files;
      layerReport := map[];
      layerFoldouts := map[];
      includeChildrenObjects := false;
      reportGenerated := false;
      debugLog := "";
      debugColor := Unset;
      doFoldouts := false;
    }

    method PrintDebug(text: string, color: Severity)
      modifies this`debugLog, this`debugColor
      ensures debugLog == text && debugColor == color
    {
      debugLog := text;
      debugColor := color;
    }

    /** Files a finding for `obj` under the name of its current layer,
        creating the bucket if needed; does nothing when that layer has no
        name. */
    method AddToLayerReport(layers: LayerTable, obj: GameObject, filePath: string, customMessage: string := "")
      requires Valid()
      modifies this`layerReport
      ensures Valid()
      ensures layerReport == Appended(old(layerReport), LayerToName(layers, obj.layer), EntryFor(obj, filePath, customMessage))
    {
      var name := LayerToName(layers, obj.layer);
      if name == "" {
        return;
      }
      if name !in layerReport {
        layerReport := layerReport[name := []];
      }
      var objectPath := GetFullPath(obj);
      var newReport := AssetReport(obj, obj.name, filePath, objectPath, customMessage);
      layerReport := layerReport[name := layerReport[name] + [newReport]];
    }

    /** Files a finding built by the caller, under the name of `obj`'s
        current layer, with the same gating. */
    method AddEntryToLayerReport(layers: LayerTable, report: AssetReport, obj: GameObject)
      requires Valid()
      modifies this`layerReport
      ensures Valid()
      ensures layerReport == Appended(old(layerReport), LayerToName(layers, obj.layer), report)
    {
      var name := LayerToName(layers, obj.layer);
      if name == "" {
        return;
      }
      if name !in layerReport {
        layerReport := layerReport[name := []];
      }
      layerReport := layerReport[name := layerReport[name] + [report]];
    }

    /** Scene search. An unknown layer only sets the error message and
        leaves the previous report in place; otherwise the report becomes
        one bucket holding every scene object on the layer, in order, and
        the warning is set exactly when there was none. */
    method FindInScene(layers: LayerTable, allObjects: seq<GameObject>)
      requires Valid()
      modifies this`layerReport, this`debugLog, this`debugColor
      ensures Valid()
      ensures !LayerExists(layers, layerName) ==>
        && layerReport == old(layerReport)
        && debugLog == "Layer not found: " + layerName && debugColor == Error
      ensures LayerExists(layers, layerName) ==>
        var matches := OnLayer(old(VisitsOf(allObjects, "")), NameToLayer(layers, layerName));
        && layerReport == SearchReport(layerName, matches)
        && (matches == [] ==> debugLog == "No matches found in Scene for layer: " + layerName && debugColor == Warning)
        && (matches != [] ==> debugLog == old(debugLog) && debugColor == old(debugColor))
    {
      ghost var visits := VisitsOf(allObjects, "");
      if !LayerExists(layers, layerName) {
        PrintDebug("Layer not found: " + layerName, Error);
        return;
      }
      layerReport := map[];
      var layerIndex := NameToLayer(layers, layerName);
      NameRoundTrip(layers, layerName);
      var found := false;
      var i := 0;
      while i < |allObjects|
        invariant 0 <= i <= |allObjects|
        invariant Valid()
        invariant layerReport == SearchReport(layerName, OnLayer(visits[..i], layerIndex))
        invariant found <==> OnLayer(visits[..i], layerIndex) != []
        invariant debugLog == old(debugLog) && debugColor == old(debugColor)
      {
        var obj := allObjects[i];
        assert visits[i] == Visit(obj, obj.layer, "");
        assert visits[..i + 1] == visits[..i] + [visits[i]];
        OnLayerStep(visits[..i], visits[i], layerIndex);
        if obj.layer == layerIndex {
          assert LayerToName(layers, obj.layer) == layerName;
          SearchReportStep(layerName, OnLayer(visits[..i], layerIndex), visits[i]);
          ghost var prev := layerReport;
          AddToLayerReport(layers, obj, "");
          assert layerReport == Appended(prev, layerName, EntryFor(obj, "", ""));
          assert layerReport == SearchReport(layerName, OnLayer(visits[..i], layerIndex) + [visits[i]]);
          found := true;
        } else {
          assert OnLayer(visits[..i + 1], layerIndex) == OnLayer(visits[..i], layerIndex);
        }
        i := i + 1;
      }
      assert visits[..i] == visits;
      if !found {
        PrintDebug("No matches found in Scene for layer: " + layerName, Warning);
      }
    }

    /** The inner loop's body: one object, filed when it is on the
        searched layer. */
    method FindObject(layers: LayerTable, layerIndex: int, child: GameObject, path: string,
                      found: bool, ghost seen: seq<Visit>) returns (foundAfter: bool)
      requires Valid() && layerName != "" && LayerToName(layers, layerIndex) == layerName
      requires layerReport == SearchReport(layerName, OnLayer(seen, layerIndex))
      requires found <==> OnLayer(seen, layerIndex) != []
      modifies this`layerReport
      ensures Valid()
      ensures layerReport == SearchReport(layerName, OnLayer(seen + [Visit(child, child.layer, path)], layerIndex))
      ensures foundAfter <==> OnLayer(seen + [Visit(child, child.layer, path)], layerIndex) != []
    {
      ghost var v := Visit(child, child.layer, path);
      OnLayerStep(seen, v, layerIndex);
      foundAfter := found;
      if child.layer == layerIndex {
        SearchReportStep(layerName, OnLayer(seen, layerIndex), v);
        AddToLayerReport(layers, child, path);
        foundAfter := true;
      } else {
        assert OnLayer(seen + [v], layerIndex) == OnLayer(seen, layerIndex);
      }
    }

    /** The inner loop of the file search: every object of one prefab, in
        hierarchy order, is filed when it is on the searched layer. */
    method FindInPrefab(layers: LayerTable, layerIndex: int, transforms: seq<GameObject>, path: string,
                        found: bool, ghost done: seq<Visit>, ghost here: seq<Visit>) returns (foundAfter: bool)
      requires Valid() && layerName != "" && LayerToName(layers, layerIndex) == layerName
      requires layerReport == SearchReport(layerName, OnLayer(done, layerIndex))
      requires found <==> OnLayer(done, layerIndex) != []
      requires here == VisitsOf(transforms, path)
      modifies this`layerReport
      ensures Valid()
      ensures layerReport == SearchReport(layerName, OnLayer(done + here, layerIndex))
      ensures foundAfter <==> OnLayer(done + here, layerIndex) != []
    {
      foundAfter := found;
      var j := 0;
      assert done + here[..j] == done;
      while j < |transforms|
        invariant 0 <= j <= |transforms|
        invariant Valid()
        invariant layerReport == SearchReport(layerName, OnLayer(done + here[..j], layerIndex))
        invariant foundAfter <==> OnLayer(done + here[..j], layerIndex) != []
      {
        var child := transforms[j];
        assert here[j] == Visit(child, child.layer, path);
        VisitedStep(done, here, j);
        foundAfter := FindObject(layers, layerIndex, child, path, foundAfter, done + here[..j]);
        j := j + 1;
      }
      assert here[..j] == here;
    }

    /** File search. The report is emptied first, so an unknown layer
        leaves it empty; otherwise it becomes one bucket holding every
        object of every loaded prefab on the layer, in order, each with its
        asset path, and the warning is set exactly when there was none. */
    method FindInFiles(layers: LayerTable, assets: seq<Asset>)
      requires Valid()
      modifies this`layerReport, this`doFoldouts, this`debugLog, this`debugColor
      ensures Valid() && !doFoldouts
      ensures !LayerExists(layers, layerName) ==>
        && layerReport == map[]
        && debugLog == "Layer not found: " + layerName && debugColor == Error
      ensures LayerExists(layers, layerName) ==>
        var matches := OnLayer(old(FileVisits(assets)), NameToLayer(layers, layerName));
        && layerReport == SearchReport(layerName, matches)
        && (matches == [] ==> debugLog == "No matches found in Project Files for layer: " + layerName && debugColor == Warning)
        && (matches != [] ==> debugLog == old(debugLog) && debugColor == old(debugColor))
    {
      layerReport := map[];
      doFoldouts := false;
      if !LayerExists(layers, layerName) {
        PrintDebug("Layer not found: " + layerName, Error);
        return;
      }
      var layerIndex := NameToLayer(layers, layerName);
      NameRoundTrip(layers, layerName);
      var found := false;
      var a := 0;
      while a < |assets|
        invariant 0 <= a <= |assets|
        invariant Valid()
        invariant layerReport == SearchReport(layerName, OnLayer(old(FileVisits(assets[..a])), layerIndex))
        invariant found <==> OnLayer(old(FileVisits(assets[..a])), layerIndex) != []
        invariant !doFoldouts
        invariant debugLog == old(debugLog) && debugColor == old(debugColor)
      {
        var path := assets[a].path;
        var prefab := assets[a].prefab;
        assert assets[..a + 1][..a] == assets[..a];
        ghost var done := old(FileVisits(assets[..a]));
        if prefab != null {
          var transforms := prefab.transforms;
          ghost var here := old(VisitsOf(transforms, path));
          assert old(FileVisits(assets[..a + 1])) == done + here;
          assert here == VisitsOf(transforms, path);
          found := FindInPrefab(layers, layerIndex, transforms, path, found, done, here);
        } else {
          assert old(FileVisits(assets[..a + 1])) == done;
        }
        a := a + 1;
      }
      assert assets[..a] == assets;
      if !found {
        PrintDebug("No matches found in Project Files for layer: " + layerName, Warning);
      }
    }

    /** MonoBehaviour search. It reads the layer masks of every scene
        object and of every object of every loaded prefab, leaves the
        report alone, and sets the warning exactly when no mask refers to
        the layer. */
    method FindInMonoBehaviours(layers: LayerTable, allObjects: seq<GameObject>, assets: seq<Asset>)
      modifies this`debugLog, this`debugColor
      ensures !LayerExists(layers, layerName) ==>
        debugLog == "Layer not found: " + layerName && debugColor == Error
      ensures LayerExists(layers, layerName) ==>
        var layerIndex := NameToLayer(layers, layerName);
        var referenced := SomeReferences(allObjects, layerIndex) || SomeReferences(AllNodes(assets), layerIndex);
        && (!referenced ==> debugLog == "No MonoBehaviour layer mask matches found for layer: " + layerName && debugColor == Warning)
        && (referenced ==> debugLog == old(debugLog) && debugColor == old(debugColor))
    {
      if !LayerExists(layers, layerName) {
        PrintDebug("Layer not found: " + layerName, Error);
        return;
      }
      var layerIndex := NameToLayer(layers, layerName);
      var found := ScanObjects(allObjects, layerIndex, false);
      found := ScanAssets(assets, layerIndex, found);
      if !found {
        PrintDebug("No MonoBehaviour layer mask matches found for layer: " + layerName, Warning);
      }
    }

    /** One object filed by the report, under its layer's name. */
    method ReportObject(layers: LayerTable, obj: GameObject, path: string,
                        ghost start: LayerReport, ghost done: seq<Visit>, ghost v: Visit)
      requires Valid()
      requires layerReport == Fold(start, Classify(layers, done))
      requires v == Visit(obj, obj.layer, path)
      modifies this`layerReport
      ensures Valid()
      ensures layerReport == Fold(start, Classify(layers, done + [v]))
    {
      ClassifyStep(layers, start, done, v);
      AddToLayerReport(layers, obj, path);
    }

    /** The body of the report's inner loop: one object of a prefab's
        hierarchy, filed unless it is the prefab's root. */
    method ReportChild(layers: LayerTable, child: GameObject, root: GameObject, path: string,
                       ghost start: LayerReport, ghost done: seq<Visit>, ghost v: Visit)
      requires Valid()
      requires layerReport == Fold(start, Classify(layers, done))
      requires v == Visit(child, child.layer, path)
      modifies this`layerReport
      ensures Valid()
      ensures layerReport == Fold(start, Classify(layers, done + (if child == root then [] else [v])))
    {
      if child == root {
        assert done + [] == done;
        return;
      }
      ReportObject(layers, child, path, start, done, v);
    }

    /** The report's inner loop: every object of one prefab's hierarchy
        other than its root is filed under its layer's name. */
    method ReportChildren(layers: LayerTable, transforms: seq<GameObject>, root: GameObject, path: string,
                          ghost start: LayerReport, ghost done: seq<Visit>, ghost here: seq<Visit>)
      requires Valid()
      requires layerReport == Fold(start, Classify(layers, done))
      requires here == VisitsOf(transforms, path)
      modifies this`layerReport
      ensures Valid()
      ensures layerReport == Fold(start, Classify(layers, done + ChildVisits(here, root)))
    {
      var j := 0;
      assert here[..j] == [] && done + ChildVisits(here[..j], root) == done;
      while j < |transforms|
        invariant 0 <= j <= |transforms|
        invariant Valid()
        invariant layerReport == Fold(start, Classify(layers, done + ChildVisits(here[..j], root)))
      {
        var child := transforms[j];
        assert here[j] == Visit(child, child.layer, path);
        ChildVisitsAfter(done, here, root, j);
        ReportChild(layers, child, root, path, start, done + ChildVisits(here[..j], root), here[j]);
        j := j + 1;
      }
      assert here[..j] == here;
    }

    /** The report's work for one asset: nothing when it loaded nothing;
        otherwise its prefab's root is filed and, when children are
        included, then every other object of its hierarchy. */
    method ReportAsset(layers: LayerTable, asset: Asset, ghost start: LayerReport, ghost done: seq<Visit>, ghost run: seq<Visit>)
      requires Valid()
      requires layerReport == Fold(start, Classify(layers, done))
      requires run == AssetVisits(asset, includeChildrenObjects)
      modifies this`layerReport
      ensures Valid()
      ensures layerReport == Fold(start, Classify(layers, done + run))
    {
      var prefab := asset.prefab;
      if prefab == null {
        assert done + run == done;
        return;
      }
      var root := prefab.root;
      var path := asset.path;
      ghost var rootVisit := Visit(root, root.layer, path);
      ghost var here := VisitsOf(prefab.transforms, path);
      ReportObject(layers, root, path, start, done, rootVisit);
      if includeChildrenObjects {
        ReportChildren(layers, prefab.transforms, root, path, start, done + [rootVisit], here);
        VisitsAfterRoot(done, rootVisit, ChildVisits(here, root));
      } else {
        VisitsAfterRoot(done, rootVisit, []);
      }
    }

    /** The report's asset loop: each asset's findings are filed in turn. */
    method ReportAssets(layers: LayerTable, assets: seq<Asset>, ghost start: LayerReport)
      requires Valid() && layerReport == start
      modifies this`layerReport
      ensures Valid()
      ensures layerReport == Fold(start, Classify(layers, ReportVisits(assets, includeChildrenObjects)))
    {
      var a := 0;
      while a < |assets|
        invariant 0 <= a <= |assets|
        invariant Valid()
        invariant layerReport == Fold(start, Classify(layers, ReportVisits(assets[..a], includeChildrenObjects)))
      {
        var asset := assets[a];
        ghost var filed := ReportVisits(assets[..a], includeChildrenObjects);
        ghost var run := AssetVisits(asset, includeChildrenObjects);
        assert assets[..a + 1][..a] == assets[..a];
        assert ReportVisits(assets[..a + 1], includeChildrenObjects) == filed + run;
        ReportedObjectsAllocated(assets[..a + 1]);
        ReportAsset(layers, asset, start, filed, run);
        a := a + 1;
      }
      assert assets[..a] == assets;
    }

    /** Report generation. The report and the foldout states are cleared,
        an empty bucket is made for every named layer, and the root of
        every loaded prefab (and, when children are included, every other
        object of its hierarchy) is filed under its layer's name, in order.
        No object's layer changes, so the visits are those of the layers
        the objects had when the button was pressed. */
    method GenerateLayerReport(layers: LayerTable, assets: seq<Asset>)
      requires Valid()
      modifies this`layerReport, this`layerFoldouts, this`doFoldouts, this`reportGenerated
      ensures Valid() && layerFoldouts == map[] && doFoldouts && reportGenerated
      ensures layerReport == Fold(EmptyBuckets(layers, LayerCount), Classify(layers, ReportVisits(assets, includeChildrenObjects)))
    {
      layerReport := map[];
      layerFoldouts := map[];
      doFoldouts := true;
      reportGenerated := true;
      var i := 0;
      while i < LayerCount
        invariant 0 <= i <= LayerCount
        invariant layerReport == EmptyBuckets(layers, i)
        modifies this`layerReport
      {
        var name := LayerToName(layers, i);
        if name != "" {
          layerReport := layerReport[name := []];
        }
        i := i + 1;
      }
      ReportAssets(layers, assets, layerReport);
    }

    /** The body of the rename's inner loop, for the object of visit j:
        when it is on the source layer its finding is filed under the
        source layer's name and it is moved to the target layer. The report
        then holds the findings of visits 0..j. */
    method RenameObject(layers: LayerTable, source: int, target: int, child: GameObject, path: string,
                        ghost start: LayerReport, ghost here: seq<Visit>, ghost j: int) returns (hit: bool)
      requires Valid() && layerName != "" && LayerToName(layers, source) == layerName
      requires 0 <= j < |here| && here[j] == Visit(child, child.layer, path)
      requires layerReport == Fold(start, RenameItems(here[..j], source, layerName, ChangeMessage(layerName, newLayerName)))
      modifies this`layerReport, child`layer
      ensures Valid()
      ensures hit <==> here[j].layer == source
      ensures child.layer == Retargeted(here[j].layer, source, target)
      ensures layerReport == Fold(start, RenameItems(here[..j + 1], source, layerName, ChangeMessage(layerName, newLayerName)))
    {
      hit := child.layer == source;
      if hit {
        var hierarchyPath := GetFullPath(child);
        var report := AssetReport(child, child.name, "File path: " + path, hierarchyPath, ChangeMessage(layerName, newLayerName));
        AddEntryToLayerReport(layers, report, child);
        RenameStepHit(start, here, j, source, layerName, ChangeMessage(layerName, newLayerName));
        child.layer := target;
      } else {
        RenameStepMiss(start, here, j, source, layerName, ChangeMessage(layerName, newLayerName));
      }
    }

    /** The inner loop of the rename: every object of one prefab that is
        on the source layer is recorded under the source layer's name and
        then moved to the target layer. Reports whether any was. */
    method ChangeLayerInPrefab(layers: LayerTable, source: int, target: int, prefab: Prefab, path: string,
                               ghost here: seq<Visit>) returns (changed: bool)
      requires Valid() && prefab.Valid()
      requires layerName != "" && LayerToName(layers, source) == layerName
      requires here == VisitsOf(prefab.transforms, path)
      modifies this`layerReport, (set n | n in prefab.transforms)`layer
      ensures Valid()
      ensures layerReport == Fold(old(layerReport), RenameItems(here, source, layerName, ChangeMessage(layerName, newLayerName)))
      ensures LayersOf(prefab.transforms) == Retarget(VisitLayers(here), source, target)
      ensures changed <==> source in VisitLayers(here)
    {
      ghost var ls := VisitLayers(here);
      var transforms := prefab.transforms;
      changed := false;
      var j := 0;
      while j < |transforms|
        invariant 0 <= j <= |transforms|
        invariant Valid()
        invariant layerReport == Fold(old(layerReport), RenameItems(here[..j], source, layerName, ChangeMessage(layerName, newLayerName)))
        invariant forall k :: 0 <= k < |transforms| ==>
          transforms[k].layer == if k < j then Retargeted(here[k].layer, source, target) else here[k].layer
        invariant changed <==> source in ls[..j]
      {
        var child := transforms[j];
        assert here[j] == Visit(child, child.layer, path);
        RetargetStep(ls, j, source, target);
        OnlyAt(transforms, j);
        var hit := RenameObject(layers, source, target, child, path, old(layerReport), here, j);
        changed := changed || hit;
        j := j + 1;
      }
      assert here[..j] == here;
      assert ls[..j] == ls;
      PointwiseLayers(transforms, here, source, target);
    }

    /** The rename of one loaded prefab: its objects on the source layer
        are recorded and moved, and the prefab is marked dirty when any
        was. */
    method ChangeLayerInAsset(layers: LayerTable, source: int, target: int, prefab: Prefab, path: string,
                              ghost here: seq<Visit>, ghost front: seq<GameObject>, ghost rest: seq<GameObject>)
      requires Valid() && prefab.Valid()
      requires layerName != "" && LayerToName(layers, source) == layerName
      requires here == VisitsOf(prefab.transforms, path)
      requires Disjoint(front, prefab.transforms) && Disjoint(rest, prefab.transforms)
      modifies this`layerReport, prefab`dirty, (set n | n in prefab.transforms)`layer
      ensures Valid()
      ensures layerReport == Fold(old(layerReport), RenameItems(here, source, layerName, ChangeMessage(layerName, newLayerName)))
      ensures LayersOf(prefab.transforms) == Retarget(VisitLayers(here), source, target)
      ensures prefab.dirty == (old(prefab.dirty) || source in VisitLayers(here))
      ensures LayersOf(front) == old(LayersOf(front)) && LayersOf(rest) == old(LayersOf(rest))
    {
      var changed := ChangeLayerInPrefab(layers, source, target, prefab, path, here);
      if changed {
        prefab.SetDirty();
      }
    }

    /** One step of the bulk rename: the asset whose objects are
        nodes[m..next] (none when its prefab did not load). `before` holds
        the visits of all objects taken before the rename, of which the
        first `m` have been handled. */
    method ChangeLayerAt(layers: LayerTable, source: int, target: int, asset: Asset,
                              ghost nodes: seq<GameObject>, ghost before: seq<Visit>, ghost m: int, ghost next: int,
                              ghost start: LayerReport, ghost loaded: set<Prefab>)
      requires Valid()
      requires layerName != "" && LayerToName(layers, source) == layerName
      requires 0 <= m <= next <= |nodes| == |before|
      requires asset.prefab != null && asset.prefab.Valid() && nodes[m..next] == asset.prefab.transforms
      requires forall k :: m <= k < next ==> before[k].node == nodes[k] && before[k].filePath == asset.path
      requires Disjoint(nodes[..m], nodes[m..next]) && Disjoint(nodes[next..], nodes[m..next])
      requires layerReport == Fold(start, RenameItems(before[..m], source, layerName, ChangeMessage(layerName, newLayerName)))
      requires LayersOf(nodes[..m]) == Retarget(VisitLayers(before[..m]), source, target)
      requires LayersOf(nodes[m..]) == VisitLayers(before[m..])
      modifies this`layerReport, (set n | n in nodes[m..next])`layer, asset.prefab`dirty
      ensures Valid()
      ensures layerReport == Fold(start, RenameItems(before[..next], source, layerName, ChangeMessage(layerName, newLayerName)))
      ensures LayersOf(nodes[..next]) == Retarget(VisitLayers(before[..next]), source, target)
      ensures LayersOf(nodes[next..]) == VisitLayers(before[next..])
      ensures forall p :: p in loaded ==> p.dirty == (old(p.dirty) || (p == asset.prefab && source in VisitLayers(before[m..next])))
    {
      ghost var message := ChangeMessage(layerName, newLayerName);
      var prefab := asset.prefab;
      var path := asset.path;
      ghost var here := before[m..next];
      SuffixLayers(nodes, before, m, next);
      SliceVisits(nodes, before, m, next, path);
      ReportStep(start, before, m, next, source, layerName, message);
      ChangeLayerInAsset(layers, source, target, prefab, path, here, nodes[..m], nodes[next..]);
      PrefixLayers(nodes, before, m, next, source, target);
    }

    /** The outer loop's body: the asset at position a is renamed when its
        prefab loaded and left alone otherwise. */
    method RenameAsset(layers: LayerTable, source: int, target: int, assets: seq<Asset>, a: int,
                       ghost nodes: seq<GameObject>, ghost before: seq<Visit>, ghost offsets: seq<int>,
                       ghost loaded: set<Prefab>, ghost hit: set<Prefab>, ghost start: LayerReport)
      requires Valid()
      requires layerName != "" && LayerToName(layers, source) == layerName
      requires RenamePlan(assets, nodes, before, offsets, loaded, hit, source)
      requires 0 <= a < |assets|
      requires layerReport == Fold(start, RenameItems(before[..offsets[a]], source, layerName, ChangeMessage(layerName, newLayerName)))
      requires LayersOf(nodes[..offsets[a]]) == Retarget(VisitLayers(before[..offsets[a]]), source, target)
      requires LayersOf(nodes[offsets[a]..]) == VisitLayers(before[offsets[a]..])
      modifies this`layerReport, (set n | n in nodes)`layer, loaded`dirty
      ensures Valid()
      ensures layerReport == Fold(start, RenameItems(before[..offsets[a + 1]], source, layerName, ChangeMessage(layerName, newLayerName)))
      ensures LayersOf(nodes[..offsets[a + 1]]) == Retarget(VisitLayers(before[..offsets[a + 1]]), source, target)
      ensures LayersOf(nodes[offsets[a + 1]..]) == VisitLayers(before[offsets[a + 1]..])
      ensures forall p :: p in loaded ==> p.dirty == (old(p.dirty) || (p == assets[a].prefab && p in hit))
    {
      var asset := assets[a];
      ghost var m, next := offsets[a], offsets[a + 1];
      if asset.prefab != null {
        SliceDisjoint(nodes, m, next);
        ChangeLayerAt(layers, source, target, asset, nodes, before, m, next, start, loaded);
      }
    }

    /** The loop of the bulk rename, over the assets in order. `nodes`
        lists the objects of the loaded prefabs and `before` their visits
        taken before the rename; the objects of the asset at position `a`
        are nodes[offsets[a]..offsets[a + 1]]. */
    method ChangeLayerInPrefabs(layers: LayerTable, source: int, target: int, assets: seq<Asset>,
                                ghost nodes: seq<GameObject>, ghost before: seq<Visit>, ghost offsets: seq<int>,
                                ghost loaded: set<Prefab>, ghost hit: set<Prefab>)
      requires Valid()
      requires layerName != "" && LayerToName(layers, source) == layerName
      requires RenamePlan(assets, nodes, before, offsets, loaded, hit, source)
      requires LayersOf(nodes) == VisitLayers(before)
      modifies this`layerReport, (set n | n in nodes)`layer, loaded`dirty
      ensures Valid()
      ensures layerReport == Fold(old(layerReport), RenameItems(before, source, layerName, ChangeMessage(layerName, newLayerName)))
      ensures LayersOf(nodes) == Retarget(VisitLayers(before), source, target)
      ensures forall p :: p in loaded ==> p.dirty == (old(p.dirty) || p in hit)
    {
      var a := 0;
      ghost var m := 0;
      assert nodes[..0] == [] && nodes[0..] == nodes && before[..0] == [] && before[0..] == before;
      while a < |assets|
        invariant 0 <= a <= |assets| && m == offsets[a]
        invariant Valid()
        invariant layerReport == Fold(old(layerReport), RenameItems(before[..m], source, layerName, ChangeMessage(layerName, newLayerName)))
        invariant LayersOf(nodes[..m]) == Retarget(VisitLayers(before[..m]), source, target)
        invariant LayersOf(nodes[m..]) == VisitLayers(before[m..])
        invariant forall p :: p in loaded ==> p.dirty == (old(p.dirty) || p in LoadedAmong(assets, a, hit))
      {
        RenameAsset(layers, source, target, assets, a, nodes, before, offsets, loaded, hit, old(layerReport));
        LoadedAmongStep(assets, a, hit);
        a := a + 1;
        m := offsets[a];
      }
      assert before[..m] == before && nodes[..m] == nodes;
      LoadedAmongAll(assets, hit);
    }

    /** Bulk rename. An unknown source layer only sets the error message.
        Otherwise every object of every loaded prefab that was on the
        source layer is recorded, in visit order, under the source layer's
        name with the change message, and moved to the target layer (-1
        when the new name is not a layer); a prefab is marked dirty exactly
        when one of its objects moved. Nothing else changes. */
    method ChangeLayerInFiles(layers: LayerTable, assets: seq<Asset>)
      requires Valid() && WellFormed(assets)
      modifies this`layerReport, this`debugLog, this`debugColor, (set n | n in AllNodes(assets))`layer, Prefabs(assets)`dirty
      ensures Valid()
      ensures !LayerExists(layers, layerName) ==>
        && layerReport == old(layerReport)
        && debugLog == "Source layer not found: " + layerName && debugColor == Error
        && LayersOf(AllNodes(assets)) == VisitLayers(old(FileVisits(assets)))
        && (forall p :: p in Prefabs(assets) ==> p.dirty == old(p.dirty))
      ensures LayerExists(layers, layerName) ==>
        var source := NameToLayer(layers, layerName);
        var target := NameToLayer(layers, newLayerName);
        && layerReport == Fold(old(layerReport), RenameItems(old(FileVisits(assets)), source, layerName, ChangeMessage(layerName, newLayerName)))
        && LayersOf(AllNodes(assets)) == Retarget(VisitLayers(old(FileVisits(assets))), source, target)
        && (forall p :: p in Prefabs(assets) ==> p.dirty == (old(p.dirty) || source in old(LayersOf(p.transforms))))
        && debugLog == old(debugLog) && debugColor == old(debugColor)
    {
      NodesOfFileVisits(assets);
      ghost var nodes := AllNodes(assets);
      ghost var before := FileVisits(assets);
      ghost var layers0 := LayersOf(nodes);
      assert before == old(FileVisits(assets));
      assert VisitLayers(before) == layers0;
      if !LayerExists(layers, layerName) {
        PrintDebug("Source layer not found: " + layerName, Error);
        assert LayersOf(nodes) == layers0;
        return;
      }
      var sourceLayer := NameToLayer(layers, layerName);
      var newLayer := NameToLayer(layers, newLayerName);
      NameRoundTrip(layers, layerName);
      ghost var offsets := Offsets(assets);
      ghost var hit := HitPrefabs(assets, sourceLayer);
      RenamePlanHolds(assets, sourceLayer);
      ChangeLayerInPrefabs(layers, sourceLayer, newLayer, assets, nodes, before, offsets, Prefabs(assets), hit);
    }
  }
}
