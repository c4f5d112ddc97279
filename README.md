# LayersFinder, modelled in Dafny

LayersFinder is a Unity editor window. You type a layer name and press a button.
Depending on the selected mode, the window then does one of five things:

- lists the objects of the open scene that are on that layer (scene search);
- lists the objects of every prefab in the project that are on that layer (file search);
- reports whether any MonoBehaviour has a `LayerMask` field that includes the layer;
- builds a report that files every prefab root (and, optionally, every child) under the name of its layer;
- moves every prefab object on the layer to another layer, recording each move (bulk rename).

All findings go into one report: a dictionary from layer name to an ordered list of entries.

This project models the engine beneath the GUI calls and proves what each operation does to that report, to the
objects' layers and to the prefabs' dirty flags.

- `Layers` (Layers.dfy): the 32-slot layer table. It provides `LayerToName`, `NameToLayer` and the `LayerExists`
  guard. It also holds the `LayerMask` bit test, with C#'s `1 << layer` written out over 32 bits (the shift count
  is taken modulo 32, as C# does).
- `Hierarchy` (Hierarchy.dfy):
  - `GameObject` is a class. Its `layer` is the one field the window changes in place. It also holds its name, the
    names of its ancestors (nearest first) and its MonoBehaviours.
  - `Prefab` is a class with a `dirty` flag. `Asset` pairs an asset path with the prefab loaded from it, or null.
  - The orders in which the searches visit objects are sequences of `Visit`s (object, layer at visit time, file
    path).
  - It also holds `GetFullPath`.
- `FieldScan` (FieldScan.dfy): `CheckMonoBehaviours` and the two loops of the MonoBehaviour search.
- `Reporting` (Reporting.dfy):
  - the report map and the append step both `AddToLayerReport` overloads perform (`Appended`);
  - `Fold`, which appends a run of findings;
  - what each search leaves in the report;
  - which buckets the report area shows, and how an entry is labelled.
- `Rewrite` (Rewrite.dfy): the effect of the bulk rename on layers and on the report.
- `Finder` (Finder.dfy): the window itself, a class `LayersFinder` with the source's fields. It holds the five
  button actions as methods, proved against the functions above. It also holds the mode-toggle rule.

The Unity services are inputs. The objects that `GameObject.FindObjectsOfType` returns are a `seq<GameObject>`.
The results of the asset query are a `seq<Asset>`, and each prefab's `transforms` list the objects in the order
`GetComponentsInChildren<Transform>(true)` returns them. Reflection over a behaviour's fields is a given sequence
of `FieldValue`s.

`LayerToName` gives `""` outside slots 0..31. `NameToLayer` gives -1 for the empty name and for a name no slot
holds. When two slots hold the same name, it gives the lower slot.

Two behaviours of the code are worth stating up front:

- **Hierarchy paths.** A root-first path would be `Root/Child1`. `GetFullPath` (Editor/LayersFinder.cs:523)
  instead appends `ancestor.name + "/" + path` to the path built so far. An object therefore gets a path that starts
  and ends with its own name: `Child1` under `Root` gets `Child1Root/Child1` (`Hierarchy.ChildUnderRootPath`). The
  labels shown in the report follow from this (`Reporting.DisplayNameOfEntry`).
- **Unknown layer.** An unknown layer leaves the report empty only in the file search, which clears it first
  (Editor/LayersFinder.cs:173). The scene search (Editor/LayersFinder.cs:144-150) and the bulk rename
  (Editor/LayersFinder.cs:292-296) keep the previous report.

## Model

| member | source | states |
|---|---|---|
| Layers.NameToLayer | Editor/LayersFinder.cs:504-507 | the result is -1 exactly when the name is empty or no slot holds it; otherwise it is the lowest slot holding the name |
| Layers.NameRoundTrip | Editor/LayersFinder.cs:504-507 | `LayerExists` holds exactly for a non-empty configured name, and `LayerToName` of its index gives the name back |
| Layers.EverythingNeverMatches | Editor/LayersFinder.cs:276 | the `~0` mask matches no target layer |
| Layers.SingleLayerMask | Editor/LayersFinder.cs:276 | a mask with only bit k set matches target layer t (both in 0..31) exactly when t == k |
| Layers.ShiftCountInjective | Editor/LayersFinder.cs:276 | for layers in 0..31, `1 << layer` uses distinct shift counts for distinct layers |
| FieldScan.CheckMonoBehaviours | Editor/LayersFinder.cs:256-288 | the result is true exactly when some non-null behaviour has a LayerMask field that is not `~0` and has the target's bit set; nothing is modified |
| FieldScan.ScanObjects | Editor/LayersFinder.cs:225-231 | the flag after the scene loop is the flag before it, or-ed with "some scene object references the layer" |
| FieldScan.ScanAssets | Editor/LayersFinder.cs:233-248 | the flag after the asset loop is the flag before it, or-ed with "some object of a loaded prefab references the layer"; assets without a prefab are skipped |
| FieldScan.ProjectReferences | Editor/LayersFinder.cs:233-248 | some object of the loaded prefabs references the layer exactly when some asset's prefab has such an object in its hierarchy |
| FieldScan.EverythingMaskReferencesNothing | Editor/LayersFinder.cs:276 | an object whose LayerMask fields are all `~0` references no layer |
| Hierarchy.GetFullPath | Editor/LayersFinder.cs:515-528 | the loop over the parent chain returns `FullPath(name, ancestors)`: the name, then for each ancestor from the parent up, `path + ancestor + "/" + path` |
| Hierarchy.FullPathFramesName | Editor/LayersFinder.cs:515-528 | an object without a parent gets exactly its name; every path starts and ends with the object's name, and is longer than it once there is a parent |
| Hierarchy.FullPathExtends | Editor/LayersFinder.cs:521-525 | each further ancestor only extends the path: the path over the first k ancestors is a prefix of the whole path |
| Hierarchy.ChildUnderRootPath | Editor/LayersFinder.cs:523 | `Child1` directly under `Root` gets `Child1Root/Child1`, not `Root/Child1` |
| Hierarchy.Prefab.SetDirty | Editor/LayersFinder.cs:335 | the prefab is marked as needing to be saved; nothing else changes |
| Hierarchy.AllNodesDistinct | Editor/LayersFinder.cs:302-310 | when the asset query gives distinct prefabs with disjoint hierarchies, no object is visited twice across all loaded prefabs |
| Hierarchy.InAllNodes | Editor/LayersFinder.cs:186-193 | an object is visited by the project-wide walk exactly when some loaded prefab has it in its hierarchy |
| Hierarchy.ReportVisitsWithChildren | Editor/LayersFinder.cs:469-484 | with children included, the layer report visits each loaded prefab's root and then every other object once, in hierarchy order: the same visits as the file search |
| Hierarchy.PrefabReportVisits | Editor/LayersFinder.cs:471-483 | for one prefab, the root's visit followed by the visits that skip the root gives every object's visit in hierarchy order |
| Hierarchy.ReportVisitsRootsOnly | Editor/LayersFinder.cs:485-488 | without children, the layer report visits exactly the roots of the loaded prefabs, in asset order, one visit per loaded prefab, each with its asset path; every loaded prefab's root is visited |
| Reporting.Appended | Editor/LayersFinder.cs:530-555 | an object on an unnamed layer leaves the report unchanged; otherwise the bucket of its layer name is created if needed and gains the entry at its end, and every other bucket is unchanged |
| Reporting.FoldBucket | Editor/LayersFinder.cs:554 | appending a run of findings never drops or reorders: each bucket is the old bucket followed by the run's findings under that name, in order |
| Reporting.FoldKeys | Editor/LayersFinder.cs:539-542 | the keys after a run of appends are the old keys plus the non-empty layer names of the run |
| Reporting.NoEmptyKey | Editor/LayersFinder.cs:557-572 | a report without the empty key never gains it, however many findings are appended |
| Reporting.SelectHas | Editor/LayersFinder.cs:554 | a finding is in a bucket's run exactly when it was filed under that bucket's name |
| Reporting.FoldConcat | Editor/LayersFinder.cs:554 | appending two runs one after the other is appending their concatenation |
| Reporting.OnLayerExact | Editor/LayersFinder.cs:156-163 | the visits the search keeps are exactly the visited objects on the searched layer |
| Reporting.SearchFindsExactlyLayer | Editor/LayersFinder.cs:195-202 | a scene or file search for a layer files every visited object on that layer and nothing else, all under the searched name |
| Reporting.EmptyBuckets | Editor/LayersFinder.cs:447-455 | the pre-created buckets are exactly the non-empty slot names, and each is empty |
| Reporting.GeneratedReport | Editor/LayersFinder.cs:440-490 | after report generation the keys are exactly the configured layer names; each bucket holds, in visit order, the findings of the visited objects on that layer, and every entry stems from such a visit |
| Reporting.ShownLayers | Editor/LayersFinder.cs:375-383 | the report area shows slot i exactly when it has a name and the report has a bucket under that name, in increasing slot order |
| Reporting.FirstSegment | Editor/LayersFinder.cs:409 | the first piece of `Split('/')` is a prefix of the path without a slash, followed in the path by a slash or by nothing |
| Reporting.DisplayNameOfEntry | Editor/LayersFinder.cs:413-415 | a root object is labelled with its own name; with a parent, the label is the name run into the parent's name, then the name in parentheses |
| Rewrite.RetargetCounts | Editor/LayersFinder.cs:310-330 | after the rename nothing is on the source layer (unless source and target coincide, when nothing changes), and the target layer gains exactly the objects that were on the source layer |
| Rewrite.RenameItemsCount | Editor/LayersFinder.cs:312-329 | the rename records one finding per object that was on the source layer, all under the source layer's name |
| Rewrite.RenameBucket | Editor/LayersFinder.cs:312-329 | the source layer's bucket grows by exactly the number of objects moved, and no other bucket changes |
| Finder.ToggleOption | Editor/LayersFinder.cs:509-513 | a toggle switches to its own mode or keeps the current one; the current mode's toggle never switches away; the mode stays one with a button caption |
| Finder.LayersFinder.constructor | Editor/LayersFinder.cs:11-35 | the field initialisers: empty names, Files mode, empty report and foldouts, all flags off, empty status line |
| Finder.LayersFinder.PrintDebug | Editor/LayersFinder.cs:493-497 | the status line and its colour are set; nothing else changes |
| Finder.LayersFinder.AddToLayerReport | Editor/LayersFinder.cs:530-555 | the report becomes `Appended` of the old report, under the object's current layer name, with the entry holding its name, `GetFullPath`, the file path and the message |
| Finder.LayersFinder.AddEntryToLayerReport | Editor/LayersFinder.cs:557-572 | the given entry is appended unchanged, with the same gating on the object's current layer name |
| Finder.LayersFinder.FindInScene | Editor/LayersFinder.cs:142-169 | an unknown layer sets the error and keeps the old report; otherwise the report holds exactly the scene objects on the layer, in order, in one bucket, and the warning is set exactly when there were none |
| Finder.LayersFinder.FindObject | Editor/LayersFinder.cs:197-201 | one object is filed exactly when it is on the searched layer, and the flag records whether any was |
| Finder.LayersFinder.FindInPrefab | Editor/LayersFinder.cs:193-202 | after one prefab's loop, the report holds the matches of every object visited so far, and the flag says whether there are any |
| Finder.LayersFinder.FindInFiles | Editor/LayersFinder.cs:171-210 | the report is cleared first, so an unknown layer leaves it empty with the error set; otherwise it holds exactly the loaded prefabs' objects on the layer, with their asset paths, and the warning is set exactly when there were none |
| Finder.LayersFinder.FindInMonoBehaviours | Editor/LayersFinder.cs:212-254 | an unknown layer sets the error; otherwise the warning is set exactly when no scene object and no prefab object references the layer; the report is not touched |
| Finder.LayersFinder.ReportObject | Editor/LayersFinder.cs:471 | one object is filed under its layer name, extending the report by its visit |
| Finder.LayersFinder.ReportChild | Editor/LayersFinder.cs:477-482 | the prefab's own root is skipped; any other object is filed |
| Finder.LayersFinder.ReportChildren | Editor/LayersFinder.cs:473-483 | every object of the hierarchy other than the root is filed, in hierarchy order |
| Finder.LayersFinder.ReportAsset | Editor/LayersFinder.cs:461-488 | an asset without a prefab files nothing; otherwise its root is filed and, with children included, the rest of its hierarchy |
| Finder.LayersFinder.ReportAssets | Editor/LayersFinder.cs:459-489 | the asset loop files exactly the report visits of all assets, in order |
| Finder.LayersFinder.GenerateLayerReport | Editor/LayersFinder.cs:440-490 | foldouts cleared, both flags set, and the report is an empty bucket per named slot extended by the report visits (see `Reporting.GeneratedReport`) |
| Finder.LayersFinder.RenameObject | Editor/LayersFinder.cs:312-330 | an object on the source layer is recorded under the source name before it is moved to the target; any other object is left alone |
| Finder.LayersFinder.ChangeLayerInPrefab | Editor/LayersFinder.cs:309-331 | every object of the prefab on the source layer is recorded and moved, no other layer changes, and the flag says whether any moved |
| Finder.LayersFinder.ChangeLayerInAsset | Editor/LayersFinder.cs:307-337 | as above, and the prefab is marked dirty exactly when something moved; objects of other prefabs keep their layers |
| Finder.LayersFinder.ChangeLayerAt | Editor/LayersFinder.cs:307-337 | the same step, stated over the position of the asset's objects in the walk of all prefabs |
| Finder.LayersFinder.RenameAsset | Editor/LayersFinder.cs:302-338 | the outer loop's body: an asset without a prefab changes nothing |
| Finder.LayersFinder.ChangeLayerInPrefabs | Editor/LayersFinder.cs:302-338 | after the asset loop, every object's layer is retargeted, the report holds one finding per object that was on the source layer, and exactly the prefabs with such an object are newly dirty |
| Finder.LayersFinder.ChangeLayerInFiles | Editor/LayersFinder.cs:290-341 | an unknown source layer sets the error and changes nothing else; otherwise every prefab object on the source layer is recorded in visit order and moved to `NameToLayer(newLayerName)` (possibly -1), each prefab is dirty exactly when it had such an object, and the status line is untouched |

## Left out

- The GUI is not modelled: `OnGUI`, `RenderReportAreaOnGUI`, the foldout widgets and their `TryAdd`, the buttons
  (including the two Clear buttons), `ShowWindow`, the icon and the scroll position. The report area is modelled
  only as which buckets it shows (`Reporting.ShownLayers`) and how an entry is labelled (`Reporting.DisplayName`).
- Colours and `ColorText` are not modelled. The status colour is kept as its meaning: `Unset`, `Warning`, `Error`.
- The `Debug.Log` line written on each mask match is I/O. So the `context` and `identifier` arguments of
  `CheckMonoBehaviours`, and the `GetFullPath` calls that build them, are not modelled.
- `PingInAssets`, the entries' `OnClickAction` and `Selection` change only editor focus, so they are not modelled.
- `AssetDatabase.FindAssets`, `GUIDToAssetPath` and `LoadAssetAtPath` are modelled as the given `assets` sequence.
  `GameObject.FindObjectsOfType` is modelled as the given `allObjects` sequence. The order of
  `GetComponentsInChildren` is whatever the `transforms` sequence holds.
- `AssetDatabase.SaveAssets` (persistence) is not modelled; `EditorUtility.SetDirty` is modelled as the prefab's
  `dirty` flag.
- Reflection (`GetFields` with its binding flags, `GetValue`) is modelled as the given list of a behaviour's field
  values.
- Finder.LayersFinder.ChangeLayerInFiles: requires that the asset query gives each prefab once and that no object
  belongs to two prefabs (`Hierarchy.WellFormed`), as the asset database guarantees. A project that listed the same
  prefab twice would see its second pass find the layers already changed; that case is not modelled.
- Finder.LayersFinder.ChangeLayerInFiles: assigns the unvalidated target index literally, -1 included. Unity's own
  rejection of a layer outside 0..31 in the `layer` setter is host behaviour and is not modelled.
- Finder.LayersFinder.GenerateLayerReport: its result is stated through the visits of the objects' layers at the end
  of the call. No layer changes during the call, so those are also the layers it started from.
