/** The layer report: a map from layer name to the ordered list of findings
    filed under it, the append step every search uses to fill it, and what
    each search leaves in it, stated over the visit orders of Hierarchy. */
module Reporting {
  import opened Layers
  import opened Hierarchy

  /** One finding shown in the report. Its selection callback is always
      PingInAssets and is not kept. */
  datatype AssetReport = AssetReport(
    objectRef: GameObject,
    objectName: string,
    filePath: string,
    objectPath: string,
    customMessage: string)

  /** Layer name to findings, in the order they were added. */
  type LayerReport = map<string, seq<AssetReport>>

  /** The findings under `key`, none when the key is absent. */
  function Bucket(report: LayerReport, key: string): seq<AssetReport>
  {
    if key in report then report[key] else []
  }

  /** One call of AddToLayerReport on the map: nothing when the object's
      layer has no name; otherwise the bucket is created if absent and the
      entry goes at its end, every other bucket staying as it was. */
  function Appended(report: LayerReport, key: string, entry: AssetReport): (r: LayerReport)
    ensures key == "" ==> r == report
    ensures key != "" ==> r.Keys == report.Keys + {key} && r[key] == Bucket(report, key) + [entry]
    ensures forall k :: k in report && k != key ==> k in r && r[k] == report[k]
  {
    if key == "" then report else report[key := Bucket(report, key) + [entry]]
  }

  /** A finding together with the layer name it is filed under. */
  datatype Keyed = Keyed(key: string, entry: AssetReport)

  /** The report after appending `items` one by one. */
  function Fold(report: LayerReport, items: seq<Keyed>): LayerReport
  {
    if items == [] then report
    else
      var last := items[|items| - 1];
      Appended(Fold(report, items[..|items| - 1]), last.key, last.entry)
  }

  /** The findings of `items` filed under `key`, in order. */
  function Select(items: seq<Keyed>, key: string): (entries: seq<AssetReport>)
    ensures |entries| <= |items|
  {
    if items == [] then []
    else
      var last := items[|items| - 1];
      Select(items[..|items| - 1], key) + (if last.key == key then [last.entry] else [])
  }

  /** Select keeps exactly the findings filed under `key`. */
  lemma {:induction false} SelectHas(items: seq<Keyed>, key: string, e: AssetReport)
    ensures e in Select(items, key) <==> exists i :: 0 <= i < |items| && items[i] == Keyed(key, e)
  {
    if items != [] {
      var n := |items| - 1;
      var prefix := items[..n];
      SelectHas(prefix, key, e);
      var tail := if items[n].key == key then [items[n].entry] else [];
      assert Select(items, key) == Select(prefix, key) + tail;
      if e in Select(prefix, key) {
        var i :| 0 <= i < |prefix| && prefix[i] == Keyed(key, e);
        assert items[i] == prefix[i];
      }
      if exists i :: 0 <= i < |items| && items[i] == Keyed(key, e) {
        var i :| 0 <= i < |items| && items[i] == Keyed(key, e);
        if i < n {
          assert prefix[i] == items[i];
        }
      }
    }
  }

  /** The non-empty layer names `items` are filed under. */
  function KeysOf(items: seq<Keyed>): set<string>
  {
    set i | 0 <= i < |items| && items[i].key != "" :: items[i].key
  }

  /** Appending never reorders nor drops: each non-empty key's bucket is the
      old bucket followed by the new findings filed under it. */
  lemma {:induction false} FoldBucket(report: LayerReport, items: seq<Keyed>, k: string)
    requires k != ""
    ensures Bucket(Fold(report, items), k) == Bucket(report, k) + Select(items, k)
  {
    if items != [] {
      var n := |items| - 1;
      var prefix := items[..n];
      var last := items[n];
      FoldBucket(report, prefix, k);
      var prev := Fold(report, prefix);
      var tail := if last.key == k then [last.entry] else [];
      assert Fold(report, items) == Appended(prev, last.key, last.entry);
      assert Select(items, k) == Select(prefix, k) + tail;
      AppendedBucket(prev, last.key, last.entry, k);
      assert Bucket(report, k) + (Select(prefix, k) + tail) == (Bucket(report, k) + Select(prefix, k)) + tail;
    }
  }

  /** One append adds the entry to the end of its own bucket only. */
  lemma AppendedBucket(report: LayerReport, key: string, entry: AssetReport, k: string)
    requires k != ""
    ensures Bucket(Appended(report, key, entry), k) == Bucket(report, k) + (if key == k then [entry] else [])
  {
  }

  /** The keys after appending are the old ones plus the new non-empty ones. */
  lemma {:induction false} FoldKeys(report: LayerReport, items: seq<Keyed>)
    ensures Fold(report, items).Keys == report.Keys + KeysOf(items)
  {
    if items != [] {
      FoldKeys(report, items[..|items| - 1]);
      KeysOfSnoc(items);
    }
  }

  /** Both halves at once, for every key. */
  lemma FoldBuckets(report: LayerReport, items: seq<Keyed>)
    ensures forall k :: k != "" ==> Bucket(Fold(report, items), k) == Bucket(report, k) + Select(items, k)
    ensures Fold(report, items).Keys == report.Keys + KeysOf(items)
  {
    forall k | k != "" ensures Bucket(Fold(report, items), k) == Bucket(report, k) + Select(items, k) {
      FoldBucket(report, items, k);
    }
    FoldKeys(report, items);
  }

  lemma KeysOfSnoc(items: seq<Keyed>)
    requires items != []
    ensures KeysOf(items) == KeysOf(items[..|items| - 1]) + (if items[|items| - 1].key != "" then {items[|items| - 1].key} else {})
  {
    var n := |items| - 1;
    var prefix := items[..n];
    forall k | k in KeysOf(items) ensures k in KeysOf(prefix) + (if items[n].key != "" then {items[n].key} else {}) {
      var i :| 0 <= i < |items| && items[i].key != "" && items[i].key == k;
      if i < n { assert prefix[i] == items[i]; }
    }
    forall k | k in KeysOf(prefix) ensures k in KeysOf(items) {
      var i :| 0 <= i < |prefix| && prefix[i].key != "" && prefix[i].key == k;
      assert items[i] == prefix[i];
    }
  }

  /** Appending two runs of findings is appending their concatenation. */
  lemma {:induction false} FoldConcat(report: LayerReport, xs: seq<Keyed>, ys: seq<Keyed>)
    ensures Fold(report, xs + ys) == Fold(Fold(report, xs), ys)
  {
    if ys == [] {
      assert xs + ys == xs;
    } else {
      var n := |ys| - 1;
      FoldConcat(report, xs, ys[..n]);
      assert (xs + ys)[..|xs + ys| - 1] == xs + ys[..n];
    }
  }

  /** A report never gains the empty key. */
  lemma NoEmptyKey(report: LayerReport, items: seq<Keyed>)
    requires "" !in report
    ensures "" !in Fold(report, items)
  {
    FoldBuckets(report, items);
  }

  /** The finding AddToLayerReport builds for an object. */
  function EntryFor(obj: GameObject, filePath: string, customMessage: string): AssetReport
  {
    AssetReport(obj, obj.name, filePath, FullPath(obj.name, obj.ancestors), customMessage)
  }

  /** Each visit filed under the name of the layer its object was on. */
  function Classify(layers: LayerTable, vs: seq<Visit>): (items: seq<Keyed>)
    ensures |items| == |vs|
    ensures forall i :: 0 <= i < |vs| ==>
      items[i] == Keyed(LayerToName(layers, vs[i].layer), EntryFor(vs[i].node, vs[i].filePath, ""))
  {
    seq(|vs|, i requires 0 <= i < |vs| =>
      Keyed(LayerToName(layers, vs[i].layer), EntryFor(vs[i].node, vs[i].filePath, "")))
  }

  /** Classifying one more visit appends its finding under its layer name. */
  lemma ClassifyStep(layers: LayerTable, start: LayerReport, vs: seq<Visit>, v: Visit)
    ensures Fold(start, Classify(layers, vs + [v]))
         == Appended(Fold(start, Classify(layers, vs)), LayerToName(layers, v.layer), EntryFor(v.node, v.filePath, ""))
  {
    var items := Classify(layers, vs + [v]);
    assert items[..|items| - 1] == Classify(layers, vs);
  }

  /** The visits whose object is on layer `index`, in order. */
  function OnLayer(vs: seq<Visit>, index: int): (matches: seq<Visit>)
    ensures |matches| <= |vs|
  {
    if vs == [] then []
    else
      var last := vs[|vs| - 1];
      var prefix := vs[..|vs| - 1];
      assert vs == prefix + [last];
      OnLayer(prefix, index) + (if last.layer == index then [last] else [])
  }

  /** The filter keeps exactly the visits on the layer. */
  lemma {:induction false} OnLayerExact(vs: seq<Visit>, index: int)
    ensures forall v :: v in OnLayer(vs, index) <==> v in vs && v.layer == index
  {
    if vs != [] {
      var prefix := vs[..|vs| - 1];
      OnLayerExact(prefix, index);
      assert vs == prefix + [vs[|vs| - 1]];
    }
  }

  /** Filtering one more visit keeps it exactly when it is on the layer. */
  lemma OnLayerStep(vs: seq<Visit>, v: Visit, index: int)
    ensures OnLayer(vs + [v], index) == OnLayer(vs, index) + (if v.layer == index then [v] else [])
  {
    assert (vs + [v])[..|vs|] == vs;
  }

  /** The findings for a run of matches (no custom message). */
  function Entries(matches: seq<Visit>): (entries: seq<AssetReport>)
    ensures |entries| == |matches|
    ensures forall i :: 0 <= i < |matches| ==> entries[i] == EntryFor(matches[i].node, matches[i].filePath, "")
  {
    seq(|matches|, i requires 0 <= i < |matches| => EntryFor(matches[i].node, matches[i].filePath, ""))
  }

  /** What a scene or file search leaves in the report: nothing when there
      was no match, otherwise one bucket, under the searched layer's name,
      with one finding per match in visit order. */
  function SearchReport(key: string, matches: seq<Visit>): LayerReport
  {
    if matches == [] then map[] else map[key := Entries(matches)]
  }

  /** One more match appends its finding to the search's bucket. */
  lemma SearchReportStep(key: string, matches: seq<Visit>, v: Visit)
    requires key != ""
    ensures SearchReport(key, matches + [v]) == Appended(SearchReport(key, matches), key, EntryFor(v.node, v.filePath, ""))
  {
    assert Entries(matches + [v]) == Entries(matches) + [EntryFor(v.node, v.filePath, "")];
  }

  /** A search for layer `index` under `key` finds every visited object on
      that layer and nothing else. */
  lemma SearchFindsExactlyLayer(vs: seq<Visit>, index: int, key: string)
    ensures SearchReport(key, OnLayer(vs, index)).Keys <= {key}
    ensures forall e :: e in Bucket(SearchReport(key, OnLayer(vs, index)), key) ==>
      exists v :: v in vs && v.layer == index && e == EntryFor(v.node, v.filePath, "")
    ensures forall v :: v in vs && v.layer == index ==>
      EntryFor(v.node, v.filePath, "") in Bucket(SearchReport(key, OnLayer(vs, index)), key)
  {
    var m := OnLayer(vs, index);
    OnLayerExact(vs, index);
    forall e | e in Bucket(SearchReport(key, m), key)
      ensures exists v :: v in vs && v.layer == index && e == EntryFor(v.node, v.filePath, "")
    {
      var i :| 0 <= i < |Entries(m)| && Entries(m)[i] == e;
      assert m[i] in m;
    }
    forall v | v in vs && v.layer == index
      ensures EntryFor(v.node, v.filePath, "") in Bucket(SearchReport(key, m), key)
    {
      var i :| 0 <= i < |m| && m[i] == v;
      assert Entries(m)[i] == EntryFor(v.node, v.filePath, "");
    }
  }

  /** The buckets the layer report starts from: an empty one for every
      named slot below `upTo`. */
  function EmptyBuckets(layers: LayerTable, upTo: nat): (report: LayerReport)
    requires upTo <= LayerCount
    ensures forall k :: k in report <==> k != "" && exists i :: 0 <= i < upTo && layers[i] == k
    ensures forall k :: k in report ==> report[k] == []
  {
    if upTo == 0 then map[]
    else
      var r := EmptyBuckets(layers, upTo - 1);
      if layers[upTo - 1] != "" then r[layers[upTo - 1] := []] else r
  }

  /** The layer report holds a bucket for exactly the configured layer
      names, and each bucket holds the visited objects on that layer, in
      visit order. */
  lemma GeneratedReport(layers: LayerTable, vs: seq<Visit>)
    ensures forall k :: k in Fold(EmptyBuckets(layers, LayerCount), Classify(layers, vs)) <==> k != "" && k in layers
    ensures forall k :: k in Fold(EmptyBuckets(layers, LayerCount), Classify(layers, vs)) ==>
      Fold(EmptyBuckets(layers, LayerCount), Classify(layers, vs))[k] == Select(Classify(layers, vs), k)
    ensures forall k, e :: (k in Fold(EmptyBuckets(layers, LayerCount), Classify(layers, vs))
                            && e in Fold(EmptyBuckets(layers, LayerCount), Classify(layers, vs))[k]) ==>
      exists v :: v in vs && LayerToName(layers, v.layer) == k && e == EntryFor(v.node, v.filePath, "")
  {
    GeneratedKeys(layers, vs);
    GeneratedBuckets(layers, vs);
    GeneratedEntries(layers, vs);
  }

  lemma GeneratedKeys(layers: LayerTable, vs: seq<Visit>)
    ensures forall k :: k in Fold(EmptyBuckets(layers, LayerCount), Classify(layers, vs)) <==> k != "" && k in layers
  {
    var start := EmptyBuckets(layers, LayerCount);
    var items := Classify(layers, vs);
    FoldBuckets(start, items);
    forall k | k in KeysOf(items) ensures k != "" && k in layers {
      var i :| 0 <= i < |items| && items[i].key != "" && items[i].key == k;
      assert 0 <= vs[i].layer < LayerCount;
    }
  }

  lemma GeneratedBuckets(layers: LayerTable, vs: seq<Visit>)
    ensures forall k :: k in Fold(EmptyBuckets(layers, LayerCount), Classify(layers, vs)) ==>
      Fold(EmptyBuckets(layers, LayerCount), Classify(layers, vs))[k] == Select(Classify(layers, vs), k)
  {
    var start := EmptyBuckets(layers, LayerCount);
    var items := Classify(layers, vs);
    FoldBuckets(start, items);
    var r := Fold(start, items);
    forall k | k in r ensures r[k] == Select(items, k) {
      assert Bucket(r, k) == Bucket(start, k) + Select(items, k);
    }
  }

  lemma GeneratedEntries(layers: LayerTable, vs: seq<Visit>)
    ensures forall k, e :: (k in Fold(EmptyBuckets(layers, LayerCount), Classify(layers, vs))
                            && e in Fold(EmptyBuckets(layers, LayerCount), Classify(layers, vs))[k]) ==>
      exists v :: v in vs && LayerToName(layers, v.layer) == k && e == EntryFor(v.node, v.filePath, "")
  {
    var start := EmptyBuckets(layers, LayerCount);
    var items := Classify(layers, vs);
    FoldBuckets(start, items);
    var r := Fold(start, items);
    forall k, e | k in r && e in r[k]
      ensures exists v :: v in vs && LayerToName(layers, v.layer) == k && e == EntryFor(v.node, v.filePath, "")
    {
      assert Bucket(r, k) == Bucket(start, k) + Select(items, k);
      SelectHas(items, k, e);
      var i :| 0 <= i < |items| && items[i] == Keyed(k, e);
      assert vs[i] in vs;
    }
  }

  /** The layer indices the report area shows, in index order: a slot is
      shown when it has a name and the report has a bucket under it; stale
      buckets are skipped, not removed. */
  function ShownLayers(layers: LayerTable, report: LayerReport, upTo: nat): (shown: seq<int>)
    requires upTo <= LayerCount
    ensures forall i :: i in shown <==> 0 <= i < upTo && layers[i] != "" && layers[i] in report
    ensures forall a, b :: 0 <= a < b < |shown| ==> shown[a] < shown[b]
  {
    if upTo == 0 then []
    else
      var r := ShownLayers(layers, report, upTo - 1);
      var i := upTo - 1;
      assert forall a :: 0 <= a < |r| ==> r[a] in r;
      if layers[i] == "" || layers[i] !in report then r else r + [i]
  }

  /** What String.Split('/')[0] gives: everything before the first slash. */
  function FirstSegment(s: string): (segment: string)
    ensures segment <= s
    ensures '/' !in segment
    ensures |segment| < |s| ==> s[|segment|] == '/'
  {
    if s == [] || s[0] == '/' then "" else [s[0]] + FirstSegment(s[1..])
  }

  /** The label of a finding: its object name when the hierarchy path is
      just that name, otherwise the path's first segment followed by the
      object name in parentheses. */
  function DisplayName(entry: AssetReport): string
  {
    if entry.objectPath == entry.objectName then entry.objectName
    else FirstSegment(entry.objectPath) + " (" + entry.objectName + ")"
  }

  /** The first segment of `x/rest` is `x` when `x` has no slash. */
  lemma {:induction false} FirstSegmentBeforeSlash(x: string, rest: string)
    requires '/' !in x
    ensures FirstSegment(x + "/" + rest) == x
  {
    if x != [] {
      assert (x + "/" + rest)[1..] == x[1..] + "/" + rest;
      FirstSegmentBeforeSlash(x[1..], rest);
    } else {
      assert (x + "/" + rest)[0] == '/';
    }
  }

  /** With the paths GetFullPath builds, a root object is labelled with its
      own name, and an object with a parent is labelled with its own name
      run into its parent's name, then its name in parentheses ("C" under
      "B" shows as "CB (C)"), provided neither name holds a slash. */
  lemma DisplayNameOfEntry(obj: GameObject, filePath: string, customMessage: string)
    ensures obj.ancestors == [] ==> DisplayName(EntryFor(obj, filePath, customMessage)) == obj.name
    ensures obj.ancestors != [] && '/' !in obj.name && '/' !in obj.ancestors[0] ==>
      DisplayName(EntryFor(obj, filePath, customMessage)) == obj.name + obj.ancestors[0] + " (" + obj.name + ")"
  {
    var path := FullPath(obj.name, obj.ancestors);
    FullPathFramesName(obj.name, obj.ancestors);
    if obj.ancestors != [] && '/' !in obj.name && '/' !in obj.ancestors[0] {
      FullPathExtends(obj.name, obj.ancestors, 1);
      var first := FullPath(obj.name, obj.ancestors[..1]);
      assert first == obj.name + obj.ancestors[0] + "/" + obj.name by {
        assert obj.ancestors[..1][..0] == [];
      }
      var x := obj.name + obj.ancestors[0];
      assert '/' !in x;
      assert path == first + path[|first|..];
      assert path == x + "/" + (obj.name + path[|first|..]);
      FirstSegmentBeforeSlash(x, obj.name + path[|first|..]);
    }
  }
}
