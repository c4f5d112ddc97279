/** The object graphs the window walks: game objects with a mutable layer,
    the prefabs loaded from the project's asset files, the orders in which
    the searches visit their objects, and the hierarchy path of an object. */
module Hierarchy {

  /** One field of a MonoBehaviour, as reflection reports it: either a
      LayerMask (its 32-bit value) or a field of some other type. */
  datatype FieldValue = LayerMaskField(mask: bv32) | OtherField

  /** A MonoBehaviour slot of a game object; `Missing` is a null entry
      (a script whose class no longer exists). */
  datatype MonoBehaviour = Missing | Behaviour(typeName: string, fields: seq<FieldValue>)

  /** A game object. Its layer is the only thing the window changes; the
      names of its transform's parent, grandparent, ... up to the root are
      kept in `ancestors`, nearest first. */
  class GameObject {
    const name: string
    var layer: int
    const ancestors: seq<string>
    const behaviours: seq<MonoBehaviour>

    constructor (name: string, layer: int, ancestors: seq<string>, behaviours: seq<MonoBehaviour>)
      ensures this.name == name && this.layer == layer
      ensures this.ancestors == ancestors && this.behaviours == behaviours
    {
      this.name := name;
      this.layer := layer;
      this.ancestors := ancestors;
      this.behaviours := behaviours;
    }
  }

  /** A prefab loaded from the project: its root object, every object of
      its hierarchy in the order GetComponentsInChildren<Transform>(true)
      returns them, and whether the editor has marked it as needing to be
      saved. */
  class Prefab {
    const root: GameObject
    const transforms: seq<GameObject>
    var dirty: bool

    /** The hierarchy lists the root first and no object twice. */
    predicate Valid()
    {
      && |transforms| > 0
      && transforms[0] == root
      && forall i, j :: 0 <= i < j < |transforms| ==> transforms[i] != transforms[j]
    }

    /** Marks the prefab as needing to be saved. */
    method SetDirty()
      modifies this`dirty
      ensures dirty
    {
      dirty := true;
    }

    constructor (root: GameObject, descendants: seq<GameObject>)
      requires root !in descendants
      requires forall i, j :: 0 <= i < j < |descendants| ==> descendants[i] != descendants[j]
      ensures Valid() && this.root == root && transforms == [root] + descendants && !dirty
    {
      this.root := root;
      this.transforms := [root] + descendants;
      this.dirty := false;
    }
  }

  /** One result of the project-wide asset query: the asset path and the
      prefab loaded from it, null when loading gave nothing. */
  datatype Asset = Asset(path: string, prefab: Prefab?)

  /** One object visited by a search: the object, the layer it is on when
      the search reaches it, and the file it was found in ("" for the open
      scene). */
  datatype Visit = Visit(node: GameObject, layer: int, filePath: string)

  /** The visits of a run of objects, in order, read from the current heap. */
  function VisitsOf(objects: seq<GameObject>, filePath: string): (vs: seq<Visit>)
    reads objects
    ensures |vs| == |objects|
    ensures forall i :: 0 <= i < |objects| ==> vs[i] == Visit(objects[i], objects[i].layer, filePath)
  {
    seq(|objects|, i requires 0 <= i < |objects| reads objects => Visit(objects[i], objects[i].layer, filePath))
  }

  /** The layers a run of visits recorded. */
  function VisitLayers(vs: seq<Visit>): (ls: seq<int>)
    ensures |ls| == |vs|
    ensures forall i :: 0 <= i < |vs| ==> ls[i] == vs[i].layer
  {
    seq(|vs|, i requires 0 <= i < |vs| => vs[i].layer)
  }

  /** The current layers of a run of objects. */
  function LayersOf(nodes: seq<GameObject>): (ls: seq<int>)
    reads nodes
    ensures |ls| == |nodes|
    ensures forall i :: 0 <= i < |nodes| ==> ls[i] == nodes[i].layer
  {
    seq(|nodes|, i requires 0 <= i < |nodes| reads nodes => nodes[i].layer)
  }

  function Nodes(vs: seq<Visit>): (nodes: seq<GameObject>)
    ensures |nodes| == |vs|
    ensures forall i :: 0 <= i < |vs| ==> nodes[i] == vs[i].node
  {
    seq(|vs|, i requires 0 <= i < |vs| => vs[i].node)
  }

  /** Every object of every loaded prefab, in asset order and, within a
      prefab, in hierarchy order, each paired with its asset path. */
  function FileVisits(assets: seq<Asset>): seq<Visit>
    reads set n | n in AllNodes(assets)
  {
    if assets == [] then []
    else
      var last := assets[|assets| - 1];
      assert AllNodes(assets) == AllNodes(assets[..|assets| - 1]) + (if last.prefab == null then [] else last.prefab.transforms);
      FileVisits(assets[..|assets| - 1])
        + (if last.prefab == null then [] else VisitsOf(last.prefab.transforms, last.path))
  }

  /** Every object of every loaded prefab, in the order FileVisits visits
      them. */
  function AllNodes(assets: seq<Asset>): seq<GameObject>
  {
    if assets == [] then []
    else
      var last := assets[|assets| - 1];
      AllNodes(assets[..|assets| - 1])
        + (if last.prefab == null then [] else last.prefab.transforms)
  }

  /** The root of every loaded prefab, in asset order. */
  function Roots(assets: seq<Asset>): seq<GameObject>
  {
    if assets == [] then []
    else
      var last := assets[|assets| - 1];
      Roots(assets[..|assets| - 1]) + (if last.prefab == null then [] else [last.prefab.root])
  }

  /** The prefabs that loaded. */
  function Prefabs(assets: seq<Asset>): set<Prefab>
  {
    set i | 0 <= i < |assets| && assets[i].prefab != null :: assets[i].prefab
  }

  /** What the editor guarantees of the asset query: every loaded prefab
      lists its hierarchy root first without repeats, and no prefab and no
      object belongs to two assets. */
  predicate WellFormed(assets: seq<Asset>)
  {
    && (forall i :: 0 <= i < |assets| && assets[i].prefab != null ==> assets[i].prefab.Valid())
    && (forall i, j :: 0 <= i < j < |assets| && assets[i].prefab != null && assets[j].prefab != null ==>
          assets[i].prefab != assets[j].prefab && Disjoint(assets[i].prefab.transforms, assets[j].prefab.transforms))
  }

  predicate Disjoint(xs: seq<GameObject>, ys: seq<GameObject>)
  {
    forall n :: n in xs ==> n !in ys
  }

  /** An object is in AllNodes exactly when some loaded prefab holds it. */
  lemma {:induction false} InAllNodes(assets: seq<Asset>, n: GameObject)
    ensures n in AllNodes(assets) <==>
      exists i :: 0 <= i < |assets| && assets[i].prefab != null && n in assets[i].prefab.transforms
  {
    if assets != [] {
      var k := |assets| - 1;
      var prev := assets[..k];
      var tail := if assets[k].prefab == null then [] else assets[k].prefab.transforms;
      assert AllNodes(assets) == AllNodes(prev) + tail;
      InAllNodes(prev, n);
      if n in AllNodes(prev) {
        var i :| 0 <= i < k && prev[i].prefab != null && n in prev[i].prefab.transforms;
        assert prev[i] == assets[i];
      } else if n in tail {
        assert assets[k].prefab != null && n in assets[k].prefab.transforms;
      }
      if exists i :: 0 <= i < |assets| && assets[i].prefab != null && n in assets[i].prefab.transforms {
        var i :| 0 <= i < |assets| && assets[i].prefab != null && n in assets[i].prefab.transforms;
        if i < k {
          assert prev[i] == assets[i];
        }
      }
    }
  }

  /** AllNodes lists exactly the objects FileVisits visits, and each visit
      records its object's current layer. */
  lemma {:induction false} NodesOfFileVisits(assets: seq<Asset>)
    ensures Nodes(FileVisits(assets)) == AllNodes(assets)
    ensures VisitLayers(FileVisits(assets)) == LayersOf(AllNodes(assets))
  {
    if assets != [] {
      var k := |assets| - 1;
      var prev := assets[..k];
      NodesOfFileVisits(prev);
      var p := assets[k].prefab;
      var tail := if p == null then [] else VisitsOf(p.transforms, assets[k].path);
      var tailNodes := if p == null then [] else p.transforms;
      assert FileVisits(assets) == FileVisits(prev) + tail;
      assert AllNodes(assets) == AllNodes(prev) + tailNodes;
      NodesConcat(FileVisits(prev), tail);
      VisitLayersConcat(FileVisits(prev), tail);
      LayersOfConcat(AllNodes(prev), tailNodes);
      assert Nodes(tail) == tailNodes;
      assert VisitLayers(tail) == LayersOf(tailNodes);
    }
  }

  /** Under WellFormed, the objects of the last asset's prefab are none
      of those of the earlier assets. */
  lemma LastPrefabFresh(assets: seq<Asset>)
    requires WellFormed(assets) && assets != [] && assets[|assets| - 1].prefab != null
    ensures Disjoint(assets[|assets| - 1].prefab.transforms, AllNodes(assets[..|assets| - 1]))
  {
    var k := |assets| - 1;
    var prev := assets[..k];
    forall n | n in assets[k].prefab.transforms ensures n !in AllNodes(prev) {
      InAllNodes(prev, n);
      if n in AllNodes(prev) {
        assert false;
      }
    }
  }

  /** An asset that did not load adds no object and no prefab. */
  lemma UnloadedAddsNothing(assets: seq<Asset>, a: int)
    requires 0 <= a < |assets| && assets[a].prefab == null
    ensures AllNodes(assets[..a + 1]) == AllNodes(assets[..a])
    ensures Prefabs(assets[..a + 1]) == Prefabs(assets[..a])
  {
    assert assets[..a + 1][..a] == assets[..a];
    forall q | q in Prefabs(assets[..a + 1]) ensures q in Prefabs(assets[..a]) {
      var i :| 0 <= i < a + 1 && assets[..a + 1][i].prefab != null && assets[..a + 1][i].prefab == q;
      assert assets[..a][i] == assets[i];
    }
    forall q | q in Prefabs(assets[..a]) ensures q in Prefabs(assets[..a + 1]) {
      var i :| 0 <= i < a && assets[..a][i].prefab != null && assets[..a][i].prefab == q;
      assert assets[..a + 1][i] == assets[i];
    }
  }

  /** The objects of the first `a` assets come first in AllNodes. */
  lemma {:induction false} AllNodesPrefix(assets: seq<Asset>, a: int)
    requires 0 <= a <= |assets|
    ensures AllNodes(assets[..a]) <= AllNodes(assets)
    decreases |assets|
  {
    if a < |assets| {
      var n := |assets| - 1;
      AllNodesPrefix(assets[..n], a);
      assert assets[..n][..a] == assets[..a];
    } else {
      assert assets[..a] == assets;
    }
  }

  /** The visits of the first `a` assets come first in FileVisits. */
  lemma {:induction false} FileVisitsPrefix(assets: seq<Asset>, a: int)
    requires 0 <= a <= |assets|
    ensures FileVisits(assets[..a]) <= FileVisits(assets)
    decreases |assets|
  {
    if a < |assets| {
      var n := |assets| - 1;
      FileVisitsPrefix(assets[..n], a);
      assert assets[..n][..a] == assets[..a];
    } else {
      assert assets[..a] == assets;
    }
  }

  /** The objects of the prefab at position `a` sit in AllNodes right
      after those of the earlier assets. */
  lemma AllNodesSlice(assets: seq<Asset>, a: int)
    requires 0 <= a < |assets| && assets[a].prefab != null
    ensures |AllNodes(assets[..a + 1])| == |AllNodes(assets[..a])| + |assets[a].prefab.transforms| <= |AllNodes(assets)|
    ensures AllNodes(assets)[|AllNodes(assets[..a])|..|AllNodes(assets[..a + 1])|] == assets[a].prefab.transforms
  {
    AllNodesPrefix(assets, a + 1);
    assert assets[..a + 1][..a] == assets[..a];
  }

  /** The visits of the prefab at position `a` sit in FileVisits at the
      same positions its objects sit in AllNodes. */
  lemma FileVisitsSlice(assets: seq<Asset>, a: int)
    requires 0 <= a < |assets| && assets[a].prefab != null
    ensures |FileVisits(assets)| == |AllNodes(assets)|
    ensures |AllNodes(assets[..a + 1])| == |AllNodes(assets[..a])| + |assets[a].prefab.transforms| <= |AllNodes(assets)|
    ensures FileVisits(assets)[|AllNodes(assets[..a])|..|AllNodes(assets[..a + 1])|]
         == VisitsOf(assets[a].prefab.transforms, assets[a].path)
  {
    AllNodesSlice(assets, a);
    FileVisitsPrefix(assets, a + 1);
    NodesOfFileVisits(assets);
    NodesOfFileVisits(assets[..a]);
    assert assets[..a + 1][..a] == assets[..a];
  }

  /** Where the objects of each asset start in AllNodes; the last entry
      is the total. */
  function Offsets(assets: seq<Asset>): (offsets: seq<int>)
    ensures |offsets| == |assets| + 1
    ensures forall a :: 0 <= a <= |assets| ==> offsets[a] == |AllNodes(assets[..a])|
  {
    seq(|assets| + 1, a requires 0 <= a <= |assets| => |AllNodes(assets[..a])|)
  }

  /** The offsets cut AllNodes into the hierarchies of the loaded prefabs,
      in asset order, and an unloaded asset gets an empty cut. */
  lemma OffsetsCutAllNodes(assets: seq<Asset>)
    ensures Offsets(assets)[0] == 0 && Offsets(assets)[|assets|] == |AllNodes(assets)|
    ensures forall a, b :: 0 <= a <= b <= |assets| ==> Offsets(assets)[a] <= Offsets(assets)[b]
    ensures forall a {:trigger assets[a]} :: 0 <= a < |assets| && assets[a].prefab == null ==> Offsets(assets)[a + 1] == Offsets(assets)[a]
    ensures forall a {:trigger assets[a]} :: 0 <= a < |assets| && assets[a].prefab != null ==>
      AllNodes(assets)[Offsets(assets)[a]..Offsets(assets)[a + 1]] == assets[a].prefab.transforms
  {
    var offsets := Offsets(assets);
    assert assets[..0] == [] && assets[..|assets|] == assets;
    forall a, b | 0 <= a <= b <= |assets| ensures offsets[a] <= offsets[b] {
      AllNodesPrefix(assets[..b], a);
      assert assets[..b][..a] == assets[..a];
    }
    forall a | 0 <= a < |assets| && assets[a].prefab == null ensures offsets[a + 1] == offsets[a] {
      UnloadedAddsNothing(assets, a);
    }
    forall a | 0 <= a < |assets| && assets[a].prefab != null
      ensures AllNodes(assets)[offsets[a]..offsets[a + 1]] == assets[a].prefab.transforms
    {
      AllNodesSlice(assets, a);
    }
  }

  /** The prefabs loaded by the first `a` assets that belong to `within`. */
  ghost function LoadedAmong(assets: seq<Asset>, a: int, within: set<Prefab>): set<Prefab>
    requires 0 <= a <= |assets|
  {
    set i, p | 0 <= i < a && p in within && assets[i].prefab == p :: p
  }

  lemma LoadedAmongStep(assets: seq<Asset>, a: int, within: set<Prefab>)
    requires 0 <= a < |assets|
    ensures LoadedAmong(assets, a + 1, within)
         == LoadedAmong(assets, a, within) + (if assets[a].prefab != null && assets[a].prefab in within then {assets[a].prefab} else {})
  {
  }

  /** When every prefab of `within` is loaded by some asset, all of them are
      among those of the whole run. */
  lemma LoadedAmongAll(assets: seq<Asset>, within: set<Prefab>)
    requires forall p :: p in within ==> exists i :: 0 <= i < |assets| && assets[i].prefab == p
    ensures LoadedAmong(assets, |assets|, within) == within
  {
    forall p | p in within ensures p in LoadedAmong(assets, |assets|, within) {
      var i :| 0 <= i < |assets| && assets[i].prefab == p;
    }
  }

  /** In a run with no object twice, the object at j is at no other
      position. */
  lemma OnlyAt(nodes: seq<GameObject>, j: int)
    requires 0 <= j < |nodes|
    requires forall i, k :: 0 <= i < k < |nodes| ==> nodes[i] != nodes[k]
    ensures forall k :: 0 <= k < |nodes| && k != j ==> nodes[k] != nodes[j]
  {
    forall k | 0 <= k < |nodes| && k != j ensures nodes[k] != nodes[j] {
      if k < j {
        assert nodes[k] != nodes[j];
      }
    }
  }

  /** In a run of distinct objects, the objects before a slice and those
      after it are none of the slice's. */
  lemma SliceDisjoint(nodes: seq<GameObject>, m: int, next: int)
    requires 0 <= m <= next <= |nodes|
    requires forall i, j :: 0 <= i < j < |nodes| ==> nodes[i] != nodes[j]
    ensures Disjoint(nodes[..m], nodes[m..next]) && Disjoint(nodes[next..], nodes[m..next])
  {
    forall n | n in nodes[..m] ensures n !in nodes[m..next] {
      var i :| 0 <= i < m && nodes[i] == n;
      forall j | m <= j < next ensures nodes[j] != n {}
    }
    forall n | n in nodes[next..] ensures n !in nodes[m..next] {
      var i :| next <= i < |nodes| && nodes[i] == n;
      forall j | m <= j < next ensures nodes[j] != n {}
    }
  }

  lemma LayersOfConcat(xs: seq<GameObject>, ys: seq<GameObject>)
    ensures LayersOf(xs + ys) == LayersOf(xs) + LayersOf(ys)
  {
  }

  lemma NodesConcat(xs: seq<Visit>, ys: seq<Visit>)
    ensures Nodes(xs + ys) == Nodes(xs) + Nodes(ys)
  {
  }

  lemma VisitLayersConcat(xs: seq<Visit>, ys: seq<Visit>)
    ensures VisitLayers(xs + ys) == VisitLayers(xs) + VisitLayers(ys)
  {
  }

  /** The visits of a slice of objects, taken before anything moved, are
      the visits of those objects now. */
  lemma SliceVisits(nodes: seq<GameObject>, before: seq<Visit>, m: int, next: int, path: string)
    requires 0 <= m <= next <= |nodes| == |before|
    requires forall k :: m <= k < next ==> before[k].node == nodes[k] && before[k].filePath == path
    requires LayersOf(nodes[m..]) == VisitLayers(before[m..])
    ensures before[m..next] == VisitsOf(nodes[m..next], path)
  {
    var here := before[m..next];
    forall k | 0 <= k < |here| ensures here[k] == Visit(nodes[m..next][k], nodes[m..next][k].layer, path) {
      assert here[k] == before[m + k];
      assert LayersOf(nodes[m..])[k] == VisitLayers(before[m..])[k];
    }
  }

  /** Cutting a run of objects at `m` and `next` cuts their layers there. */
  lemma LayersSplit(nodes: seq<GameObject>, m: int, next: int)
    requires 0 <= m <= next <= |nodes|
    ensures LayersOf(nodes[..next]) == LayersOf(nodes[..m]) + LayersOf(nodes[m..next])
    ensures LayersOf(nodes[m..]) == LayersOf(nodes[m..next]) + LayersOf(nodes[next..])
  {
    assert nodes[..next] == nodes[..m] + nodes[m..next];
    assert nodes[m..] == nodes[m..next] + nodes[next..];
    LayersOfConcat(nodes[..m], nodes[m..next]);
    LayersOfConcat(nodes[m..next], nodes[next..]);
  }

  /** Cutting a run of visits at `m` and `next` cuts their layers there. */
  lemma VisitLayersSplit(vs: seq<Visit>, m: int, next: int)
    requires 0 <= m <= next <= |vs|
    ensures VisitLayers(vs[..next]) == VisitLayers(vs[..m]) + VisitLayers(vs[m..next])
    ensures VisitLayers(vs[m..]) == VisitLayers(vs[m..next]) + VisitLayers(vs[next..])
  {
    assert vs[..next] == vs[..m] + vs[m..next];
    assert vs[m..] == vs[m..next] + vs[next..];
    VisitLayersConcat(vs[..m], vs[m..next]);
    VisitLayersConcat(vs[m..next], vs[next..]);
  }

  /** Visiting one more object of a run extends what has been visited by
      that one visit. */
  lemma VisitedStep(done: seq<Visit>, here: seq<Visit>, j: int)
    requires 0 <= j < |here|
    ensures done + here[..j + 1] == (done + here[..j]) + [here[j]]
  {
    assert here[..j + 1] == here[..j] + [here[j]];
  }

  /** The visits of a run of objects record its current layers. */
  lemma VisitLayersOf(objects: seq<GameObject>, filePath: string)
    ensures VisitLayers(VisitsOf(objects, filePath)) == LayersOf(objects)
  {
  }

  /** Layers that agree with the visits from m on agree on every later
      stretch. */
  lemma SuffixLayers(nodes: seq<GameObject>, before: seq<Visit>, m: int, next: int)
    requires 0 <= m <= next <= |nodes| == |before|
    requires LayersOf(nodes[m..]) == VisitLayers(before[m..])
    ensures LayersOf(nodes[m..next]) == VisitLayers(before[m..next])
    ensures LayersOf(nodes[next..]) == VisitLayers(before[next..])
  {
    forall k | m <= k < |nodes| ensures nodes[k].layer == before[k].layer {
      assert LayersOf(nodes[m..])[k - m] == VisitLayers(before[m..])[k - m];
    }
  }

  /** Under WellFormed no object is listed twice in AllNodes. */
  lemma {:induction false} AllNodesDistinct(assets: seq<Asset>)
    requires WellFormed(assets)
    ensures forall i, j :: 0 <= i < j < |AllNodes(assets)| ==> AllNodes(assets)[i] != AllNodes(assets)[j]
  {
    if assets != [] {
      var n := |assets| - 1;
      assert WellFormed(assets[..n]);
      AllNodesDistinct(assets[..n]);
      var p := assets[n].prefab;
      if p != null {
        LastPrefabFresh(assets);
        var front := AllNodes(assets[..n]);
        var all := AllNodes(assets);
        assert all == front + p.transforms;
        forall i, j | 0 <= i < j < |all| ensures all[i] != all[j] {
          if j >= |front| {
            assert all[j] == p.transforms[j - |front|];
            if i < |front| {
              assert all[i] in front;
            } else {
              assert all[i] == p.transforms[i - |front|];
            }
          }
        }
      }
    }
  }

  /** The visits of the layer report: the root of every loaded prefab and,
      when children are included, every other object of its hierarchy. */
  function ReportVisits(assets: seq<Asset>, includeChildren: bool): seq<Visit>
    reads set n | n in Roots(assets) + AllNodes(assets)
  {
    if assets == [] then []
    else
      var last := assets[|assets| - 1];
      assert AllNodes(assets) == AllNodes(assets[..|assets| - 1]) + (if last.prefab == null then [] else last.prefab.transforms);
      assert Roots(assets) == Roots(assets[..|assets| - 1]) + (if last.prefab == null then [] else [last.prefab.root]);
      ReportVisits(assets[..|assets| - 1], includeChildren) + AssetVisits(last, includeChildren)
  }

  /** Every object the report visits exists: a fact about the heap that
      lets a caller keep ReportVisits across a call that changes only the
      window's own fields. */
  lemma {:induction false} ReportedObjectsAllocated(assets: seq<Asset>)
    ensures forall n :: n in Roots(assets) + AllNodes(assets) ==> allocated(n)
  {
    if assets != [] {
      var k := |assets| - 1;
      var prev := assets[..k];
      ReportedObjectsAllocated(prev);
      var p := assets[k].prefab;
      assert Roots(assets) == Roots(prev) + (if p == null then [] else [p.root]);
      assert AllNodes(assets) == AllNodes(prev) + (if p == null then [] else p.transforms);
      forall n | n in Roots(assets) + AllNodes(assets) ensures allocated(n) {
        if n !in Roots(prev) + AllNodes(prev) && n != p.root {
          var i :| 0 <= i < |p.transforms| && p.transforms[i] == n;
        }
      }
    }
  }

  /** The report visits of one asset: none when it loaded nothing, else its
      prefab's root and, when children are included, the rest of its
      hierarchy. */
  function AssetVisits(asset: Asset, includeChildren: bool): seq<Visit>
    reads if asset.prefab == null then {} else {asset.prefab.root} + set n | n in asset.prefab.transforms
  {
    if asset.prefab == null then []
    else
      var root := asset.prefab.root;
      [Visit(root, root.layer, asset.path)]
        + (if includeChildren then ChildVisits(VisitsOf(asset.prefab.transforms, asset.path), root) else [])
  }

  /** The visits of objects other than `root`, in order: the walk over a
      prefab's hierarchy skips the prefab's own transform. */
  function ChildVisits(vs: seq<Visit>, root: GameObject): seq<Visit>
  {
    if vs == [] then []
    else
      var last := vs[|vs| - 1];
      ChildVisits(vs[..|vs| - 1], root) + (if last.node == root then [] else [last])
  }

  /** One more visit is kept exactly when it is not the root's. */
  lemma ChildVisitsStep(vs: seq<Visit>, root: GameObject, j: int)
    requires 0 <= j < |vs|
    ensures ChildVisits(vs[..j + 1], root) == ChildVisits(vs[..j], root) + (if vs[j].node == root then [] else [vs[j]])
  {
    assert vs[..j + 1][..j] == vs[..j];
  }

  /** The same step, after the visits already filed. */
  lemma ChildVisitsAfter(done: seq<Visit>, vs: seq<Visit>, root: GameObject, j: int)
    requires 0 <= j < |vs|
    ensures done + ChildVisits(vs[..j + 1], root)
         == (done + ChildVisits(vs[..j], root)) + (if vs[j].node == root then [] else [vs[j]])
  {
    ChildVisitsStep(vs, root, j);
  }

  /** A prefab's visits after the ones already filed: its root's, then the
      rest. */
  lemma VisitsAfterRoot(done: seq<Visit>, first: Visit, rest: seq<Visit>)
    ensures done + ([first] + rest) == (done + [first]) + rest
    ensures rest == [] ==> done + ([first] + rest) == done + [first]
  {
  }

  /** When `root` is not among them, every visit is a child visit. */
  lemma {:induction false} ChildVisitsWithoutRoot(vs: seq<Visit>, root: GameObject)
    requires forall i :: 0 <= i < |vs| ==> vs[i].node != root
    ensures ChildVisits(vs, root) == vs
  {
    if vs != [] {
      var k := |vs| - 1;
      ChildVisitsWithoutRoot(vs[..k], root);
      assert vs == vs[..k] + [vs[k]];
    }
  }

  /** A leading visit of the root is skipped and changes nothing else. */
  lemma {:induction false} ChildVisitsSkipLeadingRoot(v: Visit, rest: seq<Visit>, root: GameObject)
    requires v.node == root
    ensures ChildVisits([v] + rest, root) == ChildVisits(rest, root)
  {
    if rest != [] {
      var k := |rest| - 1;
      ChildVisitsSkipLeadingRoot(v, rest[..k], root);
      assert ([v] + rest)[..|[v] + rest| - 1] == [v] + rest[..k];
    } else {
      assert ([v] + rest)[..0] == [];
    }
  }

  /** With children included, the report visits a well-formed project's
      prefabs exactly as the file search does: every root, then every
      other object once, in hierarchy order. */
  lemma {:induction false} ReportVisitsWithChildren(assets: seq<Asset>)
    requires forall i :: 0 <= i < |assets| && assets[i].prefab != null ==> assets[i].prefab.Valid()
    ensures ReportVisits(assets, true) == FileVisits(assets)
  {
    if assets != [] {
      var k := |assets| - 1;
      var prev := assets[..k];
      ReportVisitsWithChildren(prev);
      var p := assets[k].prefab;
      if p != null {
        var path := assets[k].path;
        PrefabReportVisits(p, path);
        assert ReportVisits(assets, true)
            == ReportVisits(prev, true) + ([Visit(p.root, p.root.layer, path)] + ChildVisits(VisitsOf(p.transforms, path), p.root));
        assert FileVisits(assets) == FileVisits(prev) + VisitsOf(p.transforms, path);
      }
    }
  }

  /** A valid prefab's report visits, children included, are its root's
      visit followed by the visits of the rest of its hierarchy. */
  lemma PrefabReportVisits(p: Prefab, path: string)
    requires p.Valid()
    ensures [Visit(p.root, p.root.layer, path)] + ChildVisits(VisitsOf(p.transforms, path), p.root) == VisitsOf(p.transforms, path)
  {
    var ts := p.transforms;
    var vs := VisitsOf(ts, path);
    var rest := vs[1..];
    assert vs == [vs[0]] + rest;
    ChildVisitsSkipLeadingRoot(vs[0], rest, p.root);
    forall i | 0 <= i < |rest| ensures rest[i].node != p.root {
      assert rest[i] == vs[i + 1];
      assert ts[0] != ts[i + 1];
    }
    ChildVisitsWithoutRoot(rest, p.root);
  }

  /** The number of prefabs that loaded. */
  function LoadedCount(assets: seq<Asset>): nat
  {
    if assets == [] then 0
    else LoadedCount(assets[..|assets| - 1]) + (if assets[|assets| - 1].prefab == null then 0 else 1)
  }

  /** Without children, the report visits the roots of the loaded prefabs
      in asset order, one visit per loaded prefab: every loaded prefab's
      root, with its asset path, and nothing else. */
  lemma {:induction false} ReportVisitsRootsOnly(assets: seq<Asset>)
    ensures Nodes(ReportVisits(assets, false)) == Roots(assets)
    ensures |ReportVisits(assets, false)| == LoadedCount(assets)
    ensures forall v :: v in ReportVisits(assets, false) ==>
      exists i :: 0 <= i < |assets| && assets[i].prefab != null
        && v == Visit(assets[i].prefab.root, assets[i].prefab.root.layer, assets[i].path)
    ensures forall i :: 0 <= i < |assets| && assets[i].prefab != null ==>
      Visit(assets[i].prefab.root, assets[i].prefab.root.layer, assets[i].path) in ReportVisits(assets, false)
  {
    if assets != [] {
      var k := |assets| - 1;
      var prev := assets[..k];
      ReportVisitsRootsOnly(prev);
      var last := AssetVisits(assets[k], false);
      assert ReportVisits(assets, false) == ReportVisits(prev, false) + last;
      NodesConcat(ReportVisits(prev, false), last);
      forall v | v in ReportVisits(assets, false)
        ensures exists i :: 0 <= i < |assets| && assets[i].prefab != null
                  && v == Visit(assets[i].prefab.root, assets[i].prefab.root.layer, assets[i].path)
      {
        if v in ReportVisits(prev, false) {
          var i :| 0 <= i < k && prev[i].prefab != null
            && v == Visit(prev[i].prefab.root, prev[i].prefab.root.layer, prev[i].path);
          assert prev[i] == assets[i];
        }
      }
      forall i | 0 <= i < |assets| && assets[i].prefab != null
        ensures Visit(assets[i].prefab.root, assets[i].prefab.root.layer, assets[i].path) in ReportVisits(assets, false)
      {
        if i < k {
          assert prev[i] == assets[i];
        }
      }
    }
  }

  /** The hierarchy path GetFullPath builds, exactly as written: it starts
      from the object's own name and, for each ancestor from the parent up,
      appends that ancestor's name, a slash, and the whole path built so
      far. The result is not the root-first "Root/.../Name" path: the
      object's own name comes first and last. */
  function FullPath(name: string, ancestors: seq<string>): string
  {
    if ancestors == [] then name
    else
      var path := FullPath(name, ancestors[..|ancestors| - 1]);
      path + ancestors[|ancestors| - 1] + "/" + path
  }

  /** GetFullPath walks the transform's parent chain with a string builder. */
  method GetFullPath(obj: GameObject) returns (path: string)
    ensures path == FullPath(obj.name, obj.ancestors)
  {
    path := obj.name;
    var i := 0;
    while i < |obj.ancestors|
      invariant 0 <= i <= |obj.ancestors|
      invariant path == FullPath(obj.name, obj.ancestors[..i])
    {
      assert obj.ancestors[..i + 1][..i] == obj.ancestors[..i];
      path := path + obj.ancestors[i] + "/" + path;
      i := i + 1;
    }
    assert obj.ancestors[..i] == obj.ancestors;
  }

  /** A root object's path is its name; any path starts and ends with the
      object's own name and is longer than it once there is a parent. */
  lemma FullPathFramesName(name: string, ancestors: seq<string>)
    ensures ancestors == [] ==> FullPath(name, ancestors) == name
    ensures name <= FullPath(name, ancestors)
    ensures |name| <= |FullPath(name, ancestors)|
    ensures FullPath(name, ancestors)[|FullPath(name, ancestors)| - |name|..] == name
    ensures ancestors != [] ==> |name| < |FullPath(name, ancestors)|
  {
    FullPathStartsWithName(name, ancestors);
    FullPathEndsWithName(name, ancestors);
    if ancestors != [] {
      FullPathStartsWithName(name, ancestors[..|ancestors| - 1]);
    }
  }

  lemma {:induction false} FullPathStartsWithName(name: string, ancestors: seq<string>)
    ensures name <= FullPath(name, ancestors)
  {
    if ancestors != [] {
      var prefix := ancestors[..|ancestors| - 1];
      FullPathStartsWithName(name, prefix);
      var p := FullPath(name, prefix);
      var mid := p + ancestors[|ancestors| - 1] + "/";
      assert FullPath(name, ancestors) == mid + p;
      assert (mid + p)[..|p|] == p;
    }
  }

  lemma {:induction false} FullPathEndsWithName(name: string, ancestors: seq<string>)
    ensures |name| <= |FullPath(name, ancestors)|
    ensures FullPath(name, ancestors)[|FullPath(name, ancestors)| - |name|..] == name
  {
    if ancestors != [] {
      var prefix := ancestors[..|ancestors| - 1];
      FullPathEndsWithName(name, prefix);
      var p := FullPath(name, prefix);
      var mid := p + ancestors[|ancestors| - 1] + "/";
      var r := mid + p;
      assert FullPath(name, ancestors) == r;
      assert r[|mid|..] == p;
      assert r[|r| - |name|..] == p[|p| - |name|..];
    }
  }

  /** Adding ancestors only extends the path: the path over the first k
      ancestors is a prefix of the full one. */
  lemma {:induction false} FullPathExtends(name: string, ancestors: seq<string>, k: nat)
    requires k <= |ancestors|
    ensures FullPath(name, ancestors[..k]) <= FullPath(name, ancestors)
    decreases |ancestors| - k
  {
    if k < |ancestors| {
      var m := |ancestors| - 1;
      assert ancestors[..m][..k] == ancestors[..k];
      FullPathExtends(name, ancestors[..m], k);
      assert ancestors[..|ancestors|] == ancestors;
    } else {
      assert ancestors[..k] == ancestors;
    }
  }

  /** A child "Child1" directly under "Root" gets "Child1Root/Child1", not
      "Root/Child1". */
  lemma ChildUnderRootPath()
    ensures FullPath("Child1", ["Root"]) == "Child1Root/Child1"
    ensures FullPath("Child1", ["Root"]) != "Root/Child1"
  {
  }
}
