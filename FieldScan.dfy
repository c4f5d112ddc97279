/** Finding MonoBehaviour fields of type LayerMask that refer to a layer. */
module FieldScan {
  import opened Layers
  import opened Hierarchy

  /** A field refers to the target when it is a LayerMask that matches it. */
  predicate FieldMatches(field: FieldValue, targetLayer: int)
  {
    field.LayerMaskField? && MaskMatches(field.mask, targetLayer)
  }

  /** A non-null behaviour refers to the target through one of its fields. */
  predicate BehaviourMatches(behaviour: MonoBehaviour, targetLayer: int)
  {
    behaviour.Behaviour? && exists j :: 0 <= j < |behaviour.fields| && FieldMatches(behaviour.fields[j], targetLayer)
  }

  /** Some behaviour of the object refers to the target. */
  predicate ReferencesLayer(obj: GameObject, targetLayer: int)
  {
    exists i :: 0 <= i < |obj.behaviours| && BehaviourMatches(obj.behaviours[i], targetLayer)
  }

  /** CheckMonoBehaviours: goes through every behaviour of the object,
      skipping null ones, and through every LayerMask field of each; reports
      whether any field matched. It reads the fields and changes nothing. */
  method CheckMonoBehaviours(obj: GameObject, targetLayer: int) returns (found: bool)
    ensures found <==> ReferencesLayer(obj, targetLayer)
  {
    found := false;
    var behaviours := obj.behaviours;
    var i := 0;
    while i < |behaviours|
      invariant 0 <= i <= |behaviours|
      invariant found <==> exists k :: 0 <= k < i && BehaviourMatches(behaviours[k], targetLayer)
    {
      var behaviour := behaviours[i];
      if behaviour.Missing? {
        i := i + 1;
        continue;
      }
      var fields := behaviour.fields;
      var j := 0;
      ghost var foundBefore := found;
      while j < |fields|
        invariant 0 <= j <= |fields|
        invariant found <==> foundBefore || exists m :: 0 <= m < j && FieldMatches(fields[m], targetLayer)
      {
        var field := fields[j];
        if field.LayerMaskField? {
          var mask := field.mask;
          if MaskMatches(mask, targetLayer) {
            found := true;
          }
        }
        j := j + 1;
      }
      i := i + 1;
    }
  }

  /** Some object of the run refers to the target. */
  predicate SomeReferences(objects: seq<GameObject>, targetLayer: int)
  {
    exists o :: o in objects && ReferencesLayer(o, targetLayer)
  }

  /** One of the MonoBehaviour search's loops: CheckMonoBehaviours on every
      object of the run, in order, raising the flag on each match. */
  method ScanObjects(objects: seq<GameObject>, targetLayer: int, found: bool) returns (foundAfter: bool)
    ensures foundAfter <==> found || SomeReferences(objects, targetLayer)
  {
    foundAfter := found;
    var i := 0;
    while i < |objects|
      invariant 0 <= i <= |objects|
      invariant foundAfter <==> found || SomeReferences(objects[..i], targetLayer)
    {
      var matched := CheckMonoBehaviours(objects[i], targetLayer);
      assert objects[..i + 1] == objects[..i] + [objects[i]];
      if matched {
        foundAfter := true;
      }
      i := i + 1;
    }
    assert objects[..i] == objects;
  }

  /** The MonoBehaviour search's asset loop: every object of every loaded
      prefab is checked; assets that loaded nothing are skipped. */
  method ScanAssets(assets: seq<Asset>, targetLayer: int, found: bool) returns (foundAfter: bool)
    ensures foundAfter <==> found || SomeReferences(AllNodes(assets), targetLayer)
  {
    foundAfter := found;
    var a := 0;
    while a < |assets|
      invariant 0 <= a <= |assets|
      invariant foundAfter <==> found || SomeReferences(AllNodes(assets[..a]), targetLayer)
    {
      var prefab := assets[a].prefab;
      assert assets[..a + 1][..a] == assets[..a];
      if prefab != null {
        assert AllNodes(assets[..a + 1]) == AllNodes(assets[..a]) + prefab.transforms;
        foundAfter := ScanObjects(prefab.transforms, targetLayer, foundAfter);
      } else {
        assert AllNodes(assets[..a + 1]) == AllNodes(assets[..a]);
      }
      a := a + 1;
    }
    assert assets[..a] == assets;
  }

  /** Some object of the loaded prefabs refers to the target exactly when
      some asset's prefab holds such an object in its hierarchy. */
  lemma ProjectReferences(assets: seq<Asset>, targetLayer: int)
    ensures SomeReferences(AllNodes(assets), targetLayer) <==>
      exists a :: 0 <= a < |assets| && assets[a].prefab != null && SomeReferences(assets[a].prefab.transforms, targetLayer)
  {
    if SomeReferences(AllNodes(assets), targetLayer) {
      var o :| o in AllNodes(assets) && ReferencesLayer(o, targetLayer);
      InAllNodes(assets, o);
    }
    if exists a :: 0 <= a < |assets| && assets[a].prefab != null && SomeReferences(assets[a].prefab.transforms, targetLayer) {
      var a :| 0 <= a < |assets| && assets[a].prefab != null && SomeReferences(assets[a].prefab.transforms, targetLayer);
      var o :| o in assets[a].prefab.transforms && ReferencesLayer(o, targetLayer);
      InAllNodes(assets, o);
    }
  }

  /** A behaviour holding only a mask that includes every layer refers to
      no layer at all. */
  lemma {:induction false} EverythingMaskReferencesNothing(obj: GameObject, targetLayer: int)
    requires forall i :: 0 <= i < |obj.behaviours| && obj.behaviours[i].Behaviour? ==>
      forall f :: f in obj.behaviours[i].fields ==> f == LayerMaskField(Everything) || f == OtherField
    ensures !ReferencesLayer(obj, targetLayer)
  {
    forall i | 0 <= i < |obj.behaviours| ensures !BehaviourMatches(obj.behaviours[i], targetLayer) {
      if obj.behaviours[i].Behaviour? {
        forall j | 0 <= j < |obj.behaviours[i].fields| ensures !FieldMatches(obj.behaviours[i].fields[j], targetLayer) {
          assert obj.behaviours[i].fields[j] in obj.behaviours[i].fields;
          EverythingNeverMatches(targetLayer);
        }
      }
    }
  }
}
