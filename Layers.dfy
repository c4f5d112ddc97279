/** The project's layer configuration as the editor window sees it through
    Unity's LayerMask: 32 named slots, name/index lookup in both directions,
    and the bitmask test used on LayerMask fields. */
module Layers {

  /** Number of layer slots a project has. */
  const LayerCount := 32

  /** Layer names slot by slot; "" marks a slot that is not in use. */
  type LayerTable = s: seq<string> | |s| == LayerCount witness seq(LayerCount, _ => "")

  /** LayerMask.LayerToName: the name of slot `index`, or "" when the slot is
      unused or the index is outside 0..31. */
  function LayerToName(layers: LayerTable, index: int): string
  {
    if 0 <= index < LayerCount then layers[index] else ""
  }

  /** LayerMask.NameToLayer: the slot holding `name`, or -1. The empty name
      is never a layer, even though unused slots hold it. */
  function NameToLayer(layers: LayerTable, name: string): (index: int)
    ensures index == -1 <==> name == "" || name !in layers
    ensures index != -1 ==> 0 <= index < LayerCount && layers[index] == name
    ensures index != -1 ==> forall i :: 0 <= i < index ==> layers[i] != name
  {
    if name == "" then -1 else FirstSlot(layers, name, 0)
  }

  /** The lowest slot at or after `from` that holds `name`, or -1. */
  function FirstSlot(layers: LayerTable, name: string, from: nat): (index: int)
    requires from <= LayerCount
    ensures index == -1 <==> name !in layers[from..]
    ensures index != -1 ==> from <= index < LayerCount && layers[index] == name
    ensures index != -1 ==> forall i :: from <= i < index ==> layers[i] != name
    decreases LayerCount - from
  {
    if from == LayerCount then -1
    else if layers[from] == name then from
    else
      var r := FirstSlot(layers, name, from + 1);
      assert layers[from..] == [layers[from]] + layers[from + 1..];
      r
  }

  /** The guard every search and the rename run first. */
  predicate LayerExists(layers: LayerTable, name: string)
  {
    NameToLayer(layers, name) != -1
  }

  /** A configured name resolves to a slot that names it back: the lookup
      the searches rely on when they file a match under `name`. */
  lemma NameRoundTrip(layers: LayerTable, name: string)
    ensures LayerExists(layers, name) <==> name != "" && name in layers
    ensures LayerExists(layers, name) ==> LayerToName(layers, NameToLayer(layers, name)) == name
  {
  }

  /** C#'s `~0` read as a LayerMask: every layer included. */
  const Everything: bv32 := 0xFFFF_FFFF

  /** C# masks an int shift count to its low five bits, which for every
      int is its Euclidean remainder by 32. */
  function ShiftCount(layer: int): bv5
  {
    (layer % 32) as bv5
  }

  /** `1 << layer` on a C# int, read as a LayerMask. */
  function LayerBit(layer: int): bv32
  {
    (1 as bv32) << ShiftCount(layer)
  }

  /** The test applied to each LayerMask field: the mask is not `~0` and
      the target layer's bit is set. */
  predicate MaskMatches(mask: bv32, targetLayer: int)
  {
    mask != Everything && LayerBit(targetLayer) & mask != 0
  }

  /** A mask that includes every layer is never reported. */
  lemma EverythingNeverMatches(targetLayer: int)
    ensures !MaskMatches(Everything, targetLayer)
  {
  }

  /** A mask holding only layer k matches target k and no other target. */
  lemma SingleLayerMask(k: int, targetLayer: int)
    requires 0 <= k < LayerCount && 0 <= targetLayer < LayerCount
    ensures MaskMatches(LayerBit(k), targetLayer) <==> targetLayer == k
  {
    ShiftCountInjective(k, targetLayer);
    SingleBits(ShiftCount(k), ShiftCount(targetLayer));
  }

  /** Distinct layers get distinct shift counts. */
  lemma ShiftCountInjective(k: int, j: int)
    requires 0 <= k < LayerCount && 0 <= j < LayerCount
    ensures ShiftCount(k) == ShiftCount(j) <==> k == j
  {
  }

  /** One-bit masks are never `~0` and share a bit exactly when equal. */
  lemma SingleBits(a: bv5, b: bv5)
    ensures ((1 as bv32) << a) != Everything
    ensures ((1 as bv32) << b) & ((1 as bv32) << a) != 0 <==> a == b
  {
  }
}
