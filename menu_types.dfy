/**
 * The static menu tree: items, layers and references into it. Pointers of
 * the source become identifiers: an int or bool item names the live
 * setting it edits, a submenu item names the item array it leads to, and an
 * action item names its callback.
 */
module MenuTypes {
  import opened Wrappers

  /** The name of a live setting variable (`waterAmount`, ...). */
  type SettingId = string
  /** A key of the persistent key/value store. */
  type PrefKey = string
  /** The identity of an item array (`waterMenuItems`, ...). */
  type ItemsId = string

  /** The action callbacks the tree can name. */
  datatype ActionId =
    | StartAutoRun | StopAutoRun | EnterTestMode | ExitTestMode | SaveSettings | ResetToDefaults

  /** The fields each item type uses; a `None` stands for a null pointer. */
  datatype ItemKind =
    | Submenu(subMenu: Option<ItemsId>, subMenuSize: nat)
    | Action(action: Option<ActionId>)
    | ValueInt(intValue: Option<SettingId>, minValue: int, maxValue: int, step: int,
               unit: Option<string>, prefKey: Option<PrefKey>)
    | Toggle(boolValue: Option<SettingId>, prefKey: Option<PrefKey>)
    | Back

  /** `caption` is the item's display label. */
  datatype MenuItem = MenuItem(caption: string, kind: ItemKind)

  datatype MenuLayer = MenuLayer(name: string, itemsId: ItemsId, items: seq<MenuItem>)

  /** A position in the tree: layer index and item index. */
  datatype ItemRef = ItemRef(layer: nat, index: nat)

  predicate RefOk(layers: seq<MenuLayer>, r: ItemRef)
  {
    r.layer < |layers| && r.index < |layers[r.layer].items|
  }

  function ItemAt(layers: seq<MenuLayer>, r: ItemRef): MenuItem
    requires RefOk(layers, r)
  {
    layers[r.layer].items[r.index]
  }

  /** All items, layer by layer, in the order the nested save/load loops visit them. */
  function Flatten(layers: seq<MenuLayer>): (items: seq<MenuItem>)
    decreases |layers|
  {
    if layers == [] then [] else Flatten(layers[..|layers| - 1]) + layers[|layers| - 1].items
  }

  /** The visiting order one more layer at a time, as the outer loop advances. */
  lemma FlattenStep(layers: seq<MenuLayer>, l: nat)
    requires l < |layers|
    ensures Flatten(layers[..l + 1]) == Flatten(layers[..l]) + layers[l].items
  {
    assert layers[..l + 1][..l] == layers[..l];
  }

  /** Every item of the flattened tree belongs to some layer. */
  lemma {:induction false} FlattenMember(layers: seq<MenuLayer>, x: MenuItem) returns (l: nat)
    requires x in Flatten(layers)
    ensures l < |layers| && x in layers[l].items
    decreases |layers|
  {
    var n := |layers| - 1;
    if x in layers[n].items {
      l := n;
    } else {
      l := FlattenMember(layers[..n], x);
      assert layers[..n][l] == layers[l];
    }
  }
}
