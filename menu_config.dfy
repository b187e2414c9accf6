/**
 * The configured menu of the egg-tray moulder: ten layers of items, the
 * submenu links `linkMenus` fills in at start-up, and the compiled default
 * of every live setting. The lemmas here discharge, for this instance, what
 * the engine needs of a tree: non-empty layers, links that resolve, sane
 * int items, distinct store keys, a bounded navigation depth and display
 * lines that fit.
 */
module MenuConfig {
  import opened Wrappers
  import opened Text
  import opened MenuTypes
  import opened SettingsStore
  import opened MenuEngine

  const MAIN_MENU_COUNT: nat := 3
  const SETTINGS_MENU_COUNT: nat := 8
  const WATER_MENU_COUNT: nat := 3
  const STARCH_MENU_COUNT: nat := 3
  const SHREDDER_MENU_COUNT: nat := 2
  const MIXER_MENU_COUNT: nat := 3
  const MOULDING_MENU_COUNT: nat := 4
  const DRYING_MENU_COUNT: nat := 3
  const TEST_MENU_COUNT: nat := 1
  const RUNNING_MENU_COUNT: nat := 1
  const TOTAL_LAYERS: nat := 10

  /** The declared item count of each layer, in layer order. */
  const LAYER_COUNTS: seq<nat> := [MAIN_MENU_COUNT, SETTINGS_MENU_COUNT, WATER_MENU_COUNT, STARCH_MENU_COUNT,
    SHREDDER_MENU_COUNT, MIXER_MENU_COUNT, MOULDING_MENU_COUNT, DRYING_MENU_COUNT, TEST_MENU_COUNT, RUNNING_MENU_COUNT]

  /** The item tables as compiled: every submenu link still null. */
  const MAIN_MENU_ITEMS: seq<MenuItem> := [
    MenuItem("Settings", Submenu(None, 0)),
    MenuItem("Run Auto", Action(Some(StartAutoRun))),
    MenuItem("Test Machine", Action(Some(EnterTestMode)))]

  const SETTINGS_MENU_ITEMS: seq<MenuItem> := [
    MenuItem("Water", Submenu(None, 0)),
    MenuItem("Starch", Submenu(None, 0)),
    MenuItem("Shredder", Submenu(None, 0)),
    MenuItem("Mixer", Submenu(None, 0)),
    MenuItem("Moulding", Submenu(None, 0)),
    MenuItem("Drying", Submenu(None, 0)),
    MenuItem("Save All", Action(Some(SaveSettings))),
    MenuItem("Back", Back)]

  const WATER_MENU_ITEMS: seq<MenuItem> := [
    MenuItem("Amount", ValueInt(Some("waterAmount"), 100, 5000, 50, Some("ml"), Some("waterAmt"))),
    MenuItem("Timeout", ValueInt(Some("waterFlowTimeout"), 10, 300, 5, Some("sec"), Some("waterTmo"))),
    MenuItem("Back", Back)]

  const STARCH_MENU_ITEMS: seq<MenuItem> := [
    MenuItem("Weight", ValueInt(Some("starchWeight"), 100, 2000, 50, Some("g"), Some("starchWt"))),
    MenuItem("Dispense Time", ValueInt(Some("starchDispenseTime"), 5, 60, 1, Some("sec"), Some("starchTm"))),
    MenuItem("Back", Back)]

  const SHREDDER_MENU_ITEMS: seq<MenuItem> := [
    MenuItem("Run Time", ValueInt(Some("shredderTime"), 10, 120, 5, Some("sec"), Some("shredTm"))),
    MenuItem("Back", Back)]

  const MIXER_MENU_ITEMS: seq<MenuItem> := [
    MenuItem("Mix Time", ValueInt(Some("mixTime"), 30, 600, 10, Some("sec"), Some("mixTm"))),
    MenuItem("Mix Speed", ValueInt(Some("mixSpeed"), 0, 100, 5, Some("%"), Some("mixSpd"))),
    MenuItem("Back", Back)]

  const MOULDING_MENU_ITEMS: seq<MenuItem> := [
    MenuItem("Suction Time", ValueInt(Some("mouldSuctionTime"), 3, 30, 1, Some("sec"), Some("mldSucTm"))),
    MenuItem("Blower Time", ValueInt(Some("mouldBlowerTime"), 2, 20, 1, Some("sec"), Some("mldBlwTm"))),
    MenuItem("Cycle Delay", ValueInt(Some("mouldCycleDelay"), 1, 10, 1, Some("sec"), Some("mldDly"))),
    MenuItem("Back", Back)]

  const DRYING_MENU_ITEMS: seq<MenuItem> := [
    MenuItem("Dry Time", ValueInt(Some("dryingTime"), 60, 600, 30, Some("sec"), Some("dryTm"))),
    MenuItem("Temperature", ValueInt(Some("dryingTemp"), 50, 120, 5, Some("C"), Some("dryTemp"))),
    MenuItem("Back", Back)]

  const TEST_MENU_ITEMS: seq<MenuItem> := [
    MenuItem("Exit Test", Action(Some(ExitTestMode)))]

  const RUNNING_MENU_ITEMS: seq<MenuItem> := [
    MenuItem("Stop", Action(Some(StopAutoRun)))]

  /** `menuLayers` before `linkMenus`. */
  const UNLINKED_LAYERS: seq<MenuLayer> := [
    MenuLayer("MAIN MENU", "mainMenuItems", MAIN_MENU_ITEMS),
    MenuLayer("SETTINGS", "settingsMenuItems", SETTINGS_MENU_ITEMS),
    MenuLayer("WATER", "waterMenuItems", WATER_MENU_ITEMS),
    MenuLayer("STARCH", "starchMenuItems", STARCH_MENU_ITEMS),
    MenuLayer("SHREDDER", "shredderMenuItems", SHREDDER_MENU_ITEMS),
    MenuLayer("MIXER", "mixerMenuItems", MIXER_MENU_ITEMS),
    MenuLayer("MOULDING", "mouldingMenuItems", MOULDING_MENU_ITEMS),
    MenuLayer("DRYING", "dryingMenuItems", DRYING_MENU_ITEMS),
    MenuLayer("TEST MACHINE", "testMenuItems", TEST_MENU_ITEMS),
    MenuLayer("RUNNING", "runningMenuItems", RUNNING_MENU_ITEMS)]

  /** The main and settings tables once linked, written out. */
  const LINKED_MAIN_MENU_ITEMS: seq<MenuItem> := [
    MenuItem("Settings", Submenu(Some("settingsMenuItems"), SETTINGS_MENU_COUNT)),
    MenuItem("Run Auto", Action(Some(StartAutoRun))),
    MenuItem("Test Machine", Action(Some(EnterTestMode)))]

  const LINKED_SETTINGS_MENU_ITEMS: seq<MenuItem> := [
    MenuItem("Water", Submenu(Some("waterMenuItems"), WATER_MENU_COUNT)),
    MenuItem("Starch", Submenu(Some("starchMenuItems"), STARCH_MENU_COUNT)),
    MenuItem("Shredder", Submenu(Some("shredderMenuItems"), SHREDDER_MENU_COUNT)),
    MenuItem("Mixer", Submenu(Some("mixerMenuItems"), MIXER_MENU_COUNT)),
    MenuItem("Moulding", Submenu(Some("mouldingMenuItems"), MOULDING_MENU_COUNT)),
    MenuItem("Drying", Submenu(Some("dryingMenuItems"), DRYING_MENU_COUNT)),
    MenuItem("Save All", Action(Some(SaveSettings))),
    MenuItem("Back", Back)]

  /** `menuLayers` after `linkMenus`: the tree the machine runs. */
  const MENU_LAYERS: seq<MenuLayer> :=
    UNLINKED_LAYERS[0 := UNLINKED_LAYERS[0].(items := LINKED_MAIN_MENU_ITEMS)]
                   [1 := UNLINKED_LAYERS[1].(items := LINKED_SETTINGS_MENU_ITEMS)]

  /** The compiled defaults of the live int settings. */
  const DEFAULTS: map<SettingId, int> := map[
    "waterAmount" := 1000, "waterFlowTimeout" := 60,
    "starchWeight" := 500, "starchDispenseTime" := 10,
    "shredderTime" := 30,
    "mixTime" := 120, "mixSpeed" := 100,
    "pumpTime" := 45,
    "mouldSuctionTime" := 8, "mouldBlowerTime" := 5, "mouldCycleDelay" := 2,
    "dryingTime" := 300, "dryingTemp" := 80,
    "conveyorSpeed" := 50,
    "scaleCalibrationWeight" := 500]

  /** Point item `i` of layer `l` at the item array `target` of `size` items. */
  method SetLink(a: array<MenuLayer>, l: nat, i: nat, target: ItemsId, size: nat)
    requires l < a.Length && i < |a[l].items|
    modifies a
    ensures a[..] == old(a[..])[l := old(a[l]).(items := old(a[l]).items[i := old(a[l]).items[i].(kind := Submenu(Some(target), size))])]
  {
    var layer := a[l];
    a[l] := layer.(items := layer.items[i := layer.items[i].(kind := Submenu(Some(target), size))]);
  }

  /** `linkMenus`: fill in the seven submenu links of the compiled tables. */
  method LinkMenus(a: array<MenuLayer>)
    requires a[..] == UNLINKED_LAYERS
    modifies a
    ensures a[..] == MENU_LAYERS
  {
    SetLink(a, 0, 0, "settingsMenuItems", SETTINGS_MENU_COUNT);
    SetLink(a, 1, 0, "waterMenuItems", WATER_MENU_COUNT);
    SetLink(a, 1, 1, "starchMenuItems", STARCH_MENU_COUNT);
    SetLink(a, 1, 2, "shredderMenuItems", SHREDDER_MENU_COUNT);
    SetLink(a, 1, 3, "mixerMenuItems", MIXER_MENU_COUNT);
    SetLink(a, 1, 4, "mouldingMenuItems", MOULDING_MENU_COUNT);
    SetLink(a, 1, 5, "dryingMenuItems", DRYING_MENU_COUNT);
    assert a[0].items == LINKED_MAIN_MENU_ITEMS;
    assert a[1].items == LINKED_SETTINGS_MENU_ITEMS;
  }

  /** Each layer has as many items as its declared count, at least one and fewer than 256. */
  lemma ConfigTreeOk()
    ensures |MENU_LAYERS| == TOTAL_LAYERS == |LAYER_COUNTS|
    ensures forall l :: 0 <= l < |MENU_LAYERS| ==> |MENU_LAYERS[l].items| == LAYER_COUNTS[l]
    ensures TreeOk(MENU_LAYERS)
  {
  }

  /** No two layers share an item array. */
  lemma ConfigIdsDistinct()
    ensures DistinctIds(MENU_LAYERS)
  {
  }

  /**
   * After `linkMenus` every submenu item links to the items of exactly one
   * layer, which the lookup finds, and its size is that layer's count.
   */
  lemma ConfigLinksResolve()
    ensures forall l, i :: 0 <= l < |MENU_LAYERS| && 0 <= i < |MENU_LAYERS[l].items| && MENU_LAYERS[l].items[i].kind.Submenu? ==>
      var k := MENU_LAYERS[l].items[i].kind;
      FindLayer(MENU_LAYERS, k.subMenu).Some?
      && |MENU_LAYERS[FindLayer(MENU_LAYERS, k.subMenu).value].items| == k.subMenuSize
  {
    ConfigIdsDistinct();
    forall l, i | 0 <= l < |MENU_LAYERS| && 0 <= i < |MENU_LAYERS[l].items| && MENU_LAYERS[l].items[i].kind.Submenu?
      ensures var k := MENU_LAYERS[l].items[i].kind;
        FindLayer(MENU_LAYERS, k.subMenu).Some?
        && |MENU_LAYERS[FindLayer(MENU_LAYERS, k.subMenu).value].items| == k.subMenuSize
    {
      SubmenuPositions(l, i);
      var target := if l == 0 then 1 else i + 2;
      FindLayerDistinct(MENU_LAYERS, target);
    }
  }

  /** The submenu items are the first of MAIN MENU and the first six of SETTINGS, linking to layers 1 and 2-7. */
  lemma SubmenuPositions(l: nat, i: nat)
    requires l < |MENU_LAYERS| && i < |MENU_LAYERS[l].items| && MENU_LAYERS[l].items[i].kind.Submenu?
    ensures (l == 0 && i == 0) || (l == 1 && i < 6)
    ensures MENU_LAYERS[l].items[i].kind.subMenu == Some(MENU_LAYERS[if l == 0 then 1 else i + 2].itemsId)
  {
    if l == 0 {
      assert MENU_LAYERS[0].items == LINKED_MAIN_MENU_ITEMS;
    } else if l == 1 {
      assert MENU_LAYERS[1].items == LINKED_SETTINGS_MENU_ITEMS;
    }
  }

  /** The layers' item tables, in layer order. */
  const ITEM_TABLES: seq<seq<MenuItem>> := [LINKED_MAIN_MENU_ITEMS, LINKED_SETTINGS_MENU_ITEMS, WATER_MENU_ITEMS,
    STARCH_MENU_ITEMS, SHREDDER_MENU_ITEMS, MIXER_MENU_ITEMS, MOULDING_MENU_ITEMS, DRYING_MENU_ITEMS,
    TEST_MENU_ITEMS, RUNNING_MENU_ITEMS]

  lemma LayerItems(l: nat)
    requires l < |MENU_LAYERS|
    ensures MENU_LAYERS[l].items == ITEM_TABLES[l]
  {
  }

  /** The layer whose items own each store key. */
  const KEY_LAYER: map<PrefKey, nat> := map[
    "waterAmt" := 2, "waterTmo" := 2, "starchWt" := 3, "starchTm" := 3, "shredTm" := 4,
    "mixTm" := 5, "mixSpd" := 5, "mldSucTm" := 6, "mldBlwTm" := 6, "mldDly" := 6,
    "dryTm" := 7, "dryTemp" := 7]

  /** The store key each live setting is saved under. */
  const SETTING_KEY: map<SettingId, PrefKey> := map[
    "waterAmount" := "waterAmt", "waterFlowTimeout" := "waterTmo",
    "starchWeight" := "starchWt", "starchDispenseTime" := "starchTm",
    "shredderTime" := "shredTm",
    "mixTime" := "mixTm", "mixSpeed" := "mixSpd",
    "mouldSuctionTime" := "mldSucTm", "mouldBlowerTime" := "mldBlwTm", "mouldCycleDelay" := "mldDly",
    "dryingTime" := "dryTm", "dryingTemp" := "dryTemp"]

  /** A bound item is saved under the key of the setting it edits. */
  predicate KeyedBySetting(x: MenuItem)
  {
    Bound(x) ==>
      var id := if x.kind.ValueInt? then x.kind.intValue.value else x.kind.boolValue.value;
      id in SETTING_KEY && SETTING_KEY[id] == KeyOf(x)
  }

  /** Every bound item of `t` has its key owned by layer `l`. */
  predicate KeysHome(t: seq<MenuItem>, l: nat)
  {
    forall x :: x in t && Bound(x) ==> KeyOf(x) in KEY_LAYER && KEY_LAYER[KeyOf(x)] == l
  }

  /**
   * An int item is usable: a proper range, a positive step, a live setting
   * and a store key, and the setting's compiled default inside the range.
   */
  predicate IntItemOk(x: MenuItem)
  {
    x.kind.ValueInt? ==>
      && x.kind.minValue < x.kind.maxValue && x.kind.step > 0
      && x.kind.intValue.Some? && x.kind.intValue.value in DEFAULTS && x.kind.prefKey.Some?
      && x.kind.minValue <= DEFAULTS[x.kind.intValue.value] <= x.kind.maxValue
  }

  /** An int item's line, for its largest value, fits a display line (its range is non-negative). */
  predicate FitsLine(x: MenuItem)
  {
    x.kind.ValueInt? ==>
      0 <= x.kind.minValue <= x.kind.maxValue
      && 2 + |x.caption| + |NatToString(x.kind.maxValue)| + |x.kind.unit.GetOr("")| <= LINE_WIDTH
  }

  /** What the lemmas below establish of each item table. */
  predicate TableOk(t: seq<MenuItem>, l: nat)
  {
    KeysHome(t, l) && DistinctKeys(t) && forall x :: x in t ==> IntItemOk(x) && FitsLine(x) && KeyedBySetting(x)
  }

  lemma LayerOk(l: nat)
    requires l < |ITEM_TABLES|
    ensures TableOk(ITEM_TABLES[l], l)
  {
    if l == 0 || l == 1 || l == 8 || l == 9 {
      PlainLayers(l);
    } else if l == 2 {
      WaterTable();
    } else if l == 3 {
      StarchTable();
    } else if l == 4 {
      ShredderTable();
    } else if l == 5 {
      MixerTable();
    } else if l == 6 {
      MouldingTable();
    } else {
      DryingTable();
    }
  }

  /** MAIN MENU, SETTINGS, TEST MACHINE and RUNNING hold no int or bool item. */
  lemma PlainLayers(l: nat)
    requires l == 0 || l == 1 || l == 8 || l == 9
    ensures Plain(ITEM_TABLES[l])
  {
    if l == 0 {
      MainPlain();
    } else if l == 1 {
      SettingsPlain();
    } else if l == 8 {
      TestPlain();
    } else {
      RunningPlain();
    }
  }

  lemma MainPlain()
    ensures Plain(ITEM_TABLES[0])
  {
    PlainTable(LINKED_MAIN_MENU_ITEMS);
    assert ITEM_TABLES[0] == LINKED_MAIN_MENU_ITEMS;
  }

  lemma SettingsPlain()
    ensures Plain(ITEM_TABLES[1])
  {
    SettingsTable();
    SettingsItemsPlain();
  }

  lemma SettingsTable()
    ensures ITEM_TABLES[1] == LINKED_SETTINGS_MENU_ITEMS
  {
  }

  lemma SettingsItemsPlain()
    ensures Plain(LINKED_SETTINGS_MENU_ITEMS)
  {
    PlainTable(LINKED_SETTINGS_MENU_ITEMS);
  }

  lemma TestPlain()
    ensures Plain(ITEM_TABLES[8])
  {
    PlainTable(TEST_MENU_ITEMS);
    assert ITEM_TABLES[8] == TEST_MENU_ITEMS;
  }

  lemma RunningPlain()
    ensures Plain(ITEM_TABLES[9])
  {
    PlainTable(RUNNING_MENU_ITEMS);
    assert ITEM_TABLES[9] == RUNNING_MENU_ITEMS;
  }

  /** A table of submenu, action and back items only. */
  predicate Plain(t: seq<MenuItem>)
  {
    forall x :: x in t ==> !x.kind.ValueInt? && !x.kind.Toggle?
  }

  lemma PlainTable(t: seq<MenuItem>)
    requires forall i :: 0 <= i < |t| ==> t[i].kind.Submenu? || t[i].kind.Action? || t[i].kind.Back?
    ensures Plain(t)
  {
  }

  lemma WaterTable()
    ensures TableOk(WATER_MENU_ITEMS, 2)
  {
    WaterKeys();
    WaterItems();
  }

  lemma WaterKeys()
    ensures KeysHome(WATER_MENU_ITEMS, 2) && DistinctKeys(WATER_MENU_ITEMS)
  {
  }

  lemma WaterItems()
    ensures forall x :: x in WATER_MENU_ITEMS ==> IntItemOk(x) && FitsLine(x) && KeyedBySetting(x)
  {
  }

  lemma StarchTable()
    ensures TableOk(STARCH_MENU_ITEMS, 3)
  {
    StarchKeys();
    StarchItems();
  }

  lemma StarchKeys()
    ensures KeysHome(STARCH_MENU_ITEMS, 3) && DistinctKeys(STARCH_MENU_ITEMS)
  {
  }

  lemma StarchItems()
    ensures forall x :: x in STARCH_MENU_ITEMS ==> IntItemOk(x) && FitsLine(x) && KeyedBySetting(x)
  {
  }

  lemma ShredderTable()
    ensures TableOk(SHREDDER_MENU_ITEMS, 4)
  {
    ShredderKeys();
    ShredderItems();
  }

  lemma ShredderKeys()
    ensures KeysHome(SHREDDER_MENU_ITEMS, 4) && DistinctKeys(SHREDDER_MENU_ITEMS)
  {
  }

  lemma ShredderItems()
    ensures forall x :: x in SHREDDER_MENU_ITEMS ==> IntItemOk(x) && FitsLine(x) && KeyedBySetting(x)
  {
  }

  lemma MixerTable()
    ensures TableOk(MIXER_MENU_ITEMS, 5)
  {
    MixerKeys();
    MixerItems();
  }

  lemma MixerKeys()
    ensures KeysHome(MIXER_MENU_ITEMS, 5) && DistinctKeys(MIXER_MENU_ITEMS)
  {
  }

  lemma MixerItems()
    ensures forall x :: x in MIXER_MENU_ITEMS ==> IntItemOk(x) && FitsLine(x) && KeyedBySetting(x)
  {
  }

  lemma MouldingTable()
    ensures TableOk(MOULDING_MENU_ITEMS, 6)
  {
    MouldingKeys();
    MouldingItems();
  }

  lemma MouldingKeys()
    ensures KeysHome(MOULDING_MENU_ITEMS, 6) && DistinctKeys(MOULDING_MENU_ITEMS)
  {
  }

  lemma MouldingItems()
    ensures forall x :: x in MOULDING_MENU_ITEMS ==> IntItemOk(x) && FitsLine(x) && KeyedBySetting(x)
  {
  }

  lemma DryingTable()
    ensures TableOk(DRYING_MENU_ITEMS, 7)
  {
    DryingKeys();
    DryingItems();
  }

  lemma DryingKeys()
    ensures KeysHome(DRYING_MENU_ITEMS, 7) && DistinctKeys(DRYING_MENU_ITEMS)
  {
  }

  lemma DryingItems()
    ensures forall x :: x in DRYING_MENU_ITEMS ==> IntItemOk(x) && FitsLine(x) && KeyedBySetting(x)
  {
  }

  /** No two items of the tree share a store key. */
  lemma ConfigKeysDistinct()
    ensures DistinctKeys(Flatten(MENU_LAYERS))
  {
    forall x, y | x in Flatten(MENU_LAYERS) && y in Flatten(MENU_LAYERS) && Bound(x) && Bound(y) && KeyOf(x) == KeyOf(y)
      ensures x == y
    {
      var l := FlattenMember(MENU_LAYERS, x);
      var m := FlattenMember(MENU_LAYERS, y);
      LayerItems(l);
      LayerItems(m);
      LayerOk(l);
      LayerOk(m);
    }
  }

  /** No two items of the tree edit the same live setting. */
  lemma ConfigSettingsDistinct()
    ensures DistinctSettings(Flatten(MENU_LAYERS))
  {
    ConfigKeysDistinct();
    forall x, y | x in Flatten(MENU_LAYERS) && y in Flatten(MENU_LAYERS) && Bound(x) && Bound(y) && SameSetting(x, y)
      ensures KeyOf(x) == KeyOf(y)
    {
      var l := FlattenMember(MENU_LAYERS, x);
      var m := FlattenMember(MENU_LAYERS, y);
      LayerItems(l);
      LayerItems(m);
      LayerOk(l);
      LayerOk(m);
    }
  }

  /**
   * Start-up with the store open seeds every persisting setting of the tree
   * from its key, when the key holds an int or bool as the item expects.
   */
  lemma StartupLoadsSettings(e: Engine, storeOpened: bool)
    requires e.prefsInitialized || storeOpened
    ensures TreeOk(MENU_LAYERS)
    ensures var r := InitMenu(e, MENU_LAYERS, storeOpened);
      forall x :: x in Flatten(MENU_LAYERS) && Persists(x, e.ints, e.bools) ==>
        LiveValue(x, r.ints, r.bools) == Loaded(KeyOf(x), LiveValue(x, e.ints, e.bools), e.prefs)
  {
    ConfigTreeOk();
    ConfigSettingsDistinct();
    InitLoads(e, MENU_LAYERS, storeOpened);
  }

  /** Every int item of the tree is usable, its default in range, and its line fits. */
  lemma ConfigIntItemsOk()
    ensures forall l, i :: 0 <= l < |MENU_LAYERS| && 0 <= i < |MENU_LAYERS[l].items| ==>
      IntItemOk(MENU_LAYERS[l].items[i]) && FitsLine(MENU_LAYERS[l].items[i])
  {
    forall l, i | 0 <= l < |MENU_LAYERS| && 0 <= i < |MENU_LAYERS[l].items|
      ensures IntItemOk(MENU_LAYERS[l].items[i]) && FitsLine(MENU_LAYERS[l].items[i])
    {
      LayerItems(l);
      LayerOk(l);
      assert MENU_LAYERS[l].items[i] in ITEM_TABLES[l];
    }
  }

  /** For an item whose line fits, the line of every value in its range is at most 20 chars. */
  lemma IntLineFits(x: MenuItem, v: int)
    requires x.kind.ValueInt? && FitsLine(x) && x.kind.minValue <= v <= x.kind.maxValue
    ensures |IntText(x.caption, v, x.kind.unit)| <= LINE_WIDTH
  {
    DigitsMonotone(v, x.kind.maxValue);
  }

  /** The longest line of the tree, the largest starch dispense time, fills the line exactly. */
  lemma LongestLine()
    ensures STARCH_MENU_ITEMS[1].caption == "Dispense Time" && STARCH_MENU_ITEMS[1].kind.maxValue == 60
    ensures |IntText("Dispense Time", 60, Some("sec"))| == LINE_WIDTH
  {
  }

  /** While editing a value in range, line 2 is shown whole, never cut. */
  lemma EditLineUncut(e: Engine)
    requires e.layers == MENU_LAYERS && MenuEngine.Valid(e) && e.state == Editing
    requires EditItem(e).kind.minValue <= e.temp <= EditItem(e).kind.maxValue
    ensures Display(e).line2 == Some(IntText(EditItem(e).caption, e.temp, EditItem(e).kind.unit))
  {
    ConfigIntItemsOk();
    IntLineFits(EditItem(e), e.temp);
  }

  /**
   * While browsing an int item whose live value is in range, line 2 shows
   * the item's label, then the value's decimal digits uncut, which read
   * back to the live value, then its unit.
   */
  lemma BrowseLineShowsLive(e: Engine)
    requires e.layers == MENU_LAYERS && MenuEngine.Valid(e) && e.state == Browsing && Current(e).kind.ValueInt?
    requires LiveInt(e.ints, Current(e).kind.intValue).Some?
    requires Current(e).kind.minValue <= LiveInt(e.ints, Current(e).kind.intValue).value <= Current(e).kind.maxValue
    ensures var x := Current(e);
      var v := LiveInt(e.ints, x.kind.intValue).value;
      && 0 <= v
      && Display(e).line2 == Some(">" + x.caption + ":" + NatToString(v) + x.kind.unit.GetOr(""))
      && DecimalValue(NatToString(v)) == v
  {
    var x := Current(e);
    var v := LiveInt(e.ints, x.kind.intValue).value;
    ConfigIntItemsOk();
    assert FitsLine(MENU_LAYERS[e.layer].items[e.item]);
    IntLineFits(x, v);
    DecimalRoundTrip(v);
  }

  /** SETTINGS and each settings sub-layer end with a back item; MAIN MENU, TEST MACHINE and RUNNING have none. */
  lemma BackPlacement()
    ensures forall l :: 1 <= l <= 7 ==> MENU_LAYERS[l].items[|MENU_LAYERS[l].items| - 1] == MenuItem("Back", Back)
    ensures forall l, i :: l in {0, 8, 9} && 0 <= i < |MENU_LAYERS[l].items| ==> !MENU_LAYERS[l].items[i].kind.Back?
  {
  }

  // ------------------------------------------------------------ navigation depth

  /** The history of each reachable layer: none at the root, the root above SETTINGS, both above the rest. */
  function PathTo(l: nat): seq<nat>
  {
    if l == 0 then [] else if l == 1 then [0] else [0, 1]
  }

  /** A state of the configured menu reachable from `reset`: TEST MACHINE and RUNNING are never entered. */
  ghost predicate OnPath(e: Engine)
  {
    e.layers == MENU_LAYERS && MenuEngine.Valid(e) && e.layer <= 7 && e.stack == PathTo(e.layer)
  }

  lemma ResetOnPath(e: Engine)
    requires e.layers == MENU_LAYERS && MenuEngine.Valid(e)
    ensures OnPath(Reset(e))
  {
  }

  /** Moving the cursor or the scratch value keeps a state on its path; the history never exceeds two layers. */
  lemma CursorOnPath(e: Engine, fast: bool)
    requires OnPath(e)
    ensures |e.stack| <= 2 < MAX_DEPTH
    ensures OnPath(NavigateUp(e)) && OnPath(NavigateDown(e))
    ensures OnPath(IncrementValue(e, fast)) && OnPath(DecrementValue(e, fast))
  {
  }

  /** Going back from a layer on its path lands on the layer above, on its path. */
  lemma GoBackOnPath(e: Engine)
    requires OnPath(e)
    ensures OnPath(GoBack(e))
  {
  }

  /** Selecting keeps a state on its path: only submenu and back items move, and they move along the path. */
  lemma SelectOnPath(e: Engine)
    requires OnPath(e)
    ensures OnPath(SelectItem(e).0)
  {
    if e.state == Browsing && Current(e).kind.Submenu? {
      SubmenuOnPath(e);
    } else if e.state == Browsing && Current(e).kind.Back? {
      GoBackOnPath(e);
    }
  }

  /** Entering a submenu pushes exactly the layer its target's path ends with. */
  lemma SubmenuOnPath(e: Engine)
    requires OnPath(e) && e.state == Browsing && Current(e).kind.Submenu?
    ensures OnPath(SelectItem(e).0)
  {
    SubmenuPositions(e.layer, e.item);
    ConfigIdsDistinct();
    var target := if e.layer == 0 then 1 else e.item + 2;
    FindLayerDistinct(MENU_LAYERS, target);
  }

  // ------------------------------------------------------------ a worked edit

  /**
   * WATER > Amount from its default 1000: four increments give 1200, a fast
   * one 1700, and Enter stores 1700 in the live setting and under "waterAmt".
   */
  lemma WaterAmountEdit()
    ensures var e := Engine(MENU_LAYERS, 2, 0, Browsing, [0, 1], None, 0, true, DEFAULTS, map[], map[]);
      var editing := SelectItem(e).0;
      var four := IncrementTimes(editing, 4);
      var fast := IncrementValue(four, true);
      var done := SelectItem(fast).0;
      && editing.temp == 1000 && four.temp == 1200 && fast.temp == 1700
      && done.state == Browsing && done.ints == DEFAULTS["waterAmount" := 1700]
      && done.prefs == map["waterAmt" := IntVal(1700)]
  {
    var e := Engine(MENU_LAYERS, 2, 0, Browsing, [0, 1], None, 0, true, DEFAULTS, map[], map[]);
    var editing := SelectItem(e).0;
    WaterAmountOpens(e);
    var four := IncrementTimes(editing, 4);
    IncrementTimesValue(editing, 4);
    var fast := IncrementValue(four, true);
    WaterAmountFast(four);
    WaterAmountCommits(fast);
  }

  /** Enter on WATER > Amount starts editing it from the live value 1000. */
  lemma WaterAmountOpens(e: Engine)
    requires e == Engine(MENU_LAYERS, 2, 0, Browsing, [0, 1], None, 0, true, DEFAULTS, map[], map[])
    ensures MenuEngine.Valid(e)
    ensures var editing := SelectItem(e).0;
      && editing == e.(state := Editing, editing := Some(ItemRef(2, 0)), temp := 1000)
      && EditItem(editing) == WATER_MENU_ITEMS[0]
  {
    ConfigTreeOk();
    LayerItems(2);
    assert Current(e) == WATER_MENU_ITEMS[0];
  }

  /** A fast increment of WATER > Amount at 1200 adds ten steps. */
  lemma WaterAmountFast(e: Engine)
    requires MenuEngine.Valid(e) && e.state == Editing && EditItem(e) == WATER_MENU_ITEMS[0] && e.temp == 1200
    ensures IncrementValue(e, true) == e.(temp := 1700)
  {
  }

  /** Enter while editing WATER > Amount at 1700 writes the live setting and its key. */
  lemma WaterAmountCommits(e: Engine)
    requires MenuEngine.Valid(e) && e.state == Editing && EditItem(e) == WATER_MENU_ITEMS[0] && e.temp == 1700
    requires e.ints == DEFAULTS && e.prefs == map[] && e.prefsInitialized
    ensures var done := SelectItem(e).0;
      done.state == Browsing && done.ints == DEFAULTS["waterAmount" := 1700] && done.prefs == map["waterAmt" := IntVal(1700)]
  {
    assert SelectItem(e).0 == Commit(e);
  }
}
