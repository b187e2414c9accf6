/**
 * The menu controller object: the fields `MenuController` updates in place,
 * with the navigation history in a fixed array of `MAX_DEPTH` entries and a
 * stack pointer. Every method steps the fields exactly as the engine
 * function of the same name says; `Model()` reads the fields as an engine
 * state.
 */
module MenuControl {
  import opened Wrappers
  import opened Text
  import opened MenuTypes
  import opened SettingsStore
  import opened MenuEngine

  /** The inner loop of `saveAllSettings`: one layer's items, after those of the layers before it. */
  method SaveLayer(items: seq<MenuItem>, ghost done: seq<MenuItem>, ints: Ints, bools: Bools, prefs: Store, store: Store)
    returns (r: Store)
    requires store == SaveItems(done, ints, bools, prefs)
    ensures r == SaveItems(done + items, ints, bools, prefs)
  {
    r := store;
    var i := 0;
    assert done + items[..i] == done;
    while i < |items|
      invariant i <= |items|
      invariant r == SaveItems(done + items[..i], ints, bools, prefs)
    {
      SaveItemsSnoc(done + items[..i], items[i], ints, bools, prefs);
      assert done + items[..i + 1] == (done + items[..i]) + [items[i]];
      r := SaveItem(items[i], ints, bools, r);
      i := i + 1;
    }
    assert items[..i] == items;
  }

  /** The inner loop of `loadAllSettings`: one layer's items, after those of the layers before it. */
  method LoadLayer(items: seq<MenuItem>, ghost done: seq<MenuItem>, ints: Ints, bools: Bools, prefs: Store, live: (Ints, Bools))
    returns (r: (Ints, Bools))
    requires live == LoadItems(done, ints, bools, prefs)
    ensures r == LoadItems(done + items, ints, bools, prefs)
  {
    r := live;
    var i := 0;
    assert done + items[..i] == done;
    while i < |items|
      invariant i <= |items|
      invariant r == LoadItems(done + items[..i], ints, bools, prefs)
    {
      LoadItemsSnoc(done + items[..i], items[i], ints, bools, prefs);
      assert done + items[..i + 1] == (done + items[..i]) + [items[i]];
      r := LoadItem(items[i], r.0, r.1, prefs);
      i := i + 1;
    }
    assert items[..i] == items;
  }

  class MenuController {
    var layers: seq<MenuLayer>
    var currentLayerIndex: nat
    var currentItemIndex: nat
    var currentState: MenuState
    const navigationStack: array<nat>
    var stackPointer: nat
    var editingItem: Option<ItemRef>
    var tempIntValue: int
    var prefsInitialized: bool
    /** The live settings the int and bool items point at. */
    var ints: Ints
    var bools: Bools
    /** The contents of the persistent store. */
    var prefs: Store

    /** The history array has its fixed size and the pointer is inside it. */
    ghost predicate Shape()
      reads this
    {
      navigationStack.Length == MAX_DEPTH && stackPointer <= MAX_DEPTH
    }

    function Model(): Engine
      requires Shape()
      reads this, navigationStack
    {
      Engine(layers, currentLayerIndex, currentItemIndex, currentState, navigationStack[..stackPointer],
             editingItem, tempIntValue, prefsInitialized, ints, bools, prefs)
    }

    ghost predicate Valid()
      reads this, navigationStack
    {
      Shape() && MenuEngine.Valid(Model())
    }

    /** The constructor: no layers yet, Browsing, an empty history, the store closed. */
    constructor(liveInts: Ints, liveBools: Bools, store: Store)
      ensures Shape() && fresh(navigationStack)
      ensures Model() == Engine([], 0, 0, Browsing, [], None, 0, false, liveInts, liveBools, store)
    {
      layers := [];
      currentLayerIndex := 0;
      currentItemIndex := 0;
      currentState := Browsing;
      navigationStack := new nat[MAX_DEPTH](_ => 0);
      stackPointer := 0;
      editingItem := None;
      tempIntValue := 0;
      prefsInitialized := false;
      ints := liveInts;
      bools := liveBools;
      prefs := store;
    }

    /** `init`; `storeOpened` is whether the store could be opened. */
    method Init(menuLayers: seq<MenuLayer>, storeOpened: bool)
      requires Shape() && TreeOk(menuLayers)
      modifies this
      ensures Valid() && Model() == InitMenu(old(Model()), menuLayers, storeOpened)
    {
      layers := menuLayers;
      currentLayerIndex := 0;
      currentItemIndex := 0;
      currentState := Browsing;
      stackPointer := 0;
      if storeOpened {
        prefsInitialized := true;
      }
      ghost var linked := Model();
      assert linked == old(Model()).(layers := menuLayers, layer := 0, item := 0, state := Browsing, stack := [],
        prefsInitialized := old(prefsInitialized) || storeOpened);
      LoadAllSettings();
    }

    method PushNavigation(layerIndex: nat)
      requires Valid()
      modifies this, navigationStack
      ensures Valid() && Model() == MenuEngine.PushNavigation(old(Model()))
    {
      if stackPointer < MAX_DEPTH {
        navigationStack[stackPointer] := currentLayerIndex;
        stackPointer := stackPointer + 1;
        assert navigationStack[..stackPointer] == old(navigationStack[..stackPointer]) + [currentLayerIndex];
      }
    }

    method PopNavigation() returns (l: nat)
      requires Valid()
      modifies this
      ensures Valid() && (Model(), l) == MenuEngine.PopNavigation(old(Model()))
    {
      if stackPointer > 0 {
        stackPointer := stackPointer - 1;
        l := navigationStack[stackPointer];
        assert navigationStack[..stackPointer] == old(navigationStack[..stackPointer])[..stackPointer];
        return;
      }
      l := 0;
    }

    method NavigateUp()
      requires Valid()
      modifies this
      ensures Valid() && Model() == MenuEngine.NavigateUp(old(Model()))
    {
      if currentState == Browsing {
        if currentItemIndex > 0 {
          currentItemIndex := currentItemIndex - 1;
        } else {
          currentItemIndex := |layers[currentLayerIndex].items| - 1;
        }
      }
    }

    method NavigateDown()
      requires Valid()
      modifies this
      ensures Valid() && Model() == MenuEngine.NavigateDown(old(Model()))
    {
      if currentState == Browsing {
        if currentItemIndex < |layers[currentLayerIndex].items| - 1 {
          currentItemIndex := currentItemIndex + 1;
        } else {
          currentItemIndex := 0;
        }
      }
    }

    /** The search loop of `selectItem` for the layer a submenu link names. */
    method FindLayer(link: Option<ItemsId>) returns (found: Option<nat>)
      ensures found == MenuEngine.FindLayer(layers, link)
    {
      var i := 0;
      while i < |layers|
        invariant i <= |layers|
        invariant FindLayerFrom(layers, link, i) == FindLayerFrom(layers, link, 0)
      {
        if link == Some(layers[i].itemsId) {
          return Some(i);
        }
        i := i + 1;
      }
      return None;
    }

    method SaveValueToPrefs(r: ItemRef)
      requires Valid() && RefOk(layers, r)
      modifies this
      ensures Valid() && Model() == SaveValue(old(Model()), r)
    {
      if !prefsInitialized {
        return;
      }
      prefs := SaveItem(ItemAt(layers, r), ints, bools, prefs);
    }

    method LoadValueFromPrefs(r: ItemRef)
      requires Valid() && RefOk(layers, r)
      modifies this
      ensures Valid() && Model() == LoadValue(old(Model()), r)
    {
      if !prefsInitialized {
        return;
      }
      ints, bools := LoadItem(ItemAt(layers, r), ints, bools, prefs).0, LoadItem(ItemAt(layers, r), ints, bools, prefs).1;
    }

    /** `selectItem`; the action of an action item is returned for the caller to run. */
    method SelectItem() returns (action: Option<ActionId>)
      requires Valid()
      modifies this, navigationStack
      ensures Valid() && (Model(), action) == MenuEngine.SelectItem(old(Model()))
    {
      action := None;
      var item := layers[currentLayerIndex].items[currentItemIndex];
      if currentState == Browsing {
        match item.kind
        case Submenu(link, _) =>
          EnterSubmenu();
        case Action(a) =>
          action := a;
        case ValueInt(v, _, _, _, _, _) =>
          StartEditing();
        case Toggle(v, _) =>
          ToggleBool();
        case Back =>
          GoBack();
      } else {
        CommitEdit();
      }
    }

    /** The submenu branch of `selectItem`. */
    method EnterSubmenu()
      requires Valid() && currentState == Browsing && Current(Model()).kind.Submenu?
      modifies this, navigationStack
      ensures Valid() && Model() == MenuEngine.SelectItem(old(Model())).0
    {
      var link := layers[currentLayerIndex].items[currentItemIndex].kind.subMenu;
      PushNavigation(currentLayerIndex);
      var target := FindLayer(link);
      if target.Some? {
        currentLayerIndex := target.value;
        currentItemIndex := 0;
      }
    }

    /** The int branch of `selectItem`. */
    method StartEditing()
      requires Valid() && currentState == Browsing && Current(Model()).kind.ValueInt?
      modifies this
      ensures Valid() && Model() == MenuEngine.SelectItem(old(Model())).0
    {
      var v := layers[currentLayerIndex].items[currentItemIndex].kind.intValue;
      currentState := Editing;
      editingItem := Some(ItemRef(currentLayerIndex, currentItemIndex));
      if v.Some? && v.value in ints {
        tempIntValue := ints[v.value];
      }
    }

    /** The bool branch of `selectItem`. */
    method ToggleBool()
      requires Valid() && currentState == Browsing && Current(Model()).kind.Toggle?
      modifies this
      ensures Valid() && Model() == MenuEngine.SelectItem(old(Model())).0
    {
      var v := layers[currentLayerIndex].items[currentItemIndex].kind.boolValue;
      if v.Some? && v.value in bools {
        bools := bools[v.value := !bools[v.value]];
        SaveValueToPrefs(ItemRef(currentLayerIndex, currentItemIndex));
      }
    }

    /** The Editing branch of `selectItem`: commit the scratch value. */
    method CommitEdit()
      requires Valid() && currentState == Editing
      modifies this
      ensures Valid() && Model() == Commit(old(Model()))
    {
      var ed := ItemAt(layers, editingItem.value);
      if ed.kind.intValue.Some? && ed.kind.intValue.value in ints {
        ints := ints[ed.kind.intValue.value := tempIntValue];
      }
      SaveValueToPrefs(editingItem.value);
      currentState := Browsing;
      editingItem := None;
    }

    method GoBack()
      requires Valid()
      modifies this
      ensures Valid() && Model() == MenuEngine.GoBack(old(Model()))
    {
      if currentState == Editing {
        currentState := Browsing;
        editingItem := None;
      } else if stackPointer > 0 {
        currentLayerIndex := PopNavigation();
        currentItemIndex := 0;
      }
    }

    method IncrementValue(fast: bool)
      requires Valid()
      modifies this
      ensures Valid() && Model() == MenuEngine.IncrementValue(old(Model()), fast)
    {
      if currentState == Editing && editingItem.Some? {
        var ed := ItemAt(layers, editingItem.value);
        var step := if fast then ed.kind.step * 10 else ed.kind.step;
        if ed.kind.ValueInt? {
          tempIntValue := tempIntValue + step;
          if tempIntValue > ed.kind.maxValue {
            tempIntValue := ed.kind.maxValue;
          }
        }
      }
    }

    method DecrementValue(fast: bool)
      requires Valid()
      modifies this
      ensures Valid() && Model() == MenuEngine.DecrementValue(old(Model()), fast)
    {
      if currentState == Editing && editingItem.Some? {
        var ed := ItemAt(layers, editingItem.value);
        var step := if fast then ed.kind.step * 10 else ed.kind.step;
        if ed.kind.ValueInt? {
          tempIntValue := tempIntValue - step;
          if tempIntValue < ed.kind.minValue {
            tempIntValue := ed.kind.minValue;
          }
        }
      }
    }

    /** `getCurrentDisplay`: the two lines and the editing flag. */
    method GetCurrentDisplay() returns (line1: string, line2: Option<string>, isEditing: bool)
      requires Valid()
      ensures Screen(line1, line2, isEditing) == Display(Model())
      ensures |line1| <= LINE_WIDTH && (line2.Some? ==> |line2.value| <= LINE_WIDTH)
    {
      isEditing := currentState == Editing;
      line1 := Truncate(layers[currentLayerIndex].name, LINE_WIDTH);
      var item := layers[currentLayerIndex].items[currentItemIndex];
      line2 := None;
      if currentState == Editing && editingItem.Some? {
        var ed := ItemAt(layers, editingItem.value);
        if ed.kind.ValueInt? {
          line2 := Some(Truncate(IntText(ed.caption, tempIntValue, ed.kind.unit), LINE_WIDTH));
        }
      } else {
        match item.kind
        case Submenu(_, _) =>
          line2 := Some(Truncate(">" + item.caption, LINE_WIDTH));
        case Action(_) =>
          line2 := Some(Truncate(">" + item.caption, LINE_WIDTH));
        case Back =>
          line2 := Some(Truncate(">" + item.caption, LINE_WIDTH));
        case ValueInt(v, _, _, _, unit, _) =>
          if v.Some? && v.value in ints {
            line2 := Some(Truncate(IntText(item.caption, ints[v.value], unit), LINE_WIDTH));
          }
        case Toggle(v, _) =>
          if v.Some? && v.value in bools {
            line2 := Some(Truncate(BoolText(item.caption, bools[v.value]), LINE_WIDTH));
          }
      }
    }

    /** `saveAllSettings`: every item of every layer, in layer order. */
    method SaveAllSettings()
      requires Valid()
      modifies this
      ensures Valid() && Model() == SaveAll(old(Model()))
    {
      if !prefsInitialized {
        return;
      }
      var store := prefs;
      var l := 0;
      while l < |layers|
        invariant l <= |layers| && unchanged(this)
        invariant store == SaveItems(Flatten(layers[..l]), ints, bools, prefs)
      {
        store := SaveLayer(layers[l].items, Flatten(layers[..l]), ints, bools, prefs, store);
        FlattenStep(layers, l);
        l := l + 1;
      }
      assert layers[..l] == layers;
      prefs := store;
    }

    /** `loadAllSettings`: every item of every layer, in layer order. */
    method LoadAllSettings()
      requires Shape() && TreeOk(layers) && currentLayerIndex == 0 && currentItemIndex == 0
      requires currentState == Browsing && stackPointer == 0
      modifies this
      ensures Valid() && Model() == LoadAll(old(Model()))
    {
      if !prefsInitialized {
        return;
      }
      var live := (ints, bools);
      var l := 0;
      while l < |layers|
        invariant l <= |layers| && unchanged(this)
        invariant live == LoadItems(Flatten(layers[..l]), ints, bools, prefs)
      {
        live := LoadLayer(layers[l].items, Flatten(layers[..l]), ints, bools, prefs, live);
        FlattenStep(layers, l);
        l := l + 1;
      }
      assert layers[..l] == layers;
      ints, bools := live.0, live.1;
    }

    method Reset()
      requires Valid()
      modifies this
      ensures Valid() && Model() == MenuEngine.Reset(old(Model()))
    {
      currentLayerIndex := 0;
      currentItemIndex := 0;
      currentState := Browsing;
      stackPointer := 0;
      editingItem := None;
    }
  }
}
