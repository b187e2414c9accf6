/**
 * The menu engine as a state machine over values: the cursor (layer and
 * item), the Browsing/Editing mode, the bounded navigation stack, the
 * scratch value of the item being edited, the live settings it edits and
 * the persistent store. Each function is one public or private operation
 * of the menu controller; the controller class steps its fields exactly as
 * these functions say.
 */
module MenuEngine {
  import opened Wrappers
  import opened Text
  import opened MenuTypes
  import opened SettingsStore

  const MAX_DEPTH: nat := 10
  /** Display lines are written with `snprintf(line, 21, ...)`: at most 20 chars. */
  const LINE_WIDTH: nat := 20

  datatype MenuState = Browsing | Editing

  datatype Engine = Engine(
    layers: seq<MenuLayer>,
    layer: nat,
    item: nat,
    state: MenuState,
    stack: seq<nat>,
    editing: Option<ItemRef>,
    temp: int,
    prefsInitialized: bool,
    ints: Ints,
    bools: Bools,
    prefs: Store)

  /** Layer and item counts are `uint8_t`; an empty layer would break the wrap-around arithmetic. */
  predicate TreeOk(layers: seq<MenuLayer>)
  {
    0 < |layers| < 256 && forall l :: 0 <= l < |layers| ==> 0 < |layers[l].items| < 256
  }

  predicate Valid(e: Engine)
  {
    && TreeOk(e.layers)
    && e.layer < |e.layers|
    && e.item < |e.layers[e.layer].items|
    && |e.stack| <= MAX_DEPTH
    && (forall k :: 0 <= k < |e.stack| ==> e.stack[k] < |e.layers|)
    && (e.state == Editing ==>
          e.editing.Some? && RefOk(e.layers, e.editing.value)
          && ItemAt(e.layers, e.editing.value).kind.ValueInt?)
  }

  function ItemCount(e: Engine): nat
    requires Valid(e)
  {
    |e.layers[e.layer].items|
  }

  function Current(e: Engine): MenuItem
    requires Valid(e)
  {
    e.layers[e.layer].items[e.item]
  }

  /** The item being edited. */
  function EditItem(e: Engine): MenuItem
    requires Valid(e) && e.state == Editing
  {
    ItemAt(e.layers, e.editing.value)
  }

  /** The live value an int item refers to, if its reference is set. */
  function LiveInt(ints: Ints, v: Option<SettingId>): Option<int>
  {
    if v.Some? && v.value in ints then Some(ints[v.value]) else None
  }

  // ---------------------------------------------------------------- navigation

  /** `navigateUp`: in Browsing, the previous item, wrapping from the first to the last. */
  function NavigateUp(e: Engine): (r: Engine)
    requires Valid(e)
    ensures Valid(r) && r == e.(item := r.item)
    ensures e.state == Editing ==> r == e
  {
    if e.state == Browsing then
      e.(item := if e.item > 0 then e.item - 1 else ItemCount(e) - 1)
    else e
  }

  /** `navigateDown`: in Browsing, the next item, wrapping from the last to the first. */
  function NavigateDown(e: Engine): (r: Engine)
    requires Valid(e)
    ensures Valid(r) && r == e.(item := r.item)
    ensures e.state == Editing ==> r == e
  {
    if e.state == Browsing then
      e.(item := if e.item < ItemCount(e) - 1 then e.item + 1 else 0)
    else e
  }

  /** Up and Down undo each other while Browsing, in every layer of at least one item. */
  lemma NavigateInverse(e: Engine)
    requires Valid(e) && e.state == Browsing
    ensures NavigateUp(NavigateDown(e)) == e
    ensures NavigateDown(NavigateUp(e)) == e
  {
  }

  /** Down `k` times. */
  function NavigateDownTimes(e: Engine, k: nat): (r: Engine)
    requires Valid(e)
    ensures Valid(r) && r == e.(item := r.item)
    decreases k
  {
    if k == 0 then e else NavigateDown(NavigateDownTimes(e, k - 1))
  }

  /** Down `k` times while Browsing moves the cursor `k` places round the layer, modulo its size. */
  lemma {:induction false} NavigateDownCycles(e: Engine, k: nat)
    requires Valid(e) && e.state == Browsing
    ensures NavigateDownTimes(e, k).item == (e.item + k) % ItemCount(e)
    decreases k
  {
    var n := ItemCount(e);
    if k == 0 {
      ModUnique(e.item, 0, e.item, n);
    } else {
      NavigateDownCycles(e, k - 1);
      var prev := NavigateDownTimes(e, k - 1);
      var p := e.item + k - 1;
      assert prev.item == p % n;
      assert NavigateDownTimes(e, k) == NavigateDown(prev);
      assert ItemCount(prev) == n;
      if p % n < n - 1 {
        ModSucc(p, n);
      } else {
        ModWrap(p, n);
      }
    }
  }

  lemma ModSucc(p: nat, n: nat)
    requires 0 < n && p % n < n - 1
    ensures (p + 1) % n == p % n + 1
  {
    ModUnique(p + 1, p / n, p % n + 1, n);
  }

  lemma ModWrap(p: nat, n: nat)
    requires 0 < n && p % n == n - 1
    ensures (p + 1) % n == 0
  {
    ModUnique(p + 1, p / n + 1, 0, n);
  }

  /** Euclidean division has one remainder: `q * n + r` with `0 <= r < n` leaves `r`. */
  lemma ModUnique(x: int, q: int, r: int, n: int)
    requires 0 < n && 0 <= r < n && x == q * n + r
    ensures x % n == r
  {
    var d := q - x / n;
    assert d * n == x % n - r by {
      assert x == (x / n) * n + x % n;
      assert d * n == q * n - (x / n) * n;
    }
    MulSign(d, n);
  }

  lemma MulSign(d: int, n: int)
    requires 0 < n
    ensures d >= 1 ==> d * n >= n
    ensures d <= -1 ==> d * n <= -n
  {
    if d >= 1 {
      assert d * n == (d - 1) * n + n;
    } else if d <= -1 {
      assert d * n == (d + 1) * n - n;
    }
  }

  // ------------------------------------------------------------ the history

  /** `pushNavigation`: pushes the current layer (not its argument), dropping the push when full. */
  function PushNavigation(e: Engine): (r: Engine)
    requires Valid(e)
    ensures Valid(r) && r == e.(stack := r.stack)
    ensures |e.stack| < MAX_DEPTH ==> r.stack == e.stack + [e.layer]
    ensures |e.stack| == MAX_DEPTH ==> r == e
  {
    if |e.stack| < MAX_DEPTH then e.(stack := e.stack + [e.layer]) else e
  }

  /** `popNavigation`: the most recent entry, or layer 0 when the stack is empty. */
  function PopNavigation(e: Engine): (r: (Engine, nat))
    requires Valid(e)
    ensures Valid(r.0) && r.0 == e.(stack := r.0.stack) && r.1 < |e.layers|
    ensures e.stack != [] ==> r.0.stack + [r.1] == e.stack
    ensures e.stack == [] ==> r == (e, 0)
  {
    if |e.stack| > 0 then (e.(stack := e.stack[..|e.stack| - 1]), e.stack[|e.stack| - 1]) else (e, 0)
  }

  /**
   * The submenu lookup of `selectItem`: the first layer whose item array is
   * the one the link points at; a null link matches no layer.
   */
  function FindLayer(layers: seq<MenuLayer>, link: Option<ItemsId>): (r: Option<nat>)
    ensures r.Some? ==> r.value < |layers| && link == Some(layers[r.value].itemsId)
    ensures r.Some? ==> forall j :: 0 <= j < r.value ==> link != Some(layers[j].itemsId)
    ensures r.None? ==> forall j :: 0 <= j < |layers| ==> link != Some(layers[j].itemsId)
  {
    FindLayerFrom(layers, link, 0)
  }

  function FindLayerFrom(layers: seq<MenuLayer>, link: Option<ItemsId>, i: nat): (r: Option<nat>)
    requires i <= |layers|
    ensures r.Some? ==> i <= r.value < |layers| && link == Some(layers[r.value].itemsId)
    ensures r.Some? ==> forall j :: i <= j < r.value ==> link != Some(layers[j].itemsId)
    ensures r.None? ==> forall j :: i <= j < |layers| ==> link != Some(layers[j].itemsId)
    decreases |layers| - i
  {
    if i == |layers| then None
    else if link == Some(layers[i].itemsId) then Some(i)
    else FindLayerFrom(layers, link, i + 1)
  }

  /** Item arrays are distinct objects: no two layers share an `itemsId`. */
  predicate DistinctIds(layers: seq<MenuLayer>)
  {
    forall i, j :: 0 <= i < j < |layers| ==> layers[i].itemsId != layers[j].itemsId
  }

  /** When item arrays are distinct, a link to a layer's items finds exactly that layer. */
  lemma FindLayerDistinct(layers: seq<MenuLayer>, k: nat)
    requires DistinctIds(layers) && k < |layers|
    ensures FindLayer(layers, Some(layers[k].itemsId)) == Some(k)
  {
  }

  // ------------------------------------------------------------ persistence

  /** `saveValueToPrefs`: nothing unless the store is open. */
  function SaveValue(e: Engine, r: ItemRef): (s: Engine)
    requires RefOk(e.layers, r)
    ensures s == e.(prefs := s.prefs)
    ensures !e.prefsInitialized ==> s == e
  {
    if e.prefsInitialized then e.(prefs := SaveItem(ItemAt(e.layers, r), e.ints, e.bools, e.prefs)) else e
  }

  /** `loadValueFromPrefs`: nothing unless the store is open. */
  function LoadValue(e: Engine, r: ItemRef): (s: Engine)
    requires RefOk(e.layers, r)
    ensures s == e.(ints := s.ints, bools := s.bools)
    ensures s.ints.Keys == e.ints.Keys && s.bools.Keys == e.bools.Keys
    ensures !e.prefsInitialized ==> s == e
    ensures var x := ItemAt(e.layers, r);
      e.prefsInitialized && Persists(x, e.ints, e.bools) ==>
        LiveValue(x, s.ints, s.bools) == Loaded(KeyOf(x), LiveValue(x, e.ints, e.bools), e.prefs)
    ensures var x := ItemAt(e.layers, r);
      forall id :: id in e.ints && !(x.kind.ValueInt? && x.kind.intValue == Some(id)) ==> s.ints[id] == e.ints[id]
    ensures var x := ItemAt(e.layers, r);
      forall id :: id in e.bools && !(x.kind.Toggle? && x.kind.boolValue == Some(id)) ==> s.bools[id] == e.bools[id]
  {
    if e.prefsInitialized then
      var (ints, bools) := LoadItem(ItemAt(e.layers, r), e.ints, e.bools, e.prefs);
      e.(ints := ints, bools := bools)
    else e
  }

  /** `saveAllSettings`: every item of every layer, layer by layer. */
  function SaveAll(e: Engine): (s: Engine)
    ensures s == e.(prefs := s.prefs)
  {
    if e.prefsInitialized then e.(prefs := SaveItems(Flatten(e.layers), e.ints, e.bools, e.prefs)) else e
  }

  /** `loadAllSettings`: every item of every layer, layer by layer. */
  function LoadAll(e: Engine): (s: Engine)
    ensures s == e.(ints := s.ints, bools := s.bools)
    ensures s.ints.Keys == e.ints.Keys && s.bools.Keys == e.bools.Keys
  {
    if e.prefsInitialized then
      var (ints, bools) := LoadItems(Flatten(e.layers), e.ints, e.bools, e.prefs);
      e.(ints := ints, bools := bools)
    else e
  }

  /** In a tree whose store keys are distinct, loading right after saving all restores nothing new. */
  lemma SaveAllThenLoadAll(e: Engine)
    requires DistinctKeys(Flatten(e.layers))
    ensures LoadAll(SaveAll(e)) == SaveAll(e)
  {
    if e.prefsInitialized {
      SaveThenLoad(Flatten(e.layers), e.ints, e.bools, e.prefs);
    }
  }

  /**
   * With the store open, `loadAllSettings` seeds every persisting item of
   * the tree from its key (when the key holds a value of the item's type),
   * provided no two items edit the same setting.
   */
  lemma LoadAllLoads(e: Engine)
    requires e.prefsInitialized && DistinctSettings(Flatten(e.layers))
    ensures forall x :: x in Flatten(e.layers) && Persists(x, e.ints, e.bools) ==>
      LiveValue(x, LoadAll(e).ints, LoadAll(e).bools) == Loaded(KeyOf(x), LiveValue(x, e.ints, e.bools), e.prefs)
  {
    LoadItemsLoads(Flatten(e.layers), e.ints, e.bools, e.prefs);
  }

  // ---------------------------------------------------------- selection

  /**
   * `goBack`: while Editing, cancel (the scratch value is dropped, nothing is
   * written); while Browsing, pop the most recent layer with item 0, or do
   * nothing at the root.
   */
  function GoBack(e: Engine): (r: Engine)
    requires Valid(e)
    ensures Valid(r) && r.state == Browsing
    ensures r.ints == e.ints && r.bools == e.bools && r.prefs == e.prefs && r.temp == e.temp
    ensures e.state == Editing ==> r == e.(state := Browsing, editing := None)
    ensures e.state == Browsing && e.stack != [] ==>
      r == e.(layer := e.stack[|e.stack| - 1], item := 0, stack := e.stack[..|e.stack| - 1])
    ensures e.state == Browsing && e.stack == [] ==> r == e
  {
    if e.state == Editing then e.(state := Browsing, editing := None)
    else if |e.stack| > 0 then
      var (popped, l) := PopNavigation(e);
      popped.(layer := l, item := 0)
    else e
  }

  /** The Enter of Editing: write the scratch value to the live value, save it, return to Browsing. */
  function Commit(e: Engine): (r: Engine)
    requires Valid(e) && e.state == Editing
    ensures Valid(r) && r.state == Browsing && r.editing == None
    ensures r == e.(ints := r.ints, prefs := r.prefs, state := Browsing, editing := None)
    ensures var v := EditItem(e).kind.intValue;
      if LiveInt(e.ints, v).Some? then r.ints == e.ints[v.value := e.temp] else r.ints == e.ints
    ensures var x := EditItem(e);
      if e.prefsInitialized && Persists(x, e.ints, e.bools) then r.prefs == e.prefs[KeyOf(x) := IntVal(e.temp)]
      else r.prefs == e.prefs
  {
    var ref := e.editing.value;
    var v := EditItem(e).kind.intValue;
    var written := if LiveInt(e.ints, v).Some? then e.(ints := e.ints[v.value := e.temp]) else e;
    SaveValue(written, ref).(state := Browsing, editing := None)
  }

  /**
   * `selectItem`, and the action it fires. While Browsing, by item type: a
   * submenu pushes the current layer and moves to the first layer whose
   * items the link names (the push happens even when none does); an action
   * is returned for the caller to run; an int item enters Editing with the
   * live value as scratch; a bool item is flipped and saved; a back item
   * goes back. While Editing, the edit is committed.
   */
  function SelectItem(e: Engine): (r: (Engine, Option<ActionId>))
    requires Valid(e)
    ensures Valid(r.0) && r.0.layers == e.layers && r.0.prefsInitialized == e.prefsInitialized
    ensures r.1.Some? ==> e.state == Browsing && Current(e).kind == Action(r.1) && r.0 == e
    ensures e.state == Editing ==> r.0 == Commit(e)
    ensures e.state == Browsing && Current(e).kind.Action? ==> r == (e, Current(e).kind.action)
    ensures e.state == Browsing && Current(e).kind.Back? ==> r == (GoBack(e), None)
    ensures e.state == Browsing && Current(e).kind.Submenu? ==> r == (OpenSubmenu(e), None)
    ensures e.state == Browsing && Current(e).kind.ValueInt? ==> r == (BeginEdit(e), None)
    ensures e.state == Browsing && Current(e).kind.Toggle? ==> r == (FlipToggle(e), None)
    ensures !(e.state == Browsing && (Current(e).kind.Submenu? || Current(e).kind.Back?)) ==>
      r.0.layer == e.layer && r.0.item == e.item && r.0.stack == e.stack
  {
    if e.state == Editing then (Commit(e), None)
    else
      var kind := Current(e).kind;
      if kind.Submenu? then (OpenSubmenu(e), None)
      else if kind.Action? then (e, kind.action)
      else if kind.ValueInt? then (BeginEdit(e), None)
      else if kind.Toggle? then (FlipToggle(e), None)
      else (GoBack(e), None)
  }

  /** The submenu case of `selectItem`: push, then move to the first layer the link names, if any. */
  function OpenSubmenu(e: Engine): (r: Engine)
    requires Valid(e) && e.state == Browsing && Current(e).kind.Submenu?
    ensures Valid(r) && r == e.(layer := r.layer, item := r.item, stack := r.stack)
  {
    var pushed := PushNavigation(e);
    var target := FindLayer(e.layers, Current(e).kind.subMenu);
    if target.Some? then pushed.(layer := target.value, item := 0) else pushed
  }

  /** The int case of `selectItem`: Editing, with the live value (when the pointer is set) as scratch. */
  function BeginEdit(e: Engine): (r: Engine)
    requires Valid(e) && e.state == Browsing && Current(e).kind.ValueInt?
    ensures Valid(r) && r == e.(state := Editing, editing := Some(ItemRef(e.layer, e.item)), temp := r.temp)
  {
    var live := LiveInt(e.ints, Current(e).kind.intValue);
    e.(state := Editing, editing := Some(ItemRef(e.layer, e.item)), temp := if live.Some? then live.value else e.temp)
  }

  /** The bool case of `selectItem`: flip the live value and save it, when the pointer is set. */
  function FlipToggle(e: Engine): (r: Engine)
    requires Valid(e) && e.state == Browsing && Current(e).kind.Toggle?
    ensures Valid(r) && r == e.(bools := r.bools, prefs := r.prefs)
  {
    var v := Current(e).kind.boolValue;
    if v.Some? && v.value in e.bools then
      SaveValue(e.(bools := e.bools[v.value := !e.bools[v.value]]), ItemRef(e.layer, e.item))
    else e
  }

  /** Selecting a submenu: the push (when there is room) and the move to the first matching layer. */
  lemma SelectSubmenu(e: Engine)
    requires Valid(e) && e.state == Browsing && Current(e).kind.Submenu?
    ensures var r := SelectItem(e).0;
      && r.stack == (if |e.stack| < MAX_DEPTH then e.stack + [e.layer] else e.stack)
      && (match FindLayer(e.layers, Current(e).kind.subMenu)
          case Some(i) => r.layer == i && r.item == 0
          case None => r.layer == e.layer && r.item == e.item)
      && r.state == Browsing && r.ints == e.ints && r.prefs == e.prefs
  {
  }

  /** Entering a submenu that resolves, then going back, returns to the layer left, at item 0. */
  lemma {:induction false} SubmenuThenBack(e: Engine)
    requires Valid(e) && e.state == Browsing && Current(e).kind.Submenu?
    requires FindLayer(e.layers, Current(e).kind.subMenu).Some? && |e.stack| < MAX_DEPTH
    ensures GoBack(SelectItem(e).0) == e.(item := 0)
  {
    var r := SelectItem(e).0;
    assert r.stack == e.stack + [e.layer];
    assert r.stack[..|r.stack| - 1] == e.stack;
  }

  /** Selecting an int item enters Editing with the live value as scratch and writes nothing. */
  lemma SelectIntStartsEdit(e: Engine)
    requires Valid(e) && e.state == Browsing && Current(e).kind.ValueInt?
    ensures var r := SelectItem(e).0;
      && r.state == Editing && r.editing == Some(ItemRef(e.layer, e.item))
      && (LiveInt(e.ints, Current(e).kind.intValue).Some? ==> r.temp == LiveInt(e.ints, Current(e).kind.intValue).value)
      && r.ints == e.ints && r.bools == e.bools && r.prefs == e.prefs
      && r.layer == e.layer && r.item == e.item && r.stack == e.stack
  {
  }

  /**
   * Selecting a bool item flips its live value and, with the store open and
   * a key set, saves the new value; the mode stays Browsing.
   */
  lemma SelectToggle(e: Engine)
    requires Valid(e) && e.state == Browsing && Current(e).kind.Toggle?
    requires Current(e).kind.boolValue.Some? && Current(e).kind.boolValue.value in e.bools
    ensures var id := Current(e).kind.boolValue.value;
      var r := SelectItem(e).0;
      && r.bools == e.bools[id := !e.bools[id]] && r.ints == e.ints
      && r.state == Browsing && r.layer == e.layer && r.item == e.item && r.stack == e.stack
      && (e.prefsInitialized && Current(e).kind.prefKey.Some? ==>
            r.prefs == e.prefs[Current(e).kind.prefKey.value := BoolVal(!e.bools[id])])
      && (!e.prefsInitialized ==> r.prefs == e.prefs)
  {
  }

  // ------------------------------------------------------------- editing

  function Min(a: int, b: int): int { if a <= b then a else b }

  function Max(a: int, b: int): int { if a >= b then a else b }

  /** How many steps one fast adjustment makes. */
  const FAST_FACTOR: nat := 10

  /** The increment `(int)step`, times ten when fast. */
  function StepOf(it: MenuItem, fast: bool): int
    requires it.kind.ValueInt?
  {
    if fast then it.kind.step * FAST_FACTOR else it.kind.step
  }

  /** `incrementValue`: while Editing, add the step, clamping at the maximum only. */
  function IncrementValue(e: Engine, fast: bool): (r: Engine)
    requires Valid(e)
    ensures Valid(r) && r == e.(temp := r.temp)
    ensures e.state == Browsing ==> r == e
    ensures e.state == Editing ==> r.temp == Min(e.temp + StepOf(EditItem(e), fast), EditItem(e).kind.maxValue)
    ensures e.state == Editing && StepOf(EditItem(e), fast) >= 0 && e.temp <= EditItem(e).kind.maxValue ==>
      e.temp <= r.temp <= EditItem(e).kind.maxValue
    ensures e.state == Editing && StepOf(EditItem(e), fast) >= 0 && e.temp == EditItem(e).kind.maxValue ==> r == e
  {
    if e.state == Editing && e.editing.Some? then
      var it := ItemAt(e.layers, e.editing.value);
      if it.kind.ValueInt? then
        var t := e.temp + StepOf(it, fast);
        e.(temp := if t > it.kind.maxValue then it.kind.maxValue else t)
      else e
    else e
  }

  /** `decrementValue`: while Editing, subtract the step, clamping at the minimum only. */
  function DecrementValue(e: Engine, fast: bool): (r: Engine)
    requires Valid(e)
    ensures Valid(r) && r == e.(temp := r.temp)
    ensures e.state == Browsing ==> r == e
    ensures e.state == Editing ==> r.temp == Max(e.temp - StepOf(EditItem(e), fast), EditItem(e).kind.minValue)
    ensures e.state == Editing && StepOf(EditItem(e), fast) >= 0 && e.temp >= EditItem(e).kind.minValue ==>
      EditItem(e).kind.minValue <= r.temp <= e.temp
    ensures e.state == Editing && StepOf(EditItem(e), fast) >= 0 && e.temp == EditItem(e).kind.minValue ==> r == e
  {
    if e.state == Editing && e.editing.Some? then
      var it := ItemAt(e.layers, e.editing.value);
      if it.kind.ValueInt? then
        var t := e.temp - StepOf(it, fast);
        e.(temp := if t < it.kind.minValue then it.kind.minValue else t)
      else e
    else e
  }

  /** A scratch value inside [min, max] stays inside under either adjustment. */
  lemma AdjustStaysInRange(e: Engine, fast: bool)
    requires Valid(e) && e.state == Editing && StepOf(EditItem(e), fast) >= 0
    requires EditItem(e).kind.minValue <= e.temp <= EditItem(e).kind.maxValue
    ensures EditItem(e).kind.minValue <= IncrementValue(e, fast).temp <= EditItem(e).kind.maxValue
    ensures EditItem(e).kind.minValue <= DecrementValue(e, fast).temp <= EditItem(e).kind.maxValue
  {
  }

  /** `n` slow increments. */
  function IncrementTimes(e: Engine, n: nat): (r: Engine)
    requires Valid(e)
    ensures Valid(r) && r == e.(temp := r.temp)
    decreases n
  {
    if n == 0 then e else IncrementValue(IncrementTimes(e, n - 1), false)
  }

  /** `n` slow increments add `n` steps, clamped at the maximum (the step being non-negative). */
  lemma {:induction false} IncrementTimesValue(e: Engine, n: nat)
    requires Valid(e) && e.state == Editing && EditItem(e).kind.step >= 0
    ensures IncrementTimes(e, n).temp ==
      if n == 0 then e.temp else Min(e.temp + n * EditItem(e).kind.step, EditItem(e).kind.maxValue)
    decreases n
  {
    if n > 0 {
      IncrementTimesValue(e, n - 1);
      var step := EditItem(e).kind.step;
      assert (n - 1) * step + step == n * step;
    }
  }

  /** `n` slow decrements. */
  function DecrementTimes(e: Engine, n: nat): (r: Engine)
    requires Valid(e)
    ensures Valid(r) && r == e.(temp := r.temp)
    decreases n
  {
    if n == 0 then e else DecrementValue(DecrementTimes(e, n - 1), false)
  }

  /** `n` slow decrements subtract `n` steps, clamped at the minimum (the step being non-negative). */
  lemma {:induction false} DecrementTimesValue(e: Engine, n: nat)
    requires Valid(e) && e.state == Editing && EditItem(e).kind.step >= 0
    ensures DecrementTimes(e, n).temp ==
      if n == 0 then e.temp else Max(e.temp - n * EditItem(e).kind.step, EditItem(e).kind.minValue)
    decreases n
  {
    if n > 0 {
      DecrementTimesValue(e, n - 1);
      var step := EditItem(e).kind.step;
      assert (n - 1) * step + step == n * step;
    }
  }

  /** One fast increment is ten slow ones. */
  lemma FastIncrementIsTenSlow(e: Engine)
    requires Valid(e) && e.state == Editing && EditItem(e).kind.step >= 0
    ensures IncrementValue(e, true) == IncrementTimes(e, FAST_FACTOR)
  {
    IncrementTimesValue(e, FAST_FACTOR);
    var fast, slow := IncrementValue(e, true), IncrementTimes(e, FAST_FACTOR);
    assert fast.temp == slow.temp;
  }

  /** One fast decrement is ten slow ones. */
  lemma FastDecrementIsTenSlow(e: Engine)
    requires Valid(e) && e.state == Editing && EditItem(e).kind.step >= 0
    ensures DecrementValue(e, true) == DecrementTimes(e, FAST_FACTOR)
  {
    DecrementTimesValue(e, FAST_FACTOR);
    var fast, slow := DecrementValue(e, true), DecrementTimes(e, FAST_FACTOR);
    assert fast.temp == slow.temp;
  }

  /** Away from the bounds, a decrement undoes an increment of the same speed, and the reverse. */
  lemma AdjustInverse(e: Engine, fast: bool)
    requires Valid(e) && e.state == Editing && StepOf(EditItem(e), fast) >= 0
    requires EditItem(e).kind.minValue <= e.temp <= EditItem(e).kind.maxValue
    ensures e.temp + StepOf(EditItem(e), fast) <= EditItem(e).kind.maxValue ==>
      DecrementValue(IncrementValue(e, fast), fast) == e
    ensures EditItem(e).kind.minValue <= e.temp - StepOf(EditItem(e), fast) ==>
      IncrementValue(DecrementValue(e, fast), fast) == e
  {
  }

  /**
   * Enter on an int item, `n` increments, Enter: the live value has moved by
   * `n` steps, clamped at the maximum, and (store open, key set) was saved.
   */
  lemma {:induction false} EditIncrementCommit(e: Engine, n: nat)
    requires Valid(e) && e.state == Browsing && Current(e).kind.ValueInt?
    requires LiveInt(e.ints, Current(e).kind.intValue).Some? && Current(e).kind.step >= 0
    ensures var it := Current(e);
      var id := it.kind.intValue.value;
      var v := e.ints[id];
      var r := SelectItem(IncrementTimes(SelectItem(e).0, n)).0;
      var want := if n == 0 then v else Min(v + n * it.kind.step, it.kind.maxValue);
      && r.ints == e.ints[id := want] && r.state == Browsing
      && r.layer == e.layer && r.item == e.item && r.stack == e.stack
      && (e.prefsInitialized && it.kind.prefKey.Some? ==> r.prefs == e.prefs[it.kind.prefKey.value := IntVal(want)])
      && (!e.prefsInitialized ==> r.prefs == e.prefs)
  {
    var e1 := SelectItem(e).0;
    assert EditItem(e1) == Current(e);
    IncrementTimesValue(e1, n);
  }

  /** A sequence of Up/Down adjustments while Editing: (increment?, fast?) per step. */
  function Adjust(e: Engine, ops: seq<(bool, bool)>): (r: Engine)
    requires Valid(e)
    ensures Valid(r) && r == e.(temp := r.temp)
    decreases |ops|
  {
    if ops == [] then e
    else
      var e1 := if ops[0].0 then IncrementValue(e, ops[0].1) else DecrementValue(e, ops[0].1);
      Adjust(e1, ops[1..])
  }

  /** Enter on an int item, any adjustments, then Back: nothing but the scratch value has changed. */
  lemma EditThenCancel(e: Engine, ops: seq<(bool, bool)>)
    requires Valid(e) && e.state == Browsing && Current(e).kind.ValueInt?
    ensures var r := GoBack(Adjust(SelectItem(e).0, ops));
      r == e.(temp := r.temp, editing := None)
  {
  }

  // ------------------------------------------------------------- init

  /**
   * `init`: install the layer table, go to the root with an empty history,
   * mark the store open when it opens (a store open from before stays open),
   * then load every setting. The edit reference and scratch value are left
   * as they were.
   */
  function InitMenu(e: Engine, layers: seq<MenuLayer>, storeOpened: bool): (r: Engine)
    requires TreeOk(layers)
    ensures Valid(r) && r.layers == layers
    ensures r.layer == 0 && r.item == 0 && r.state == Browsing && r.stack == []
    ensures r.prefsInitialized == (e.prefsInitialized || storeOpened)
    ensures r.prefs == e.prefs && r.editing == e.editing && r.temp == e.temp
    ensures r.ints.Keys == e.ints.Keys && r.bools.Keys == e.bools.Keys
    ensures !r.prefsInitialized ==> r.ints == e.ints && r.bools == e.bools
  {
    LoadAll(e.(layers := layers, layer := 0, item := 0, state := Browsing, stack := [],
               prefsInitialized := e.prefsInitialized || storeOpened))
  }

  /**
   * With the store open (now or from before), `init` seeds every persisting
   * item of the new tree from its key, provided no two items edit the same
   * setting.
   */
  lemma InitLoads(e: Engine, layers: seq<MenuLayer>, storeOpened: bool)
    requires TreeOk(layers) && (e.prefsInitialized || storeOpened) && DistinctSettings(Flatten(layers))
    ensures var r := InitMenu(e, layers, storeOpened);
      forall x :: x in Flatten(layers) && Persists(x, e.ints, e.bools) ==>
        LiveValue(x, r.ints, r.bools) == Loaded(KeyOf(x), LiveValue(x, e.ints, e.bools), e.prefs)
  {
    LoadAllLoads(e.(layers := layers, layer := 0, item := 0, state := Browsing, stack := [],
                    prefsInitialized := e.prefsInitialized || storeOpened));
  }

  /** Re-initialising from a store that the same tree was last saved into restores the same live values. */
  lemma InitAfterSaveAll(e: Engine, storeOpened: bool)
    requires TreeOk(e.layers) && DistinctKeys(Flatten(e.layers)) && e.prefsInitialized
    ensures var r := InitMenu(SaveAll(e), e.layers, storeOpened);
      r.ints == e.ints && r.bools == e.bools
  {
    SaveThenLoad(Flatten(e.layers), e.ints, e.bools, e.prefs);
  }

  // ------------------------------------------------------------- reset

  /** `reset`: back to the first item of the first layer, Browsing, with an empty history. */
  function Reset(e: Engine): (r: Engine)
    requires Valid(e)
    ensures Valid(r)
    ensures r.layer == 0 && r.item == 0 && r.state == Browsing && r.stack == [] && r.editing == None
    ensures r == e.(layer := 0, item := 0, state := Browsing, stack := [], editing := None)
  {
    e.(layer := 0, item := 0, state := Browsing, stack := [], editing := None)
  }

  // ------------------------------------------------------------- display

  /** The two text lines and the editing flag `getCurrentDisplay` fills in. */
  datatype Screen = Screen(line1: string, line2: Option<string>, editing: bool)

  function IntText(caption: string, value: int, unit: Option<string>): string
  {
    ">" + caption + ":" + IntToString(value) + unit.GetOr("")
  }

  function BoolText(caption: string, value: bool): string
  {
    ">" + caption + ":" + (if value then "ON" else "OFF")
  }

  /**
   * `getCurrentDisplay`: line 1 is the layer name; line 2 the current item
   * (the scratch value while Editing). `None` is a line the source leaves
   * unwritten (an int or bool item whose value pointer is null). Lines are
   * cut to 20 chars.
   */
  function Display(e: Engine): (s: Screen)
    requires Valid(e)
    ensures s.editing == (e.state == Editing)
    ensures |s.line1| <= LINE_WIDTH && s.line1 <= e.layers[e.layer].name
    ensures |e.layers[e.layer].name| <= LINE_WIDTH ==> s.line1 == e.layers[e.layer].name
    ensures s.line2.Some? ==> |s.line2.value| <= LINE_WIDTH
    ensures e.state == Editing ==> s.line2 == Some(Truncate(IntText(EditItem(e).caption, e.temp, EditItem(e).kind.unit), LINE_WIDTH))
    ensures e.state == Browsing && !Current(e).kind.ValueInt? && !Current(e).kind.Toggle? ==>
      s.line2 == Some(Truncate(">" + Current(e).caption, LINE_WIDTH))
    ensures e.state == Browsing && Current(e).kind.ValueInt? ==>
      var live := LiveInt(e.ints, Current(e).kind.intValue);
      s.line2 == if live.Some? then Some(Truncate(IntText(Current(e).caption, live.value, Current(e).kind.unit), LINE_WIDTH)) else None
    ensures e.state == Browsing && Current(e).kind.Toggle? ==>
      var v := Current(e).kind.boolValue;
      s.line2 == if v.Some? && v.value in e.bools then Some(Truncate(BoolText(Current(e).caption, e.bools[v.value]), LINE_WIDTH)) else None
  {
    var line1 := Truncate(e.layers[e.layer].name, LINE_WIDTH);
    var line2 :=
      if e.state == Editing && e.editing.Some? then
        var ed := ItemAt(e.layers, e.editing.value);
        if ed.kind.ValueInt? then Some(Truncate(IntText(ed.caption, e.temp, ed.kind.unit), LINE_WIDTH)) else None
      else
        var it := Current(e);
        match it.kind
        case ValueInt(v, _, _, _, unit, _) =>
          var live := LiveInt(e.ints, v);
          if live.Some? then Some(Truncate(IntText(it.caption, live.value, unit), LINE_WIDTH)) else None
        case Toggle(v, _) =>
          if v.Some? && v.value in e.bools then Some(Truncate(BoolText(it.caption, e.bools[v.value]), LINE_WIDTH)) else None
        case _ => Some(Truncate(">" + it.caption, LINE_WIDTH));
    Screen(line1, line2, e.state == Editing)
  }

  /** While Editing the screen shows the scratch value, whatever the live value is. */
  lemma DisplayShowsScratch(e: Engine, ints: Ints)
    requires Valid(e) && e.state == Editing
    ensures Display(e.(ints := ints)) == Display(e)
  {
  }
}
