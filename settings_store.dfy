/**
 * Persistence of single settings (`saveValueToPrefs`, `loadValueFromPrefs`)
 * and of whole item lists, against a key/value store that maps each key to
 * a typed value. `getInt`/`getBool` return the caller's default when the
 * key is absent or holds a value of the other type.
 */
module SettingsStore {
  import opened Wrappers
  import opened MenuTypes

  datatype Stored = IntVal(i: int) | BoolVal(b: bool)

  type Store = map<PrefKey, Stored>
  type Ints = map<SettingId, int>
  type Bools = map<SettingId, bool>

  function GetInt(prefs: Store, key: PrefKey, default: int): int
  {
    if key in prefs && prefs[key].IntVal? then prefs[key].i else default
  }

  function GetBool(prefs: Store, key: PrefKey, default: bool): bool
  {
    if key in prefs && prefs[key].BoolVal? then prefs[key].b else default
  }

  /**
   * An item that takes part in persistence: an int or bool item whose value
   * reference and key are both set. A reference missing from the live table
   * behaves like a null pointer.
   */
  predicate Persists(x: MenuItem, ints: Ints, bools: Bools)
  {
    match x.kind
    case ValueInt(v, _, _, _, _, k) => v.Some? && v.value in ints && k.Some?
    case Toggle(v, k) => v.Some? && v.value in bools && k.Some?
    case _ => false
  }

  function KeyOf(x: MenuItem): PrefKey
    requires x.kind.ValueInt? || x.kind.Toggle?
    requires x.kind.prefKey.Some?
  {
    x.kind.prefKey.value
  }

  /** The live value of a persisting item, as the store holds it. */
  function LiveValue(x: MenuItem, ints: Ints, bools: Bools): Stored
    requires Persists(x, ints, bools)
  {
    match x.kind
    case ValueInt(v, _, _, _, _, _) => IntVal(ints[v.value])
    case Toggle(v, _) => BoolVal(bools[v.value])
  }

  /** `saveValueToPrefs` for one item, with the store open. */
  function SaveItem(x: MenuItem, ints: Ints, bools: Bools, prefs: Store): (p: Store)
    ensures Persists(x, ints, bools) ==> KeyOf(x) in p && p[KeyOf(x)] == LiveValue(x, ints, bools)
    ensures forall k :: k in prefs && !(Persists(x, ints, bools) && k == KeyOf(x)) ==> k in p && p[k] == prefs[k]
    ensures p.Keys <= prefs.Keys + (if Persists(x, ints, bools) then {KeyOf(x)} else {})
  {
    if Persists(x, ints, bools) then prefs[KeyOf(x) := LiveValue(x, ints, bools)] else prefs
  }

  /**
   * What `getInt`/`getBool` hand back for `key` when the current value is
   * `cur`: the stored value when the key holds one of the same type,
   * otherwise `cur` itself.
   */
  function Loaded(key: PrefKey, cur: Stored, prefs: Store): (v: Stored)
    ensures v.IntVal? == cur.IntVal?
  {
    if key in prefs && prefs[key].IntVal? == cur.IntVal? then prefs[key] else cur
  }

  /**
   * `loadValueFromPrefs` for one item, with the store open: the item's live
   * value becomes the stored value if there is one of the right type, and
   * no other live value changes.
   */
  function LoadItem(x: MenuItem, ints: Ints, bools: Bools, prefs: Store): (r: (Ints, Bools))
    ensures r.0.Keys == ints.Keys && r.1.Keys == bools.Keys
    ensures !Persists(x, ints, bools) || KeyOf(x) !in prefs ==> r == (ints, bools)
    ensures Persists(x, ints, bools) ==>
      LiveValue(x, r.0, r.1) == Loaded(KeyOf(x), LiveValue(x, ints, bools), prefs)
    ensures forall id :: id in ints && !(x.kind.ValueInt? && x.kind.intValue == Some(id)) ==> r.0[id] == ints[id]
    ensures forall id :: id in bools && !(x.kind.Toggle? && x.kind.boolValue == Some(id)) ==> r.1[id] == bools[id]
  {
    match x.kind
    case ValueInt(v, _, _, _, _, k) =>
      if v.Some? && v.value in ints && k.Some? then
        assert ints[v.value := ints[v.value]] == ints;
        (ints[v.value := GetInt(prefs, k.value, ints[v.value])], bools)
      else (ints, bools)
    case Toggle(v, k) =>
      if v.Some? && v.value in bools && k.Some? then
        assert bools[v.value := bools[v.value]] == bools;
        (ints, bools[v.value := GetBool(prefs, k.value, bools[v.value])])
      else (ints, bools)
    case _ => (ints, bools)
  }

  /** Saving an item and loading it back leaves every live value as it was. */
  lemma SaveLoadItem(x: MenuItem, ints: Ints, bools: Bools, prefs: Store)
    ensures LoadItem(x, ints, bools, SaveItem(x, ints, bools, prefs)) == (ints, bools)
  {
    LoadMirrored(x, ints, bools, SaveItem(x, ints, bools, prefs));
  }

  /** Loading an item whose key already holds its live value changes nothing. */
  lemma LoadMirrored(x: MenuItem, ints: Ints, bools: Bools, prefs: Store)
    requires Persists(x, ints, bools) ==> KeyOf(x) in prefs && prefs[KeyOf(x)] == LiveValue(x, ints, bools)
    ensures LoadItem(x, ints, bools, prefs) == (ints, bools)
  {
    if Persists(x, ints, bools) {
      match x.kind
      case ValueInt(v, _, _, _, _, _) => assert ints[v.value := ints[v.value]] == ints;
      case Toggle(v, _) => assert bools[v.value := bools[v.value]] == bools;
    }
  }

  /** Save every item of `items` in order (the body of `saveAllSettings`). */
  function SaveItems(items: seq<MenuItem>, ints: Ints, bools: Bools, prefs: Store): Store
    decreases |items|
  {
    if items == [] then prefs
    else SaveItem(items[|items| - 1], ints, bools, SaveItems(items[..|items| - 1], ints, bools, prefs))
  }

  /** Load every item of `items` in order (the body of `loadAllSettings`). */
  function LoadItems(items: seq<MenuItem>, ints: Ints, bools: Bools, prefs: Store): (r: (Ints, Bools))
    ensures r.0.Keys == ints.Keys && r.1.Keys == bools.Keys
    decreases |items|
  {
    if items == [] then (ints, bools)
    else
      var (i1, b1) := LoadItems(items[..|items| - 1], ints, bools, prefs);
      LoadItem(items[|items| - 1], i1, b1, prefs)
  }

  lemma SaveItemsSnoc(items: seq<MenuItem>, x: MenuItem, ints: Ints, bools: Bools, prefs: Store)
    ensures SaveItems(items + [x], ints, bools, prefs) == SaveItem(x, ints, bools, SaveItems(items, ints, bools, prefs))
  {
    assert (items + [x])[..|items|] == items;
  }

  lemma LoadItemsSnoc(items: seq<MenuItem>, x: MenuItem, ints: Ints, bools: Bools, prefs: Store)
    ensures LoadItems(items + [x], ints, bools, prefs)
         == LoadItem(x, LoadItems(items, ints, bools, prefs).0, LoadItems(items, ints, bools, prefs).1, prefs)
  {
    assert (items + [x])[..|items|] == items;
  }

  /** An item with both a value reference and a key (independent of the live tables). */
  predicate Bound(x: MenuItem)
  {
    (x.kind.ValueInt? && x.kind.intValue.Some? && x.kind.prefKey.Some?)
    || (x.kind.Toggle? && x.kind.boolValue.Some? && x.kind.prefKey.Some?)
  }

  /** Bound items that share a store key are the same item. */
  predicate DistinctKeys(items: seq<MenuItem>)
  {
    forall x, y :: x in items && y in items && Bound(x) && Bound(y) && KeyOf(x) == KeyOf(y) ==> x == y
  }

  /** Every persisting item's key holds its live value. */
  predicate Mirrors(items: seq<MenuItem>, ints: Ints, bools: Bools, prefs: Store)
  {
    forall x :: x in items && Persists(x, ints, bools) ==> KeyOf(x) in prefs && prefs[KeyOf(x)] == LiveValue(x, ints, bools)
  }

  /** After saving a list whose keys are distinct, the store mirrors every item of it. */
  lemma {:induction false} SaveItemsMirrors(items: seq<MenuItem>, ints: Ints, bools: Bools, prefs: Store)
    requires DistinctKeys(items)
    ensures Mirrors(items, ints, bools, SaveItems(items, ints, bools, prefs))
    decreases |items|
  {
    if items != [] {
      var n := |items| - 1;
      var init := items[..n];
      assert DistinctKeys(init) by {
        forall x | x in init ensures x in items {
          var i :| 0 <= i < |init| && init[i] == x;
          assert items[i] == x;
        }
      }
      SaveItemsMirrors(init, ints, bools, prefs);
      var before := SaveItems(init, ints, bools, prefs);
      var after := SaveItems(items, ints, bools, prefs);
      assert after == SaveItem(items[n], ints, bools, before);
      forall x | x in items && Persists(x, ints, bools)
        ensures KeyOf(x) in after && after[KeyOf(x)] == LiveValue(x, ints, bools)
      {
        if x != items[n] {
          var i :| 0 <= i < |items| && items[i] == x;
          assert i < n;
          assert x in init by { assert init[i] == x; }
          assert items[n] in items;
          if Persists(items[n], ints, bools) {
            assert KeyOf(x) != KeyOf(items[n]);
          }
        }
      }
    }
  }

  /** Loading from a store that mirrors every item changes no live value. */
  lemma {:induction false} LoadItemsMirrored(items: seq<MenuItem>, ints: Ints, bools: Bools, prefs: Store)
    requires Mirrors(items, ints, bools, prefs)
    ensures LoadItems(items, ints, bools, prefs) == (ints, bools)
    decreases |items|
  {
    if items != [] {
      var n := |items| - 1;
      var init := items[..n];
      assert Mirrors(init, ints, bools, prefs) by {
        forall x | x in init ensures x in items {
          var i :| 0 <= i < |init| && init[i] == x;
          assert items[i] == x;
        }
      }
      LoadItemsMirrored(init, ints, bools, prefs);
      assert items[n] in items;
      LoadMirrored(items[n], ints, bools, prefs);
    }
  }

  /** Round trip: saving all items, then loading them all, leaves every live value unchanged. */
  lemma SaveThenLoad(items: seq<MenuItem>, ints: Ints, bools: Bools, prefs: Store)
    requires DistinctKeys(items)
    ensures LoadItems(items, ints, bools, SaveItems(items, ints, bools, prefs)) == (ints, bools)
  {
    SaveItemsMirrors(items, ints, bools, prefs);
    LoadItemsMirrored(items, ints, bools, SaveItems(items, ints, bools, prefs));
  }

  /** Two items that edit the same live setting. */
  predicate SameSetting(x: MenuItem, y: MenuItem)
  {
    (x.kind.ValueInt? && y.kind.ValueInt? && x.kind.intValue == y.kind.intValue)
    || (x.kind.Toggle? && y.kind.Toggle? && x.kind.boolValue == y.kind.boolValue)
  }

  /** Bound items that edit the same live setting are the same item. */
  predicate DistinctSettings(items: seq<MenuItem>)
  {
    forall x, y :: x in items && y in items && Bound(x) && Bound(y) && SameSetting(x, y) ==> x == y
  }

  /** Loading a list none of whose bound items edits `x`'s setting leaves `x`'s live value alone. */
  lemma {:induction false} LoadItemsFrame(items: seq<MenuItem>, x: MenuItem, ints: Ints, bools: Bools, prefs: Store)
    requires Persists(x, ints, bools)
    requires forall z :: z in items && Bound(z) ==> !SameSetting(z, x)
    ensures LiveValue(x, LoadItems(items, ints, bools, prefs).0, LoadItems(items, ints, bools, prefs).1)
         == LiveValue(x, ints, bools)
    decreases |items|
  {
    if items != [] {
      var n := |items| - 1;
      var init := items[..n];
      forall z | z in init && Bound(z) ensures !SameSetting(z, x) {
        var i :| 0 <= i < |init| && init[i] == z;
        assert items[i] == z;
      }
      LoadItemsFrame(init, x, ints, bools, prefs);
      assert items[n] in items;
    }
  }

  /**
   * Loading every item of a list in which no two bound items edit the same
   * setting leaves each persisting item's live value at what its key holds,
   * when the key holds a value of the right type, and as it was otherwise.
   */
  lemma {:induction false} LoadItemsLoads(items: seq<MenuItem>, ints: Ints, bools: Bools, prefs: Store)
    requires DistinctSettings(items)
    ensures var r := LoadItems(items, ints, bools, prefs);
      forall x :: x in items && Persists(x, ints, bools) ==>
        LiveValue(x, r.0, r.1) == Loaded(KeyOf(x), LiveValue(x, ints, bools), prefs)
    decreases |items|
  {
    if items != [] {
      var n := |items| - 1;
      var init := items[..n];
      var y := items[n];
      assert y in items;
      assert DistinctSettings(init) by {
        forall z | z in init ensures z in items {
          var i :| 0 <= i < |init| && init[i] == z;
          assert items[i] == z;
        }
      }
      LoadItemsLoads(init, ints, bools, prefs);
      var mid := LoadItems(init, ints, bools, prefs);
      var r := LoadItems(items, ints, bools, prefs);
      assert r == LoadItem(y, mid.0, mid.1, prefs);
      forall x | x in items && Persists(x, ints, bools)
        ensures LiveValue(x, r.0, r.1) == Loaded(KeyOf(x), LiveValue(x, ints, bools), prefs)
      {
        if x == y {
          if y !in init {
            forall z | z in init && Bound(z) ensures !SameSetting(z, y) {
              var i :| 0 <= i < |init| && init[i] == z;
              assert items[i] == z;
            }
            LoadItemsFrame(init, y, ints, bools, prefs);
          }
        } else {
          var i :| 0 <= i < |items| && items[i] == x;
          assert init[i] == x;
        }
      }
    }
  }
}
