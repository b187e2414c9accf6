# Egg-tray moulder controller: menu, buttons, display and logger

A Dafny model of the control firmware of an egg-tray moulding machine: a
20x4 character LCD, three buttons (Enter, Up, Down) behind an I/O expander,
a two-level settings menu whose values persist in a key/value store, and a
serial logger.

The model follows the firmware's own structure.

- `Buttons` (buttons.dfy) is the per-button debouncer. One poll takes the
  pin reading and the clock and produces PRESSED, RELEASED, LONG_PRESS, a
  fast or slow repeat, or IDLE. The module also holds the `Button` and
  `ButtonController` objects that keep these fields.
- `MenuEngine` (menu_engine.dfy) is the menu as a state machine over values:
  - the cursor, the Browsing/Editing mode and the bounded navigation stack;
  - the scratch value of the item being edited;
  - the live settings it edits and the persistent store (`SettingsStore`,
    settings_store.dfy).
- `MenuControl` (menu_controller.dfy) is the `MenuController` object.
  - Its fields are updated in place, and its history is a 10-slot array
    with a stack pointer.
  - Every method's `ensures` says the fields, read as an engine state, moved
    exactly as the engine function of the same name says.
  - The submenu lookup and the nested save/load loops are loops.
- `MenuConfig` (menu_config.dfy) holds the concrete tree: ten layers, the
  compiled defaults, and `linkMenus` filling in the submenu links of an
  array in place. Its lemmas discharge, for this tree, everything the
  engine needs:
  - non-empty layers and links that resolve;
  - sane int items whose defaults lie in range;
  - distinct store keys;
  - a navigation depth of at most 2;
  - display lines that are never cut.
- `DisplayControl` (display.dfy) covers two things:
  - `centerText` over a `char` array;
  - the `DisplayController` object: the two visible rows, the last-content
    cache that decides whether `displayText` redraws, the blinking cursor
    and the health-check failure counter.
- `Logging` (logging.dfy) covers:
  - the level gate and the level names;
  - the `[hh:mm:ss.mmm] ` timestamp arithmetic;
  - the hexadecimal and binary renderings;
  - the `LogController` object, whose serial output is the sequence of
    lines it has written.
- `MainLoop` (machine.dfy) covers:
  - `setup()`;
  - one pass of `loop()`: sample Enter, Up and Down once each, turn the
    events into menu calls according to the menu's mode, and blink;
  - the action callbacks, which set `systemRunning`, `testMode` and
    `systemStatus` and may reset the menu.

  The pure function `Dispatch` lists the calls a pass makes, and `Apply`
  folds them over the engine. The `Machine` object is proved to do exactly
  that, keeping the panel in sync with the menu.

The pin reading and `millis()` are parameters. So are whether the store
opened (`storeOpened`) and the answer of the display's I2C probe
(`probeOk`). `millis()` is a 32-bit counter, and elapsed times are taken
modulo 2^32 as the unsigned subtraction of the firmware does.

Back is not a return to the exact previous position: `goBack` pops the
previous layer and always puts the cursor on its first item
(lib/MenuController/MenuController.cpp:197-198), and so does the model.

## Model

| member | source | states |
|---|---|---|
| Timing.Elapsed | lib/ButtonController/ButtonController.cpp:77-78 | `currentTime - since` in unsigned 32-bit arithmetic: the plain difference, or the difference across one wrap of the counter |
| Timing.ElapsedAfter | lib/DisplayController/DisplayController.cpp:147 | a reading taken `d` ms after `since` measures exactly `d`, even when the counter wrapped in between |
| Text.NatToString | lib/MenuController/MenuController.cpp:277 | `%d` of a non-negative value is a non-empty string of digits with no leading zero (except "0") |
| Text.IntToString | lib/MenuController/MenuController.cpp:294 | `%d` starts with a minus sign exactly when the value is negative |
| Text.DecimalRoundTrip | lib/MenuController/MenuController.cpp:294 | reading back the decimal digits gives the number again |
| Text.NatToStringLength | lib/MenuController/MenuController.cpp:294 | a number below 10^k has at most k digits, and one at or above 10^k has more than k |
| Text.DigitsMonotone | lib/MenuController/MenuController.cpp:294 | a smaller number never prints with more digits |
| Text.Truncate | lib/MenuController/MenuController.cpp:269 | `snprintf(line, 21, ...)` keeps the whole text when it fits in 20 chars, and exactly its first 20 chars otherwise |
| Text.PadRight | lib/DisplayController/DisplayController.cpp:72-74 | `%-20s`: exactly 20 chars, each cell the text's char or a space |
| Text.PadEmpty | lib/DisplayController/DisplayController.cpp:77-82 | an empty line 2, which is not printed, looks like a blank row |
| Text.ZeroPadded | lib/LogController/LogController.cpp:68 | `%02lu`/`%03lu`: at least the width, digits only, denoting the number; never cut |
| Text.LeadingZeros | lib/LogController/LogController.cpp:68 | zeros in front of a digit string do not change the number it denotes |
| Buttons.Poll | lib/ButtonController/ButtonController.cpp:46-101 | one `update()`: a reading unlike the last one only records it and is IDLE; PRESSED iff a second LOW while not pressed (setting the press and both times), RELEASED iff a second HIGH while pressed; LONG_PRESS iff held 1000 ms without one yet; REPEAT_FAST iff held 3000 ms and 100 ms since the last repeat; REPEAT_SLOW iff after the long press, under 3000 ms held and 500 ms since the last repeat; a repeat moves only `lastRepeatTime` |
| Buttons.IdleWhenReleased | lib/ButtonController/ButtonController.cpp:46-100 | a stable HIGH on a released button is IDLE and changes nothing |
| Buttons.Run | lib/ButtonController/ButtonController.cpp:46-101 | polling a sequence of readings gives one event per poll |
| Buttons.PressReleaseAlternate | lib/ButtonController/ButtonController.cpp:58-73 | over any poll sequence PRESSED and RELEASED alternate, starting with the one the initial `isPressed` allows, and the final `isPressed` is the parity of their number |
| Buttons.LongPressOncePerPress | lib/ButtonController/ButtonController.cpp:81-97 | over any poll sequence at most one LONG_PRESS comes per press, and no repeat comes before it |
| Buttons.Button.constructor | lib/ButtonController/ButtonController.cpp:5-15 | pin 0, both readings HIGH, not pressed, times 0 |
| Buttons.Button.Init | lib/ButtonController/ButtonController.cpp:17-36 | binds the pin and starts released |
| Buttons.Button.Update | lib/ButtonController/ButtonController.cpp:46-101 | the fields and the event are those of `Poll`; the pin is kept |
| Buttons.Button.IsButtonPressed | lib/ButtonController/ButtonController.cpp:103-105 | returns `isPressed` |
| Buttons.Button.Reset | lib/ButtonController/ButtonController.cpp:107-112 | clears the press and both times but keeps the last reading |
| Buttons.ButtonController.constructor | lib/ButtonController/ButtonController.cpp:116-122 | three fresh released buttons, not initialised |
| Buttons.ButtonController.Init | lib/ButtonController/ButtonController.cpp:124-142 | the three pins bound and every button released |
| Buttons.ButtonController.Update | lib/ButtonController/ButtonController.cpp:144-151 | polls all three once when initialised, nothing otherwise; no pin changes |
| Buttons.ButtonController.GetEnterState | lib/ButtonController/ButtonController.cpp:153-155 | advances the Enter button by one poll and no other; its pin is kept |
| Buttons.ButtonController.GetUpState | lib/ButtonController/ButtonController.cpp:157-159 | advances the Up button by one poll and no other; its pin is kept |
| Buttons.ButtonController.GetDownState | lib/ButtonController/ButtonController.cpp:161-163 | advances the Down button by one poll and no other; its pin is kept |
| Buttons.ButtonController.IsEnterPressed | lib/ButtonController/ButtonController.cpp:165-167 | Enter's `isPressed` |
| Buttons.ButtonController.IsUpPressed | lib/ButtonController/ButtonController.cpp:169-171 | Up's `isPressed` |
| Buttons.ButtonController.IsDownPressed | lib/ButtonController/ButtonController.cpp:173-175 | Down's `isPressed` |
| Buttons.ButtonController.ResetAll | lib/ButtonController/ButtonController.cpp:177-181 | resets each of the three buttons |
| MenuTypes.FlattenStep | lib/MenuController/MenuController.cpp:387-391 | the nested loops visit the items layer after layer |
| MenuTypes.FlattenMember | lib/MenuController/MenuController.cpp:402-406 | every item the loops visit belongs to some layer |
| SettingsStore.SaveItem | lib/MenuController/MenuController.cpp:348-379 | an int or bool item with a value and a key stores its live value under its key; every other key is kept, and nothing else is added |
| SettingsStore.LoadItem | lib/MenuController/MenuController.cpp:315-346 | a persisting item's live value becomes what its key holds when that is a value of the item's type (`getInt`/`getBool` with the current value as default), and stays otherwise; no other live value changes, none appears; an item without value or key changes nothing |
| SettingsStore.SaveLoadItem | lib/MenuController/MenuController.cpp:315-379 | saving an item and loading it back leaves every live value as it was |
| SettingsStore.LoadMirrored | lib/MenuController/MenuController.cpp:315-346 | loading an item whose key already holds its live value changes nothing |
| SettingsStore.LoadItems | lib/MenuController/MenuController.cpp:402-406 | loading a list of items keeps the set of live settings |
| SettingsStore.SaveItemsSnoc | lib/MenuController/MenuController.cpp:387-391 | saving one more item extends the save of the list before it |
| SettingsStore.LoadItemsSnoc | lib/MenuController/MenuController.cpp:402-406 | loading one more item extends the load of the list before it |
| SettingsStore.Loaded | lib/MenuController/MenuController.cpp:321 | `getInt`/`getBool` give back a value of the type asked for |
| SettingsStore.LoadItemsFrame | lib/MenuController/MenuController.cpp:402-406 | loading a list none of whose items edits a setting leaves that setting alone |
| SettingsStore.LoadItemsLoads | lib/MenuController/MenuController.cpp:396-409 | when no two items edit the same setting, loading a list leaves each persisting item's live value at what its key holds (when of the item's type), and as it was otherwise |
| SettingsStore.SaveItemsMirrors | lib/MenuController/MenuController.cpp:381-394 | after saving a list whose keys are distinct, the store holds every item's live value under its key |
| SettingsStore.LoadItemsMirrored | lib/MenuController/MenuController.cpp:396-409 | loading from a store that holds every item's live value changes nothing |
| SettingsStore.SaveThenLoad | lib/MenuController/MenuController.cpp:381-409 | saving all items and then loading them all leaves every live value unchanged, when keys are distinct |
| MenuEngine.NavigateUp | lib/MenuController/MenuController.cpp:57-77 | only the item index moves, and it stays inside the layer; no-op while Editing |
| MenuEngine.NavigateDown | lib/MenuController/MenuController.cpp:79-99 | only the item index moves, and it stays inside the layer; no-op while Editing |
| MenuEngine.NavigateInverse | lib/MenuController/MenuController.cpp:57-99 | while Browsing, Up undoes Down and Down undoes Up, wrap-around included |
| MenuEngine.NavigateDownTimes | lib/MenuController/MenuController.cpp:79-99 | repeated Down moves only the item index |
| MenuEngine.NavigateDownCycles | lib/MenuController/MenuController.cpp:82-87 | k Downs while Browsing move the cursor to `(item + k) mod count` |
| MenuEngine.PushNavigation | lib/MenuController/MenuController.cpp:44-48 | pushes the current layer (not its argument), and drops the push when the stack is full |
| MenuEngine.PopNavigation | lib/MenuController/MenuController.cpp:50-55 | returns and removes the most recent entry, or layer 0 with the stack unchanged when empty |
| MenuEngine.FindLayer | lib/MenuController/MenuController.cpp:111-118 | the first layer whose item array is the link; none when no layer matches (a null link matches none) |
| MenuEngine.FindLayerFrom | lib/MenuController/MenuController.cpp:111-118 | the same scan, from a given layer on |
| MenuEngine.FindLayerDistinct | lib/MenuController/MenuController.cpp:111-118 | with distinct item arrays, a link to a layer's items finds exactly that layer |
| MenuEngine.SaveValue | lib/MenuController/MenuController.cpp:348-349 | only the store changes, and nothing changes while the store is closed |
| MenuEngine.LoadValue | lib/MenuController/MenuController.cpp:315-346 | with the store open, the item's live value becomes what its key holds (when of the item's type) and no other live value changes; nothing changes while the store is closed |
| MenuEngine.SaveAll | lib/MenuController/MenuController.cpp:381-394 | only the store changes |
| MenuEngine.LoadAll | lib/MenuController/MenuController.cpp:396-409 | only live values change, and the set of settings is kept |
| MenuEngine.SaveAllThenLoadAll | lib/MenuController/MenuController.cpp:381-409 | with distinct keys, loading all right after saving all changes nothing |
| MenuEngine.LoadAllLoads | lib/MenuController/MenuController.cpp:396-409 | with the store open and no setting edited by two items, `loadAllSettings` seeds every persisting item from its key |
| MenuEngine.GoBack | lib/MenuController/MenuController.cpp:189-209 | while Editing, cancel without writing anything; while Browsing, pop to the previous layer at item 0, or no change at the root |
| MenuEngine.Commit | lib/MenuController/MenuController.cpp:165-178 | writes the scratch value to the live setting (when it is set) and, with the store open and the item persisting, exactly that value under the item's key; otherwise the store is unchanged; back to Browsing with no item edited |
| MenuEngine.SelectItem | lib/MenuController/MenuController.cpp:101-187 | while Browsing, by item type: a submenu opens it, an Action item changes nothing and fires its callback, an int item starts editing, a bool item flips, a Back item goes back; an action is fired only in the Action case; while Editing, Enter commits; the tree and the store's open flag never change |
| MenuEngine.OpenSubmenu | lib/MenuController/MenuController.cpp:107-119 | the submenu case moves only the layer, the item and the stack |
| MenuEngine.BeginEdit | lib/MenuController/MenuController.cpp:129-140 | the int case enters Editing on the current item and changes only the scratch value besides |
| MenuEngine.FlipToggle | lib/MenuController/MenuController.cpp:142-150 | the bool case changes only the live bools and the store |
| MenuEngine.SelectSubmenu | lib/MenuController/MenuController.cpp:44-48 | selecting a submenu pushes only when there is room, then moves to the first matching layer at item 0, or stays when none matches |
| MenuEngine.SubmenuThenBack | lib/MenuController/MenuController.cpp:107-119 | entering a submenu that resolves and then going back returns to the layer left, at item 0 |
| MenuEngine.SelectIntStartsEdit | lib/MenuController/MenuController.cpp:129-140 | selecting an int item enters Editing with the live value as scratch and writes nothing |
| MenuEngine.SelectToggle | lib/MenuController/MenuController.cpp:142-150 | selecting a bool item flips its live value, saves it when the store is open and the key set, and stays Browsing |
| MenuEngine.IncrementValue | lib/MenuController/MenuController.cpp:211-236 | the scratch value becomes the smaller of scratch + step (ten steps when fast) and the maximum; nothing else changes; a no-op while Browsing |
| MenuEngine.DecrementValue | lib/MenuController/MenuController.cpp:238-263 | the scratch value becomes the larger of scratch − step (ten steps when fast) and the minimum; nothing else changes; a no-op while Browsing |
| MenuEngine.AdjustStaysInRange | lib/MenuController/MenuController.cpp:217-219 | a scratch value inside [min, max] stays inside under either adjustment |
| MenuEngine.IncrementTimes | lib/MenuController/MenuController.cpp:211-236 | repeated increments change only the scratch value |
| MenuEngine.IncrementTimesValue | lib/MenuController/MenuController.cpp:217-219 | n slow increments add n steps, clamped at the maximum |
| MenuEngine.DecrementTimes | lib/MenuController/MenuController.cpp:238-263 | repeated decrements change only the scratch value |
| MenuEngine.DecrementTimesValue | lib/MenuController/MenuController.cpp:244-247 | n slow decrements subtract n steps, clamped at the minimum |
| MenuEngine.FastIncrementIsTenSlow | lib/MenuController/MenuController.cpp:213-214 | one fast increment equals ten slow ones |
| MenuEngine.FastDecrementIsTenSlow | lib/MenuController/MenuController.cpp:240-241 | one fast decrement equals ten slow ones |
| MenuEngine.AdjustInverse | lib/MenuController/MenuController.cpp:211-263 | away from the bounds, a decrement undoes an increment of the same speed, and the reverse |
| MenuEngine.EditIncrementCommit | lib/MenuController/MenuController.cpp:129-178 | Enter, n increments, Enter: the live value moved by n steps, clamped, and was saved |
| MenuEngine.Adjust | lib/MenuController/MenuController.cpp:211-263 | any sequence of adjustments changes only the scratch value |
| MenuEngine.EditThenCancel | lib/MenuController/MenuController.cpp:190-194 | Enter on an int item, any adjustments, then Back: back in Browsing with no live value or store entry changed |
| MenuEngine.InitMenu | lib/MenuController/MenuController.cpp:17-38 | at the root, Browsing, with an empty history; the store open when it opened; no setting added or removed, none changed while the store is closed; the edit state untouched |
| MenuEngine.InitLoads | lib/MenuController/MenuController.cpp:17-38 | with the store open, `init` seeds every persisting item of the new tree from its key, when no two items edit the same setting |
| MenuEngine.InitAfterSaveAll | lib/MenuController/MenuController.cpp:17-38 | re-initialising from a store the same tree was saved into restores the same live values |
| MenuEngine.Reset | lib/MenuController/MenuController.cpp:411-416 | the root's first item, Browsing, an empty history, no item edited; the settings untouched |
| MenuEngine.Display | lib/MenuController/MenuController.cpp:265-313 | line 1 is the layer name cut to 20 chars; while Editing line 2 shows the scratch value; while Browsing it is ">label" for submenu, action and back items, ">label:value unit" for an int item and ">label:ON/OFF" for a bool item (unwritten when the value pointer is null), cut to 20 chars; the flag is the mode |
| MenuEngine.DisplayShowsScratch | lib/MenuController/MenuController.cpp:274-278 | while Editing the screen does not depend on the live values |
| MenuControl.SaveLayer | lib/MenuController/MenuController.cpp:388-390 | the inner loop of `saveAllSettings` saves one layer's items after the layers before it |
| MenuControl.LoadLayer | lib/MenuController/MenuController.cpp:403-405 | the inner loop of `loadAllSettings` loads one layer's items after the layers before it; what that load sets is `LoadItemsLoads` |
| MenuControl.MenuController.constructor | lib/MenuController/MenuController.cpp:3-15 | no layers, root, Browsing, empty history, nothing edited, store closed |
| MenuControl.MenuController.Init | lib/MenuController/MenuController.cpp:17-38 | the fields become `InitMenu` of the old fields, so every persisting setting is seeded from the store (`InitLoads`) |
| MenuControl.MenuController.PushNavigation | lib/MenuController/MenuController.cpp:44-48 | the fields become `PushNavigation` of the old fields |
| MenuControl.MenuController.PopNavigation | lib/MenuController/MenuController.cpp:50-55 | the fields and the result are `PopNavigation` of the old fields |
| MenuControl.MenuController.NavigateUp | lib/MenuController/MenuController.cpp:57-77 | the fields become `NavigateUp` of the old fields |
| MenuControl.MenuController.NavigateDown | lib/MenuController/MenuController.cpp:79-99 | the fields become `NavigateDown` of the old fields |
| MenuControl.MenuController.FindLayer | lib/MenuController/MenuController.cpp:111-118 | the scanning loop returns `FindLayer` of the tree |
| MenuControl.MenuController.SaveValueToPrefs | lib/MenuController/MenuController.cpp:348-379 | the fields become `SaveValue` of the old fields |
| MenuControl.MenuController.LoadValueFromPrefs | lib/MenuController/MenuController.cpp:315-346 | the fields become `LoadValue` of the old fields: the item's live value takes what its key holds |
| MenuControl.MenuController.SelectItem | lib/MenuController/MenuController.cpp:101-187 | the fields and the action fired are `SelectItem` of the old fields, by item type, including Action and Back |
| MenuControl.MenuController.EnterSubmenu | lib/MenuController/MenuController.cpp:107-119 | the fields become `OpenSubmenu` of the old fields |
| MenuControl.MenuController.StartEditing | lib/MenuController/MenuController.cpp:129-140 | the fields become `BeginEdit` of the old fields |
| MenuControl.MenuController.ToggleBool | lib/MenuController/MenuController.cpp:142-150 | the fields become `FlipToggle` of the old fields |
| MenuControl.MenuController.CommitEdit | lib/MenuController/MenuController.cpp:165-178 | the fields become `Commit` of the old fields: the live value and its store key take the scratch value |
| MenuControl.MenuController.GoBack | lib/MenuController/MenuController.cpp:189-209 | the fields become `GoBack` of the old fields |
| MenuControl.MenuController.IncrementValue | lib/MenuController/MenuController.cpp:211-236 | the fields become `IncrementValue` of the old fields: scratch + step, clamped at the maximum |
| MenuControl.MenuController.DecrementValue | lib/MenuController/MenuController.cpp:238-263 | the fields become `DecrementValue` of the old fields: scratch − step, clamped at the minimum |
| MenuControl.MenuController.GetCurrentDisplay | lib/MenuController/MenuController.cpp:265-313 | the two lines and the flag filled in are `Display` of the fields, per item kind |
| MenuControl.MenuController.SaveAllSettings | lib/MenuController/MenuController.cpp:381-394 | the nested loops leave the store as `SaveAll` says |
| MenuControl.MenuController.LoadAllSettings | lib/MenuController/MenuController.cpp:396-409 | the nested loops leave the live values as `LoadAll` says: every persisting setting seeded from the store (`LoadAllLoads`) |
| MenuControl.MenuController.Reset | lib/MenuController/MenuController.cpp:411-427 | the fields become `Reset` of the old fields |
| MenuConfig.SetLink | src/MenuConfig.cpp:96-97 | one link assignment changes only that item's submenu link and size |
| MenuConfig.LinkMenus | src/MenuConfig.cpp:94-117 | the array, as compiled, becomes the linked tree |
| MenuConfig.ConfigTreeOk | src/MenuConfig.cpp:79-90 | ten layers, each with as many items as its declared count, at least one and fewer than 256 |
| MenuConfig.ConfigIdsDistinct | src/MenuConfig.cpp:79-90 | no two layers share an item array |
| MenuConfig.ConfigLinksResolve | src/MenuConfig.cpp:94-117 | every submenu link names the items of exactly one layer, which the lookup finds, and its size is that layer's count |
| MenuConfig.SubmenuPositions | src/MenuConfig.cpp:94-117 | the submenu items are MAIN MENU's first and SETTINGS' first six, linking to layers 1 and 2-7 |
| MenuConfig.LayerItems | src/MenuConfig.cpp:79-90 | each layer holds its item table |
| MenuConfig.LayerOk | src/MenuConfig.cpp:7-75 | every table is well formed: keys owned by their layer, distinct, int items sane and fitting a line |
| MenuConfig.PlainLayers | src/MenuConfig.cpp:7-23 | MAIN MENU, SETTINGS, TEST MACHINE and RUNNING hold no int or bool item |
| MenuConfig.PlainTable | src/MenuConfig.cpp:68-75 | a table of submenu, action and back items has no value item |
| MenuConfig.WaterTable | src/MenuConfig.cpp:26-30 | WATER is well formed |
| MenuConfig.WaterKeys | src/MenuConfig.cpp:27-28 | WATER's keys are its own and distinct |
| MenuConfig.WaterItems | src/MenuConfig.cpp:27-28 | WATER's int items are sane, with defaults in range, their lines fit, and each is saved under its setting's key |
| MenuConfig.StarchTable | src/MenuConfig.cpp:33-37 | STARCH is well formed |
| MenuConfig.StarchKeys | src/MenuConfig.cpp:34-35 | STARCH's keys are its own and distinct |
| MenuConfig.StarchItems | src/MenuConfig.cpp:34-35 | STARCH's int items are sane, with defaults in range, their lines fit, and each is saved under its setting's key |
| MenuConfig.ShredderTable | src/MenuConfig.cpp:40-43 | SHREDDER is well formed |
| MenuConfig.ShredderKeys | src/MenuConfig.cpp:41 | SHREDDER's key is its own |
| MenuConfig.ShredderItems | src/MenuConfig.cpp:41 | SHREDDER's int item is sane, with its default in range, its line fits, and it is saved under its setting's key |
| MenuConfig.MixerTable | src/MenuConfig.cpp:46-50 | MIXER is well formed |
| MenuConfig.MixerKeys | src/MenuConfig.cpp:47-48 | MIXER's keys are its own and distinct |
| MenuConfig.MixerItems | src/MenuConfig.cpp:47-48 | MIXER's int items are sane, with defaults in range, their lines fit, and each is saved under its setting's key |
| MenuConfig.MouldingTable | src/MenuConfig.cpp:53-58 | MOULDING is well formed |
| MenuConfig.MouldingKeys | src/MenuConfig.cpp:54-56 | MOULDING's keys are its own and distinct |
| MenuConfig.MouldingItems | src/MenuConfig.cpp:54-56 | MOULDING's int items are sane, with defaults in range, their lines fit, and each is saved under its setting's key |
| MenuConfig.DryingTable | src/MenuConfig.cpp:61-65 | DRYING is well formed |
| MenuConfig.DryingKeys | src/MenuConfig.cpp:62-63 | DRYING's keys are its own and distinct |
| MenuConfig.DryingItems | src/MenuConfig.cpp:62-63 | DRYING's int items are sane, with defaults in range, their lines fit, and each is saved under its setting's key |
| MenuConfig.ConfigKeysDistinct | src/MenuConfig.cpp:27-63 | no two items of the tree share a store key |
| MenuConfig.ConfigSettingsDistinct | src/MenuConfig.cpp:27-63 | no two items of the tree edit the same live setting |
| MenuConfig.StartupLoadsSettings | lib/MenuController/MenuController.cpp:17-38 | start-up with the store open seeds every persisting setting of the configured tree from its key |
| MenuConfig.ConfigIntItemsOk | src/SettingsConfig.cpp:4-28 | every int item has min < max, a positive step, a value and a key, its compiled default in range, and a line that fits |
| MenuConfig.IntLineFits | lib/MenuController/MenuController.cpp:294 | for such an item, the line of every value in range is at most 20 chars |
| MenuConfig.LongestLine | src/MenuConfig.cpp:35 | ">Dispense Time:60sec" fills the line exactly |
| MenuConfig.EditLineUncut | lib/MenuController/MenuController.cpp:277 | while editing a value in range, line 2 is shown whole, never cut |
| MenuConfig.BrowseLineShowsLive | lib/MenuController/MenuController.cpp:292-297 | browsing an int item whose live value is in range, line 2 is ">label:" then the value's digits uncut, which read back to the live value, then the unit |
| MenuConfig.BackPlacement | src/MenuConfig.cpp:7-75 | SETTINGS and each settings sub-layer end with Back; MAIN MENU, TEST MACHINE and RUNNING have none |
| MenuConfig.ResetOnPath | lib/MenuController/MenuController.cpp:411-416 | `reset` puts the menu on its path: root, empty history |
| MenuConfig.CursorOnPath | src/MenuConfig.cpp:94-117 | cursor moves and adjustments keep the menu on its path, and the history never exceeds 2 < MAX_DEPTH |
| MenuConfig.GoBackOnPath | src/MenuConfig.cpp:94-117 | Back keeps the menu on its path |
| MenuConfig.SelectOnPath | src/MenuConfig.cpp:88-89 | Enter keeps the menu on its path: TEST MACHINE and RUNNING are never entered |
| MenuConfig.SubmenuOnPath | src/MenuConfig.cpp:94-117 | entering a submenu moves one step along the path |
| MenuConfig.WaterAmountEdit | src/MenuConfig.cpp:27 | WATER > Amount from 1000: four increments give 1200, a fast one 1700, and Enter stores 1700 live and under "waterAmt" |
| MenuConfig.WaterAmountOpens | src/SettingsConfig.cpp:4 | Enter on WATER > Amount starts editing from the live value 1000 |
| MenuConfig.WaterAmountFast | src/MenuConfig.cpp:27 | a fast increment of WATER > Amount adds ten 50 ml steps |
| MenuConfig.WaterAmountCommits | lib/MenuController/MenuController.cpp:165-178 | Enter at 1700 writes the live setting and the key "waterAmt" |
| DisplayControl.Centered | lib/DisplayController/DisplayController.cpp:213-225 | width chars; a text that fits (its length taken as `uint8_t`) sits at `(width - len) / 2` among spaces; a longer one is cut to its first width chars |
| DisplayControl.CenteredBalanced | lib/DisplayController/DisplayController.cpp:215 | a fitting text has as many spaces after it as before, or one more |
| DisplayControl.CenterText | lib/DisplayController/DisplayController.cpp:213-225 | `buffer[0..width)` holds the centred text, `buffer[width]` is NUL, and the rest is untouched |
| DisplayControl.DisplayController.constructor | lib/DisplayController/DisplayController.cpp:3-16 | not initialised, an empty cache, cursor visible, counters 0 |
| DisplayControl.DisplayController.Init | lib/DisplayController/DisplayController.cpp:24-53 | the panel shows "Initializing..." and the cache is left as it was |
| DisplayControl.DisplayController.DisplayText | lib/DisplayController/DisplayController.cpp:55-94 | a null line 2 counts as ""; redraws, and updates the cache, only when something differs from the cache, and the panel then shows the cache; otherwise nothing changes |
| DisplayControl.DisplayController.Clear | lib/DisplayController/DisplayController.cpp:131-140 | a blank panel and the cache ("", "", false); nothing when not initialised |
| DisplayControl.DisplayController.Update | lib/DisplayController/DisplayController.cpp:142-157 | the cursor flips only in edit mode, and only once 500 ms have passed since the last flip |
| DisplayControl.DisplayController.ShowStatus | lib/DisplayController/DisplayController.cpp:190-211 | after the message the saved content is redrawn whenever it has a non-empty line; the cache is unchanged |
| DisplayControl.DisplayController.ForceRefresh | lib/DisplayController/DisplayController.cpp:234-250 | the panel shows the cache again, which is unchanged |
| DisplayControl.DisplayController.CheckHealth | lib/DisplayController/DisplayController.cpp:252-300 | at most one probe per interval; a failure counts, reaching the threshold resets the count to 0, a success resets it; after a rebuild a non-blank line 1 is not shown |
| DisplayControl.DisplayController.CheckHealthRestoring | lib/DisplayController/DisplayController.cpp:252-300 | the same counter, and after a rebuild the panel shows the cache |
| DisplayControl.BlankRowHidesContent | lib/DisplayController/DisplayController.cpp:286-288 | a line with a visible character does not print as a blank row |
| Logging.LevelString | lib/LogController/LogController.cpp:44-54 | "UNKNOWN" exactly for values outside the six levels |
| Logging.LevelStringInjective | lib/LogController/LogController.cpp:44-54 | distinct levels have distinct names |
| Logging.EmitsMonotone | lib/LogController/LogController.cpp:84 | raising the level never hides a message, and LOG_NONE hides every message |
| Logging.SplitMillis | lib/LogController/LogController.cpp:58-65 | minutes and seconds < 60, ms < 1000, and h·3600000 + m·60000 + s·1000 + ms is the input |
| Logging.HoursBound | lib/LogController/LogController.cpp:61 | a 32-bit `millis()` gives at most 1193 hours |
| Logging.TimestampLength | lib/LogController/LogController.cpp:68 | the timestamp is 13 chars plus the hour field, which has at least two digits |
| Logging.WrittenBufferFitsIff | lib/LogController/LogController.cpp:67-68 | the 16-byte buffer holds the text and its NUL exactly while the hours are at most 99 |
| Logging.WrittenBufferOverflows | lib/LogController/LogController.cpp:67-68 | at 360000000 ms (100 hours) the text and its NUL take 17 bytes |
| Logging.WidenedBufferFits | lib/LogController/LogController.cpp:67-68 | an 18-byte buffer holds the timestamp for every 32-bit value |
| Logging.FormatTimestamp | lib/LogController/LogController.cpp:56-71 | the 18-byte buffer holds the timestamp text followed by a NUL, and nothing after it changes |
| Logging.CopyTerminated | lib/LogController/LogController.cpp:68 | the text copied in, NUL-terminated, with the rest of the buffer untouched |
| Logging.TimestampOnlyWhenEnabled | lib/LogController/LogController.cpp:57 | the timestamp is the only difference the flag makes, put in front of a line that starts with "[" |
| Logging.BaseDigits | lib/LogController/LogController.cpp:240 | `print(value, HEX/BIN)` yields at least one digit |
| Logging.BaseRoundTrip | lib/LogController/LogController.cpp:240-249 | reading the digits back in the same base gives the value again |
| Logging.LogController.constructor | lib/LogController/LogController.cpp:6-10 | INFO, timestamps on, not initialised, nothing written |
| Logging.LogController.Init | lib/LogController/LogController.cpp:12-33 | stores the level and flag, then writes the six-line banner naming the level |
| Logging.LogController.Log | lib/LogController/LogController.cpp:83-228 | writes one line exactly when the current level is at least the message's, else nothing |
| Logging.LogController.SetLevel | lib/LogController/LogController.cpp:35-38 | the new level is stored first, so the confirmation appears only if it is at least INFO |
| Logging.LogController.EnableTimestamp | lib/LogController/LogController.cpp:40-42 | only the flag changes |
| Logging.LogController.Separator | lib/LogController/LogController.cpp:231-233 | writes the 37-char rule |
| Logging.LogController.PrintHex | lib/LogController/LogController.cpp:235-242 | gated at DEBUG, the message then "0x" and the hexadecimal digits |
| Logging.LogController.PrintBinary | lib/LogController/LogController.cpp:244-251 | gated at DEBUG, the message then "0b" and the binary digits |
| Logging.IntArg | lib/LogController/LogController.cpp:90-97 | an `int` value prints as a non-empty decimal, signed exactly when negative |
| Logging.BoolArg | lib/LogController/LogController.cpp:177-184 | a `bool` value prints as "true" exactly when it is true, else "false" |
| MainLoop.BrowsingCalls | src/main.cpp:164-174 | in Browsing only PRESSED acts: Up, then Down, then Enter, each iff pressed |
| MainLoop.ButtonAdjustment | src/main.cpp:177-182 | at most one adjustment per button |
| MainLoop.Adjustments | src/main.cpp:177-188 | Up adjusts upwards on PRESSED or REPEAT_SLOW (slow) or REPEAT_FAST (fast); Down symmetrically; Up's first |
| MainLoop.Dispatch | src/main.cpp:164-192 | at most three calls; Select iff Enter was pressed, and then last; by mode, the Browsing or Editing calls |
| MainLoop.Perform | src/main.cpp:55-92 | no action changes a setting; start and test-mode entry only set their flags; stop and test-mode exit clear theirs and reset the menu; save writes only the store; reset-to-defaults changes nothing |
| MainLoop.Step | src/main.cpp:164-191 | every menu call keeps the engine valid over the same tree |
| MainLoop.Apply | src/main.cpp:164-191 | the calls of a pass keep the engine valid over the same tree |
| MainLoop.ApplyAppend | src/main.cpp:164-191 | the calls of a pass compose: applying `a + b` is applying `b` after `a` |
| MainLoop.AdjustmentsStayEditing | src/main.cpp:177-188 | adjustments keep Editing, touch only the scratch value, and fire no action |
| MainLoop.AdjustStep | src/main.cpp:177-188 | one adjustment touches only the scratch value |
| MainLoop.EditingExitOnlyByEnter | src/main.cpp:175-191 | while Editing, a pass without Enter stays in Editing on the same item, with no setting or store change: no button cancels |
| MainLoop.CommitAfterAdjust | src/main.cpp:177-190 | while Editing, Enter commits the value this pass's adjustments produced |
| MainLoop.ApplySingle | src/main.cpp:189-191 | one call is one step |
| MainLoop.SelectCommits | src/main.cpp:189-191 | Enter while Editing commits and fires nothing |
| MainLoop.ConfigNamesShown | src/MenuConfig.cpp:79-90 | every layer name is non-empty and fits a line |
| MainLoop.DisplayIgnoresStore | lib/MenuController/MenuController.cpp:265-313 | the screen does not depend on the store |
| MainLoop.LinkedTree | src/MenuConfig.cpp:79-117 | the layer array after `linkMenus` is the configured tree, well formed, with names that fit |
| MainLoop.Machine.constructor | src/main.cpp:41-43 | the global objects as constructed; not running, not in test mode, status "Idle" |
| MainLoop.Machine.Setup | src/main.cpp:131-150 | the buttons get pins 26, 25 and 27, the menu is `InitMenu` over the linked tree, and the panel shows the first screen |
| MainLoop.Machine.ShowFirstScreen | src/main.cpp:147-150 | the panel shows the menu's screen |
| MainLoop.Machine.Refresh | src/main.cpp:96-98 | after the display callback the cache is the menu's screen and the panel shows it; the blink state is kept |
| MainLoop.Machine.RunAction | src/main.cpp:55-92 | the menu and the flags move as `Perform` says, and the panel stays in sync |
| MainLoop.Machine.StartAutoRunCallback | src/main.cpp:55-60 | as `Perform` says for `startAutoRun` |
| MainLoop.Machine.StopAutoRunCallback | src/main.cpp:62-68 | as `Perform` says for `stopAutoRun` |
| MainLoop.Machine.EnterTestModeCallback | src/main.cpp:70-74 | as `Perform` says for `enterTestMode` |
| MainLoop.Machine.ExitTestModeCallback | src/main.cpp:76-81 | as `Perform` says for `exitTestMode` |
| MainLoop.Machine.SaveSettingsCallback | src/main.cpp:83-87 | as `Perform` says for `saveSettings` |
| MainLoop.Machine.Status | lib/DisplayController/DisplayController.cpp:190-211 | after a status message the panel is back in sync with the menu |
| MainLoop.Machine.ReturnToRoot | lib/MenuController/MenuController.cpp:411-427 | `reset()` and its display callback: the menu is `Reset`, and the panel in sync |
| MainLoop.Machine.Execute | src/main.cpp:166-190 | one menu call with its callbacks moves the menu and flags as `Step` says |
| MainLoop.Machine.ExecuteSelect | src/main.cpp:172-173 | `selectItem()` with the action it fires moves the menu and flags as `Step` says |
| MainLoop.Machine.Loop | src/main.cpp:157-204 | each button is polled once, Enter first; the menu and flags end as `Apply` of the calls `Dispatch` lists for the mode at the start; the panel stays in sync |
| MainLoop.Machine.Sample | src/main.cpp:159-161 | each button advances by exactly one poll |
| MainLoop.Machine.HandleEvents | src/main.cpp:164-192 | the calls of the pass are those `Dispatch` lists for the current mode |
| MainLoop.Machine.HandleBrowsing | src/main.cpp:164-174 | the Browsing branch applies `BrowsingCalls` |
| MainLoop.Machine.HandleEditing | src/main.cpp:175-191 | the Editing branch applies the adjustments, then Enter's commit |
| MainLoop.Machine.HandleAdjustments | src/main.cpp:177-188 | Up's adjustment, then Down's |
| MainLoop.Machine.HandleButton | src/main.cpp:177-182 | the two tests of one button while Editing |
| MainLoop.Machine.HandleWhen | src/main.cpp:166-168 | one `if` of the loop: the call is made iff its event came |
| MainLoop.Machine.ExecuteNext | src/main.cpp:164-191 | one more call appended to those already made this pass |
| MainLoop.Machine.Blink | src/main.cpp:195 | `update()` only blinks: the panel stays in sync |

## Left out

- Serial output of the menu, buttons, display and `setup()` is not modelled. The logger's output is modelled as the sequence of lines it writes.
- The LCD library calls, every `delay`, the `Wire` probe and the rebuilding of the LCD object are not modelled. The panel is modelled as two 20-char rows and a cursor flag, and the probe's answer is the parameter `probeOk`.
- The ESP32 `Preferences` store is a map from key to typed value. Whether `begin` succeeded is the parameter `storeOpened`.
- `readPin`, the PCF8575 expander, `digitalRead` and `millis()` are not modelled: the reading and the time are parameters.
- Float items, `tempFloatValue` and `%.1f` formatting are left out, because the configured tree has no float item.
- The `step` field is a `float` in the source (lib/MenuController/MenuController.h:34) and an integer in the model. A fast step is `(int)(step * 10)` in the source and ten whole steps in the model. The two agree for whole-number steps, and every configured step is a whole number (src/MenuConfig.cpp:27-63).
- `DEBOUNCE_DELAY` is declared in lib/ButtonController/ButtonController.h:35 but never used, so it is not modelled.
- `setDisplay4LineCallback`, `getCurrentDisplay4Line`, `displayText4Line`, `showStartup`, `setBacklight` and the destructor drive the 4-line layout and the backlight, which nothing in the menu or loop state depends on.
- `processAutoRun` is an empty stub. The `setup()` steps before the display (serial, I2C, relay pins) only touch hardware.
- `showStatus` blocks for its duration; the delay is not modelled.
- The display callback is not stored as a pointer. The machine refreshes after every menu call. A call that changes nothing leaves the screen equal to the cache, and `displayText` then draws nothing, so the result is the same.
- MainLoop.Machine.Refresh: the source calls the callback inside each menu operation, before the operation returns; the model calls it once afterwards. The extra refresh the source makes during `stopAutoRun` (from `reset()` inside `selectItem`) has the same visible result.
- `checkHealth` is not called from `loop()` in the source, so the machine never calls it either.
- `LogController.init` with a `LOG_LEVEL` build flag is not modelled: the model always takes the level argument, which is the build without the flag.
- The `error`, `warning`, `info`, `debug` and `verbose` overloads are one method, `Log`, with the message's level. `IntArg` and `BoolArg` give the rendering of the value argument.
- MenuEngine.IncrementValue: `tempIntValue` is a 32-bit `int` in the source; the model uses unbounded integers. The configured ranges stay below 6000, so overflow cannot occur.
- MenuEngine.DecrementValue: the same, for the subtraction.
- MenuEngine.Display: a line the source leaves unwritten (an int or bool item with a null value pointer) is `None`. The source would pass uninitialised buffer contents; the display treats `None` as "".
- Logging.LevelString: the enum is modelled as `int`, so every value has a name; the `UNKNOWN` branch covers casts the source allows.
- The ScaleController, servo and hardware configuration files are not part of this model.

## Findings

| source | as written | input that shows it | evidently intended | confidence | as-written member | corrected member |
|---|---|---|---|---|---|---|
| lib/LogController/LogController.cpp:67-68 | `printTimestamp` formats `[%02lu:%02lu:%02lu.%03lu] ` into `char buffer[16]` | `millis()` = 360000000 (100 hours of uptime): the text is 16 chars, so `sprintf` writes 17 bytes into 16 | a buffer that holds the timestamp for every 32-bit `millis()` value: hours reach 1193, so 18 bytes | not executed | Logging.WrittenBufferOverflows | Logging.FormatTimestamp |
| lib/DisplayController/DisplayController.cpp:286-288 | after rebuilding the LCD object (which clears the panel), `checkHealth` passes the cached lines themselves to `displayText`. Its change test finds nothing new, and nothing is redrawn | cache ("MAIN MENU", ">Settings", false), threshold 2, two failed probes an interval apart: the panel stays blank | blank the cached lines before redisplaying, as `forceRefresh` does (lines 246-249), so the content reappears | not executed | DisplayControl.DisplayController.CheckHealth | DisplayControl.DisplayController.CheckHealthRestoring |
