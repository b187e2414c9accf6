/**
 * The firmware's main loop: each pass samples the three buttons, turns
 * their events into menu operations according to the menu's mode, runs the
 * action an Action item names (which sets the machine's mode flags and may
 * reset the menu), keeps the panel in step with the menu through the
 * display callback, and lets the display blink its cursor.
 */
module MainLoop {
  import opened Wrappers
  import opened Timing
  import opened Text
  import opened Buttons
  import opened MenuTypes
  import opened MenuEngine
  import opened MenuControl
  import opened MenuConfig
  import opened DisplayControl

  /** The pins the buttons are wired to. */
  const BTN_UP: nat := 25
  const BTN_ENTER: nat := 26
  const BTN_DOWN: nat := 27

  // ------------------------------------------------------------ dispatch

  /** The menu operations a loop pass can call. */
  datatype Command = NavUp | NavDown | Select | Increment(fast: bool) | Decrement(fast: bool)

  function When(cond: bool, c: Command): seq<Command>
  {
    if cond then [c] else []
  }

  /** The calls of a Browsing pass: only PRESSED acts, Up, then Down, then Enter. */
  function BrowsingCalls(enter: ButtonState, up: ButtonState, down: ButtonState): (cmds: seq<Command>)
    ensures |cmds| <= 3
    ensures Select in cmds <==> enter == Pressed
    ensures enter == Pressed ==> cmds[|cmds| - 1] == Select
    ensures NavUp in cmds <==> up == Pressed
    ensures NavDown in cmds <==> down == Pressed
    ensures forall c :: c in cmds ==> c.NavUp? || c.NavDown? || c.Select?
  {
    When(up == Pressed, NavUp) + When(down == Pressed, NavDown) + When(enter == Pressed, Select)
  }

  /** Up increments and Down decrements. */
  function StepCommand(increment: bool, fast: bool): Command
  {
    if increment then Increment(fast) else Decrement(fast)
  }

  /** One button's adjustment while Editing: PRESSED and slow repeats step once, fast repeats step ten times. */
  function ButtonAdjustment(b: ButtonState, increment: bool): (cmds: seq<Command>)
    ensures |cmds| <= 1
  {
    When(b == Pressed || b == RepeatSlow, StepCommand(increment, false)) + When(b == RepeatFast, StepCommand(increment, true))
  }

  /** The adjustments of an Editing pass: Up's, then Down's. */
  function Adjustments(up: ButtonState, down: ButtonState): (cmds: seq<Command>)
    ensures |cmds| <= 2
    ensures Increment(false) in cmds <==> up == Pressed || up == RepeatSlow
    ensures Increment(true) in cmds <==> up == RepeatFast
    ensures Decrement(false) in cmds <==> down == Pressed || down == RepeatSlow
    ensures Decrement(true) in cmds <==> down == RepeatFast
    ensures forall c :: c in cmds ==> c.Increment? || c.Decrement?
  {
    ButtonAdjustment(up, true) + ButtonAdjustment(down, false)
  }

  /**
   * The calls one pass makes for the sampled events, in order. Browsing
   * reacts only to PRESSED; Editing adjusts on PRESSED and on the repeats;
   * both end with Enter's select.
   */
  function Dispatch(state: MenuState, enter: ButtonState, up: ButtonState, down: ButtonState): (cmds: seq<Command>)
    ensures |cmds| <= 3
    ensures Select in cmds <==> enter == Pressed
    ensures enter == Pressed ==> cmds[|cmds| - 1] == Select
    ensures state == Browsing ==> cmds == BrowsingCalls(enter, up, down)
    ensures state == Editing ==> cmds == Adjustments(up, down) + When(enter == Pressed, Select)
  {
    if state == Browsing then BrowsingCalls(enter, up, down)
    else Adjustments(up, down) + When(enter == Pressed, Select)
  }

  // ------------------------------------------------------------ actions

  /** The globals the actions set. */
  datatype AppFlags = AppFlags(systemRunning: bool, testMode: bool, systemStatus: string)

  /**
   * The action callbacks' effect on the flags and on the menu. Stopping
   * and leaving test mode put the menu back at its root; no action changes
   * a live setting or the tree.
   */
  function Perform(a: ActionId, e: Engine, f: AppFlags): (r: (Engine, AppFlags))
    requires Valid(e)
    ensures Valid(r.0) && r.0.layers == e.layers
    ensures r.0.ints == e.ints && r.0.bools == e.bools
    ensures a == StartAutoRun ==> r.0 == e && r.1 == f.(systemRunning := true, systemStatus := "Running")
    ensures a == StopAutoRun ==>
      && r.1 == f.(systemRunning := false, systemStatus := "Stopped")
      && r.0.layer == 0 && r.0.item == 0 && r.0.state == Browsing && r.0.stack == []
    ensures a == EnterTestMode ==> r.0 == e && r.1 == f.(testMode := true)
    ensures a == ExitTestMode ==>
      && r.1 == f.(testMode := false)
      && r.0.layer == 0 && r.0.item == 0 && r.0.state == Browsing && r.0.stack == []
    ensures a == SaveSettings ==> r.1 == f && r.0 == e.(prefs := r.0.prefs)
    ensures a == ResetToDefaults ==> r == (e, f)
  {
    match a
    case StartAutoRun => (e, f.(systemRunning := true, systemStatus := "Running"))
    case StopAutoRun => (Reset(e), f.(systemRunning := false, systemStatus := "Stopped"))
    case EnterTestMode => (e, f.(testMode := true))
    case ExitTestMode => (Reset(e), f.(testMode := false))
    case SaveSettings => (SaveAll(e), f)
    case ResetToDefaults => (e, f)
  }

  /** One menu call, with the action a select fires run before the call returns. */
  function Step(e: Engine, f: AppFlags, c: Command): (r: (Engine, AppFlags))
    requires Valid(e)
    ensures Valid(r.0) && r.0.layers == e.layers
  {
    match c
    case NavUp => (NavigateUp(e), f)
    case NavDown => (NavigateDown(e), f)
    case Increment(fast) => (IncrementValue(e, fast), f)
    case Decrement(fast) => (DecrementValue(e, fast), f)
    case Select =>
      var (s, action) := SelectItem(e);
      if action.Some? then Perform(action.value, s, f) else (s, f)
  }

  /** The calls of a pass, one after the other. */
  function Apply(e: Engine, f: AppFlags, cmds: seq<Command>): (r: (Engine, AppFlags))
    requires Valid(e)
    ensures Valid(r.0) && r.0.layers == e.layers
    decreases |cmds|
  {
    if cmds == [] then (e, f)
    else
      var p := Apply(e, f, cmds[..|cmds| - 1]);
      Step(p.0, p.1, cmds[|cmds| - 1])
  }

  lemma {:induction false} ApplyAppend(e: Engine, f: AppFlags, a: seq<Command>, b: seq<Command>)
    requires Valid(e)
    ensures var p := Apply(e, f, a); Apply(e, f, a + b) == Apply(p.0, p.1, b)
    decreases |b|
  {
    if b == [] {
      assert a + b == a;
    } else {
      var b' := b[..|b| - 1];
      assert (a + b)[..|a + b| - 1] == a + b';
      assert (a + b)[|a + b| - 1] == b[|b| - 1];
      ApplyAppend(e, f, a, b');
    }
  }

  /** Adjustments keep the menu in Editing, touch nothing but the scratch value, and fire no action. */
  lemma {:induction false} AdjustmentsStayEditing(e: Engine, f: AppFlags, cmds: seq<Command>)
    requires Valid(e) && e.state == Editing
    requires forall c :: c in cmds ==> c.Increment? || c.Decrement?
    ensures var r := Apply(e, f, cmds); r.0 == e.(temp := r.0.temp) && r.1 == f
    decreases |cmds|
  {
    if cmds != [] {
      var init := cmds[..|cmds| - 1];
      assert forall c :: c in init ==> c in cmds;
      assert cmds[|cmds| - 1] in cmds;
      AdjustmentsStayEditing(e, f, init);
      var p := Apply(e, f, init);
      AdjustStep(p.0, p.1, cmds[|cmds| - 1]);
    }
  }

  /** One increment or decrement changes the scratch value only. */
  lemma AdjustStep(e: Engine, f: AppFlags, c: Command)
    requires Valid(e) && (c.Increment? || c.Decrement?)
    ensures var r := Step(e, f, c); r.0 == e.(temp := r.0.temp) && r.1 == f
  {
  }

  /** While Editing, a pass without an Enter press leaves the menu in Editing: no button goes back or cancels. */
  lemma EditingExitOnlyByEnter(e: Engine, f: AppFlags, enter: ButtonState, up: ButtonState, down: ButtonState)
    requires Valid(e) && e.state == Editing && enter != Pressed
    ensures var r := Apply(e, f, Dispatch(Editing, enter, up, down));
      r.0.state == Editing && r.0.editing == e.editing && r.0.ints == e.ints && r.0.prefs == e.prefs && r.1 == f
  {
    assert Dispatch(Editing, enter, up, down) == Adjustments(up, down);
    AdjustmentsStayEditing(e, f, Adjustments(up, down));
  }

  /** While Editing, Enter commits the value the same pass's Up/Down adjustments produced. */
  lemma CommitAfterAdjust(e: Engine, f: AppFlags, up: ButtonState, down: ButtonState)
    requires Valid(e) && e.state == Editing
    ensures var adjusted := Apply(e, f, Dispatch(Editing, Idle, up, down));
      adjusted.0.state == Editing && Apply(e, f, Dispatch(Editing, Pressed, up, down)) == (Commit(adjusted.0), f)
  {
    var adjustments := Adjustments(up, down);
    assert Dispatch(Editing, Idle, up, down) == adjustments;
    AdjustmentsStayEditing(e, f, adjustments);
    assert Dispatch(Editing, Pressed, up, down) == adjustments + [Select];
    ApplyAppend(e, f, adjustments, [Select]);
    var adjusted := Apply(e, f, adjustments);
    ApplySingle(adjusted.0, adjusted.1, Select);
    SelectCommits(adjusted.0, adjusted.1);
  }

  lemma ApplySingle(e: Engine, f: AppFlags, c: Command)
    requires Valid(e)
    ensures Apply(e, f, [c]) == Step(e, f, c)
  {
    assert [c][..0] == [];
  }

  /** Select while Editing commits and fires nothing. */
  lemma SelectCommits(e: Engine, f: AppFlags)
    requires Valid(e) && e.state == Editing
    ensures Step(e, f, Select) == (Commit(e), f)
  {
    assert SelectItem(e) == (Commit(e), None);
  }

  // ------------------------------------------------------------ the machine

  /** Every layer name shows uncut on line 1 and is not empty. */
  predicate NamesShown(layers: seq<MenuLayer>)
  {
    forall l :: 0 <= l < |layers| ==> 1 <= |layers[l].name| <= LINE_WIDTH
  }

  lemma ConfigNamesShown()
    ensures NamesShown(MENU_LAYERS)
  {
  }

  /** The screen does not depend on the store. */
  lemma DisplayIgnoresStore(e: Engine, prefs: SettingsStore.Store)
    requires Valid(e)
    ensures Display(e.(prefs := prefs)) == Display(e)
  {
  }

  /** `linkMenus` run on a fresh copy of the compiled tables. */
  method LinkedTree() returns (layers: seq<MenuLayer>)
    ensures layers == MENU_LAYERS && TreeOk(layers) && NamesShown(layers)
  {
    var table := new MenuLayer[|UNLINKED_LAYERS|](i requires 0 <= i < |UNLINKED_LAYERS| => UNLINKED_LAYERS[i]);
    assert table[..] == UNLINKED_LAYERS;
    LinkMenus(table);
    ConfigTreeOk();
    ConfigNamesShown();
    layers := table[..];
  }

  class Machine {
    const buttons: ButtonController
    const menu: MenuController
    const display: DisplayController
    var systemRunning: bool
    var testMode: bool
    var systemStatus: string

    function State(): AppFlags
      reads this
    {
      AppFlags(systemRunning, testMode, systemStatus)
    }

    /** The display's cached content is the menu's screen, and the panel shows it. */
    ghost predicate Synced()
      requires menu.Valid()
      reads menu, menu.navigationStack, display
    {
      var s := Display(menu.Model());
      && display.initialized
      && display.currentLine1 == s.line1 && display.currentLine2 == s.line2.GetOr("")
      && display.currentEditMode == s.editing
      && display.Shows()
    }

    ghost predicate Valid()
      reads this, buttons, menu, menu.navigationStack, display
    {
      buttons.Valid() && menu.Valid() && NamesShown(menu.layers) && Synced()
    }

    /** The global objects as constructed, before `setup()` runs, and the flags' initial values. */
    constructor(liveInts: SettingsStore.Ints, liveBools: SettingsStore.Bools, store: SettingsStore.Store,
                healthInterval: nat, maxFailures: nat)
      ensures buttons.Valid() && !buttons.buttonsInitialized
      ensures menu.Shape() && menu.Model() == Engine([], 0, 0, Browsing, [], None, 0, false, liveInts, liveBools, store)
      ensures !display.initialized && display.currentLine1 == ""
      ensures !systemRunning && !testMode && systemStatus == "Idle"
    {
      buttons := new ButtonController();
      menu := new MenuController(liveInts, liveBools, store);
      display := new DisplayController(healthInterval, maxFailures);
      systemRunning := false;
      testMode := false;
      systemStatus := "Idle";
    }

    /**
     * `setup()`: the panel is initialised, the buttons get their pins, the
     * tree is linked and handed to the menu, and the first screen is
     * displayed. `storeOpened` is whether the store could be opened.
     */
    method Setup(storeOpened: bool)
      requires buttons.Valid() && menu.Shape() && display.currentLine1 == ""
      modifies menu, display, buttons, buttons.enterButton, buttons.upButton, buttons.downButton
      ensures Valid()
      ensures menu.Model() == InitMenu(old(menu.Model()), MENU_LAYERS, storeOpened)
      ensures buttons.buttonsInitialized && buttons.enterButton.pin == BTN_ENTER
      ensures buttons.upButton.pin == BTN_UP && buttons.downButton.pin == BTN_DOWN
    {
      display.Init();
      buttons.Init(BTN_ENTER, BTN_UP, BTN_DOWN);
      var layers := LinkedTree();
      menu.Init(layers, storeOpened);
      ShowFirstScreen();
    }

    /** The first screen: the cache is still empty, so the menu's screen is drawn. */
    method ShowFirstScreen()
      requires menu.Valid() && NamesShown(menu.layers)
      requires display.initialized && display.currentLine1 == ""
      modifies display
      ensures Synced()
    {
      var line1, line2, editing := menu.GetCurrentDisplay();
      display.DisplayText(line1, line2, editing);
    }

    /**
     * The display callback: the menu's screen handed to `displayText`. The
     * menu invokes it after every operation that moves it; an operation
     * that changes nothing leaves the screen equal to the cache, and then
     * `displayText` draws nothing, so refreshing after every call is the
     * same.
     */
    method Refresh()
      requires menu.Valid() && display.initialized && display.Shows()
      modifies display
      ensures Synced()
      ensures display.lastBlinkTime == old(display.lastBlinkTime) && display.cursorVisible == old(display.cursorVisible)
    {
      var line1, line2, editing := menu.GetCurrentDisplay();
      display.DisplayText(line1, line2, editing);
    }

    /** The action callbacks, with their status messages and the menu resets they call. */
    method RunAction(a: ActionId)
      requires Valid()
      modifies this, menu, menu.navigationStack, display
      ensures Valid()
      ensures (menu.Model(), State()) == Perform(a, old(menu.Model()), old(State()))
    {
      match a
      case StartAutoRun => StartAutoRunCallback();
      case StopAutoRun => StopAutoRunCallback();
      case EnterTestMode => EnterTestModeCallback();
      case ExitTestMode => ExitTestModeCallback();
      case SaveSettings => SaveSettingsCallback();
      case ResetToDefaults => Status("Reset Defaults");
    }

    method StartAutoRunCallback()
      requires Valid()
      modifies this, display
      ensures Valid()
      ensures (menu.Model(), State()) == Perform(StartAutoRun, old(menu.Model()), old(State()))
    {
      systemRunning := true;
      systemStatus := "Running";
      Status("Starting Auto Run");
    }

    method StopAutoRunCallback()
      requires Valid()
      modifies this, menu, menu.navigationStack, display
      ensures Valid()
      ensures (menu.Model(), State()) == Perform(StopAutoRun, old(menu.Model()), old(State()))
    {
      systemRunning := false;
      systemStatus := "Stopped";
      Status("Stopped");
      ReturnToRoot();
    }

    method EnterTestModeCallback()
      requires Valid()
      modifies this, display
      ensures Valid()
      ensures (menu.Model(), State()) == Perform(EnterTestMode, old(menu.Model()), old(State()))
    {
      testMode := true;
      Status("Test Mode");
    }

    method ExitTestModeCallback()
      requires Valid()
      modifies this, menu, menu.navigationStack, display
      ensures Valid()
      ensures (menu.Model(), State()) == Perform(ExitTestMode, old(menu.Model()), old(State()))
    {
      testMode := false;
      ReturnToRoot();
      Status("Test Exit");
    }

    method SaveSettingsCallback()
      requires Valid()
      modifies menu, display
      ensures Valid()
      ensures (menu.Model(), State()) == Perform(SaveSettings, old(menu.Model()), old(State()))
    {
      ghost var before := menu.Model();
      menu.SaveAllSettings();
      DisplayIgnoresStore(before, menu.prefs);
      Status("Settings Saved!");
    }

    /** A status message, after which the menu's screen is back on the panel (line 1 is never empty). */
    method Status(message: string)
      requires Valid()
      modifies display
      ensures Valid()
    {
      display.ShowStatus(message);
    }

    /** `resetMenu()` and the display callback it triggers. */
    method ReturnToRoot()
      requires Valid()
      modifies menu, menu.navigationStack, display
      ensures Valid() && menu.Model() == Reset(old(menu.Model()))
    {
      menu.Reset();
      Refresh();
    }

    /** One menu call followed by the display callback. */
    method Execute(c: Command)
      requires Valid()
      modifies this, menu, menu.navigationStack, display
      ensures Valid()
      ensures (menu.Model(), State()) == Step(old(menu.Model()), old(State()), c)
    {
      match c
      case NavUp =>
        menu.NavigateUp();
        Refresh();
      case NavDown =>
        menu.NavigateDown();
        Refresh();
      case Increment(fast) =>
        menu.IncrementValue(fast);
        Refresh();
      case Decrement(fast) =>
        menu.DecrementValue(fast);
        Refresh();
      case Select =>
        ExecuteSelect();
    }

    /** `selectItem()`, the action callback it fires, and the display callback. */
    method ExecuteSelect()
      requires Valid()
      modifies this, menu, menu.navigationStack, display
      ensures Valid()
      ensures (menu.Model(), State()) == Step(old(menu.Model()), old(State()), Select)
    {
      var action := menu.SelectItem();
      if action.Some? {
        RunAction(action.value);
      }
      Refresh();
    }

    /**
     * `loop()`: sample Enter, Up and Down once each, make the calls the
     * events ask for in the menu's current mode, then let the display blink.
     */
    method Loop(enterReading: bool, upReading: bool, downReading: bool, now: Millis)
      requires Valid()
      modifies this, menu, menu.navigationStack, display
      modifies buttons.enterButton, buttons.upButton, buttons.downButton
      ensures Valid()
      ensures var enter := Poll(old(buttons.enterButton.Model()), enterReading, now);
        var up := Poll(old(buttons.upButton.Model()), upReading, now);
        var down := Poll(old(buttons.downButton.Model()), downReading, now);
        && buttons.enterButton.Model() == enter.0
        && buttons.upButton.Model() == up.0
        && buttons.downButton.Model() == down.0
        && (menu.Model(), State()) == Apply(old(menu.Model()), old(State()), Dispatch(old(menu.currentState), enter.1, up.1, down.1))
    {
      var enterState, upState, downState := Sample(enterReading, upReading, downReading, now);
      HandleEvents(enterState, upState, downState);
      Blink(now);
    }

    /** `displayController.update()`: only the cursor blinks, the screen stays in sync. */
    method Blink(now: Millis)
      requires Valid()
      modifies display
      ensures Valid()
    {
      display.Update(now);
    }

    /** The three getters, Enter first. */
    method Sample(enterReading: bool, upReading: bool, downReading: bool, now: Millis)
      returns (enter: ButtonState, up: ButtonState, down: ButtonState)
      requires buttons.Valid()
      modifies buttons.enterButton, buttons.upButton, buttons.downButton
      ensures (buttons.enterButton.Model(), enter) == Poll(old(buttons.enterButton.Model()), enterReading, now)
      ensures (buttons.upButton.Model(), up) == Poll(old(buttons.upButton.Model()), upReading, now)
      ensures (buttons.downButton.Model(), down) == Poll(old(buttons.downButton.Model()), downReading, now)
    {
      enter := buttons.GetEnterState(enterReading, now);
      up := buttons.GetUpState(upReading, now);
      down := buttons.GetDownState(downReading, now);
    }

    /** The calls one pass makes for its events, chosen by the menu's mode. */
    method HandleEvents(enter: ButtonState, up: ButtonState, down: ButtonState)
      requires Valid()
      modifies this, menu, menu.navigationStack, display
      ensures Valid()
      ensures (menu.Model(), State()) == Apply(old(menu.Model()), old(State()), Dispatch(old(menu.currentState), enter, up, down))
    {
      if menu.currentState == Browsing {
        HandleBrowsing(enter, up, down);
      } else {
        HandleEditing(enter, up, down);
      }
    }

    /** The Browsing branch of `loop()`. */
    method HandleBrowsing(enter: ButtonState, up: ButtonState, down: ButtonState)
      requires Valid() && menu.currentState == Browsing
      modifies this, menu, menu.navigationStack, display
      ensures Valid()
      ensures (menu.Model(), State()) == Apply(old(menu.Model()), old(State()), BrowsingCalls(enter, up, down))
    {
      ghost var e0, f0 := menu.Model(), State();
      HandleWhen(up == Pressed, NavUp);
      ghost var e1, f1 := menu.Model(), State();
      HandleWhen(down == Pressed, NavDown);
      ApplyAppend(e0, f0, When(up == Pressed, NavUp), When(down == Pressed, NavDown));
      ghost var e2, f2 := menu.Model(), State();
      HandleWhen(enter == Pressed, Select);
      ApplyAppend(e0, f0, When(up == Pressed, NavUp) + When(down == Pressed, NavDown), When(enter == Pressed, Select));
    }

    /** The Editing branch of `loop()`: the adjustments, then Enter's commit. */
    method HandleEditing(enter: ButtonState, up: ButtonState, down: ButtonState)
      requires Valid() && menu.currentState == Editing
      modifies this, menu, menu.navigationStack, display
      ensures Valid()
      ensures (menu.Model(), State()) == Apply(old(menu.Model()), old(State()), Adjustments(up, down) + When(enter == Pressed, Select))
    {
      ghost var e0, f0 := menu.Model(), State();
      HandleAdjustments(up, down);
      if enter == Pressed {
        ExecuteNext(e0, f0, Adjustments(up, down), Select);
      } else {
        assert When(enter == Pressed, Select) == [];
        assert Adjustments(up, down) + [] == Adjustments(up, down);
      }
    }

    /** Up's adjustment, then Down's. */
    method HandleAdjustments(up: ButtonState, down: ButtonState)
      requires Valid()
      modifies this, menu, menu.navigationStack, display
      ensures Valid()
      ensures (menu.Model(), State()) == Apply(old(menu.Model()), old(State()), Adjustments(up, down))
    {
      ghost var e0, f0 := menu.Model(), State();
      HandleButton(up, true);
      ghost var e1, f1 := menu.Model(), State();
      HandleButton(down, false);
      ApplyAppend(e0, f0, ButtonAdjustment(up, true), ButtonAdjustment(down, false));
    }

    /** The two tests `loop()` makes of one button while Editing. */
    method HandleButton(b: ButtonState, increment: bool)
      requires Valid()
      modifies this, menu, menu.navigationStack, display
      ensures Valid()
      ensures (menu.Model(), State()) == Apply(old(menu.Model()), old(State()), ButtonAdjustment(b, increment))
    {
      ghost var e0, f0 := menu.Model(), State();
      HandleWhen(b == Pressed || b == RepeatSlow, StepCommand(increment, false));
      HandleWhen(b == RepeatFast, StepCommand(increment, true));
      ApplyAppend(e0, f0, When(b == Pressed || b == RepeatSlow, StepCommand(increment, false)), When(b == RepeatFast, StepCommand(increment, true)));
    }

    /** One `if` of `loop()`: the call is made when its event came. */
    method HandleWhen(cond: bool, c: Command)
      requires Valid()
      modifies this, menu, menu.navigationStack, display
      ensures Valid()
      ensures (menu.Model(), State()) == Apply(old(menu.Model()), old(State()), When(cond, c))
    {
      if cond {
        ExecuteNext(menu.Model(), State(), [], c);
        assert [] + [c] == [c];
      }
    }

    /** `Execute`, stated as one more call appended to those already made this pass. */
    method ExecuteNext(ghost e0: Engine, ghost f0: AppFlags, ghost done: seq<Command>, c: Command)
      requires Valid() && MenuEngine.Valid(e0) && (menu.Model(), State()) == Apply(e0, f0, done)
      modifies this, menu, menu.navigationStack, display
      ensures Valid() && (menu.Model(), State()) == Apply(e0, f0, done + [c])
    {
      Execute(c);
      assert (done + [c])[..|done|] == done;
    }
  }
}
