/**
 * The button debouncer and its three-button aggregator.
 *
 * A button is active LOW: `true` is HIGH (released, pulled up) and `false`
 * is LOW (pressed). Every poll hands in the pin reading and the clock; the
 * hardware read and `millis()` are parameters here.
 */
module Buttons {
  import opened Timing

  datatype ButtonState = Idle | Pressed | Released | LongPress | RepeatFast | RepeatSlow

  const HIGH: bool := true
  const LOW: bool := false

  const LONG_PRESS_TIME: nat := 1000
  const FAST_REPEAT_TIME: nat := 100
  const SLOW_REPEAT_TIME: nat := 500
  const FAST_SCROLL_THRESHOLD: nat := 3000

  /** The fields one `update()` reads and writes. */
  datatype Debouncer = Debouncer(
    lastState: bool,
    currentState: bool,
    pressStartTime: Millis,
    lastRepeatTime: Millis,
    isPressed: bool,
    longPressDetected: bool)

  /** The state a button has after construction and after `init`. */
  const Released0: Debouncer := Debouncer(HIGH, HIGH, 0, 0, false, false)

  /**
   * One `update()`: the new fields and the event. A reading counts only when
   * it equals the previous poll's reading.
   */
  function Poll(b: Debouncer, reading: bool, now: Millis): (r: (Debouncer, ButtonState))
    // an unstable reading is only recorded
    ensures reading != b.lastState ==> r == (b.(lastState := reading), Idle)
    // PRESSED: a second consecutive LOW while not pressed; the press starts now
    ensures r.1 == Pressed <==> reading == b.lastState == LOW && !b.isPressed
    ensures r.1 == Pressed ==>
      r.0 == b.(isPressed := true, pressStartTime := now, lastRepeatTime := now,
                 longPressDetected := false, currentState := LOW)
    // RELEASED: a stable HIGH while pressed
    ensures r.1 == Released <==> reading == b.lastState == HIGH && b.isPressed
    ensures r.1 == Released ==>
      r.0 == b.(isPressed := false, currentState := HIGH, longPressDetected := false)
    // LONG_PRESS: once per press, after 1000 ms held; it leaves lastRepeatTime alone
    ensures r.1 == LongPress <==>
      reading == b.lastState == LOW && b.isPressed && !b.longPressDetected
      && Elapsed(now, b.pressStartTime) >= LONG_PRESS_TIME
    ensures r.1 == LongPress ==> r.0 == b.(longPressDetected := true)
    // REPEAT_FAST: after the long press, held 3000 ms and 100 ms since the last repeat
    ensures r.1 == RepeatFast <==>
      reading == b.lastState == LOW && b.isPressed && b.longPressDetected
      && Elapsed(now, b.pressStartTime) >= FAST_SCROLL_THRESHOLD
      && Elapsed(now, b.lastRepeatTime) >= FAST_REPEAT_TIME
    // REPEAT_SLOW: after the long press, held under 3000 ms, 500 ms since the last repeat
    ensures r.1 == RepeatSlow <==>
      reading == b.lastState == LOW && b.isPressed && b.longPressDetected
      && Elapsed(now, b.pressStartTime) < FAST_SCROLL_THRESHOLD
      && Elapsed(now, b.lastRepeatTime) >= SLOW_REPEAT_TIME
    ensures r.1 == RepeatFast || r.1 == RepeatSlow ==> r.0 == b.(lastRepeatTime := now)
    // a stable reading that yields IDLE changes nothing
    ensures reading == b.lastState && r.1 == Idle ==> r.0 == b
  {
    if reading != b.lastState then
      (b.(lastState := reading), Idle)
    else if reading == LOW && !b.isPressed then
      (b.(isPressed := true, pressStartTime := now, lastRepeatTime := now,
          longPressDetected := false, currentState := LOW), Pressed)
    else if reading == HIGH && b.isPressed then
      (b.(isPressed := false, currentState := HIGH, longPressDetected := false), Released)
    else if reading == LOW && b.isPressed then
      var pressDuration := Elapsed(now, b.pressStartTime);
      var repeatDuration := Elapsed(now, b.lastRepeatTime);
      if !b.longPressDetected && pressDuration >= LONG_PRESS_TIME then
        (b.(longPressDetected := true), LongPress)
      else if pressDuration >= FAST_SCROLL_THRESHOLD then
        if repeatDuration >= FAST_REPEAT_TIME then (b.(lastRepeatTime := now), RepeatFast)
        else (b, Idle)
      else if b.longPressDetected && repeatDuration >= SLOW_REPEAT_TIME then
        (b.(lastRepeatTime := now), RepeatSlow)
      else (b, Idle)
    else
      (b, Idle)
  }

  /** A stable HIGH on a released button is IDLE and changes nothing. */
  lemma IdleWhenReleased(b: Debouncer, now: Millis)
    requires b.lastState == HIGH && !b.isPressed
    ensures Poll(b, HIGH, now) == (b, Idle)
  {
  }

  /** One poll per element of `polls`, in order: the final fields and the events produced. */
  function Run(b: Debouncer, polls: seq<(bool, Millis)>): (r: (Debouncer, seq<ButtonState>))
    ensures |r.1| == |polls|
    decreases |polls|
  {
    if polls == [] then (b, [])
    else
      var (b1, ev) := Poll(b, polls[0].0, polls[0].1);
      var (bn, evs) := Run(b1, polls[1..]);
      (bn, [ev] + evs)
  }

  /**
   * PRESSED and RELEASED alternate: `expectPress` says which of the two may
   * come next; every other event leaves the expectation as it is.
   */
  predicate Alternating(events: seq<ButtonState>, expectPress: bool)
    decreases |events|
  {
    events == [] ||
    match events[0]
    case Pressed => expectPress && Alternating(events[1..], false)
    case Released => !expectPress && Alternating(events[1..], true)
    case _ => Alternating(events[1..], expectPress)
  }

  /**
   * Within one press (between PRESSED/RELEASED events) LONG_PRESS comes at
   * most once, and no repeat comes before it. `fired` says whether the
   * long press of the current press has already been reported.
   */
  predicate PressDiscipline(events: seq<ButtonState>, fired: bool)
    decreases |events|
  {
    events == [] ||
    match events[0]
    case Pressed => PressDiscipline(events[1..], false)
    case Released => PressDiscipline(events[1..], false)
    case LongPress => !fired && PressDiscipline(events[1..], true)
    case RepeatFast => fired && PressDiscipline(events[1..], fired)
    case RepeatSlow => fired && PressDiscipline(events[1..], fired)
    case Idle => PressDiscipline(events[1..], fired)
  }

  /**
   * For every poll sequence: PRESSED cannot recur until RELEASED has been
   * returned (and vice versa), and the final `isPressed` says which of the
   * two came last.
   */
  lemma {:induction false} PressReleaseAlternate(b: Debouncer, polls: seq<(bool, Millis)>)
    ensures Alternating(Run(b, polls).1, !b.isPressed)
    ensures Run(b, polls).0.isPressed == (b.isPressed != (Count(Run(b, polls).1) % 2 == 1))
    decreases |polls|
  {
    if polls != [] {
      var (b1, ev) := Poll(b, polls[0].0, polls[0].1);
      PressReleaseAlternate(b1, polls[1..]);
      var evs := Run(b1, polls[1..]).1;
      assert Run(b, polls).1 == [ev] + evs;
      assert ([ev] + evs)[1..] == evs;
    }
  }

  /** The number of PRESSED and RELEASED events in `events`. */
  function Count(events: seq<ButtonState>): nat
    decreases |events|
  {
    if events == [] then 0
    else (if events[0] == Pressed || events[0] == Released then 1 else 0) + Count(events[1..])
  }

  /** For every poll sequence: at most one LONG_PRESS per press, and repeats only after it. */
  lemma {:induction false} LongPressOncePerPress(b: Debouncer, polls: seq<(bool, Millis)>)
    ensures PressDiscipline(Run(b, polls).1, b.longPressDetected)
    decreases |polls|
  {
    if polls != [] {
      var (b1, ev) := Poll(b, polls[0].0, polls[0].1);
      LongPressOncePerPress(b1, polls[1..]);
      var evs := Run(b1, polls[1..]).1;
      assert Run(b, polls).1 == [ev] + evs;
      assert ([ev] + evs)[1..] == evs;
    }
  }

  /** One physical button. */
  class Button {
    var pin: nat
    var lastState: bool
    var currentState: bool
    var pressStartTime: Millis
    var lastRepeatTime: Millis
    var isPressed: bool
    var longPressDetected: bool

    function Model(): Debouncer
      reads this
    {
      Debouncer(lastState, currentState, pressStartTime, lastRepeatTime, isPressed, longPressDetected)
    }

    constructor ()
      ensures pin == 0 && Model() == Released0
    {
      pin := 0;
      lastState, currentState := HIGH, HIGH;
      pressStartTime, lastRepeatTime := 0, 0;
      isPressed, longPressDetected := false, false;
    }

    /** `init`: bind the pin and start released. */
    method Init(buttonPin: nat)
      modifies this
      ensures pin == buttonPin && Model() == Released0
    {
      pin := buttonPin;
      lastState, currentState := HIGH, HIGH;
      pressStartTime, lastRepeatTime := 0, 0;
      isPressed, longPressDetected := false, false;
    }

    /** `update()`, with the pin reading and the clock passed in. */
    method Update(reading: bool, now: Millis) returns (ev: ButtonState)
      modifies this
      ensures (Model(), ev) == Poll(old(Model()), reading, now)
      ensures pin == old(pin)
    {
      if reading != lastState {
        lastState := reading;
        return Idle;
      }
      if reading == LOW && !isPressed {
        isPressed := true;
        pressStartTime := now;
        lastRepeatTime := now;
        longPressDetected := false;
        currentState := LOW;
        return Pressed;
      }
      if reading == HIGH && isPressed {
        isPressed := false;
        currentState := HIGH;
        longPressDetected := false;
        return Released;
      }
      if reading == LOW && isPressed {
        var pressDuration := Elapsed(now, pressStartTime);
        var repeatDuration := Elapsed(now, lastRepeatTime);
        if !longPressDetected && pressDuration >= LONG_PRESS_TIME {
          longPressDetected := true;
          return LongPress;
        }
        if pressDuration >= FAST_SCROLL_THRESHOLD {
          if repeatDuration >= FAST_REPEAT_TIME {
            lastRepeatTime := now;
            return RepeatFast;
          }
        } else if longPressDetected && repeatDuration >= SLOW_REPEAT_TIME {
          lastRepeatTime := now;
          return RepeatSlow;
        }
      }
      return Idle;
    }

    method IsButtonPressed() returns (pressed: bool)
      ensures pressed == isPressed
    {
      pressed := isPressed;
    }

    /** `reset`: forget the press but keep the last reading. */
    method Reset()
      modifies this
      ensures Model() == old(Model()).(isPressed := false, longPressDetected := false,
                                       pressStartTime := 0, lastRepeatTime := 0)
      ensures pin == old(pin)
    {
      isPressed := false;
      longPressDetected := false;
      pressStartTime := 0;
      lastRepeatTime := 0;
    }
  }

  /** The Enter, Up and Down buttons. */
  class ButtonController {
    const enterButton: Button
    const upButton: Button
    const downButton: Button
    var enterPin: nat
    var upPin: nat
    var downPin: nat
    var buttonsInitialized: bool

    ghost predicate Valid()
      reads this
    {
      enterButton != upButton && upButton != downButton && enterButton != downButton
    }

    constructor ()
      ensures Valid() && !buttonsInitialized
      ensures fresh(enterButton) && fresh(upButton) && fresh(downButton)
      ensures enterButton.Model() == upButton.Model() == downButton.Model() == Released0
    {
      enterButton := new Button();
      upButton := new Button();
      downButton := new Button();
      enterPin, upPin, downPin := 0, 0, 0;
      buttonsInitialized := false;
    }

    method Init(enterPinNum: nat, upPinNum: nat, downPinNum: nat)
      requires Valid()
      modifies this, enterButton, upButton, downButton
      ensures Valid() && buttonsInitialized
      ensures enterButton.pin == enterPinNum && upButton.pin == upPinNum && downButton.pin == downPinNum
      ensures enterButton.Model() == upButton.Model() == downButton.Model() == Released0
    {
      enterPin, upPin, downPin := enterPinNum, upPinNum, downPinNum;
      enterButton.Init(enterPin);
      upButton.Init(upPin);
      downButton.Init(downPin);
      buttonsInitialized := true;
    }

    /** `update()`: poll all three when initialised, discarding the events. */
    method Update(enterReading: bool, upReading: bool, downReading: bool, now: Millis)
      requires Valid()
      modifies enterButton, upButton, downButton
      ensures buttonsInitialized ==>
        && enterButton.Model() == Poll(old(enterButton.Model()), enterReading, now).0
        && upButton.Model() == Poll(old(upButton.Model()), upReading, now).0
        && downButton.Model() == Poll(old(downButton.Model()), downReading, now).0
      ensures !buttonsInitialized ==> unchanged(enterButton, upButton, downButton)
      ensures enterButton.pin == old(enterButton.pin) && upButton.pin == old(upButton.pin) && downButton.pin == old(downButton.pin)
    {
      if !buttonsInitialized {
        return;
      }
      var _ := enterButton.Update(enterReading, now);
      var _ := upButton.Update(upReading, now);
      var _ := downButton.Update(downReading, now);
    }

    /** Each getter advances exactly its own button by one poll. */
    method GetEnterState(reading: bool, now: Millis) returns (ev: ButtonState)
      requires Valid()
      modifies enterButton
      ensures (enterButton.Model(), ev) == Poll(old(enterButton.Model()), reading, now)
      ensures enterButton.pin == old(enterButton.pin)
      ensures unchanged(upButton, downButton)
    {
      ev := enterButton.Update(reading, now);
    }

    method GetUpState(reading: bool, now: Millis) returns (ev: ButtonState)
      requires Valid()
      modifies upButton
      ensures (upButton.Model(), ev) == Poll(old(upButton.Model()), reading, now)
      ensures upButton.pin == old(upButton.pin)
      ensures unchanged(enterButton, downButton)
    {
      ev := upButton.Update(reading, now);
    }

    method GetDownState(reading: bool, now: Millis) returns (ev: ButtonState)
      requires Valid()
      modifies downButton
      ensures (downButton.Model(), ev) == Poll(old(downButton.Model()), reading, now)
      ensures downButton.pin == old(downButton.pin)
      ensures unchanged(enterButton, upButton)
    {
      ev := downButton.Update(reading, now);
    }

    method IsEnterPressed() returns (pressed: bool)
      ensures pressed == enterButton.isPressed
    {
      pressed := enterButton.IsButtonPressed();
    }

    method IsUpPressed() returns (pressed: bool)
      ensures pressed == upButton.isPressed
    {
      pressed := upButton.IsButtonPressed();
    }

    method IsDownPressed() returns (pressed: bool)
      ensures pressed == downButton.isPressed
    {
      pressed := downButton.IsButtonPressed();
    }

    method ResetAll()
      requires Valid()
      modifies enterButton, upButton, downButton
      ensures enterButton.Model() == old(enterButton.Model()).(isPressed := false, longPressDetected := false, pressStartTime := 0, lastRepeatTime := 0)
      ensures upButton.Model() == old(upButton.Model()).(isPressed := false, longPressDetected := false, pressStartTime := 0, lastRepeatTime := 0)
      ensures downButton.Model() == old(downButton.Model()).(isPressed := false, longPressDetected := false, pressStartTime := 0, lastRepeatTime := 0)
    {
      enterButton.Reset();
      upButton.Reset();
      downButton.Reset();
    }
  }
}
