/**
 * The display controller: the two visible rows of the 20-column panel, the
 * cached content that decides whether `displayText` redraws, the blinking
 * edit cursor and the I2C failure counter of the health check; and
 * `centerText`, which fills a character buffer in place.
 */
module DisplayControl {
  import opened Wrappers
  import opened Timing
  import opened Text

  /** The panel is driven as 20 columns; every row is printed as `%-20s`. */
  const COLUMNS: nat := 20
  const BLINK_INTERVAL: nat := 500

  // ------------------------------------------------------------ centerText

  /**
   * What `centerText` leaves in `buffer[0..width)`. The length is kept in a
   * `uint8_t`, so it is taken modulo 256; a text that fits is copied at
   * offset `(width - len) / 2` over spaces, a longer one is cut to `width`.
   */
  function Centered(text: string, width: nat): (r: string)
    ensures |r| == width
    ensures var len := |text| % 256; var pad := (width - len) / 2;
      len <= width ==> forall k :: 0 <= k < width ==> r[k] == (if pad <= k < pad + len then text[k - pad] else ' ')
    ensures |text| % 256 > width ==> r == text[..width]
  {
    var len := |text| % 256;
    if len <= width then
      var pad := (width - len) / 2;
      Spaces(pad) + text[..len] + Spaces(width - len - pad)
    else text[..width]
  }

  /** A text shorter than 256 chars that fits is centred: the spaces after it number those before, or one more. */
  lemma CenteredBalanced(text: string, width: nat)
    requires |text| < 256 && |text| <= width
    ensures Centered(text, width) == Spaces((width - |text|) / 2) + text + Spaces(width - |text| - (width - |text|) / 2)
    ensures var pad := (width - |text|) / 2; width - |text| - pad == pad || width - |text| - pad == pad + 1
  {
    var len := |text|;
    assert len % 256 == len;
    assert text[..len] == text;
    var pad := (width - len) / 2;
    assert Centered(text, width) == Spaces(pad) + text[..len] + Spaces(width - len - pad);
  }

  /** `centerText`: spaces over `buffer[0..width)`, a NUL at `width`, then the text copied in. */
  method CenterText(buffer: array<char>, text: string, width: nat)
    requires width < 256 && width < buffer.Length
    modifies buffer
    ensures buffer[..width] == Centered(text, width)
    ensures buffer[width] == '\0'
    ensures buffer[width + 1..] == old(buffer[width + 1..])
  {
    var textLen := |text| % 256;
    var padding := if width > textLen then (width - textLen) / 2 else 0;
    var i := 0;
    while i < width
      invariant i <= width
      invariant forall k :: 0 <= k < i ==> buffer[k] == ' '
      invariant buffer[width..] == old(buffer[width..])
    {
      buffer[i] := ' ';
      i := i + 1;
    }
    buffer[width] := '\0';
    var count := if textLen <= width then textLen else width;
    var offset := if textLen <= width then padding else 0;
    var j := 0;
    while j < count
      invariant j <= count && offset + count <= width
      invariant forall k :: 0 <= k < width ==>
        buffer[k] == (if offset <= k < offset + j then text[k - offset] else ' ')
      invariant buffer[width] == '\0'
      invariant buffer[width + 1..] == old(buffer[width + 1..])
    {
      buffer[offset + j] := text[j];
      j := j + 1;
    }
    assert forall k :: 0 <= k < width ==> buffer[..width][k] == Centered(text, width)[k];
  }

  // ------------------------------------------------------------ the controller

  class DisplayController {
    /** `init` has run (and so the panel object exists). */
    var initialized: bool
    /** The cached content: what the last redraw put on the panel. */
    var currentLine1: string
    var currentLine2: string
    var currentEditMode: bool
    var lastBlinkTime: Millis
    var cursorVisible: bool
    var lastHealthCheck: Millis
    var consecutiveFailures: nat
    /** The two visible rows of the panel, as printed. */
    var row0: string
    var row1: string
    /** Whether the panel shows its cursor. */
    var cursorShown: bool
    /** Number of full redraws so far. */
    ghost var redraws: nat
    /** The health-check period and failure threshold, which the controller takes as parameters. */
    const healthCheckInterval: nat
    const maxFailuresBeforeReset: nat

    /** The panel shows the cached content. */
    ghost predicate Shows()
      reads this
    {
      row0 == PadRight(currentLine1, COLUMNS) && row1 == PadRight(currentLine2, COLUMNS)
    }

    constructor(healthInterval: nat, maxFailures: nat)
      ensures !initialized && currentLine1 == "" && currentLine2 == "" && !currentEditMode
      ensures lastBlinkTime == 0 && cursorVisible && lastHealthCheck == 0 && consecutiveFailures == 0
      ensures healthCheckInterval == healthInterval && maxFailuresBeforeReset == maxFailures
      ensures row0 == Spaces(COLUMNS) && row1 == Spaces(COLUMNS) && !cursorShown && redraws == 0
    {
      initialized := false;
      currentLine1 := "";
      currentLine2 := "";
      currentEditMode := false;
      lastBlinkTime := 0;
      cursorVisible := true;
      lastHealthCheck := 0;
      consecutiveFailures := 0;
      row0 := Spaces(COLUMNS);
      row1 := Spaces(COLUMNS);
      cursorShown := false;
      redraws := 0;
      healthCheckInterval := healthInterval;
      maxFailuresBeforeReset := maxFailures;
    }

    /** `init`: the panel is cleared and shows "Initializing..."; the cache is untouched. */
    method Init()
      modifies this
      ensures initialized
      ensures row0 == PadRight("Initializing...", COLUMNS) && row1 == Spaces(COLUMNS) && !cursorShown
      ensures currentLine1 == old(currentLine1) && currentLine2 == old(currentLine2)
      ensures currentEditMode == old(currentEditMode) && redraws == old(redraws)
      ensures lastBlinkTime == old(lastBlinkTime) && cursorVisible == old(cursorVisible)
      ensures lastHealthCheck == old(lastHealthCheck) && consecutiveFailures == old(consecutiveFailures)
    {
      row0 := PadRight("Initializing...", COLUMNS);
      row1 := Spaces(COLUMNS);
      cursorShown := false;
      initialized := true;
    }

    /**
     * `displayText`: a null second line counts as "". The panel is redrawn,
     * and the cache updated, only when some part differs from the cache.
     */
    method DisplayText(line1: string, line2: Option<string>, editing: bool)
      modifies this
      ensures var l2 := line2.GetOr("");
        var changed := old(initialized) && (line1 != old(currentLine1) || l2 != old(currentLine2) || editing != old(currentEditMode));
        && (changed ==> currentLine1 == line1 && currentLine2 == l2 && currentEditMode == editing
                        && Shows() && cursorShown == editing && redraws == old(redraws) + 1)
        && (!changed ==> (currentLine1 == old(currentLine1) && currentLine2 == old(currentLine2)
                          && currentEditMode == old(currentEditMode)
                          && row0 == old(row0) && row1 == old(row1) && cursorShown == old(cursorShown)
                          && redraws == old(redraws)))
      ensures initialized == old(initialized) && lastBlinkTime == old(lastBlinkTime) && cursorVisible == old(cursorVisible)
      ensures lastHealthCheck == old(lastHealthCheck) && consecutiveFailures == old(consecutiveFailures)
    {
      if !initialized {
        return;
      }
      var l1 := line1;
      var l2 := line2.GetOr("");
      if l1 != currentLine1 || l2 != currentLine2 || editing != currentEditMode {
        currentLine1 := l1;
        currentLine2 := l2;
        currentEditMode := editing;
        row0 := PadRight(currentLine1, COLUMNS);
        row1 := Spaces(COLUMNS);
        if |currentLine2| > 0 {
          row1 := PadRight(currentLine2, COLUMNS);
        } else {
          PadEmpty(COLUMNS);
        }
        cursorShown := editing;
        redraws := redraws + 1;
      }
    }

    /** `clear`: a blank panel and an empty cache. */
    method Clear()
      modifies this
      ensures old(initialized) ==> currentLine1 == "" && currentLine2 == "" && !currentEditMode && Shows() && !cursorShown
      ensures !old(initialized) ==> (currentLine1 == old(currentLine1) && currentLine2 == old(currentLine2)
        && currentEditMode == old(currentEditMode) && row0 == old(row0) && row1 == old(row1) && cursorShown == old(cursorShown))
      ensures initialized == old(initialized) && redraws == old(redraws)
      ensures lastBlinkTime == old(lastBlinkTime) && cursorVisible == old(cursorVisible)
      ensures lastHealthCheck == old(lastHealthCheck) && consecutiveFailures == old(consecutiveFailures)
    {
      if !initialized {
        return;
      }
      row0 := Spaces(COLUMNS);
      row1 := Spaces(COLUMNS);
      cursorShown := false;
      currentLine1 := "";
      currentLine2 := "";
      currentEditMode := false;
    }

    /** `update`: in edit mode, flip the cursor once `BLINK_INTERVAL` ms have passed since the last flip. */
    method Update(now: Millis)
      modifies this
      ensures var blink := old(initialized) && old(currentEditMode) && Elapsed(now, old(lastBlinkTime)) >= BLINK_INTERVAL;
        && (blink ==> lastBlinkTime == now && cursorVisible == !old(cursorVisible) && cursorShown == cursorVisible)
        && (!blink ==> lastBlinkTime == old(lastBlinkTime) && cursorVisible == old(cursorVisible) && cursorShown == old(cursorShown))
      ensures initialized == old(initialized) && currentLine1 == old(currentLine1) && currentLine2 == old(currentLine2)
      ensures currentEditMode == old(currentEditMode) && row0 == old(row0) && row1 == old(row1) && redraws == old(redraws)
      ensures lastHealthCheck == old(lastHealthCheck) && consecutiveFailures == old(consecutiveFailures)
    {
      if !initialized || !currentEditMode {
        return;
      }
      if Elapsed(now, lastBlinkTime) >= BLINK_INTERVAL {
        lastBlinkTime := now;
        cursorVisible := !cursorVisible;
        cursorShown := cursorVisible;
      }
    }

    /**
     * `showStatus`: "Status:" and the message on a cleared panel, then the
     * saved content redisplayed after blanking the cached lines; the delay
     * is not modelled. Saved content with a non-empty line is redrawn.
     */
    method ShowStatus(message: string)
      modifies this
      ensures old(initialized) && (old(currentLine1) != "" || old(currentLine2) != "") ==>
        Shows() && cursorShown == old(currentEditMode)
      ensures old(initialized) && old(currentLine1) == "" && old(currentLine2) == "" ==>
        row0 == PadRight("Status:", COLUMNS) && row1 == PadRight(message, COLUMNS)
      ensures old(initialized) ==> currentLine1 == old(currentLine1) && currentLine2 == old(currentLine2)
      ensures currentEditMode == old(currentEditMode)
      ensures !old(initialized) ==> (row0 == old(row0) && row1 == old(row1) && cursorShown == old(cursorShown)
        && currentLine1 == old(currentLine1) && currentLine2 == old(currentLine2))
      ensures initialized == old(initialized) && lastBlinkTime == old(lastBlinkTime) && cursorVisible == old(cursorVisible)
      ensures lastHealthCheck == old(lastHealthCheck) && consecutiveFailures == old(consecutiveFailures)
    {
      if !initialized {
        return;
      }
      var savedLine1, savedLine2, savedEditMode := currentLine1, currentLine2, currentEditMode;
      row0 := PadRight("Status:", COLUMNS);
      row1 := PadRight(message, COLUMNS);
      currentLine1 := "";
      currentLine2 := "";
      DisplayText(savedLine1, Some(savedLine2), savedEditMode);
    }

    /** `forceRefresh`: clear the panel, blank the cached lines and redisplay: the panel then shows the cache. */
    method ForceRefresh()
      modifies this
      ensures old(initialized) ==> Shows()
      ensures currentLine1 == old(currentLine1) && currentLine2 == old(currentLine2) && currentEditMode == old(currentEditMode)
      ensures !old(initialized) ==> row0 == old(row0) && row1 == old(row1) && cursorShown == old(cursorShown)
      ensures initialized == old(initialized) && lastBlinkTime == old(lastBlinkTime) && cursorVisible == old(cursorVisible)
      ensures lastHealthCheck == old(lastHealthCheck) && consecutiveFailures == old(consecutiveFailures)
    {
      if !initialized {
        return;
      }
      var savedLine1, savedLine2, savedEditMode := currentLine1, currentLine2, currentEditMode;
      row0 := Spaces(COLUMNS);
      row1 := Spaces(COLUMNS);
      currentLine1 := "";
      currentLine2 := "";
      DisplayText(savedLine1, Some(savedLine2), savedEditMode);
    }

    /** The periodic probe is due. */
    predicate Due(now: Millis)
      reads this
    {
      initialized && Elapsed(now, lastHealthCheck) >= healthCheckInterval
    }

    /** The probe fails often enough to rebuild the panel object. */
    predicate Reinit(now: Millis, probeOk: bool)
      reads this
    {
      Due(now) && !probeOk && consecutiveFailures + 1 >= maxFailuresBeforeReset
    }

    /**
     * `checkHealth` as written; `probeOk` is the I2C probe's answer. After a
     * rebuild the panel is blank, and the cached content is passed to
     * `displayText`, whose change test then finds nothing to redraw: a
     * panel that showed a non-blank first line stays blank.
     */
    method CheckHealth(now: Millis, probeOk: bool)
      modifies this
      ensures old(Due(now)) ==> lastHealthCheck == now
      ensures !old(Due(now)) ==> (lastHealthCheck == old(lastHealthCheck) && consecutiveFailures == old(consecutiveFailures)
        && row0 == old(row0) && row1 == old(row1))
      ensures old(Due(now)) && probeOk ==> consecutiveFailures == 0
      ensures old(Due(now)) && !probeOk && !old(Reinit(now, probeOk)) ==> consecutiveFailures == old(consecutiveFailures) + 1
      ensures old(Reinit(now, probeOk)) ==> consecutiveFailures == 0 && row0 == Spaces(COLUMNS) && row1 == Spaces(COLUMNS)
      ensures old(Reinit(now, probeOk)) && PadRight(currentLine1, COLUMNS) != Spaces(COLUMNS) ==> !Shows()
      ensures currentLine1 == old(currentLine1) && currentLine2 == old(currentLine2) && currentEditMode == old(currentEditMode)
      ensures initialized == old(initialized) && lastBlinkTime == old(lastBlinkTime) && cursorVisible == old(cursorVisible)
    {
      if !initialized {
        return;
      }
      if Elapsed(now, lastHealthCheck) < healthCheckInterval {
        return;
      }
      lastHealthCheck := now;
      if !probeOk {
        consecutiveFailures := consecutiveFailures + 1;
        if consecutiveFailures >= maxFailuresBeforeReset {
          row0 := Spaces(COLUMNS);
          row1 := Spaces(COLUMNS);
          cursorShown := false;
          if |currentLine1| > 0 {
            DisplayText(currentLine1, Some(currentLine2), currentEditMode);
          }
          consecutiveFailures := 0;
        }
      } else {
        if consecutiveFailures > 0 {
          consecutiveFailures := 0;
        }
      }
    }

    /**
     * `checkHealth` with the content restored as `forceRefresh` does it:
     * blank the cached lines before redisplaying, so the rebuilt panel
     * shows the cache again.
     */
    method CheckHealthRestoring(now: Millis, probeOk: bool)
      modifies this
      ensures old(Due(now)) ==> lastHealthCheck == now
      ensures !old(Due(now)) ==> (lastHealthCheck == old(lastHealthCheck) && consecutiveFailures == old(consecutiveFailures)
        && row0 == old(row0) && row1 == old(row1))
      ensures old(Due(now)) && probeOk ==> consecutiveFailures == 0
      ensures old(Due(now)) && !probeOk && !old(Reinit(now, probeOk)) ==> consecutiveFailures == old(consecutiveFailures) + 1
      ensures old(Reinit(now, probeOk)) ==> consecutiveFailures == 0 && Shows()
      ensures currentLine1 == old(currentLine1) && currentLine2 == old(currentLine2) && currentEditMode == old(currentEditMode)
      ensures initialized == old(initialized) && lastBlinkTime == old(lastBlinkTime) && cursorVisible == old(cursorVisible)
    {
      if !initialized {
        return;
      }
      if Elapsed(now, lastHealthCheck) < healthCheckInterval {
        return;
      }
      lastHealthCheck := now;
      if !probeOk {
        consecutiveFailures := consecutiveFailures + 1;
        if consecutiveFailures >= maxFailuresBeforeReset {
          row0 := Spaces(COLUMNS);
          row1 := Spaces(COLUMNS);
          cursorShown := false;
          var savedLine1, savedLine2, savedEditMode := currentLine1, currentLine2, currentEditMode;
          currentLine1 := "";
          currentLine2 := "";
          DisplayText(savedLine1, Some(savedLine2), savedEditMode);
          consecutiveFailures := 0;
        }
      } else {
        if consecutiveFailures > 0 {
          consecutiveFailures := 0;
        }
      }
    }
  }

  /** A first line with a visible character does not print as a blank row, so the rebuilt panel above is wrong. */
  lemma BlankRowHidesContent(line: string, k: nat)
    requires k < |line| && k < COLUMNS && line[k] != ' '
    ensures PadRight(line, COLUMNS) != Spaces(COLUMNS)
  {
    assert PadRight(line, COLUMNS)[k] == line[k];
  }
}
