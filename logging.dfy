/**
 * The serial logger: the level gate in front of every message, the level
 * names, the `[hh:mm:ss.mmm] ` timestamp and the hexadecimal and binary
 * renderings of `printHex`/`printBinary`. The serial port is modelled as
 * the sequence of completed lines the logger has written.
 */
module Logging {
  import opened Wrappers
  import opened Timing
  import opened Text

  // ------------------------------------------------------------ levels

  /** `LogLevel` values; the enum is an `int`, so any value can reach `getLevelString`. */
  const LOG_NONE: int := 0
  const LOG_ERROR: int := 1
  const LOG_WARNING: int := 2
  const LOG_INFO: int := 3
  const LOG_DEBUG: int := 4
  const LOG_VERBOSE: int := 5

  /** `getLevelString`: the six levels by name, anything else "UNKNOWN". */
  function LevelString(level: int): (r: string)
    ensures (LOG_NONE <= level <= LOG_VERBOSE) <==> r != "UNKNOWN"
  {
    match level
    case 0 => "NONE"
    case 1 => "ERROR"
    case 2 => "WARNING"
    case 3 => "INFO"
    case 4 => "DEBUG"
    case 5 => "VERBOSE"
    case _ => "UNKNOWN"
  }

  /** Distinct levels have distinct names. */
  lemma LevelStringInjective(a: int, b: int)
    requires LOG_NONE <= a <= LOG_VERBOSE && LOG_NONE <= b <= LOG_VERBOSE
    requires LevelString(a) == LevelString(b)
    ensures a == b
  {
  }

  /** The gate in front of every message: a message of `level` is written iff the current level is at least `level`. */
  predicate Emits(current: int, level: int)
  {
    current >= level
  }

  /** Raising the current level never hides a message, and `LOG_NONE` hides every real level. */
  lemma EmitsMonotone(current: int, higher: int, level: int)
    requires current <= higher
    ensures Emits(current, level) ==> Emits(higher, level)
    ensures LOG_ERROR <= level ==> !Emits(LOG_NONE, level)
  {
  }

  // ------------------------------------------------------------ timestamp

  /** The `%02lu:%02lu:%02lu.%03lu` parts of a `millis()` value. */
  datatype Clock = Clock(hours: nat, minutes: nat, seconds: nat, millis: nat)

  function SplitMillis(t: Millis): (c: Clock)
    ensures c.minutes < 60 && c.seconds < 60 && c.millis < 1000
    ensures c.hours * 3600000 + c.minutes * 60000 + c.seconds * 1000 + c.millis == t
  {
    var seconds := t / 1000;
    var minutes := seconds / 60;
    Clock(minutes / 60, minutes % 60, seconds % 60, t % 1000)
  }

  /** The largest hour count a 32-bit `millis()` reaches. */
  lemma HoursBound(t: Millis)
    ensures SplitMillis(t).hours <= 1193
  {
  }

  function TimestampText(t: Millis): string
  {
    var c := SplitMillis(t);
    "[" + ZeroPadded(c.hours, 2) + ":" + ZeroPadded(c.minutes, 2) + ":" + ZeroPadded(c.seconds, 2)
      + "." + ZeroPadded(c.millis, 3) + "] "
  }

  /** The timestamp is 13 chars around the hour field, which has at least two digits. */
  lemma TimestampLength(t: Millis)
    ensures var h := ZeroPadded(SplitMillis(t).hours, 2);
      2 <= |h| && |TimestampText(t)| == 13 + |h|
  {
    var c := SplitMillis(t);
    NatToStringLength(c.minutes, 2);
    NatToStringLength(c.seconds, 2);
    NatToStringLength(c.millis, 3);
  }

  /** The bytes `sprintf` needs for the timestamp: the text and its terminating NUL. */
  predicate FitsBuffer(t: Millis, size: nat)
  {
    |TimestampText(t)| + 1 <= size
  }

  /** The buffer `printTimestamp` declares. */
  const WRITTEN_BUFFER_SIZE: nat := 16

  /** The 16-byte buffer holds the timestamp exactly while the hours fit in two digits. */
  lemma WrittenBufferFitsIff(t: Millis)
    ensures FitsBuffer(t, WRITTEN_BUFFER_SIZE) <==> SplitMillis(t).hours <= 99
  {
    var h := SplitMillis(t).hours;
    TimestampLength(t);
    NatToStringLength(h, 2);
  }

  /** After 100 hours of uptime `sprintf` writes 17 bytes into the 16-byte buffer. */
  lemma WrittenBufferOverflows()
    ensures SplitMillis(360000000).hours == 100
    ensures |TimestampText(360000000)| + 1 == 17
    ensures !FitsBuffer(360000000, WRITTEN_BUFFER_SIZE)
  {
    WrittenBufferFitsIff(360000000);
    TimestampLength(360000000);
    NatToStringLength(100, 2);
    NatToStringLength(100, 3);
  }

  /** A buffer that holds the timestamp for every 32-bit `millis()` value. */
  const TIMESTAMP_BUFFER_SIZE: nat := 18

  lemma WidenedBufferFits(t: Millis)
    ensures FitsBuffer(t, TIMESTAMP_BUFFER_SIZE)
  {
    HoursBound(t);
    TimestampLength(t);
    NatToStringLength(SplitMillis(t).hours, 4);
  }

  /** `sprintf` of the timestamp into a buffer of `TIMESTAMP_BUFFER_SIZE` bytes: the text, then a NUL. */
  method FormatTimestamp(buffer: array<char>, t: Millis)
    requires buffer.Length == TIMESTAMP_BUFFER_SIZE
    modifies buffer
    ensures var text := TimestampText(t);
      |text| < buffer.Length && buffer[..|text|] == text && buffer[|text|] == '\0'
  {
    WidenedBufferFits(t);
    CopyTerminated(buffer, TimestampText(t));
  }

  /** Copy a text into a buffer and terminate it with a NUL, as `sprintf` does. */
  method CopyTerminated(buffer: array<char>, text: string)
    requires |text| < buffer.Length
    modifies buffer
    ensures buffer[..|text|] == text && buffer[|text|] == '\0'
    ensures buffer[|text| + 1..] == old(buffer[|text| + 1..])
  {
    var i := 0;
    while i < |text|
      invariant i <= |text|
      invariant buffer[..i] == text[..i]
      invariant buffer[|text|..] == old(buffer[|text|..])
    {
      buffer[i] := text[i];
      i := i + 1;
    }
    buffer[|text|] := '\0';
    assert text[..|text|] == text;
  }

  // ------------------------------------------------------------ numbers in other bases

  /** `print(value, HEX)` / `print(value, BIN)`: digits of `n` in `base`, upper-case, no leading zeros. */
  function BaseDigit(d: nat): (c: char)
    requires d < 16
  {
    "0123456789ABCDEF"[d]
  }

  function BaseDigitValue(c: char): nat
  {
    if '0' <= c <= '9' then (c - '0') as nat
    else if 'A' <= c <= 'F' then (c - 'A') as nat + 10
    else 0
  }

  lemma BaseDigitRoundTrip(d: nat)
    requires d < 16
    ensures BaseDigitValue(BaseDigit(d)) == d
  {
    if d < 10 {
      assert BaseDigit(d) == '0' + d as char;
    } else {
      assert BaseDigit(d) == 'A' + (d - 10) as char;
    }
  }

  function BaseDigits(n: nat, base: nat): (s: string)
    requires 2 <= base <= 16
    ensures 1 <= |s|
    decreases n
  {
    if n < base then [BaseDigit(n)] else BaseDigits(n / base, base) + [BaseDigit(n % base)]
  }

  function BaseValue(s: string, base: nat): nat
    decreases |s|
  {
    if s == [] then 0 else BaseValue(s[..|s| - 1], base) * base + BaseDigitValue(s[|s| - 1])
  }

  /** Reading the digits back in the same base gives the number again. */
  lemma {:induction false} BaseRoundTrip(n: nat, base: nat)
    requires 2 <= base <= 16
    ensures BaseValue(BaseDigits(n, base), base) == n
    decreases n
  {
    if n < base {
      var c := BaseDigit(n);
      assert BaseDigits(n, base) == [c];
      BaseDigitRoundTrip(n);
      assert [c][..0] == [];
    } else {
      var q, r := n / base, n % base;
      DivMod(n, base);
      var p, c := BaseDigits(q, base), BaseDigit(r);
      assert BaseDigits(n, base) == p + [c];
      BaseDigitRoundTrip(r);
      BaseRoundTrip(q, base);
      BaseValueSnoc(p, c, base);
    }
  }

  lemma DivMod(n: nat, base: nat)
    requires 2 <= base
    ensures (n / base) * base + n % base == n
    ensures 0 < n ==> n / base < n
  {
  }

  lemma BaseValueSnoc(p: string, c: char, base: nat)
    ensures BaseValue(p + [c], base) == BaseValue(p, base) * base + BaseDigitValue(c)
  {
    assert (p + [c])[..|p|] == p;
  }

  // ------------------------------------------------------------ the controller

  /** A rendered log line: optional timestamp, `[LEVEL] [tag] `, the message and an optional `: value`. */
  function LogLine(timestamped: bool, now: Millis, level: int, tag: string, message: string, value: Option<string>): string
  {
    (if timestamped then TimestampText(now) else "") + Entry(level, tag, message, value)
  }

  /** `printPrefix` without the timestamp, then the message and its value. */
  function Entry(level: int, tag: string, message: string, value: Option<string>): string
  {
    "[" + LevelString(level) + "] [" + tag + "] " + message
      + (match value case Some(v) => ": " + v case None => "")
  }

  /** The timestamp is the only difference `timestampEnabled` makes: it is put in front of the untimed line. */
  lemma TimestampOnlyWhenEnabled(now: Millis, level: int, tag: string, message: string, value: Option<string>)
    ensures LogLine(true, now, level, tag, message, value) == TimestampText(now) + LogLine(false, now, level, tag, message, value)
    ensures LogLine(false, now, level, tag, message, value)[0] == '['
  {
    var entry := Entry(level, tag, message, value);
    assert "" + entry == entry;
    assert entry == "[" + (LevelString(level) + "] [" + tag + "] " + message
      + (match value case Some(v) => ": " + v case None => ""));
  }

  const SEPARATOR: string := "====================================="

  class LogController {
    var currentLevel: int
    var timestampEnabled: bool
    var initialized: bool
    /** The completed lines written to the serial port. */
    var lines: seq<string>

    constructor()
      ensures currentLevel == LOG_INFO && timestampEnabled && !initialized && lines == []
    {
      currentLevel := LOG_INFO;
      timestampEnabled := true;
      initialized := false;
      lines := [];
    }

    /** `init` without a `LOG_LEVEL` build flag: store the settings and print the banner. */
    method Init(level: int, enableTimestamp: bool)
      modifies this
      ensures currentLevel == level && timestampEnabled == enableTimestamp && initialized
      ensures lines == old(lines) + ["", SEPARATOR, "LogController Initialized", "Log Level: " + LevelString(level), SEPARATOR, ""]
    {
      currentLevel := level;
      timestampEnabled := enableTimestamp;
      initialized := true;
      lines := lines + ["", SEPARATOR, "LogController Initialized", "Log Level: " + LevelString(level), SEPARATOR, ""];
    }

    /** The shared body of `error`, `warning`, `info`, `debug` and `verbose`: one line when the gate lets `level` through. */
    method Log(level: int, tag: string, message: string, value: Option<string>, now: Millis)
      modifies this
      ensures Emits(currentLevel, level) ==> lines == old(lines) + [LogLine(timestampEnabled, now, level, tag, message, value)]
      ensures !Emits(currentLevel, level) ==> lines == old(lines)
      ensures currentLevel == old(currentLevel) && timestampEnabled == old(timestampEnabled) && initialized == old(initialized)
    {
      if currentLevel >= level {
        lines := lines + [LogLine(timestampEnabled, now, level, tag, message, value)];
      }
    }

    /** `setLevel`: the level changes first, so the confirmation passes the new level's gate at INFO. */
    method SetLevel(level: int, now: Millis)
      modifies this
      ensures currentLevel == level && timestampEnabled == old(timestampEnabled) && initialized == old(initialized)
      ensures level >= LOG_INFO ==> lines == old(lines) + [LogLine(timestampEnabled, now, LOG_INFO, "LogController", "Log level changed to", Some(LevelString(level)))]
      ensures level < LOG_INFO ==> lines == old(lines)
    {
      currentLevel := level;
      Log(LOG_INFO, "LogController", "Log level changed to", Some(LevelString(level)), now);
    }

    method EnableTimestamp(enable: bool)
      modifies this
      ensures timestampEnabled == enable
      ensures currentLevel == old(currentLevel) && initialized == old(initialized) && lines == old(lines)
    {
      timestampEnabled := enable;
    }

    method Separator()
      modifies this
      ensures lines == old(lines) + [SEPARATOR]
      ensures currentLevel == old(currentLevel) && timestampEnabled == old(timestampEnabled) && initialized == old(initialized)
    {
      lines := lines + [SEPARATOR];
    }

    /** `printHex`: gated at DEBUG, the value after "0x" in upper-case hexadecimal. */
    method PrintHex(tag: string, message: string, value: nat, now: Millis)
      requires value < 0x1_0000
      modifies this
      ensures Emits(currentLevel, LOG_DEBUG) ==> lines == old(lines) + [LogLine(timestampEnabled, now, LOG_DEBUG, tag, message + ": 0x" + BaseDigits(value, 16), None)]
      ensures !Emits(currentLevel, LOG_DEBUG) ==> lines == old(lines)
      ensures currentLevel == old(currentLevel) && timestampEnabled == old(timestampEnabled) && initialized == old(initialized)
    {
      Log(LOG_DEBUG, tag, message + ": 0x" + BaseDigits(value, 16), None, now);
    }

    /** `printBinary`: gated at DEBUG, the value after "0b" in binary. */
    method PrintBinary(tag: string, message: string, value: nat, now: Millis)
      requires value < 0x1_0000
      modifies this
      ensures Emits(currentLevel, LOG_DEBUG) ==> lines == old(lines) + [LogLine(timestampEnabled, now, LOG_DEBUG, tag, message + ": 0b" + BaseDigits(value, 2), None)]
      ensures !Emits(currentLevel, LOG_DEBUG) ==> lines == old(lines)
      ensures currentLevel == old(currentLevel) && timestampEnabled == old(timestampEnabled) && initialized == old(initialized)
    {
      Log(LOG_DEBUG, tag, message + ": 0b" + BaseDigits(value, 2), None, now);
    }
  }

  /** How the overloads render their `value` argument: `int` and `unsigned long` in decimal, `bool` as a word. */
  function IntArg(v: int): (r: Option<string>)
    ensures r.Some? && 1 <= |r.value| && (v < 0 <==> r.value[0] == '-')
  {
    Some(IntToString(v))
  }

  function BoolArg(v: bool): (r: Option<string>)
    ensures r == Some("true") || r == Some("false")
    ensures r == Some("true") <==> v
  {
    Some(if v then "true" else "false")
  }
}
