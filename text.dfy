/**
 * The text formatting the firmware gets from `printf`-style calls:
 * `%d`/`%lu` decimal conversion, `%02lu`/`%03lu` zero padding, `%-20s`
 * left justification and the truncation `snprintf` applies to a fixed-size
 * buffer.
 */
module Text {

  function DigitChar(d: nat): (c: char)
    requires d < 10
    ensures '0' <= c <= '9'
  {
    "0123456789"[d]
  }

  function DigitValue(c: char): nat
  {
    if '0' <= c <= '9' then (c - '0') as nat else 0
  }

  predicate IsDigits(s: string)
  {
    forall k :: 0 <= k < |s| ==> '0' <= s[k] <= '9'
  }

  /** `%lu`: the decimal digits of `n`, most significant first, without leading zeros. */
  function NatToString(n: nat): (s: string)
    ensures 1 <= |s| && IsDigits(s)
    ensures s[0] == '0' ==> n == 0
    decreases n
  {
    if n < 10 then [DigitChar(n)] else NatToString(n / 10) + [DigitChar(n % 10)]
  }

  /** `%d`: a minus sign for negative numbers, then the digits of the magnitude. */
  function IntToString(n: int): (s: string)
    ensures 1 <= |s|
    ensures n < 0 <==> s[0] == '-'
  {
    if n < 0 then "-" + NatToString(-n) else NatToString(n)
  }

  /** The number a string of decimal digits denotes (the reading direction of `NatToString`). */
  function DecimalValue(s: string): nat
    decreases |s|
  {
    if s == [] then 0 else DecimalValue(s[..|s| - 1]) * 10 + DigitValue(s[|s| - 1])
  }

  /** Reading back what `NatToString` wrote gives the number again. */
  lemma {:induction false} DecimalRoundTrip(n: nat)
    ensures DecimalValue(NatToString(n)) == n
    decreases n
  {
    var s := NatToString(n);
    if n < 10 {
      DigitRoundTrip(n);
      assert s[..0] == [];
    } else {
      var q, r := n / 10, n % 10;
      var p := NatToString(q);
      assert s == p + [DigitChar(r)];
      assert s[..|s| - 1] == p;
      DigitRoundTrip(r);
      DecimalRoundTrip(q);
    }
  }

  lemma DigitRoundTrip(d: nat)
    requires d < 10
    ensures DigitValue(DigitChar(d)) == d
  {
    assert DigitChar(d) == '0' + d as char;
  }

  function Pow10(k: nat): (p: nat)
    ensures p >= 1
  {
    if k == 0 then 1 else 10 * Pow10(k - 1)
  }

  /** A number below 10^k has at most k digits, and one at or above 10^k has more than k. */
  lemma {:induction false} NatToStringLength(n: nat, k: nat)
    requires 1 <= k
    ensures n < Pow10(k) ==> |NatToString(n)| <= k
    ensures Pow10(k) <= n ==> k < |NatToString(n)|
    decreases n
  {
    if n >= 10 {
      if k == 1 {
        NatToStringLength(n / 10, 1);
      } else {
        NatToStringLength(n / 10, k - 1);
      }
    }
  }

  /** A smaller number never has more digits. */
  lemma DigitsMonotone(v: nat, w: nat)
    requires v <= w
    ensures |NatToString(v)| <= |NatToString(w)|
  {
    var k := |NatToString(w)|;
    NatToStringLength(w, k);
    NatToStringLength(v, k);
  }

  function Spaces(n: nat): (s: string)
    ensures |s| == n && forall k :: 0 <= k < n ==> s[k] == ' '
  {
    seq(n, _ => ' ')
  }

  function Zeros(n: nat): (s: string)
    ensures |s| == n && forall k :: 0 <= k < n ==> s[k] == '0'
  {
    seq(n, _ => '0')
  }

  /** What `snprintf` leaves in a buffer of `width + 1` chars: at most `width` chars of `s`. */
  function Truncate(s: string, width: nat): (r: string)
    ensures |r| <= width && r <= s
    ensures |s| <= width ==> r == s
    ensures |s| > width ==> r == s[..width]
  {
    if |s| <= width then s else s[..width]
  }

  /** `%-20s` into a 21-char buffer: `s` cut or space-padded to exactly `width` chars. */
  function PadRight(s: string, width: nat): (r: string)
    ensures |r| == width
    ensures forall k :: 0 <= k < width ==> r[k] == (if k < |s| then s[k] else ' ')
  {
    if |s| >= width then s[..width] else s + Spaces(width - |s|)
  }

  /** An empty text left-justified is a row of spaces. */
  lemma PadEmpty(width: nat)
    ensures PadRight("", width) == Spaces(width)
  {
  }

  /** `%0wlu`: the digits of `n`, with zeros in front up to `width` chars; never cut. */
  function ZeroPadded(n: nat, width: nat): (s: string)
    ensures |s| == if |NatToString(n)| < width then width else |NatToString(n)|
    ensures IsDigits(s) && DecimalValue(s) == n
  {
    var digits := NatToString(n);
    DecimalRoundTrip(n);
    if |digits| < width then
      LeadingZeros(width - |digits|, digits);
      Zeros(width - |digits|) + digits
    else digits
  }

  /** Zeros in front of a digit string do not change the number it denotes. */
  lemma {:induction false} LeadingZeros(z: nat, s: string)
    requires IsDigits(s)
    ensures IsDigits(Zeros(z) + s)
    ensures DecimalValue(Zeros(z) + s) == DecimalValue(s)
    decreases |s|
  {
    var t := Zeros(z) + s;
    if s == [] {
      assert t == Zeros(z);
      ZerosValue(z);
    } else {
      var s' := s[..|s| - 1];
      assert t[..|t| - 1] == Zeros(z) + s';
      LeadingZeros(z, s');
    }
  }

  lemma {:induction false} ZerosValue(z: nat)
    ensures DecimalValue(Zeros(z)) == 0
  {
    if z > 0 {
      assert Zeros(z)[..z - 1] == Zeros(z - 1);
      ZerosValue(z - 1);
    }
  }
}
