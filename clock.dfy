/**
 * The `m:ss` clock used for recording times and durations:
 * `${Math.floor(s / 60)}:${(s % 60).toString().padStart(2, '0')}`
 * on a whole, non-negative number of seconds.
 */
module Clock {
  import opened Wrappers
  import Text

  function DigitChar(d: nat): (c: char)
    requires d < 10
    ensures Text.IsDigit(c)
  {
    ('0' as int + d) as char
  }

  function DigitValue(c: char): (d: nat)
    requires Text.IsDigit(c)
    ensures d < 10
  {
    c as int - '0' as int
  }

  predicate AllDigits(s: string) {
    forall i :: 0 <= i < |s| ==> Text.IsDigit(s[i])
  }

  /** A non-empty numeral whose first digit is 0 only when it is the single digit `0`. */
  predicate NoLeadingZero(s: string) {
    s != [] && (s[0] != '0' || |s| == 1)
  }

  /** `n.toString()`: decimal digits, most significant first, no leading zero. */
  function Decimal(n: nat): (r: string)
    ensures |r| >= 1 && AllDigits(r)
    ensures n < 10 <==> |r| == 1
    ensures NoLeadingZero(r)
  {
    if n < 10 then [DigitChar(n)] else Decimal(n / 10) + [DigitChar(n % 10)]
  }

  /** The number a string of decimal digits denotes. */
  function ValueOf(s: string): nat
    requires AllDigits(s)
  {
    if s == [] then 0 else ValueOf(s[..|s| - 1]) * 10 + DigitValue(s[|s| - 1])
  }

  /** Reading a rendered number back gives the number. */
  lemma {:induction false} DecimalRoundTrip(n: nat)
    ensures ValueOf(Decimal(n)) == n
  {
    if n >= 10 {
      var r := Decimal(n);
      assert r[..|r| - 1] == Decimal(n / 10);
      DecimalRoundTrip(n / 10);
    }
  }

  /** A numeral without leading zero is the rendering of the number it denotes. */
  lemma {:induction false} DecimalOfValue(s: string)
    requires AllDigits(s) && NoLeadingZero(s)
    ensures Decimal(ValueOf(s)) == s
  {
    var last := s[|s| - 1];
    if |s| == 1 {
      assert s[..0] == [];
      assert ValueOf(s) == DigitValue(last);
    } else {
      var t := s[..|s| - 1];
      assert t[0] == s[0];
      DecimalOfValue(t);
      var v := ValueOf(s);
      assert ValueOf(t) >= 1;
      assert v == ValueOf(t) * 10 + DigitValue(last);
      assert v / 10 == ValueOf(t) && v % 10 == DigitValue(last);
      assert s == t + [last];
    }
  }

  /** `n.toString().padStart(2, '0')` for `n < 100`. */
  function PadTwo(n: nat): (r: string)
    requires n < 100
    ensures |r| == 2 && AllDigits(r)
  {
    if n < 10 then ['0'] + Decimal(n) else Decimal(n)
  }

  lemma PadTwoRoundTrip(n: nat)
    requires n < 100
    ensures ValueOf(PadTwo(n)) == n
  {
    DecimalRoundTrip(n);
    if n < 10 {
      var r := PadTwo(n);
      assert r[..1] == ['0'];
      assert ValueOf(r[..1]) == 0 by {
        assert r[..1][..0] == [];
      }
    }
  }

  /** Any two digits are the padded rendering of the number they denote. */
  lemma PadTwoOfValue(s: string)
    requires |s| == 2 && AllDigits(s)
    ensures ValueOf(s) < 100 && PadTwo(ValueOf(s)) == s
  {
    var head := s[..1];
    assert head[..0] == [] && head[0] == s[0];
    assert ValueOf(head) == DigitValue(s[0]);
    assert ValueOf(s) == ValueOf(head) * 10 + DigitValue(s[1]);
    if s[0] == '0' {
      assert s == ['0'] + [s[1]];
    } else {
      DecimalOfValue(s);
    }
  }

  /** The clock reading of `seconds`: whole minutes, a colon, two-digit seconds. */
  function Format(seconds: nat): (r: string)
  {
    Decimal(seconds / 60) + ":" + PadTwo(seconds % 60)
  }

  /** Position of the first `c` in `s`, if any. */
  function IndexOf(s: string, c: char): (r: Option<nat>)
    ensures r.Some? ==> r.value < |s| && s[r.value] == c && forall j :: 0 <= j < r.value ==> s[j] != c
    ensures r.None? ==> forall j :: 0 <= j < |s| ==> s[j] != c
  {
    if s == [] then None
    else if s[0] == c then Some(0)
    else match IndexOf(s[1..], c)
      case None => None
      case Some(k) => Some(k + 1)
  }

  /**
   * Reads a clock reading back: digits, a colon, then exactly two digits
   * naming fewer than 60 seconds.
   */
  function Parse(s: string): (r: Option<nat>)
  {
    match IndexOf(s, ':')
    case None => None
    case Some(k) =>
      var mins, secs := s[..k], s[k + 1..];
      if mins != [] && AllDigits(mins) && |secs| == 2 && AllDigits(secs) && ValueOf(secs) < 60
      then Some(ValueOf(mins) * 60 + ValueOf(secs))
      else None
  }

  /** The minutes of a clock reading, everything before its first colon, carry no leading zero. */
  predicate Canonical(s: string) {
    match IndexOf(s, ':')
    case None => false
    case Some(k) => NoLeadingZero(s[..k])
  }

  /** Every clock reading is well formed, canonical, and reads back as the seconds it shows. */
  lemma FormatRoundTrip(seconds: nat)
    ensures Parse(Format(seconds)) == Some(seconds)
    ensures Canonical(Format(seconds))
  {
    var mins, secs := Decimal(seconds / 60), PadTwo(seconds % 60);
    var r := Format(seconds);
    assert r == mins + ":" + secs;
    assert forall j :: 0 <= j < |mins| ==> r[j] == mins[j] && r[j] != ':';
    assert r[|mins|] == ':';
    assert IndexOf(r, ':') == Some(|mins|);
    assert r[..|mins|] == mins;
    assert r[|mins| + 1..] == secs;
    DecimalRoundTrip(seconds / 60);
    PadTwoRoundTrip(seconds % 60);
  }

  /** A clock reading ends with a colon and exactly two digits. */
  lemma FormatShape(seconds: nat)
    ensures var r := Format(seconds);
      |r| >= 4 && r[|r| - 3] == ':' && AllDigits(r[|r| - 2..])
  {
    var r := Format(seconds);
    assert r[|r| - 2..] == PadTwo(seconds % 60);
  }

  /**
   * A canonical reading is determined by the seconds it denotes: it is the
   * clock reading of those seconds and no other string.
   */
  lemma CanonicalUnique(s: string, n: nat)
    requires Parse(s) == Some(n) && Canonical(s)
    ensures s == Format(n)
  {
    var k := IndexOf(s, ':').value;
    var mins, secs := s[..k], s[k + 1..];
    var m, c := ValueOf(mins), ValueOf(secs);
    assert n == m * 60 + c && c < 60;
    assert n / 60 == m && n % 60 == c;
    DecimalOfValue(mins);
    PadTwoOfValue(secs);
    assert s == mins + ":" + secs;
  }
}
