/**
 * `formatTime`, shared by the session header and the summary: whole seconds
 * as minutes, a colon and the seconds padded to two digits with '0'.
 *
 * Its partner is `ParseTime`, a reader of that "m:ss" form; the two are
 * inverse to each other.
 */
module TimeFormat {
  import opened Wrappers

  predicate IsDigit(c: char)
  {
    '0' <= c <= '9'
  }

  predicate AllDigits(s: string)
  {
    forall i :: 0 <= i < |s| ==> IsDigit(s[i])
  }

  /** A decimal numeral as `Number.prototype.toString` writes a whole number:
      non-empty, and no leading zero unless it is "0". */
  predicate Canonical(s: string)
  {
    |s| >= 1 && AllDigits(s) && (|s| > 1 ==> s[0] != '0')
  }

  function Digit(d: nat): (c: char)
    requires d < 10
    ensures IsDigit(c) && DigitValue(c) == d
  {
    ('0' as int + d) as char
  }

  function DigitValue(c: char): (d: nat)
    requires IsDigit(c)
    ensures d < 10
  {
    c as int - '0' as int
  }

  /** Every digit character is the digit of its value. */
  lemma DigitOfValue(c: char)
    requires IsDigit(c)
    ensures Digit(DigitValue(c)) == c
  {
  }

  /** `n.toString()` for a whole number. */
  function DecimalString(n: nat): (s: string)
    ensures Canonical(s)
    ensures n < 10 <==> |s| == 1
    ensures n < 100 ==> |s| <= 2
  {
    if n < 10 then [Digit(n)] else DecimalString(n / 10) + [Digit(n % 10)]
  }

  /** The number a digit string denotes. */
  function ValueOf(s: string): nat
    requires AllDigits(s)
  {
    if s == [] then 0 else ValueOf(s[..|s| - 1]) * 10 + DigitValue(s[|s| - 1])
  }

  lemma {:induction false} ValueOfDecimalString(n: nat)
    ensures ValueOf(DecimalString(n)) == n
  {
    var s := DecimalString(n);
    if n >= 10 {
      ValueOfDecimalString(n / 10);
      assert s[..|s| - 1] == DecimalString(n / 10);
    }
  }

  lemma {:induction false} LeadingDigitPositive(s: string)
    requires Canonical(s) && s[0] != '0'
    ensures ValueOf(s) >= 1
    ensures |s| > 1 ==> ValueOf(s) >= 10
    decreases |s|
  {
    if |s| > 1 {
      var t := s[..|s| - 1];
      assert t[0] == s[0];
      if |t| > 1 {
        LeadingDigitPositive(t);
      } else {
        assert ValueOf(t) == DigitValue(t[0]);
      }
    }
  }

  lemma {:induction false} DecimalStringOfValue(s: string)
    requires Canonical(s)
    ensures DecimalString(ValueOf(s)) == s
    decreases |s|
  {
    if |s| > 1 {
      var t := s[..|s| - 1];
      assert t[0] == s[0];
      LeadingDigitPositive(s);
      DecimalStringOfValue(t);
      assert s == t + [s[|s| - 1]];
    } else {
      assert ValueOf(s) == DigitValue(s[0]);
    }
  }

  /** `s.padStart(width, fill)` for a one-character filler: `fill` repeated
      in front of `s` up to length `width`; `s` itself when it is as long. */
  function PadStart(s: string, width: nat, fill: char): (r: string)
  {
    if |s| >= width then s else seq(width - |s|, _ => fill) + s
  }

  /** The padded string is `width` long or the original length, whichever is
      larger, ends with the original and is `fill` before it. */
  lemma PadStartShape(s: string, width: nat, fill: char)
    ensures var r := PadStart(s, width, fill);
      |r| == (if |s| >= width then |s| else width) && r[|r| - |s|..] == s &&
      forall i :: 0 <= i < |r| - |s| ==> r[i] == fill
  {
  }

  /** The seconds field: the remainder's numeral padded to two digits. */
  function Field(secs: nat): string
  {
    PadStart(DecimalString(secs), 2, '0')
  }

  /** The "minutes:field" template literal. */
  function Join(mins: string, field: string): string
  {
    mins + ":" + field
  }

  /** `formatTime(seconds)`. */
  function FormatTime(seconds: nat): string
  {
    Join(DecimalString(seconds / 60), Field(seconds % 60))
  }

  /** Reads the "m:ss" form: a canonical minutes numeral, a colon, and two
      digits below 60. */
  function ParseTime(s: string): Option<nat>
  {
    if |s| < 4 || s[|s| - 3] != ':' then None
    else ParseFields(s[..|s| - 3], s[|s| - 2..])
  }

  /** The checks the reader makes on the two fields once it has split them. */
  function ParseFields(mins: string, field: string): Option<nat>
    requires |field| == 2
  {
    if Canonical(mins) && IsDigit(field[0]) && IsDigit(field[1]) && TwoDigitValue(field) < 60 then
      Some(ValueOf(mins) * 60 + TwoDigitValue(field))
    else
      None
  }

  function TwoDigitValue(field: string): nat
    requires |field| == 2 && IsDigit(field[0]) && IsDigit(field[1])
  {
    DigitValue(field[0]) * 10 + DigitValue(field[1])
  }

  /** Splitting a joined string gives back its two fields. */
  lemma SplitJoin(mins: string, field: string)
    requires |mins| >= 1 && |field| == 2
    ensures ParseTime(Join(mins, field)) == ParseFields(mins, field)
  {
    var r := Join(mins, field);
    assert r[..|r| - 3] == mins;
    assert r[|r| - 2..] == field;
  }

  /** An accepted string is the join of its two fields. */
  lemma JoinSplit(s: string)
    requires ParseTime(s).Some?
    ensures s == Join(s[..|s| - 3], s[|s| - 2..])
    ensures ParseTime(s) == ParseFields(s[..|s| - 3], s[|s| - 2..])
  {
  }

  /** The seconds field of a remainder below 60 is its tens digit followed
      by its units digit, a leading '0' included. */
  lemma FieldDigits(secs: nat)
    requires secs < 60
    ensures Field(secs) == [Digit(secs / 10), Digit(secs % 10)]
  {
    if secs < 10 {
      assert DecimalString(secs) == [Digit(secs)];
      assert seq(1, _ => '0') == [Digit(0)];
    } else {
      assert DecimalString(secs / 10) == [Digit(secs / 10)];
    }
  }

  /** The seconds field of any remainder below 60 is two digits reading as
      the remainder. */
  lemma TwoDigitSeconds(secs: nat)
    requires secs < 60
    ensures var f := Field(secs);
      |f| == 2 && IsDigit(f[0]) && IsDigit(f[1]) && TwoDigitValue(f) == secs
  {
    FieldDigits(secs);
  }

  /** Reading back a formatted time gives the seconds it was made from: the
      minutes times 60 plus the seconds field recombine to the input. */
  lemma FormatTimeRoundTrip(seconds: nat)
    ensures ParseTime(FormatTime(seconds)) == Some(seconds)
  {
    var mins, secs := seconds / 60, seconds % 60;
    TwoDigitSeconds(secs);
    ValueOfDecimalString(mins);
    SplitJoin(DecimalString(mins), Field(secs));
  }

  /** A two-digit field below 60 is the padded numeral of its value. */
  lemma TwoDigitField(field: string)
    requires |field| == 2 && IsDigit(field[0]) && IsDigit(field[1]) && TwoDigitValue(field) < 60
    ensures Field(TwoDigitValue(field)) == field
  {
    var v := TwoDigitValue(field);
    FieldDigits(v);
    assert v / 10 == DigitValue(field[0]) && v % 10 == DigitValue(field[1]);
    DigitOfValue(field[0]);
    DigitOfValue(field[1]);
  }

  /** Formatting minutes times 60 plus seconds below 60 joins their fields. */
  lemma FormatMinutesSeconds(mins: nat, secs: nat, m: string, field: string)
    requires secs < 60 && DecimalString(mins) == m && Field(secs) == field
    ensures FormatTime(mins * 60 + secs) == Join(m, field)
  {
    assert (mins * 60 + secs) / 60 == mins && (mins * 60 + secs) % 60 == secs;
  }

  /** The minutes and seconds an accepted string denotes, and their fields. */
  lemma ReadFields(s: string) returns (mins: nat, secs: nat)
    requires ParseTime(s).Some?
    ensures ParseTime(s) == Some(mins * 60 + secs) && secs < 60
    ensures DecimalString(mins) == s[..|s| - 3] && Field(secs) == s[|s| - 2..]
  {
    var m, field := s[..|s| - 3], s[|s| - 2..];
    JoinSplit(s);
    mins, secs := ValueOf(m), TwoDigitValue(field);
    DecimalStringOfValue(m);
    TwoDigitField(field);
  }

  /** Every string the reader accepts is the formatting of what it reads. */
  lemma ParseTimeFormats(s: string)
    requires ParseTime(s).Some?
    ensures FormatTime(ParseTime(s).value) == s
  {
    var mins, secs := ReadFields(s);
    JoinSplit(s);
    FormatMinutesSeconds(mins, secs, s[..|s| - 3], s[|s| - 2..]);
  }
}
