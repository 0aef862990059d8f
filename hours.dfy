/** The hour drop-down of the manual converter: the 24 hours of a day, each
    with a zero-padded two-digit value ("00".."23") and a 12-hour label
    ("12 AM".."11 PM"). Built once, as a pure table. */
module Hours {

  datatype Option<T> = None | Some(value: T)

  /** One entry of the hour drop-down. */
  datatype HourOption = HourOption(value: string, caption: string)

  /** Number of entries in the table (hours of a day). */
  const HourCount: nat := 24

  predicate IsDigit(c: char) { '0' <= c <= '9' }

  predicate IsDigits(s: string) { forall i :: 0 <= i < |s| ==> IsDigit(s[i]) }

  function DigitChar(d: nat): (c: char)
    requires d < 10
    ensures IsDigit(c) && (c - '0') as nat == d
  {
    ('0' as int + d) as char
  }

  function DigitValue(c: char): nat
    requires IsDigit(c)
  {
    (c - '0') as nat
  }

  /** Base-10 text of a non-negative integer, as JavaScript's
      `Number.prototype.toString()` writes it: no sign, no leading zero. */
  function Decimal(n: nat): (s: string)
    ensures |s| >= 1 && IsDigits(s)
    ensures (|s| == 1) == (n < 10)
    ensures s[0] == '0' ==> n == 0
    decreases n
  {
    if n < 10 then [DigitChar(n)] else Decimal(n / 10) + [DigitChar(n % 10)]
  }

  /** The number a string of decimal digits denotes (leading zeros allowed).
      It is the inverse that the table's values are stated against. */
  function DigitsValue(s: string): nat
    requires IsDigits(s)
    decreases |s|
  {
    if s == [] then 0 else DigitsValue(s[..|s| - 1]) * 10 + DigitValue(s[|s| - 1])
  }

  /** `c` repeated `k` times. */
  function Repeat(c: char, k: nat): (r: string)
    ensures |r| == k && forall i :: 0 <= i < k ==> r[i] == c
  {
    if k == 0 then [] else [c] + Repeat(c, k - 1)
  }

  /** JavaScript's `String.prototype.padStart` with a one-character fill:
      a string shorter than `target` gets fill characters in front until it
      is `target` long; a longer or equal one is returned unchanged. */
  function PadStart(s: string, target: nat, fill: char): (r: string)
    ensures |r| == if |s| < target then target else |s|
    ensures r[|r| - |s|..] == s
    ensures forall i :: 0 <= i < |r| - |s| ==> r[i] == fill
  {
    if |s| < target then Repeat(fill, target - |s|) + s else s
  }

  /** "AM" for the hours before noon, "PM" from noon on. */
  function Period(hour: nat): (p: string)
    ensures p == "AM" || p == "PM"
    ensures p == "AM" <==> hour < 12
  {
    if hour < 12 then "AM" else "PM"
  }

  /** The hour on a 12-hour dial: midnight reads 12, afternoon hours drop 12. */
  function DisplayHour(hour: nat): (d: nat)
    requires hour < HourCount
    ensures 1 <= d <= 12
    ensures d % 12 == hour % 12
  {
    if hour == 0 then 12 else if hour > 12 then hour - 12 else hour
  }

  /** The 24-hour clock hour named by a 12-hour dial reading and a period. */
  function HourFrom12(display: nat, pm: bool): nat
  {
    display % 12 + if pm then 12 else 0
  }

  /** The option value of an hour: its decimal text padded to two digits. */
  function HourValue(hour: nat): string
  {
    PadStart(Decimal(hour), 2, '0')
  }

  /** The option label of an hour, such as "12 AM" or "1 PM". */
  function HourLabel(hour: nat): string
    requires hour < HourCount
  {
    Decimal(DisplayHour(hour)) + " " + Period(hour)
  }

  /** The table entry built from hour `hour`. */
  function HourOf(hour: nat): HourOption
    requires hour < HourCount
  {
    HourOption(HourValue(hour), HourLabel(hour))
  }

  /** The hour drop-down: entry i is built from hour i. */
  function HourTable(): (t: seq<HourOption>)
    ensures |t| == HourCount
    ensures forall i :: 0 <= i < HourCount ==> t[i] == HourOf(i)
  {
    seq(HourCount, i requires 0 <= i < HourCount => HourOf(i))
  }

  /** Reads a label of the form "<digits> AM" or "<digits> PM" back into a
      24-hour clock hour; anything else is None. */
  function ParseLabel(text: string): Option<nat>
  {
    if |text| < 4 || text[|text| - 3] != ' ' then None
    else
      var digits, period := text[..|text| - 3], text[|text| - 2..];
      if !IsDigits(digits) || (period != "AM" && period != "PM") then None
      else Some(HourFrom12(DigitsValue(digits), period == "PM"))
  }

  /** Decimal and DigitsValue are inverse: the text of a number reads back
      as that number. */
  lemma {:induction false} DecimalRoundTrip(n: nat)
    ensures DigitsValue(Decimal(n)) == n
    decreases n
  {
    if n >= 10 {
      var s := Decimal(n);
      assert s[..|s| - 1] == Decimal(n / 10);
      DecimalRoundTrip(n / 10);
    }
  }

  /** Leading zeros do not change the number a digit string denotes. */
  lemma {:induction false} LeadingZeros(k: nat, s: string)
    requires IsDigits(s)
    ensures IsDigits(Repeat('0', k) + s)
    ensures DigitsValue(Repeat('0', k) + s) == DigitsValue(s)
    decreases |s|
  {
    var z := Repeat('0', k);
    assert IsDigits(z + s) by {
      forall i | 0 <= i < |z + s| ensures IsDigit((z + s)[i]) {
        if i < k { assert (z + s)[i] == z[i]; } else { assert (z + s)[i] == s[i - k]; }
      }
    }
    if s == [] {
      assert z + s == z;
      ZerosValue(k);
    } else {
      assert (z + s)[..|z + s| - 1] == z + s[..|s| - 1];
      LeadingZeros(k, s[..|s| - 1]);
    }
  }

  /** A run of zeros denotes zero. */
  lemma {:induction false} ZerosValue(k: nat)
    ensures IsDigits(Repeat('0', k)) && DigitsValue(Repeat('0', k)) == 0
    decreases k
  {
    if k > 0 {
      var z := Repeat('0', k);
      assert z[..k - 1] == Repeat('0', k - 1);
      ZerosValue(k - 1);
    }
  }

  /** Every option value is two decimal digits, "00".."23", and reads back as
      the hour it was built from. */
  lemma HourValueRoundTrip(hour: nat)
    requires hour < HourCount
    ensures |HourValue(hour)| == 2 && IsDigits(HourValue(hour))
    ensures DigitsValue(HourValue(hour)) == hour
  {
    var d := Decimal(hour);
    DecimalRoundTrip(hour);
    if |d| < 2 {
      LeadingZeros(2 - |d|, d);
    }
  }

  /** The 12-hour reading (display hour and period) of an hour gives back the
      hour, so no two hours share a reading. */
  lemma TwelveHourRoundTrip(hour: nat)
    requires hour < HourCount
    ensures HourFrom12(DisplayHour(hour), Period(hour) == "PM") == hour
  {
  }

  /** Every option label reads back as the hour it was built from. */
  lemma LabelRoundTrip(hour: nat)
    requires hour < HourCount
    ensures ParseLabel(HourLabel(hour)) == Some(hour)
  {
    var text := HourLabel(hour);
    var digits := Decimal(DisplayHour(hour));
    assert text[..|text| - 3] == digits;
    assert text[|text| - 3] == ' ';
    assert text[|text| - 2..] == Period(hour);
    DecimalRoundTrip(DisplayHour(hour));
    TwelveHourRoundTrip(hour);
  }

  /** The table as a whole: 24 entries, every value two digits that read back
      as the entry's index, every label reads back as that index, so no two
      values and no two labels are equal. */
  lemma {:induction false} HourTableDistinct()
    ensures |HourTable()| == HourCount
    ensures forall i :: 0 <= i < HourCount ==>
      |HourTable()[i].value| == 2 && IsDigits(HourTable()[i].value) &&
      DigitsValue(HourTable()[i].value) == i &&
      ParseLabel(HourTable()[i].caption) == Some(i)
    ensures forall i, j :: 0 <= i < HourCount && 0 <= j < HourCount && i != j ==>
      HourTable()[i].value != HourTable()[j].value &&
      HourTable()[i].caption != HourTable()[j].caption
  {
    var t := HourTable();
    forall i | 0 <= i < HourCount
      ensures |t[i].value| == 2 && IsDigits(t[i].value) &&
        DigitsValue(t[i].value) == i && ParseLabel(t[i].caption) == Some(i)
    {
      HourValueRoundTrip(i);
      LabelRoundTrip(i);
    }
  }
}
