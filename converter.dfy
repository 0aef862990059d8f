/** The manual converter: the user picks a source zone, a calendar date and an
    hour; the convert action turns that wall-clock time into the time in
    America/Los_Angeles and shows it. The zone conversion and formatting come
    from a time zone library and are parameters of the model. */
module Converter {
  import opened Hours

  /** A selectable source zone: its display name and its IANA identifier. */
  datatype ZoneDescriptor = ZoneDescriptor(name: string, zone: string)

  /** The zones offered in the drop-down, in display order. */
  const TimeZones: seq<ZoneDescriptor> := [
    ZoneDescriptor("China", "Asia/Shanghai"),
    ZoneDescriptor("Adelaide", "Australia/Adelaide"),
    ZoneDescriptor("Melbourne", "Australia/Melbourne"),
    ZoneDescriptor("New York", "America/New_York"),
    ZoneDescriptor("Chicago", "America/Chicago")
  ]

  /** The fixed target zone ("California"). */
  const TargetZone: string := "America/Los_Angeles"

  /** The display pattern: full weekday, abbreviated month, day, year, 12-hour
      time with AM/PM. */
  const DisplayPattern: string := "EEEE, MMM d, yyyy h:mm a"

  /** A JavaScript Date: a time value in milliseconds since the Unix epoch,
      or the Invalid Date (time value NaN) that a literal the library cannot
      read turns into. */
  datatype JsDate = ValidDate(time: int) | InvalidDate

  /** The three calls the converter makes into the time zone library, taken
      as given: wall-clock literal in a zone to a Date, a Date to a Date whose
      local fields show the wall clock of a zone, and formatting of a valid
      Date's time value with a pattern. Formatting an Invalid Date throws,
      which is why `format` is only asked about valid time values. */
  datatype ZoneLibrary = ZoneLibrary(
    zonedTimeToUtc: (string, string) -> JsDate,
    utcToZonedTime: (JsDate, string) -> JsDate,
    format: (int, string) -> string)

  /** The library always produces some text for the display pattern. */
  ghost predicate FormatsNonEmpty(lib: ZoneLibrary)
  {
    forall t: int :: lib.format(t, DisplayPattern) != ""
  }

  /** The wall-clock literal "<date>T<hour>:00:00" with minutes and seconds
      fixed to zero: the date, then 'T', then the hour, then ":00:00". */
  function WallClockLiteral(date: string, hour: string): (r: string)
    ensures |r| == |date| + |hour| + 7
    ensures r[..|date|] == date && r[|date|] == 'T'
    ensures r[|date| + 1..|date| + 1 + |hour|] == hour
    ensures r[|date| + 1 + |hour|..] == ":00:00"
  {
    date + "T" + hour + ":00:00"
  }

  /** Splits a literal whose hour field is two characters long back into its
      date and hour; None when the text does not end in "T<hh>:00:00". */
  function SplitLiteral(literal: string): Option<(string, string)>
  {
    if |literal| < 9 || literal[|literal| - 9] != 'T' || literal[|literal| - 6..] != ":00:00"
    then None
    else Some((literal[..|literal| - 9], literal[|literal| - 8..|literal| - 6]))
  }

  /** The Date the converter formats: `literal` read as wall-clock time in
      `zone`, shifted to show the wall clock of the target zone. */
  function TargetDate(lib: ZoneLibrary, literal: string, zone: string): JsDate
  {
    lib.utcToZonedTime(lib.zonedTimeToUtc(literal, zone), TargetZone)
  }

  /** The whole library pipeline: the target-zone Date formatted with the
      display pattern, or None when formatting throws because the Date is
      invalid. */
  function ConvertAndFormat(lib: ZoneLibrary, literal: string, zone: string): (r: Option<string>)
    ensures r.None? <==> TargetDate(lib, literal, zone).InvalidDate?
    ensures r.Some? ==> r.value == lib.format(TargetDate(lib, literal, zone).time, DisplayPattern)
    ensures FormatsNonEmpty(lib) && r.Some? ==> r.value != ""
  {
    match TargetDate(lib, literal, zone)
    case InvalidDate => None
    case ValidDate(t) => Some(lib.format(t, DisplayPattern))
  }

  /** The component state: selected zone, date and hour, and the converted
      result (empty while there is none). */
  datatype ConverterState = ConverterState(zone: string, date: string, hour: string, result: string)
  {
    /** The result panel is shown only for a non-empty result. */
    predicate ShowsResult() { result != "" }

    /** Both the date and the hour have been picked. */
    predicate Complete() { date != "" && hour != "" }
  }

  /** State on first render: the first listed zone, everything else empty. */
  function InitialState(): (s: ConverterState)
    ensures s.zone == "Asia/Shanghai" && s.date == "" && s.hour == ""
    ensures !s.ShowsResult() && !s.Complete()
  {
    ConverterState(TimeZones[0].zone, "", "", "")
  }

  /** What the convert action does to the state. A throw inside the library
      ends the action before the result is set, so the state stays as it
      was. */
  function Convert(lib: ZoneLibrary, s: ConverterState): (r: ConverterState)
    ensures r.zone == s.zone && r.date == s.date && r.hour == s.hour
    ensures !s.Complete() ==> r == s
    ensures s.Complete() && ConvertAndFormat(lib, WallClockLiteral(s.date, s.hour), s.zone).None? ==> r == s
    ensures s.Complete() && ConvertAndFormat(lib, WallClockLiteral(s.date, s.hour), s.zone).Some? ==>
      r.result == ConvertAndFormat(lib, WallClockLiteral(s.date, s.hour), s.zone).value
  {
    if !s.Complete() then s
    else
      match ConvertAndFormat(lib, WallClockLiteral(s.date, s.hour), s.zone)
      case None => s
      case Some(text) => s.(result := text)
  }

  /** A literal built from a date and a two-character hour splits back into
      them. */
  lemma LiteralRoundTrip(date: string, hour: string)
    requires |hour| == 2
    ensures SplitLiteral(WallClockLiteral(date, hour)) == Some((date, hour))
  {
    var lit := WallClockLiteral(date, hour);
    assert lit[..|lit| - 9] == date;
    assert lit[|lit| - 9] == 'T';
    assert lit[|lit| - 8..|lit| - 6] == hour;
    assert lit[|lit| - 6..] == ":00:00";
  }

  /** With an hour taken from the drop-down, the literal's hour field is the
      two-digit text of that hour and reads back as it. */
  lemma LiteralHourFromTable(date: string, h: nat)
    requires h < HourCount
    ensures SplitLiteral(WallClockLiteral(date, HourOf(h).value)) == Some((date, HourValue(h)))
    ensures IsDigits(HourValue(h)) && DigitsValue(HourValue(h)) == h
  {
    HourValueRoundTrip(h);
    LiteralRoundTrip(date, HourOf(h).value);
  }

  /** Converting twice is converting once: the inputs are untouched and the
      result is recomputed from them alone. */
  lemma ConvertIdempotent(lib: ZoneLibrary, s: ConverterState)
    ensures Convert(lib, Convert(lib, s)) == Convert(lib, s)
  {
  }

  /** With complete input that converts, the previous result plays no part:
      the new state depends only on zone, date and hour. (When the library
      throws, each state keeps its own previous result.) */
  lemma ConvertOverwrites(lib: ZoneLibrary, s: ConverterState, t: ConverterState)
    requires s.Complete()
    requires s.zone == t.zone && s.date == t.date && s.hour == t.hour
    ensures ConvertAndFormat(lib, WallClockLiteral(s.date, s.hour), s.zone).Some? ==>
      Convert(lib, s) == Convert(lib, t)
  {
  }

  /** The two-state view: incomplete input, or a conversion that throws,
      keeps NoResult/HasResult as it was; complete input that converts always
      leads to HasResult. */
  lemma ConvertShowsResult(lib: ZoneLibrary, s: ConverterState)
    requires FormatsNonEmpty(lib)
    ensures Convert(lib, s).ShowsResult() <==>
      (s.Complete() && ConvertAndFormat(lib, WallClockLiteral(s.date, s.hour), s.zone).Some?) || s.ShowsResult()
  {
    var d := TargetDate(lib, WallClockLiteral(s.date, s.hour), s.zone);
    if s.Complete() && d.ValidDate? {
      assert lib.format(d.time, DisplayPattern) != "";
    }
  }

  /** The zone identifiers are the drop-down's option keys: there are five,
      no two alike, the first is the initial selection, and none is the
      target zone. */
  lemma TimeZoneKeysDistinct()
    ensures |TimeZones| == 5 && TimeZones[0].zone == "Asia/Shanghai"
    ensures forall i, j :: 0 <= i < j < |TimeZones| ==> TimeZones[i].zone != TimeZones[j].zone
    ensures forall i :: 0 <= i < |TimeZones| ==> TimeZones[i].zone != TargetZone
  {
  }

  /** The converter component, whose state fields are updated in place by
      their setters and by the convert action. */
  class TimeConverter {
    const lib: ZoneLibrary
    var selectedZone: string
    var selectedDate: string
    var selectedHour: string
    var californiaTime: string

    function State(): ConverterState
      reads this
    {
      ConverterState(selectedZone, selectedDate, selectedHour, californiaTime)
    }

    constructor (lib: ZoneLibrary)
      ensures this.lib == lib
      ensures State() == InitialState()
    {
      this.lib := lib;
      selectedZone := TimeZones[0].zone;
      selectedDate := "";
      selectedHour := "";
      californiaTime := "";
    }

    method SetSelectedZone(zone: string)
      modifies this`selectedZone
      ensures State() == old(State()).(zone := zone)
    {
      selectedZone := zone;
    }

    method SetSelectedDate(date: string)
      modifies this`selectedDate
      ensures State() == old(State()).(date := date)
    {
      selectedDate := date;
    }

    method SetSelectedHour(hour: string)
      modifies this`selectedHour
      ensures State() == old(State()).(hour := hour)
    {
      selectedHour := hour;
    }

    /** The convert action: a no-op unless both date and hour are picked;
        otherwise overwrites the result with the converted time, unless
        formatting throws on an Invalid Date, which leaves the result as it
        was. */
    method HandleConvert()
      modifies this`californiaTime
      ensures State() == Convert(lib, old(State()))
    {
      if selectedDate == "" || selectedHour == "" {
        return;
      }
      var dateTime := WallClockLiteral(selectedDate, selectedHour);
      var utcTime := lib.zonedTimeToUtc(dateTime, selectedZone);
      var laTime := lib.utcToZonedTime(utcTime, TargetZone);
      if laTime.InvalidDate? {
        // format throws here, so the result is never set
        return;
      }
      californiaTime := lib.format(laTime.time, DisplayPattern);
    }
  }
}
