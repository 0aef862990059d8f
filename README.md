# Time converter: hour table and convert action

A Dafny model of the manual converter of a small static web page that shows
meeting times in several time zones. The converter lets the user pick a
source zone (one of five), a calendar date and an hour, and on a button
press shows the same moment as wall-clock time in California
(America/Los_Angeles).

The model has two modules, following the two parts of
`src/components/TimeConverter.tsx`:

- `Hours` (`hours.dfy`) is the hour drop-down table, a pure function of the
  hour. Each hour 0..23 becomes a two-digit zero-padded value and a 12-hour
  label. `Number.prototype.toString()` is modelled as `Decimal` and
  `String.prototype.padStart` as `PadStart`. The entry's `label` field is
  called `caption`, because `label` is a Dafny keyword. `DigitsValue` and
  `ParseLabel` are inverse readings that the source does not have. They
  exist to state that every value and every label determines its hour.
- `Converter` (`converter.dfy`) holds the zone list and the component state.
  The state is a class `TimeConverter` with one field per state variable,
  setter methods, and the convert action `HandleConvert`. The pure function
  `Convert` says what the action does to the state, and the lemmas about it
  state the guard, the overwrite and the two-state (no result / has result)
  behaviour.

The time zone library (`zonedTimeToUtc`, `utcToZonedTime`, `format` from
date-fns-tz) is a parameter: a `ZoneLibrary` value holding three arbitrary
functions. A JavaScript Date is either a valid time value (an integer
number of milliseconds) or the Invalid Date that a literal the library
cannot read becomes. Formatting an Invalid Date throws; the throw ends the
action before the result is set, so the model keeps the previous result in
that case. `ConvertAndFormat` composes the three calls exactly as the action
does, with `None` standing for the throw. Nothing is proved about what the
library computes.

## Model

| member | source | states |
|---|---|---|
| `Hours.Decimal` | src/components/TimeConverter.tsx:19 | `hour.toString()` is a non-empty run of decimal digits with no leading zero; it is one character long exactly for numbers below 10 |
| `Hours.DecimalRoundTrip` | src/components/TimeConverter.tsx:19 | the decimal text of every number reads back as that number |
| `Hours.PadStart` | src/components/TimeConverter.tsx:19 | `padStart(2, '0')` gives a string of length max(len, 2) that ends with the original text and is filled with the fill character in front |
| `Hours.LeadingZeros` | src/components/TimeConverter.tsx:19 | zeros put in front of a digit string do not change the number it denotes |
| `Hours.ZerosValue` | src/components/TimeConverter.tsx:19 | the zero padding on its own denotes zero |
| `Hours.HourValueRoundTrip` | src/components/TimeConverter.tsx:19 | every option value is exactly two decimal digits ("00".."23") and reads back as its hour |
| `Hours.Period` | src/components/TimeConverter.tsx:16 | the period is "AM" exactly when the hour is below 12, and "PM" otherwise |
| `Hours.DisplayHour` | src/components/TimeConverter.tsx:17 | the display hour lies in 1..12 and agrees with the hour modulo 12 (0 shows as 12, hours above 12 drop 12) |
| `Hours.TwelveHourRoundTrip` | src/components/TimeConverter.tsx:16-17 | display hour and period together give back the 24-hour clock hour |
| `Hours.LabelRoundTrip` | src/components/TimeConverter.tsx:16-20 | every label "<display hour> <period>" reads back as the hour it was built from |
| `Hours.HourValue` | src/components/TimeConverter.tsx:19 | definition of the option value; its properties are proved in `HourValueRoundTrip` |
| `Hours.HourLabel` | src/components/TimeConverter.tsx:20 | definition of the option label; its properties are proved in `LabelRoundTrip` |
| `Hours.HourOf` | src/components/TimeConverter.tsx:15-21 | definition of the entry for one hour; its properties are proved in `HourTableDistinct` |
| `Hours.HourTable` | src/components/TimeConverter.tsx:14-22 | the table has exactly 24 entries and entry i is built from hour i |
| `Hours.HourTableDistinct` | src/components/TimeConverter.tsx:14-22 | every entry's value is two digits reading back as its index, every label reads back as its index, and no two values or labels are equal (so the option keys of line 77 are distinct) |
| `Converter.TimeZoneKeysDistinct` | src/components/TimeConverter.tsx:6-12 | the zone list has five entries, the first is "Asia/Shanghai", their identifiers (the option keys) are pairwise distinct, and none is the target zone |
| `Converter.ConverterState.Complete` | src/components/TimeConverter.tsx:31 | definition of the guard (both date and hour non-empty); its effect is proved in `Convert`, `ConvertShowsResult` and `ConvertOverwrites` |
| `Converter.ConverterState.ShowsResult` | src/components/TimeConverter.tsx:92 | definition of the panel condition (non-empty result); its behaviour under convert is proved in `ConvertShowsResult` |
| `Converter.WallClockLiteral` | src/components/TimeConverter.tsx:33 | the literal is the date, then 'T', then the hour, then ":00:00", and nothing else |
| `Converter.TargetDate` | src/components/TimeConverter.tsx:34-35 | definition of the two library calls that produce the Date to format; used by `ConvertAndFormat` |
| `Converter.ConvertAndFormat` | src/components/TimeConverter.tsx:34-36 | fails (the formatter throws) exactly when the target-zone Date is invalid; otherwise gives the formatted text with the display pattern, which is non-empty when the formatter never returns empty text |
| `Converter.InitialState` | src/components/TimeConverter.tsx:25-28 | the initial zone is the first listed zone, "Asia/Shanghai"; date, hour and result are empty, so no result is shown and the input is incomplete |
| `Converter.Convert` | src/components/TimeConverter.tsx:30-37 | the action never changes zone, date or hour; with an empty date or hour it changes nothing; when the library throws it changes nothing; otherwise the result becomes the library's conversion of `date + "T" + hour + ":00:00"` from the selected zone |
| `Converter.LiteralRoundTrip` | src/components/TimeConverter.tsx:33 | a literal built from a date and a two-character hour splits back into that date and hour |
| `Converter.LiteralHourFromTable` | src/components/TimeConverter.tsx:19-33 | with an hour taken from the table, the literal's hour field is that hour's two-digit text and reads back as the hour |
| `Converter.ConvertIdempotent` | src/components/TimeConverter.tsx:30-37 | pressing convert twice gives the same state as pressing it once |
| `Converter.ConvertOverwrites` | src/components/TimeConverter.tsx:33-36 | with complete input that converts, the previous result plays no part in the new state |
| `Converter.ConvertShowsResult` | src/components/TimeConverter.tsx:31-36 | if the library always formats to non-empty text, the result panel (shown only for a non-empty result, line 92) is shown after convert exactly when the input was complete and converted without a throw, or it was shown before |
| `Converter.TimeConverter.constructor` | src/components/TimeConverter.tsx:25-28 | a new component holds the initial state |
| `Converter.TimeConverter.SetSelectedZone` | src/components/TimeConverter.tsx:25 | changes the selected zone and nothing else |
| `Converter.TimeConverter.SetSelectedDate` | src/components/TimeConverter.tsx:26 | changes the selected date and nothing else |
| `Converter.TimeConverter.SetSelectedHour` | src/components/TimeConverter.tsx:27 | changes the selected hour and nothing else |
| `Converter.TimeConverter.HandleConvert` | src/components/TimeConverter.tsx:30-37 | updates the state as `Convert` says: only the result can change; it is kept when date or hour is empty or when formatting throws on an Invalid Date, and is otherwise overwritten with the converted time |

## Left out

- The time zone conversion and formatting of date-fns-tz (lines 4 and 34-36) are arbitrary functions of a `ZoneLibrary` parameter. They are backed by the IANA time zone database and its daylight-saving rules, so no concrete output is proved, such as a weekday or a clock time for a given date. Only the throw of `format` on an Invalid Date is modelled; any other exception inside the library is not.
- `src/components/WeeklySchedule.tsx` is not part of this model. It converts one fixed instant through the same library and detects the viewer's zone at run time.
- `src/app/page.tsx` and `next.config.js` are not part of this model. They hold page layout and build configuration only.
- JSX markup, styling, event wiring (`onChange`, `onClick`) and React rendering are not modelled. The setters model the state changes those events cause.
- `Converter.TimeConverter.SetSelectedZone`, `SetSelectedDate` and `SetSelectedHour` accept any string, as the source's setters do. The model does not capture that the drop-downs only offer listed zones and table hours.
- `Hours.PadStart` models a one-character fill only, which is the only fill the source uses.
