/**
 * The 24-hour to 12-hour time formatter `formatTime`, which the trip card, the
 * booking page, the confirmation page and the bookings list each define. The first
 * three copies are one function here; the bookings-list copy, which also accepts a
 * missing time, is `FormatTimeOrEmpty`.
 */
module Clock {
  import opened Wrappers
  import opened Text
  import opened Types

  /** `time.split(':')[0]`. */
  function HoursText(time: string): (h: string)
    ensures ':' !in h && StartsWith(time, h)
    ensures ':' in time ==> time[|h|] == ':'
  {
    Split(time, ':')[0]
  }

  /**
   * `time.split(':')[1]` as a template literal renders it: the part after the first
   * ':', or the text "undefined" when there is no ':'.
   */
  function MinutesText(time: string): (m: string)
    ensures ':' !in time ==> m == "undefined"
    ensures ':' in time ==> ':' !in m && StartsWith(time[|HoursText(time)| + 1..], m)
  {
    var parts := Split(time, ':');
    if |parts| >= 2 then parts[1] else "undefined"
  }

  /** A time whose hour part `parseInt` reads as a number in 0..23. */
  predicate ValidTime(time: string) {
    var h := HoursText(time);
    h != "" && AllDigits(h) && DigitsValue(h) <= 23
  }

  /** `parseInt(hours, 10)`. */
  function Hour(time: string): (h: nat)
    requires ValidTime(time)
    ensures h <= 23
  {
    DigitsValue(HoursText(time))
  }

  /** `hour % 12 || 12`. */
  function DisplayHour(hour: nat): (d: nat)
    requires hour <= 23
    ensures 1 <= d <= 12
  {
    if hour % 12 == 0 then 12 else hour % 12
  }

  /** `hour >= 12 ? 'PM' : 'AM'`. */
  function Meridiem(hour: nat): (m: string)
    ensures m == "PM" <==> hour >= 12
    ensures m == "AM" <==> hour < 12
  {
    if hour >= 12 then "PM" else "AM"
  }

  /** The last two characters of a text. */
  function Suffix(s: string): string {
    if |s| >= 2 then s[|s| - 2..] else s
  }

  /** `${displayHour}:${minutes} ${ampm}`. */
  function FormatTime(time: string): (r: string)
    requires ValidTime(time)
    ensures |r| >= 3 && r[|r| - 3] == ' '
    ensures Suffix(r) == "PM" <==> Hour(time) >= 12
    ensures Suffix(r) == "AM" <==> Hour(time) < 12
  {
    NatToString(DisplayHour(Hour(time))) + ":" + MinutesText(time) + " " + Meridiem(Hour(time))
  }

  /** The bookings-list copy: '' for a missing or empty time, else the conversion. */
  function FormatTimeOrEmpty(time: Option<string>): (r: string)
    requires Truthy(time) ==> ValidTime(time.value)
    ensures r == "" <==> !Truthy(time)
    ensures Truthy(time) ==> r == FormatTime(time.value)
  {
    if !Truthy(time) then "" else FormatTime(time.value)
  }

  /** The conversion table, written case by case: (display hour, suffix) for 0..23. */
  function TwelveHourOf(hour: nat): (nat, string)
    requires hour <= 23
  {
    if hour == 0 then (12, "AM")
    else if hour < 12 then (hour, "AM")
    else if hour == 12 then (12, "PM")
    else (hour - 12, "PM")
  }

  /** `hour % 12 || 12` with its suffix follows the case-by-case table. */
  lemma DisplayHourFollowsTable(hour: nat)
    requires hour <= 23
    ensures (DisplayHour(hour), Meridiem(hour)) == TwelveHourOf(hour)
  {
  }

  /** The 24-hour hour a 12-hour display hour and suffix stand for. */
  function From12Hour(display: nat, meridiem: string): nat {
    if meridiem == "AM" then (if display == 12 then 0 else display)
    else (if display == 12 then 12 else display + 12)
  }

  /**
   * Reads a formatted time "h:MM AM" back into its 24-hour hour and its minutes
   * text; `None` when the text does not have that shape.
   */
  function ParseTwelveHour(s: string): Option<(nat, string)> {
    if |s| < 3 || s[|s| - 3] != ' ' then None
    else ParseClockBody(s[..|s| - 3], s[|s| - 2..])
  }

  /** Reads "h:MM" before the suffix, which must be "AM" or "PM". */
  function ParseClockBody(body: string, suffix: string): Option<(nat, string)> {
    if (suffix != "AM" && suffix != "PM") || ':' !in body then None
    else
      var i := IndexOf(body, ':');
      var digits := body[..i];
      if digits == "" || !AllDigits(digits) || !(1 <= DigitsValue(digits) <= 12) then None
      else Some((From12Hour(DigitsValue(digits), suffix), body[i + 1..]))
  }

  /** A run of digits holds no ':'. */
  lemma NoColonInDigits(s: string)
    requires AllDigits(s)
    ensures ':' !in s
  {
  }

  /**
   * The conversion loses nothing: the 12-hour text reads back as the original
   * 24-hour hour and the original minutes text.
   */
  lemma {:induction false} FormatTimeRoundTrip(time: string)
    requires ValidTime(time)
    ensures ParseTwelveHour(FormatTime(time)) == Some((Hour(time), MinutesText(time)))
  {
    var h := Hour(time);
    NatToStringRoundTrip(DisplayHour(h));
    ParseFormatted(NatToString(DisplayHour(h)), MinutesText(time), Meridiem(h));
  }

  /** A 12-hour display hour, any minutes text and a suffix read back as their parts. */
  lemma ParseFormatted(d: string, m: string, meridiem: string)
    requires d != "" && AllDigits(d) && 1 <= DigitsValue(d) <= 12
    requires meridiem == "AM" || meridiem == "PM"
    ensures ParseTwelveHour(d + ":" + m + " " + meridiem) == Some((From12Hour(DigitsValue(d), meridiem), m))
  {
    var body := d + ":" + m;
    SuffixAfterSpace(body, meridiem);
    BodySplitsAtColon(d, m);
  }

  /** `body + " " + suffix`, for a two-character suffix, splits back into its parts. */
  lemma SuffixAfterSpace(body: string, suffix: string)
    requires |suffix| == 2
    ensures var s := body + " " + suffix;
            |s| >= 3 && s[|s| - 3] == ' ' && s[|s| - 2..] == suffix && s[..|s| - 3] == body
  {
  }

  /** In `d:m` with `d` a digit run, the first ':' follows `d`. */
  lemma BodySplitsAtColon(d: string, m: string)
    requires AllDigits(d)
    ensures ':' in d + ":" + m && IndexOf(d + ":" + m, ':') == |d|
    ensures (d + ":" + m)[..|d|] == d && (d + ":" + m)[|d| + 1..] == m
  {
    var body := d + ":" + m;
    NoColonInDigits(d);
    assert body[|d|] == ':';
    assert body[..|d|] == d;
    IndexOfAt(body, ':', |d|);
  }

  /**
   * Only the first two ':'-separated parts matter: the minutes are copied as they
   * are and a further part, such as seconds, is dropped.
   */
  lemma {:induction false} SecondsDropped(hours: string, minutes: string, seconds: string)
    requires hours != "" && AllDigits(hours) && DigitsValue(hours) <= 23
    requires ':' !in minutes
    ensures ValidTime(hours + ":" + minutes) && ValidTime(hours + ":" + minutes + ":" + seconds)
    ensures MinutesText(hours + ":" + minutes) == minutes
    ensures FormatTime(hours + ":" + minutes + ":" + seconds) == FormatTime(hours + ":" + minutes)
  {
    NoColonInDigits(hours);
    var t1 := hours + ":" + minutes;
    var rest := minutes + ":" + seconds;
    var t2 := hours + ":" + minutes + ":" + seconds;
    assert t2 == hours + ":" + rest;
    SplitHead(hours, minutes);
    assert Split(minutes, ':') == [minutes];
    assert Split(t1, ':') == [hours, minutes];
    SplitHead(hours, rest);
    SplitHead(minutes, seconds);
    assert Split(t2, ':')[0] == hours && Split(t2, ':')[1] == minutes;
    assert HoursText(t1) == hours && HoursText(t2) == hours;
    assert MinutesText(t1) == minutes && MinutesText(t2) == minutes;
  }

  /** Splitting `a:b` where `a` has no ':' gives `a` and then the parts of `b`. */
  lemma SplitHead(a: string, b: string)
    requires ':' !in a
    ensures Split(a + ":" + b, ':') == [a] + Split(b, ':')
  {
    var s := a + ":" + b;
    assert s[|a|] == ':';
    assert s[..|a|] == a;
    IndexOfAt(s, ':', |a|);
    assert s[|a| + 1..] == b;
  }

  /**
   * The four copies agree: on a time the others accept, the bookings-list copy
   * gives the same text; it gives '' where the time is missing or empty.
   */
  lemma FormatTimeCopiesAgree(time: string)
    requires ValidTime(time)
    ensures FormatTimeOrEmpty(Some(time)) == FormatTime(time)
    ensures FormatTimeOrEmpty(None) == "" && FormatTimeOrEmpty(Some("")) == ""
  {
    assert Split("", ':') == [""];
  }
}
