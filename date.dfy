/**
 * `formatFrenchDateTime`: the display label of an event's date and time. An ISO date
 * `YYYY-MM-DD` is shown as `DD-MM-YYYY`, a time `HH:MM` gains seconds `:00`, anything else
 * is shown as given, and the two parts are joined by " à ".
 */
module DateFormat {
  import opened Wrappers
  import opened Text

  const Separator := " à "

  /** The regular expression `^\d{4}-\d{2}-\d{2}$`. */
  predicate IsIsoDate(s: string) {
    |s| == 10 &&
    IsDigit(s[0]) && IsDigit(s[1]) && IsDigit(s[2]) && IsDigit(s[3]) && s[4] == '-' &&
    IsDigit(s[5]) && IsDigit(s[6]) && s[7] == '-' && IsDigit(s[8]) && IsDigit(s[9])
  }

  /** The shape `DD-MM-YYYY` that an ISO date is rewritten to. */
  predicate IsFrenchDate(s: string) {
    |s| == 10 &&
    IsDigit(s[0]) && IsDigit(s[1]) && s[2] == '-' && IsDigit(s[3]) && IsDigit(s[4]) && s[5] == '-' &&
    IsDigit(s[6]) && IsDigit(s[7]) && IsDigit(s[8]) && IsDigit(s[9])
  }

  /** The regular expression `^\d{2}:\d{2}$`. */
  predicate IsHourMinute(s: string) {
    |s| == 5 && IsDigit(s[0]) && IsDigit(s[1]) && s[2] == ':' && IsDigit(s[3]) && IsDigit(s[4])
  }

  /** `formattedDate`: `[y, m, d] = date.split("-")` rewritten as `d-m-y` when the date is ISO. */
  function FormatDate(date: string): (r: string)
    ensures r == "" <==> date == ""
  {
    if date != "" && IsIsoDate(date) then date[8..10] + "-" + date[5..7] + "-" + date[0..4] else date
  }

  /** `formattedTime`: `HH:MM` becomes `HH:MM:00`. */
  function FormatTime(time: string): (r: string)
    ensures r == "" <==> time == ""
  {
    if time != "" && IsHourMinute(time) then time + ":00" else time
  }

  function FormatFrenchDateTime(date: Option<string>, time: Option<string>): (r: string)
  {
    var d, t := OrEmpty(date), OrEmpty(time);
    if d == "" && t == "" then ""
    else
      var fd, ft := FormatDate(d), FormatTime(t);
      if fd != "" && ft != "" then fd + Separator + ft else if fd != "" then fd else ft
  }

  /** An ISO date's three fields come out in reverse order, unchanged. */
  lemma FormatIsoDate(y: string, m: string, d: string)
    requires |y| == 4 && |m| == 2 && |d| == 2
    requires forall i :: 0 <= i < 4 ==> IsDigit(y[i])
    requires forall i :: 0 <= i < 2 ==> IsDigit(m[i]) && IsDigit(d[i])
    ensures IsIsoDate(y + "-" + m + "-" + d)
    ensures FormatDate(y + "-" + m + "-" + d) == d + "-" + m + "-" + y
    ensures IsFrenchDate(FormatDate(y + "-" + m + "-" + d))
  {
    var s := y + "-" + m + "-" + d;
    assert s[0..4] == y && s[5..7] == m && s[8..10] == d;
  }

  /** A date that is not ISO is shown as given. */
  lemma FormatOtherDate(date: string)
    requires !IsIsoDate(date)
    ensures FormatDate(date) == date
  {
  }

  /** Reads a `DD-MM-YYYY` label back into the ISO date. */
  function UnformatDate(s: string): string
    requires |s| == 10
  {
    s[6..10] + "-" + s[3..5] + "-" + s[0..2]
  }

  /** Formatting an ISO date loses nothing: the ISO form can be read back from the label. */
  lemma FormatDateRoundTrip(date: string)
    requires IsIsoDate(date)
    ensures |FormatDate(date)| == 10
    ensures UnformatDate(FormatDate(date)) == date
  {
    var f := FormatDate(date);
    assert f[6..10] == date[0..4] && f[3..5] == date[5..7] && f[0..2] == date[8..10];
    assert date == date[0..4] + "-" + date[5..7] + "-" + date[8..10];
  }

  /** A time `HH:MM` gains `:00`; any other time is shown as given. */
  lemma FormatTimeCases(time: string)
    ensures IsHourMinute(time) ==> FormatTime(time) == time + ":00" && |FormatTime(time)| == 8
    ensures !IsHourMinute(time) ==> FormatTime(time) == time
  {
  }

  /** Neither part present: the label is empty. */
  lemma NothingToFormat(date: Option<string>, time: Option<string>)
    requires OrEmpty(date) == "" && OrEmpty(time) == ""
    ensures FormatFrenchDateTime(date, time) == ""
  {
  }

  /** Both parts present: the formatted date, " à ", the formatted time. */
  lemma DateAndTime(date: string, time: string)
    requires date != "" && time != ""
    ensures FormatFrenchDateTime(Some(date), Some(time)) == FormatDate(date) + Separator + FormatTime(time)
  {
  }

  /** Exactly one part present: that part alone, formatted. */
  lemma OnlyOnePart(date: Option<string>, time: Option<string>)
    requires (OrEmpty(date) == "") != (OrEmpty(time) == "")
    ensures OrEmpty(time) == "" ==> FormatFrenchDateTime(date, time) == FormatDate(OrEmpty(date))
    ensures OrEmpty(date) == "" ==> FormatFrenchDateTime(date, time) == FormatTime(OrEmpty(time))
  {
  }

  /** The label is empty exactly when both parts are missing; otherwise it contains each
      formatted part that is present. */
  lemma LabelContainsParts(date: Option<string>, time: Option<string>)
    ensures FormatFrenchDateTime(date, time) == "" <==> OrEmpty(date) == "" && OrEmpty(time) == ""
    ensures OrEmpty(date) != "" ==> Contains(FormatFrenchDateTime(date, time), FormatDate(OrEmpty(date)))
    ensures OrEmpty(time) != "" ==> Contains(FormatFrenchDateTime(date, time), FormatTime(OrEmpty(time)))
  {
    var d, t := OrEmpty(date), OrEmpty(time);
    var fd, ft := FormatDate(d), FormatTime(t);
    var r := FormatFrenchDateTime(date, time);
    assert fd <= fd && ft <= ft;
    if d != "" && t != "" {
      assert r == fd + (Separator + ft);
      ContainsAppendRight(fd, Separator + ft, fd);
      ContainsAppendLeft(fd + Separator, ft, ft);
    }
  }

  /** The sample event of the mock data: 12 March 2026 at 20:00. */
  lemma SampleLabel()
    ensures FormatFrenchDateTime(Some("2026-03-12"), Some("20:00")) == "12-03-2026 à 20:00:00"
  {
    FormatIsoDate("2026", "03", "12");
    assert "2026-03-12" == "2026" + "-" + "03" + "-" + "12";
  }
}
