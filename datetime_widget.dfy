/** The date-and-time widget's pure parts: the custom date format, the
    locale options chosen for the other formats, and how the display fills
    in unset settings and decides what to show. */
module DatetimeWidget {
  import opened Text
  import opened Numerals

  datatype DateFormat = Short | Medium | Long | Full | Custom
  datatype TimeFormat = TwelveHour | TwentyFourHour
  datatype DisplayOption = DateOnly | TimeOnly | Both
  datatype TextAlign = Left | Center | Right

  /** The calendar fields read from the `Date`: the full year, the 0-based
      month and the day of the month. */
  datatype CalendarDate = CalendarDate(year: int, month: nat, day: nat)

  /** The options handed to `toLocaleDateString`; None leaves a field out. */
  datatype LocaleOptions = LocaleOptions(weekday: Option<string>, year: string, month: string, day: string)

  /** What `formatDate` produces: the custom text, or a request to the
      locale formatter with these options. */
  datatype FormattedDate = CustomText(text: string) | LocaleDate(options: LocaleOptions)

  /** A month or a day as two digits: `n.toString().padStart(2, "0")`. */
  function Pad2(n: nat): (s: string)
    ensures AllDigits(s, 10) && |s| >= 2
  {
    var digits := NatToString(n);
    var padded := PadStart(digits, 2, '0');
    ValueOfLeadingZeros(|padded| - |digits|, digits, 10);
    padded
  }

  /** Months and days print as exactly two digits that read back as the
      number. */
  lemma Pad2Exact(n: nat)
    requires n < 100
    ensures |Pad2(n)| == 2
    ensures ValueOf(Pad2(n), 10) == n
  {
    assert Pow(10, 2) == 100;
    ToBaseLength(n, 10, 2);
    var digits := NatToString(n);
    ValueOfLeadingZeros(|Pad2(n)| - |digits|, digits, 10);
    ValueOfToBase(n, 10);
  }

  /** The custom branch: the first `yyyy` becomes the year, then the first
      `MM` the month (1 to 12, two digits), then the first `dd` the day. */
  function CustomFormat(pattern: string, date: CalendarDate): string {
    var withYear := ReplaceFirst(pattern, "yyyy", IntToString(date.year));
    var withMonth := ReplaceFirst(withYear, "MM", Pad2(date.month + 1));
    ReplaceFirst(withMonth, "dd", Pad2(date.day))
  }

  /** A pattern containing none of the tokens comes back unchanged. */
  lemma CustomFormatWithoutTokens(pattern: string, date: CalendarDate)
    requires IndexOf(pattern, "yyyy").None? && IndexOf(pattern, "MM").None? && IndexOf(pattern, "dd").None?
    ensures CustomFormat(pattern, date) == pattern
  {
  }

  /** The widget's default pattern `yyyy-MM-dd` gives year, month and day
      joined by dashes. */
  lemma CustomFormatIso(date: CalendarDate)
    requires date.year >= 0
    ensures CustomFormat("yyyy-MM-dd", date) ==
              IntToString(date.year) + "-" + Pad2(date.month + 1) + "-" + Pad2(date.day)
  {
    var y := IntToString(date.year);
    var m := Pad2(date.month + 1);
    NoLetters(y);
    NoLetters(m);
    IsoSteps(y, m, Pad2(date.day));
  }

  lemma IsoSteps(y: string, m: string, d: string)
    requires forall i :: 0 <= i < |y| ==> y[i] != 'M' && y[i] != 'd'
    requires forall i :: 0 <= i < |m| ==> m[i] != 'd'
    ensures ReplaceFirst(ReplaceFirst(ReplaceFirst("yyyy-MM-dd", "yyyy", y), "MM", m), "dd", d)
              == y + "-" + m + "-" + d
  {
    YearStep(y);
    MonthStep(y, m);
    DayStep(y, m, d);
  }

  lemma YearStep(y: string)
    ensures ReplaceFirst("yyyy-MM-dd", "yyyy", y) == y + "-MM-dd"
  {
    var pattern := "yyyy-MM-dd";
    assert pattern[..4] == "yyyy";
    assert IndexOf(pattern, "yyyy") == Some(0);
    assert pattern[4..] == "-MM-dd";
  }

  lemma MonthStep(y: string, m: string)
    requires forall i :: 0 <= i < |y| ==> y[i] != 'M'
    ensures ReplaceFirst(y + "-MM-dd", "MM", m) == y + "-" + m + "-dd"
  {
    ReplaceAfter(y + "-", "MM", "-dd", m);
    assert (y + "-") + "MM" + "-dd" == y + "-MM-dd";
  }

  lemma DayStep(y: string, m: string, d: string)
    requires forall i :: 0 <= i < |y| ==> y[i] != 'd'
    requires forall i :: 0 <= i < |m| ==> m[i] != 'd'
    ensures ReplaceFirst(y + "-" + m + "-dd", "dd", d) == y + "-" + m + "-" + d
  {
    ReplaceAfter(y + "-" + m + "-", "dd", [], d);
    assert (y + "-" + m + "-") + "dd" + [] == y + "-" + m + "-dd";
  }

  /** Replacing a token whose first letter does not occur before it. */
  lemma ReplaceAfter(pre: string, pat: string, rest: string, rep: string)
    requires pat != [] && forall i :: 0 <= i < |pre| ==> pre[i] != pat[0]
    ensures ReplaceFirst(pre + pat + rest, pat, rep) == pre + rep + rest
  {
    var s := pre + pat + rest;
    forall j | 0 <= j < |pre| ensures !OccursAt(s, pat, j) {
      assert s[j] == pre[j];
    }
    ReplaceFirstAt(pre, pat, rest, rep);
  }

  /** Printed numbers contain no letters, so no token can appear inside
      one. */
  lemma NoLetters(s: string)
    requires AllDigits(s, 10) || (s != [] && s[0] == '-' && AllDigits(s[1..], 10))
    ensures forall i :: 0 <= i < |s| ==> s[i] != 'y' && s[i] != 'M' && s[i] != 'd'
  {
    forall i | 0 <= i < |s| ensures s[i] != 'y' && s[i] != 'M' && s[i] != 'd' {
      if i > 0 || AllDigits(s, 10) {
        assert IsDigit(s[i], 10) by {
          if !AllDigits(s, 10) { assert s[i] == s[1..][i - 1]; }
        }
      }
    }
  }

  /** `formatDate(date, format, customFormat)` */
  function FormatDate(date: CalendarDate, format: DateFormat, customFormat: Option<string>): (r: FormattedDate)
    ensures r.CustomText? <==> format == Custom && customFormat.Some? && customFormat.value != []
    ensures r.CustomText? ==> r.text == CustomFormat(customFormat.value, date)
    ensures r.LocaleDate? ==> r.options.year == "numeric" && r.options.day == "numeric"
    ensures r.LocaleDate? ==> (r.options.weekday.None? <==> format in {Short, Medium})
    ensures r.LocaleDate? ==> r.options.weekday.None? || r.options.weekday == Some("long")
    ensures r.LocaleDate? ==> r.options.month == if format == Short then "numeric" else "long"
  {
    var full := LocaleOptions(Some("long"), "numeric", "long", "numeric");
    if format == Short then LocaleDate(full.(weekday := None, month := "numeric"))
    else if format == Medium then LocaleDate(full.(weekday := None))
    else if format == Custom && customFormat.Some? && customFormat.value != [] then
      CustomText(CustomFormat(customFormat.value, date))
    else LocaleDate(full)
  }

  // ---------------------------------------------------------------------
  // The display

  /** The stored settings the display reads; None is an unset field. */
  datatype DatetimeData = DatetimeData(
    timeFormat: Option<TimeFormat>, dateFormat: Option<DateFormat>, customDateFormat: Option<string>,
    display: Option<DisplayOption>, showSeconds: Option<bool>, showDayOfWeek: Option<bool>,
    textAlign: Option<TextAlign>, useCustomFont: Option<bool>, fontFamily: Option<string>)

  /** What the display settles on, with every unset field filled in. */
  datatype DisplaySettings = DisplaySettings(
    timeFormat: TimeFormat, dateFormat: DateFormat, showSeconds: bool, showDayOfWeek: bool,
    textAlign: TextAlign, display: DisplayOption, fontFamily: string)

  function OrElse<T>(o: Option<T>, default: T): (r: T)
    ensures o.Some? ==> r == o.value
    ensures o.None? ==> r == default
  {
    if o.Some? then o.value else default
  }

  /** `x !== false` for an optional flag. */
  predicate NotFalse(o: Option<bool>) {
    o != Some(false)
  }

  /** The defaults: 24-hour time, medium date, seconds and weekday shown
      unless turned off, centred, time and date both shown; the custom font
      only when it is switched on and named, `inherit` otherwise. */
  function ResolveDisplay(d: DatetimeData): (s: DisplaySettings)
    ensures d.timeFormat.None? ==> s.timeFormat == TwentyFourHour
    ensures d.dateFormat.None? ==> s.dateFormat == Medium
    ensures d.textAlign.None? ==> s.textAlign == Center
    ensures d.display.None? ==> s.display == Both
    ensures d.timeFormat.Some? ==> s.timeFormat == d.timeFormat.value
    ensures d.dateFormat.Some? ==> s.dateFormat == d.dateFormat.value
    ensures d.textAlign.Some? ==> s.textAlign == d.textAlign.value
    ensures d.display.Some? ==> s.display == d.display.value
    ensures s.showSeconds <==> d.showSeconds != Some(false)
    ensures s.showDayOfWeek <==> d.showDayOfWeek != Some(false)
    ensures d.useCustomFont == Some(true) && d.fontFamily.Some? && d.fontFamily.value != [] ==>
              s.fontFamily == d.fontFamily.value
    ensures !(d.useCustomFont == Some(true) && d.fontFamily.Some? && d.fontFamily.value != []) ==>
              s.fontFamily == "inherit"
  {
    DisplaySettings(
      OrElse(d.timeFormat, TwentyFourHour),
      OrElse(d.dateFormat, Medium),
      NotFalse(d.showSeconds),
      NotFalse(d.showDayOfWeek),
      OrElse(d.textAlign, Center),
      OrElse(d.display, Both),
      if d.useCustomFont == Some(true) && d.fontFamily.Some? && d.fontFamily.value != [] then d.fontFamily.value
      else "inherit")
  }

  /** Which parts of the widget are drawn. */
  datatype Visibility = Visibility(time: bool, date: bool, dayOfWeek: bool)

  function Visible(s: DisplaySettings): (v: Visibility)
    ensures v.time <==> s.display == TimeOnly || s.display == Both
    ensures v.date <==> s.display == DateOnly || s.display == Both
    ensures v.dayOfWeek <==> v.date && s.showDayOfWeek
    ensures v.time || v.date
  {
    var date := s.display == DateOnly || s.display == Both;
    Visibility(s.display == TimeOnly || s.display == Both, date, date && s.showDayOfWeek)
  }

  /** Settings nobody filled in show everything: time with seconds, date
      with its weekday, in the medium format. */
  lemma EmptySettingsShowEverything()
    ensures var s := ResolveDisplay(DatetimeData(None, None, None, None, None, None, None, None, None));
            Visible(s) == Visibility(true, true, true) && s.showSeconds && s.dateFormat == Medium &&
            s.fontFamily == "inherit"
  {
  }
}
