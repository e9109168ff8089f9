/**
 * The status-bar clock label (packages/SystemUI/src/com/android/systemui/
 * statusbar/policy/Clock.java): the settings it mirrors, its cache of the
 * prepared time pattern, and getSmallTime, which formats the time, prepends
 * the optional weekday and day-of-month/month prefixes, removes or shrinks
 * the AM/PM designator found through the sentinels, shrinks the prefixes and
 * paints everything in one colour.
 *
 * The pure functions below describe one render as a value (RenderLabel);
 * the class Clock performs it step by step on a mutable builder and is proved
 * to produce exactly that value.
 */
module Clock {
  import opened Optional
  import opened Strings
  import opened ClockPattern
  import opened SpannedText

  const AmPmSizeNormal: int := 0
  const AmPmSizeSmall: int := 1

  /** WEEKDAY_SIZE_* and DAYMONTH_SIZE_* share these values. */
  const LabelSizeNormal: int := 0
  const LabelSizeSmall: int := 1

  const WeekdayFormatShort: int := 0
  const WeekdayFormatMedium: int := 1
  const WeekdayFormatLong: int := 2

  /** The Settings.System integers updateSettings reads; None when a setting is unset. */
  datatype Settings = Settings(
    showAmPm: Option<int>, amPmSize: Option<int>,
    showWeekday: Option<int>, weekdaySize: Option<int>, weekdayFormat: Option<int>,
    showDaymonth: Option<int>, daymonthSize: Option<int>)

  /** The fields getSmallTime reads, each taken from the copy the source reads it from. */
  datatype DisplayConfig = DisplayConfig(
    showMore: bool,
    amPmSize: int, showAmPm: bool,
    weekdaySize: int, weekdayFormat: int, showWeekday: bool,
    daymonthSize: int, showDaymonth: bool)

  /**
   * The localised names: weekdayName(form, day) is the string resource
   * day_of_week_<form>_<day>, monthName(m) is month_medium_<m>, and upper is
   * String.toUpperCase in the current locale.
   */
  datatype Names = Names(weekdayName: (int, int) -> string, monthName: int -> string, upper: string -> string)

  /** A colour channel parsed from two hex digits. */
  type Channel = x: int | 0 <= x <= 255

  datatype Rgb = Rgb(red: Channel, green: Channel, blue: Channel)

  /**
   * What one render reads from outside the label: the 12/24-hour choice and
   * the two pattern resources, the formatter applied to the current instant
   * and time zone (render(p) is new SimpleDateFormat(p).format(now)), the
   * calendar fields of Calendar.getInstance(), the names, and the status-bar
   * colour already parsed into channels.
   */
  datatype Env = Env(
    is24Hour: bool, twelveHourFormat: string, twentyFourHourFormat: string,
    render: string -> string,
    dayOfWeek: int, month: int, dayOfMonth: nat,
    names: Names, color: Rgb)

  /** The exceptions getSmallTime can end in. */
  datatype Crash =
    | NullFormatter    // the cache matched while mClockFormat was still null
    | NullLabel        // getDay/getMonth found no resource and upper-cased null
    | SpanOutOfBounds  // setSpan or delete was given a range outside the text

  datatype Rendered = Label(styled: Styled) | Failed(crash: Crash)

  /** The pattern resource getSmallTime starts from. */
  function RawPattern(env: Env): string {
    if env.is24Hour then env.twentyFourHourFormat else env.twelveHourFormat
  }

  // ---- Pattern preparation and the format cache ----

  /** The pattern is wrapped when the AM/PM text is to be resized or hidden and an unquoted `a` exists. */
  predicate NeedsWrap(raw: string, amPmSize: int, showAmPm: bool) {
    (amPmSize != AmPmSizeNormal || !showAmPm) && DesignatorIndex(raw) >= 0
  }

  /** The pattern the formatter is built from on a cache miss. */
  function Prepare(raw: string, amPmSize: int, showAmPm: bool): (p: string)
    ensures NeedsWrap(raw, amPmSize, showAmPm) ==> |p| == |raw| + 2
    ensures !NeedsWrap(raw, amPmSize, showAmPm) ==> p == raw
  {
    if NeedsWrap(raw, amPmSize, showAmPm) then
      var a := DesignatorIndex(raw);
      Wrap(raw, WhitespaceStart(raw, a), a)
    else raw
  }

  /** mClockFormatString after a render: kept on a hit, the prepared pattern on a miss. */
  function NextCacheKey(key: Option<string>, raw: string, amPmSize: int, showAmPm: bool): Option<string> {
    if key == Some(raw) then key else Some(Prepare(raw, amPmSize, showAmPm))
  }

  /** The pattern of mClockFormat after a render. */
  function NextFormatter(key: Option<string>, formatter: Option<string>, raw: string, amPmSize: int, showAmPm: bool): Option<string> {
    if key == Some(raw) then formatter else Some(Prepare(raw, amPmSize, showAmPm))
  }

  // ---- Labels ----

  /**
   * getDay: the weekday name for a format (short, medium, long) and a
   * Calendar day (1 = Sunday .. 7), upper-cased, plus one space. Any other
   * format or day leaves the name null, and upper-casing it throws.
   */
  function GetDay(weekdayFormat: int, today: int, names: Names): (r: Option<string>)
    ensures r.Some? <==> WeekdayFormatShort <= weekdayFormat <= WeekdayFormatLong && 1 <= today <= 7
    ensures r.Some? ==>
      && |r.value| >= 1 && r.value[|r.value| - 1] == ' '
      && r.value[..|r.value| - 1] == names.upper(names.weekdayName(weekdayFormat, today))
  {
    if WeekdayFormatShort <= weekdayFormat <= WeekdayFormatLong && 1 <= today <= 7 then
      var text := names.upper(names.weekdayName(weekdayFormat, today)) + " ";
      assert text[..|text| - 1] == names.upper(names.weekdayName(weekdayFormat, today));
      Some(text)
    else None
  }

  /** getMonth: the medium month name for a Calendar month (0 = January .. 11), upper-cased, plus one space. */
  function GetMonth(month: int, names: Names): (r: Option<string>)
    ensures r.Some? <==> 0 <= month <= 11
    ensures r.Some? ==>
      && |r.value| >= 1 && r.value[|r.value| - 1] == ' '
      && r.value[..|r.value| - 1] == names.upper(names.monthName(month))
  {
    if 0 <= month <= 11 then
      var text := names.upper(names.monthName(month)) + " ";
      assert text[..|text| - 1] == names.upper(names.monthName(month));
      Some(text)
    else None
  }

  /** The text to style and the labels getSmallTime remembers (currentDay, currentMonth). */
  datatype Composed = Composed(result: string, currentDay: Option<string>, currentMonth: Option<string>)

  /**
   * The prefixing step: with showMore, the day of month, a space and the
   * month label go in front when the day/month is shown, and then the
   * weekday label goes in front of that. None when a label lookup throws.
   */
  function AddPrefixes(time: string, cfg: DisplayConfig, env: Env): Option<Composed> {
    if !cfg.showMore then Some(Composed(time, None, None))
    else if cfg.showDaymonth && GetMonth(env.month, env.names).None? then None
    else if cfg.showWeekday && GetDay(cfg.weekdayFormat, env.dayOfWeek, env.names).None? then None
    else
      var currentMonth := if cfg.showDaymonth then GetMonth(env.month, env.names) else None;
      var withMonth :=
        if cfg.showDaymonth then Decimal(env.dayOfMonth) + " " + currentMonth.value + time else time;
      var currentDay := if cfg.showWeekday then GetDay(cfg.weekdayFormat, env.dayOfWeek, env.names) else None;
      var result := if cfg.showWeekday then currentDay.value + withMonth else withMonth;
      Some(Composed(result, currentDay, currentMonth))
  }

  // ---- Styling ----

  /**
   * The sentinel edit: when MAGIC1 is found and MAGIC2 after it, the range
   * they bracket is edited; otherwise the text stays as it is, without spans.
   */
  function SentinelEdit(result: string, showAmPm: bool, amPmSize: int): (r: Styled)
    ensures WellFormed(r)
  {
    EditAt(result, IndexOfChar(result, Magic1), IndexOfChar(result, Magic2), showAmPm, amPmSize)
  }

  /** The sentinel edit once the search has found MAGIC1 at magic1 and MAGIC2 at magic2 (-1 when absent). */
  function EditAt(result: string, magic1: int, magic2: int, showAmPm: bool, amPmSize: int): (r: Styled)
    requires -1 <= magic1 < |result| && -1 <= magic2 < |result|
    ensures WellFormed(r)
  {
    if magic1 >= 0 && magic2 > magic1 then EditBracket(result, magic1, magic2, showAmPm, amPmSize)
    else Styled(result, [])
  }

  /**
   * The edit of the range from magic1 to magic2: a hidden AM/PM loses the
   * whole range, both ends included; a shown one gets a small-size span over
   * [magic1, magic2) when its size is small, and then loses the character at
   * magic2 and after it the one at magic1.
   */
  function EditBracket(result: string, magic1: int, magic2: int, showAmPm: bool, amPmSize: int): (r: Styled)
    requires 0 <= magic1 < magic2 < |result|
    ensures WellFormed(r)
  {
    var plain := Styled(result, []);
    if !showAmPm then DeleteRange(plain, magic1, magic2 + 1)
    else
      var sized := if amPmSize == AmPmSizeSmall then AddSpan(plain, Span(magic1, magic2, SmallSize)) else plain;
      DeleteRange(DeleteRange(sized, magic2, magic2 + 1), magic1, magic1 + 1)
  }

  /**
   * The styling of one prefix label: nothing at normal size or without a
   * label; otherwise the range from the label's first occurrence in `result`
   * to the end of its last occurrence is deleted (label hidden) or given a
   * small-size span (size small). None when that range does not fit the text.
   */
  function StyleLabel(s: Styled, result: string, name: Option<string>, size: int, shown: bool): (r: Option<Styled>)
    ensures r.Some? && WellFormed(s) ==> WellFormed(r.value)
  {
    if size == LabelSizeNormal || name.None? then Some(s)
    else
      var lo := IndexOf(result, name.value);
      var hi := LastIndexOf(result, name.value) + |name.value|;
      if !shown then
        if 0 <= lo <= hi <= |s.text| then Some(DeleteRange(s, lo, hi)) else None
      else if size == LabelSizeSmall then
        if SpanFits(Span(lo, hi, SmallSize), |s.text|) then Some(AddSpan(s, Span(lo, hi, SmallSize))) else None
      else Some(s)
  }

  /** The weekday styling and then the day/month styling, when showMore. */
  function StylePrefixes(s: Styled, c: Composed, cfg: DisplayConfig): (r: Option<Styled>)
    ensures r.Some? && WellFormed(s) ==> WellFormed(r.value)
  {
    if !cfg.showMore then Some(s)
    else
      match StyleLabel(s, c.result, c.currentDay, cfg.weekdaySize, cfg.showWeekday)
      case None => None
      case Some(s1) => StyleLabel(s1, c.result, c.currentMonth, cfg.daymonthSize, cfg.showDaymonth)
  }

  /** getColor: black text on a light status bar, white on a dark one, by the integer luma. */
  function ColorFor(rgb: Rgb): (c: TextColor)
    ensures c == Black <==> rgb.red * 299 + rgb.green * 587 + rgb.blue * 114 >= 128 * 1000
  {
    var yiq := (rgb.red * 299 + rgb.green * 587 + rgb.blue * 114) / 1000;
    if yiq >= 128 then Black else White
  }

  /** The final colour span over the whole remaining text. */
  function Colorize(s: Styled, color: TextColor): (r: Styled)
    ensures WellFormed(s) ==> WellFormed(r)
  {
    AddSpan(s, Span(0, |s.text|, Foreground(color)))
  }

  /** The styled label built from the prefixed text, or the exception that ends it. */
  function StyleComposed(c: Composed, cfg: DisplayConfig, color: TextColor): Rendered {
    match StylePrefixes(SentinelEdit(c.result, cfg.showAmPm, cfg.amPmSize), c, cfg)
    case None => Failed(SpanOutOfBounds)
    case Some(s) => Label(Colorize(s, color))
  }

  /** One render, from the formatter's pattern, as a value. */
  function RenderLabel(formatter: Option<string>, cfg: DisplayConfig, env: Env): Rendered {
    if formatter.None? then Failed(NullFormatter)
    else
      match AddPrefixes(env.render(formatter.value), cfg, env)
      case None => Failed(NullLabel)
      case Some(c) => StyleComposed(c, cfg, ColorFor(env.color))
  }

  // ---- The steps of getSmallTime that edit the builder ----

  /**
   * The pattern preparation of getSmallTime on a cache miss: when the AM/PM
   * text is to be resized or hidden, the first unquoted `a` and the
   * whitespace before it are bracketed by the sentinels.
   */
  method PreparePattern(raw: string, amPmSize: int, showAmPm: bool) returns (format: string)
    ensures format == Prepare(raw, amPmSize, showAmPm)
  {
    format := raw;
    if amPmSize != AmPmSizeNormal || !showAmPm {
      var a := FindDesignator(format);
      if a >= 0 {
        var start := WidenOverWhitespace(format, a);
        format := Wrap(format, start, a);
      }
    }
  }

  /** The sentinel edit of getSmallTime, on the freshly built SpannableStringBuilder. */
  method ApplySentinelEdit(formatted: Builder, result: string, showAmPm: bool, amPmSize: int)
    requires formatted.Value() == Styled(result, [])
    modifies formatted
    ensures formatted.Value() == SentinelEdit(result, showAmPm, amPmSize)
  {
    var magic1 := IndexOfChar(result, Magic1);
    var magic2 := IndexOfChar(result, Magic2);
    if magic1 >= 0 && magic2 > magic1 {
      ApplyBracketEdit(formatted, result, magic1, magic2, showAmPm, amPmSize);
    }
  }

  /** The deletions (and the span) of the sentinel edit, once both sentinels are found. */
  method ApplyBracketEdit(formatted: Builder, result: string, magic1: int, magic2: int, showAmPm: bool, amPmSize: int)
    requires 0 <= magic1 < magic2 < |result|
    requires formatted.Value() == Styled(result, [])
    modifies formatted
    ensures formatted.Value() == EditBracket(result, magic1, magic2, showAmPm, amPmSize)
  {
    if !showAmPm {
      formatted.Delete(magic1, magic2 + 1);
    } else {
      ghost var plain := Styled(result, []);
      ghost var sized :=
        if amPmSize == AmPmSizeSmall then AddSpan(plain, Span(magic1, magic2, SmallSize)) else plain;
      if amPmSize == AmPmSizeSmall {
        var attached := formatted.SetSpan(Span(magic1, magic2, SmallSize));
      }
      assert formatted.Value() == sized;
      formatted.Delete(magic2, magic2 + 1);
      assert formatted.Value() == DeleteRange(sized, magic2, magic2 + 1);
      formatted.Delete(magic1, magic1 + 1);
    }
  }

  /** The styling of one prefix label; `ok` is false where the platform throws. */
  method ApplyLabelStyle(formatted: Builder, result: string, name: Option<string>, size: int, shown: bool)
    returns (ok: bool)
    modifies formatted
    ensures ok == StyleLabel(old(formatted.Value()), result, name, size, shown).Some?
    ensures ok ==> formatted.Value() == StyleLabel(old(formatted.Value()), result, name, size, shown).value
  {
    ok := true;
    if size != LabelSizeNormal {
      if name.Some? {
        var lo := IndexOf(result, name.value);
        var hi := LastIndexOf(result, name.value) + |name.value|;
        if !shown {
          ok := 0 <= lo <= hi <= |formatted.text|;
          if ok {
            formatted.Delete(lo, hi);
          }
        } else if size == LabelSizeSmall {
          ok := formatted.SetSpan(Span(lo, hi, SmallSize));
        }
      }
    }
  }

  /** The prefixing of getSmallTime, reassigning `result` as it goes. */
  method PrefixTime(time: string, cfg: DisplayConfig, env: Env) returns (c: Option<Composed>)
    ensures c == AddPrefixes(time, cfg, env)
  {
    var result := time;
    var currentDay: Option<string> := None;
    var currentMonth: Option<string> := None;
    if cfg.showMore {
      if cfg.showDaymonth {
        currentMonth := GetMonth(env.month, env.names);
        if currentMonth.None? {
          return None;
        }
        result := Decimal(env.dayOfMonth) + " " + currentMonth.value + result;
      }
      if cfg.showWeekday {
        currentDay := GetDay(cfg.weekdayFormat, env.dayOfWeek, env.names);
        if currentDay.None? {
          return None;
        }
        result := currentDay.value + result;
      }
    }
    c := Some(Composed(result, currentDay, currentMonth));
  }

  /** The weekday and then the day/month styling of getSmallTime; `ok` is false where the platform throws. */
  method ApplyPrefixStyles(formatted: Builder, c: Composed, cfg: DisplayConfig) returns (ok: bool)
    modifies formatted
    ensures ok == StylePrefixes(old(formatted.Value()), c, cfg).Some?
    ensures ok ==> formatted.Value() == StylePrefixes(old(formatted.Value()), c, cfg).value
  {
    ok := true;
    if cfg.showMore {
      ok := ApplyLabelStyle(formatted, c.result, c.currentDay, cfg.weekdaySize, cfg.showWeekday);
      if ok {
        ok := ApplyLabelStyle(formatted, c.result, c.currentMonth, cfg.daymonthSize, cfg.showDaymonth);
      }
    }
  }

  /** The styling half of getSmallTime, on a new SpannableStringBuilder. */
  method StyleText(c: Composed, cfg: DisplayConfig, color: TextColor) returns (r: Rendered)
    ensures r == StyleComposed(c, cfg, color)
  {
    var formatted := new Builder(c.result);
    ApplySentinelEdit(formatted, c.result, cfg.showAmPm, cfg.amPmSize);
    var ok := ApplyPrefixStyles(formatted, c, cfg);
    if !ok {
      return Failed(SpanOutOfBounds);
    }
    var colored := formatted.SetSpan(Span(0, |formatted.text|, Foreground(color)));
    r := Label(formatted.Value());
  }

  /** The clock label: its settings, their mirrors and the format cache. */
  class Clock {
    /** AM_PM_SIZE, SHOW_AM_PM, WEEKDAY_SIZE, WEEKDAY_FORMAT, SHOW_WEEKDAY, DAYMONTH_SIZE, SHOW_DAYMONTH. */
    var amPmSize: int
    var showAmPm: bool
    var weekdaySize: int
    var weekdayFormat: int
    var showWeekday: bool
    var daymonthSize: int
    var showDaymonth: bool

    /** mAmPmSize, mShowAmPm, mWeekdaySize, mWeekdayFormat, mShowWeekday, mDaymonthSize, mShowDaymonth. */
    var amPmSizeSetting: int
    var showAmPmSetting: bool
    var weekdaySizeSetting: int
    var weekdayFormatSetting: int
    var showWeekdaySetting: bool
    var daymonthSizeSetting: int
    var showDaymonthSetting: bool

    /** mShowMore, from the layout attributes. */
    const showMore: bool

    /** mClockFormatString: the cache key; None while it is null. */
    var clockFormatString: Option<string>

    /** mClockFormat, as the pattern it was built from; None while it is null. */
    var clockFormat: Option<string>

    /** updateSettings has copied every setting it read into the field getSmallTime reads. */
    ghost predicate MirrorsSynced()
      reads this`amPmSize, this`amPmSizeSetting, this`showAmPm, this`showAmPmSetting
      reads this`weekdaySize, this`weekdaySizeSetting, this`weekdayFormat, this`weekdayFormatSetting
      reads this`showWeekday, this`showWeekdaySetting, this`daymonthSize, this`daymonthSizeSetting
      reads this`showDaymonth, this`showDaymonthSetting
    {
      && amPmSize == amPmSizeSetting
      && showAmPm == showAmPmSetting
      && (showMore ==>
            && weekdaySize == weekdaySizeSetting
            && weekdayFormat == weekdayFormatSetting
            && showWeekday == showWeekdaySetting
            && daymonthSize == daymonthSizeSetting
            && showDaymonth == showDaymonthSetting)
    }

    /** The formatter is built from the cache key, except while the key is null or blanked. */
    ghost predicate CacheCoherent()
      reads this`clockFormatString, this`clockFormat
    {
      && (clockFormatString == None ==> clockFormat == None)
      && (clockFormatString.Some? && clockFormatString.value != "" ==> clockFormat == clockFormatString)
    }

    ghost predicate Valid()
      reads this
    {
      MirrorsSynced() && CacheCoherent()
    }

    /** What getSmallTime reads: the size and format mirrors, and the visibility settings. */
    function Config(): DisplayConfig
      reads this
    {
      DisplayConfig(showMore, amPmSize, showAmPmSetting,
        weekdaySize, weekdayFormat, showWeekdaySetting, daymonthSize, showDaymonthSetting)
    }

    /** The constructor: the field defaults, then updateSettings. */
    constructor (showMore: bool, settings: Settings)
      ensures Valid()
      ensures this.showMore == showMore
      ensures showAmPmSetting == (settings.showAmPm.GetOr(0) == 1)
      ensures amPmSizeSetting == settings.amPmSize.GetOr(1)
      ensures clockFormat == None
      ensures clockFormatString ==
        if amPmSizeSetting != AmPmSizeSmall || showAmPmSetting then Some("") else None
      ensures showMore ==>
        && showWeekdaySetting == (settings.showWeekday.GetOr(0) == 1)
        && weekdaySizeSetting == settings.weekdaySize.GetOr(1)
        && weekdayFormatSetting == settings.weekdayFormat.GetOr(1)
        && showDaymonthSetting == (settings.showDaymonth.GetOr(0) == 1)
        && daymonthSizeSetting == settings.daymonthSize.GetOr(1)
      ensures !showMore ==>
        && !showWeekdaySetting && weekdaySizeSetting == 0 && weekdayFormatSetting == 0
        && !showDaymonthSetting && daymonthSizeSetting == 0
        && weekdaySize == LabelSizeSmall && weekdayFormat == WeekdayFormatMedium && !showWeekday
        && daymonthSize == LabelSizeSmall && !showDaymonth
      ensures Config() == DisplayConfig(
        showMore, settings.amPmSize.GetOr(1), settings.showAmPm.GetOr(0) == 1,
        if showMore then settings.weekdaySize.GetOr(1) else LabelSizeSmall,
        if showMore then settings.weekdayFormat.GetOr(1) else WeekdayFormatMedium,
        showMore && settings.showWeekday.GetOr(0) == 1,
        if showMore then settings.daymonthSize.GetOr(1) else LabelSizeSmall,
        showMore && settings.showDaymonth.GetOr(0) == 1)
    {
      amPmSize := AmPmSizeSmall;
      showAmPm := false;
      weekdaySize := LabelSizeSmall;
      weekdayFormat := WeekdayFormatMedium;
      showWeekday := false;
      daymonthSize := LabelSizeSmall;
      showDaymonth := false;
      amPmSizeSetting, showAmPmSetting := 0, false;
      weekdaySizeSetting, weekdayFormatSetting, showWeekdaySetting := 0, 0, false;
      daymonthSizeSetting, showDaymonthSetting := 0, false;
      this.showMore := showMore;
      clockFormatString := None;
      clockFormat := None;
      new;
      UpdateSettings(settings);
    }

    /**
     * updateSettings: reads the settings (the weekday and day/month ones only
     * with showMore), copies them into the mirrors, and blanks the cache key
     * when the AM/PM size or visibility changed.
     */
    method UpdateSettings(s: Settings)
      requires CacheCoherent()
      modifies this
      ensures Valid()
      ensures clockFormat == old(clockFormat)
      ensures showAmPmSetting == (s.showAmPm.GetOr(0) == 1)
      ensures amPmSizeSetting == s.amPmSize.GetOr(1)
      ensures showMore ==>
        && showWeekdaySetting == (s.showWeekday.GetOr(0) == 1)
        && weekdaySizeSetting == s.weekdaySize.GetOr(1)
        && weekdayFormatSetting == s.weekdayFormat.GetOr(1)
        && showDaymonthSetting == (s.showDaymonth.GetOr(0) == 1)
        && daymonthSizeSetting == s.daymonthSize.GetOr(1)
      ensures !showMore ==>
        && showWeekdaySetting == old(showWeekdaySetting) && weekdaySizeSetting == old(weekdaySizeSetting)
        && weekdayFormatSetting == old(weekdayFormatSetting) && showDaymonthSetting == old(showDaymonthSetting)
        && daymonthSizeSetting == old(daymonthSizeSetting)
        && weekdaySize == old(weekdaySize) && weekdayFormat == old(weekdayFormat)
        && showWeekday == old(showWeekday) && daymonthSize == old(daymonthSize)
        && showDaymonth == old(showDaymonth)
      ensures clockFormatString ==
        if amPmSizeSetting != old(amPmSize) || showAmPmSetting != old(showAmPm) then Some("")
        else old(clockFormatString)
    {
      ReadSettings(s);
      SyncMirrors();
    }

    /** The settings reads of updateSettings; the weekday and day/month ones only with showMore. */
    method ReadSettings(s: Settings)
      modifies this`showAmPmSetting, this`amPmSizeSetting, this`showWeekdaySetting, this`weekdaySizeSetting
      modifies this`weekdayFormatSetting, this`showDaymonthSetting, this`daymonthSizeSetting
      ensures showAmPmSetting == (s.showAmPm.GetOr(0) == 1)
      ensures amPmSizeSetting == s.amPmSize.GetOr(1)
      ensures showMore ==>
        && showWeekdaySetting == (s.showWeekday.GetOr(0) == 1)
        && weekdaySizeSetting == s.weekdaySize.GetOr(1)
        && weekdayFormatSetting == s.weekdayFormat.GetOr(1)
        && showDaymonthSetting == (s.showDaymonth.GetOr(0) == 1)
        && daymonthSizeSetting == s.daymonthSize.GetOr(1)
      ensures !showMore ==>
        && showWeekdaySetting == old(showWeekdaySetting) && weekdaySizeSetting == old(weekdaySizeSetting)
        && weekdayFormatSetting == old(weekdayFormatSetting) && showDaymonthSetting == old(showDaymonthSetting)
        && daymonthSizeSetting == old(daymonthSizeSetting)
    {
      showAmPmSetting := s.showAmPm.GetOr(0) == 1;
      amPmSizeSetting := s.amPmSize.GetOr(1);
      if showMore {
        showWeekdaySetting := s.showWeekday.GetOr(0) == 1;
        weekdaySizeSetting := s.weekdaySize.GetOr(1);
        weekdayFormatSetting := s.weekdayFormat.GetOr(1);
        showDaymonthSetting := s.showDaymonth.GetOr(0) == 1;
        daymonthSizeSetting := s.daymonthSize.GetOr(1);
      }
    }

    /**
     * The second half of updateSettings: each mirror that differs from its
     * setting takes the setting's value, and a changed AM/PM size or
     * visibility blanks the cache key.
     */
    method SyncMirrors()
      requires CacheCoherent()
      modifies this`amPmSize, this`showAmPm, this`weekdaySize, this`weekdayFormat
      modifies this`showWeekday, this`daymonthSize, this`showDaymonth, this`clockFormatString
      ensures Valid()
      ensures !showMore ==>
        && weekdaySize == old(weekdaySize) && weekdayFormat == old(weekdayFormat)
        && showWeekday == old(showWeekday) && daymonthSize == old(daymonthSize)
        && showDaymonth == old(showDaymonth)
      ensures clockFormatString ==
        if amPmSizeSetting != old(amPmSize) || showAmPmSetting != old(showAmPm) then Some("")
        else old(clockFormatString)
    {
      if amPmSizeSetting != amPmSize {
        amPmSize := amPmSizeSetting;
        clockFormatString := Some("");
      }
      if showAmPmSetting != showAmPm {
        showAmPm := showAmPmSetting;
        clockFormatString := Some("");
      }
      if showMore {
        SyncExtraMirrors();
      }
    }

    /** The weekday and day/month mirrors, copied one by one where they differ. */
    method SyncExtraMirrors()
      modifies this`weekdaySize, this`weekdayFormat, this`showWeekday, this`daymonthSize, this`showDaymonth
      ensures weekdaySize == weekdaySizeSetting && weekdayFormat == weekdayFormatSetting
      ensures showWeekday == showWeekdaySetting
      ensures daymonthSize == daymonthSizeSetting && showDaymonth == showDaymonthSetting
    {
      if weekdaySizeSetting != weekdaySize {
        weekdaySize := weekdaySizeSetting;
      }
      if weekdayFormatSetting != weekdayFormat {
        weekdayFormat := weekdayFormatSetting;
      }
      if showWeekdaySetting != showWeekday {
        showWeekday := showWeekdaySetting;
      }
      if daymonthSizeSetting != daymonthSize {
        daymonthSize := daymonthSizeSetting;
      }
      if showDaymonthSetting != showDaymonth {
        showDaymonth := showDaymonthSetting;
      }
    }

    /**
     * getSmallTime: rebuilds the formatter when the raw pattern differs from
     * the cache key (which then holds the prepared, possibly wrapped,
     * pattern), formats, prefixes, edits and styles the text.
     */
    method GetSmallTime(env: Env) returns (r: Rendered)
      requires Valid()
      modifies this`clockFormatString, this`clockFormat
      ensures Valid()
      ensures clockFormatString == NextCacheKey(old(clockFormatString), RawPattern(env), amPmSize, showAmPmSetting)
      ensures clockFormat ==
        NextFormatter(old(clockFormatString), old(clockFormat), RawPattern(env), amPmSize, showAmPmSetting)
      ensures r == RenderLabel(clockFormat, Config(), env)
      ensures r == Failed(NullFormatter) ==> RawPattern(env) == ""
    {
      RefreshFormatter(RawPattern(env));
      if clockFormat.None? {
        return Failed(NullFormatter);
      }
      var composed := PrefixTime(env.render(clockFormat.value), Config(), env);
      if composed.None? {
        return Failed(NullLabel);
      }
      r := StyleText(composed.value, Config(), ColorFor(env.color));
    }

    /**
     * The format cache of getSmallTime: on a miss the pattern is wrapped when
     * the AM/PM text is to be resized or hidden, and both the formatter and
     * the key take the (possibly wrapped) pattern.
     */
    method RefreshFormatter(raw: string)
      requires Valid()
      modifies this`clockFormatString, this`clockFormat
      ensures MirrorsSynced() && CacheCoherent()
      ensures clockFormatString == NextCacheKey(old(clockFormatString), raw, amPmSize, showAmPmSetting)
      ensures clockFormat == NextFormatter(old(clockFormatString), old(clockFormat), raw, amPmSize, showAmPmSetting)
      ensures clockFormat.None? ==> raw == ""
    {
      if clockFormatString != Some(raw) {
        var format := PreparePattern(raw, amPmSize, showAmPmSetting);
        clockFormat := Some(format);
        clockFormatString := Some(format);
      } else if raw != "" {
        assert clockFormatString.value != "";
      }
    }
  }
}
