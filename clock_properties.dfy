/**
 * What getSmallTime promises about the label it builds: the format cache
 * settles exactly when no wrapping is needed, the sentinels bracket the
 * AM/PM text and never reach the screen, the prefixes are laid out in front
 * of the time and only ever resized, and the text colour follows the
 * status-bar luminance.
 */
module ClockProperties {
  import opened Optional
  import opened Strings
  import opened ClockPattern
  import opened SpannedText
  import opened Clock
  import ColorUtils

  // ---- The format cache ----

  /** The prepared pattern differs from the resource exactly when the AM/PM text is bracketed. */
  lemma PrepareChangesIffWrapped(raw: string, amPmSize: int, showAmPm: bool)
    ensures Prepare(raw, amPmSize, showAmPm) != raw <==> NeedsWrap(raw, amPmSize, showAmPm)
  {
    if NeedsWrap(raw, amPmSize, showAmPm) {
      assert |Prepare(raw, amPmSize, showAmPm)| == |raw| + 2;
    }
  }

  /**
   * After a render the cache key equals the resource pattern, so that the
   * next render with the same pattern reuses the formatter, exactly when it
   * already did or no bracketing is needed. A bracketed pattern is stored
   * wrapped, never matches its resource, and so is rebuilt on every render.
   */
  lemma CacheSettlesIff(key: Option<string>, raw: string, amPmSize: int, showAmPm: bool)
    ensures NextCacheKey(key, raw, amPmSize, showAmPm) == Some(raw)
      <==> key == Some(raw) || !NeedsWrap(raw, amPmSize, showAmPm)
  {
    PrepareChangesIffWrapped(raw, amPmSize, showAmPm);
  }

  /** The first character `c` of x + [c] + y is the one after x, when x has none. */
  lemma IndexOfCharAt(x: string, c: char, y: string)
    requires forall k :: 0 <= k < |x| ==> x[k] != c
    ensures IndexOfChar(x + [c] + y, c) == |x|
  {
    var s := x + [c] + y;
    assert s[|x|] == c;
    assert s[..|x|] == x;
  }

  /** In a wrapped sentinel-free pattern MAGIC1 is found at `start`. */
  lemma WrapFindsMagic1(f: string, start: int, designator: int)
    requires 0 <= start <= designator < |f| && SentinelFree(f)
    ensures IndexOfChar(Wrap(f, start, designator), Magic1) == start
  {
    var x := f[..start];
    assert SentinelFree(x) by {
      forall k | 0 <= k < |x| ensures !IsSentinel(x[k]) {
        assert x[k] == f[k];
      }
    }
    var y := f[start..designator] + [Designator] + [Magic2] + f[designator + 1..];
    assert Wrap(f, start, designator) == x + [Magic1] + y;
    IndexOfCharAt(x, Magic1, y);
  }

  /** In a wrapped sentinel-free pattern MAGIC2 is found two places after the designator. */
  lemma WrapFindsMagic2(f: string, start: int, designator: int)
    requires 0 <= start <= designator < |f| && SentinelFree(f)
    ensures IndexOfChar(Wrap(f, start, designator), Magic2) == designator + 2
  {
    var x := f[..start] + [Magic1] + f[start..designator] + [Designator];
    assert forall k :: 0 <= k < |x| ==> x[k] != Magic2 by {
      forall k | 0 <= k < |x| ensures x[k] != Magic2 {
        if k < start {
          assert x[k] == f[k];
        } else if start < k <= designator {
          assert x[k] == f[k - 1];
        }
      }
    }
    assert Wrap(f, start, designator) == x + [Magic2] + f[designator + 1..];
    IndexOfCharAt(x, Magic2, f[designator + 1..]);
  }

  /**
   * A pattern free of sentinels, once prepared, holds MAGIC1 at the start of
   * the whitespace before the designator and MAGIC2 right after the
   * designator, and no other sentinel; unprepared, it holds none.
   */
  lemma PreparedSentinels(raw: string, amPmSize: int, showAmPm: bool)
    requires SentinelFree(raw)
    ensures var p := Prepare(raw, amPmSize, showAmPm);
      NeedsWrap(raw, amPmSize, showAmPm) ==>
        var a := DesignatorIndex(raw);
        && Sentinels(p) == [Magic1, Magic2]
        && IndexOfChar(p, Magic1) == WhitespaceStart(raw, a)
        && IndexOfChar(p, Magic2) == a + 2
    ensures !NeedsWrap(raw, amPmSize, showAmPm) ==> Sentinels(Prepare(raw, amPmSize, showAmPm)) == []
  {
    if NeedsWrap(raw, amPmSize, showAmPm) {
      var a := DesignatorIndex(raw);
      var start := WhitespaceStart(raw, a);
      WrapSentinels(raw, start, a);
      WrapFindsMagic1(raw, start, a);
      WrapFindsMagic2(raw, start, a);
    } else {
      SentinelFreeIff(raw);
    }
  }

  // ---- The sentinel edit ----

  lemma FreeConcat(a: string, b: string)
    requires SentinelFree(a) && SentinelFree(b)
    ensures SentinelFree(a + b)
  {
    SentinelFreeIff(a);
    SentinelFreeIff(b);
    SentinelsAppend(a, b);
    SentinelFreeIff(a + b);
  }

  /** Text without sentinels comes out of the edit unchanged and without spans: the guard fails. */
  lemma SentinelEditUntouched(result: string, showAmPm: bool, amPmSize: int)
    requires SentinelFree(result)
    ensures SentinelEdit(result, showAmPm, amPmSize) == Styled(result, [])
  {
    assert IndexOfChar(result, Magic1) == -1;
    SentinelEditUnbracketed(result, showAmPm, amPmSize);
  }

  /**
   * The edit happens only when MAGIC1 is found and MAGIC2 after it: in every
   * other case (no sentinel, only one of them, or MAGIC2 first) the text is
   * kept as it is, without spans.
   */
  lemma SentinelEditUnbracketed(result: string, showAmPm: bool, amPmSize: int)
    requires !(IndexOfChar(result, Magic1) >= 0 && IndexOfChar(result, Magic2) > IndexOfChar(result, Magic1))
    ensures SentinelEdit(result, showAmPm, amPmSize) == Styled(result, [])
  {
  }

  /**
   * The formatter's output with one sentinel missing, or with the two in the
   * wrong order, comes out unedited.
   */
  lemma StraySentinelsUntouched(showAmPm: bool, amPmSize: int)
    ensures SentinelEdit("3:07" + [Magic1] + " PM", showAmPm, amPmSize) == Styled("3:07" + [Magic1] + " PM", [])
    ensures SentinelEdit("3:07 PM" + [Magic2], showAmPm, amPmSize) == Styled("3:07 PM" + [Magic2], [])
    ensures SentinelEdit("3:07" + [Magic2] + " PM" + [Magic1], showAmPm, amPmSize)
      == Styled("3:07" + [Magic2] + " PM" + [Magic1], [])
  {
    var only1 := "3:07" + [Magic1] + " PM";
    assert forall j :: 0 <= j < |only1| ==> only1[j] != Magic2;
    SentinelEditUnbracketed(only1, showAmPm, amPmSize);
    var only2 := "3:07 PM" + [Magic2];
    assert forall j :: 0 <= j < |only2| ==> only2[j] != Magic1;
    SentinelEditUnbracketed(only2, showAmPm, amPmSize);
    var swapped := "3:07" + [Magic2] + " PM" + [Magic1];
    assert swapped[4] == Magic2 && swapped[8] == Magic1;
    assert forall j :: 0 <= j < 4 ==> swapped[j] != Magic2;
    SentinelEditUnbracketed(swapped, showAmPm, amPmSize);
  }

  /**
   * Whenever MAGIC1 is found and the first MAGIC2 lies after it, whatever
   * other sentinels the text holds, the edit is the bracket edit at those
   * two positions.
   */
  lemma SentinelEditGuarded(result: string, m1: int, m2: int, showAmPm: bool, amPmSize: int)
    requires m1 == IndexOfChar(result, Magic1) && m2 == IndexOfChar(result, Magic2)
    requires m1 >= 0 && m2 > m1
    ensures 0 <= m1 < m2 < |result|
    ensures SentinelEdit(result, showAmPm, amPmSize) == EditBracket(result, m1, m2, showAmPm, amPmSize)
  {
  }

  /**
   * A stray second MAGIC2 lies outside the bracketed range: hiding the AM/PM
   * cuts from MAGIC1 to the first MAGIC2 and leaves the stray one on screen.
   */
  lemma StrayMagic2Kept(amPmSize: int)
    ensures SentinelEdit("3:07" + [Magic1] + " PM" + [Magic2, Magic2], false, amPmSize)
      == Styled("3:07" + [Magic2], [])
  {
    var out := "3:07" + [Magic1] + " PM" + [Magic2, Magic2];
    assert out[4] == Magic1 && out[8] == Magic2;
    assert forall j :: 0 <= j < 4 ==> out[j] != Magic1 && out[j] != Magic2;
    assert forall j :: 4 <= j < 8 ==> out[j] != Magic2;
    SentinelEditGuarded(out, 4, 8, false, amPmSize);
    assert out[..4] + out[9..] == "3:07" + [Magic2];
  }

  /**
   * With exactly MAGIC1 then MAGIC2 in the text, found at m1 and m2, the
   * edit is the bracket edit at those positions.
   */
  lemma SentinelEditIsBracket(result: string, m1: int, m2: int, showAmPm: bool, amPmSize: int)
    requires Sentinels(result) == [Magic1, Magic2]
    requires m1 == IndexOfChar(result, Magic1) && m2 == IndexOfChar(result, Magic2)
    ensures 0 <= m1 < m2 < |result|
    ensures SentinelEdit(result, showAmPm, amPmSize) == EditBracket(result, m1, m2, showAmPm, amPmSize)
  {
    SentinelPairLocated(result);
  }

  /**
   * A hidden AM/PM: with exactly MAGIC1 then MAGIC2 in the text, found at m1
   * and m2, the edit removes both and everything between them, adds no span,
   * and leaves no sentinel.
   */
  lemma SentinelEditHidden(result: string, m1: int, m2: int, amPmSize: int)
    requires Sentinels(result) == [Magic1, Magic2]
    requires m1 == IndexOfChar(result, Magic1) && m2 == IndexOfChar(result, Magic2)
    ensures 0 <= m1 < m2 < |result|
    ensures SentinelEdit(result, false, amPmSize) == Styled(result[..m1] + result[m2 + 1..], [])
    ensures SentinelFree(SentinelEdit(result, false, amPmSize).text)
  {
    SentinelPairLocated(result);
    FreeConcat(result[..m1], result[m2 + 1..]);
  }

  /** Deleting position m2 and then position m1 < m2 leaves the three pieces around them. */
  lemma DropTwoText(t: string, m1: int, m2: int)
    requires 0 <= m1 < m2 < |t|
    ensures var t1 := t[..m2] + t[m2 + 1..];
      t1[..m1] + t1[m1 + 1..] == t[..m1] + t[m1 + 1..m2] + t[m2 + 1..]
  {
    var t1 := t[..m2] + t[m2 + 1..];
    assert t1[..m1] == t[..m1];
    assert t1[m1 + 1..] == t[m1 + 1..m2] + t[m2 + 1..];
  }

  /**
   * Showing the bracketed range removes just its two ends; at the small
   * size one span covers exactly what stood between them, otherwise there
   * is no span.
   */
  lemma EditBracketShown(result: string, m1: int, m2: int, amPmSize: int, r: Styled)
    requires 0 <= m1 < m2 < |result|
    requires r == EditBracket(result, m1, m2, true, amPmSize)
    ensures r.text == result[..m1] + result[m1 + 1..m2] + result[m2 + 1..]
    ensures r.spans == if amPmSize == AmPmSizeSmall then [Span(m1, m2 - 1, SmallSize)] else []
  {
    DropTwoText(result, m1, m2);
    if amPmSize == AmPmSizeSmall {
      assert ShiftAll([Span(m1, m2, SmallSize)], m2, m2 + 1) == [Span(m1, m2, SmallSize)];
    }
  }

  /**
   * A shown AM/PM: with exactly MAGIC1 then MAGIC2 in the text, found at m1
   * and m2, the edit removes just the two sentinels; at the small size one
   * RelativeSizeSpan covers exactly the text that stood between them, at any
   * other size there is no span; no sentinel is left.
   */
  lemma SentinelEditShown(result: string, m1: int, m2: int, amPmSize: int)
    requires Sentinels(result) == [Magic1, Magic2]
    requires m1 == IndexOfChar(result, Magic1) && m2 == IndexOfChar(result, Magic2)
    ensures 0 <= m1 < m2 < |result|
    ensures SentinelEdit(result, true, amPmSize).text == result[..m1] + result[m1 + 1..m2] + result[m2 + 1..]
    ensures SentinelEdit(result, true, amPmSize).spans ==
      if amPmSize == AmPmSizeSmall then [Span(m1, m2 - 1, SmallSize)] else []
    ensures SentinelEdit(result, true, amPmSize).text[m1..m2 - 1] == result[m1 + 1..m2]
    ensures SentinelFree(SentinelEdit(result, true, amPmSize).text)
  {
    SentinelPairLocated(result);
    SentinelEditIsBracket(result, m1, m2, true, amPmSize);
    ShownBracket(result, m1, m2, amPmSize, SentinelEdit(result, true, amPmSize));
  }

  /** SentinelEditShown for known sentinel positions with sentinel-free text around them; `r` is the edit. */
  lemma ShownBracket(result: string, m1: int, m2: int, amPmSize: int, r: Styled)
    requires 0 <= m1 < m2 < |result|
    requires SentinelFree(result[..m1]) && SentinelFree(result[m1 + 1..m2]) && SentinelFree(result[m2 + 1..])
    requires r == EditBracket(result, m1, m2, true, amPmSize)
    ensures r.text == result[..m1] + result[m1 + 1..m2] + result[m2 + 1..]
    ensures r.spans == (if amPmSize == AmPmSizeSmall then [Span(m1, m2 - 1, SmallSize)] else [])
    ensures r.text[m1..m2 - 1] == result[m1 + 1..m2]
    ensures SentinelFree(r.text)
  {
    EditBracketShown(result, m1, m2, amPmSize, r);
    FreeConcat(result[..m1], result[m1 + 1..m2]);
    FreeConcat(result[..m1] + result[m1 + 1..m2], result[m2 + 1..]);
    assert r.text[m1..m2 - 1] == result[m1 + 1..m2];
  }

  /** Hiding the AM/PM removes from the shown text exactly the part the small span would cover. */
  lemma HidingRemovesTheShownAmPm(result: string, m1: int, m2: int, amPmSize: int)
    requires Sentinels(result) == [Magic1, Magic2]
    requires m1 == IndexOfChar(result, Magic1) && m2 == IndexOfChar(result, Magic2)
    ensures 0 <= m1 < m2 < |result|
    ensures |SentinelEdit(result, true, amPmSize).text| == |result| - 2
    ensures SentinelEdit(result, false, amPmSize).text ==
      SentinelEdit(result, true, amPmSize).text[..m1] + SentinelEdit(result, true, amPmSize).text[m2 - 1..]
  {
    SentinelEditHidden(result, m1, m2, amPmSize);
    SentinelEditShown(result, m1, m2, amPmSize);
    var shown := SentinelEdit(result, true, amPmSize).text;
    assert shown[..m1] == result[..m1];
    assert shown[m2 - 1..] == result[m2 + 1..];
  }

  /** Either way, an edited text whose sentinels are none or exactly the pair shows no sentinel. */
  lemma SentinelEditClears(result: string, showAmPm: bool, amPmSize: int)
    requires Sentinels(result) == [] || Sentinels(result) == [Magic1, Magic2]
    ensures SentinelFree(SentinelEdit(result, showAmPm, amPmSize).text)
  {
    if Sentinels(result) == [] {
      SentinelFreeIff(result);
      SentinelEditUntouched(result, showAmPm, amPmSize);
    } else if showAmPm {
      SentinelEditShown(result, IndexOfChar(result, Magic1), IndexOfChar(result, Magic2), amPmSize);
    } else {
      SentinelEditHidden(result, IndexOfChar(result, Magic1), IndexOfChar(result, Magic2), amPmSize);
    }
  }

  // ---- The prefixes ----

  /** A render ends in NullLabel exactly when a shown prefix has no resource for its day or month. */
  lemma PrefixFailsIff(time: string, cfg: DisplayConfig, env: Env)
    ensures AddPrefixes(time, cfg, env).None? <==>
      && cfg.showMore
      && ((cfg.showDaymonth && !(0 <= env.month <= 11))
          || (cfg.showWeekday && !(WeekdayFormatShort <= cfg.weekdayFormat <= WeekdayFormatLong && 1 <= env.dayOfWeek <= 7)))
  {
  }

  /**
   * The prefixed text is the weekday label (when shown), then the day of
   * month, a space and the month label (when shown), then the formatted
   * time; a label is remembered exactly when it is shown.
   */
  lemma PrefixLayout(time: string, cfg: DisplayConfig, env: Env)
    requires AddPrefixes(time, cfg, env).Some?
    ensures var c := AddPrefixes(time, cfg, env).value;
      && (c.currentDay.Some? <==> cfg.showMore && cfg.showWeekday)
      && (c.currentMonth.Some? <==> cfg.showMore && cfg.showDaymonth)
      && c.result == c.currentDay.GetOr("") + DayMonthPrefix(c.currentMonth, env.dayOfMonth) + time
  {
  }

  /**
   * The day-of-month prefix: digits, a space and the month label, or nothing.
   * This is the reference definition of that piece of the layout, written
   * apart from the step-by-step construction in AddPrefixes; PrefixLayout
   * proves the two agree.
   */
  function DayMonthPrefix(month: Option<string>, dayOfMonth: nat): (r: string)
    ensures month.Some? ==> |r| == |Decimal(dayOfMonth)| + 1 + |month.value|
    ensures month.None? ==> r == ""
  {
    if month.Some? then Decimal(dayOfMonth) + " " + month.value else ""
  }

  /** The labels of `env` for `cfg` hold no sentinel. */
  predicate LabelsSentinelFree(cfg: DisplayConfig, env: Env) {
    && (GetDay(cfg.weekdayFormat, env.dayOfWeek, env.names).Some? ==>
          SentinelFree(GetDay(cfg.weekdayFormat, env.dayOfWeek, env.names).value))
    && (GetMonth(env.month, env.names).Some? ==> SentinelFree(GetMonth(env.month, env.names).value))
  }

  /** Decimal digits and spaces are not sentinels. */
  lemma DigitsSentinelFree(n: nat)
    ensures SentinelFree(Decimal(n) + " ")
  {
    var d := Decimal(n) + " ";
    forall k | 0 <= k < |d| ensures !IsSentinel(d[k]) {
      if k < |Decimal(n)| {
        assert IsDigit(Decimal(n)[k]);
      }
    }
  }

  /** Prefixing adds no sentinel: the prefixed text has exactly the sentinels of the time. */
  lemma PrefixesAddNoSentinel(time: string, cfg: DisplayConfig, env: Env)
    requires AddPrefixes(time, cfg, env).Some? && LabelsSentinelFree(cfg, env)
    ensures Sentinels(AddPrefixes(time, cfg, env).value.result) == Sentinels(time)
  {
    var c := AddPrefixes(time, cfg, env).value;
    PrefixLayout(time, cfg, env);
    var day := c.currentDay.GetOr("");
    var dm := DayMonthPrefix(c.currentMonth, env.dayOfMonth);
    assert SentinelFree(day);
    assert SentinelFree(dm) by {
      if c.currentMonth.Some? {
        DigitsSentinelFree(env.dayOfMonth);
        FreeConcat(Decimal(env.dayOfMonth) + " ", c.currentMonth.value);
      }
    }
    FreeConcat(day, dm);
    SentinelFreeIff(day + dm);
    SentinelsAppend(day + dm, time);
    assert c.result == (day + dm) + time;
  }

  // ---- Styling the prefixes ----

  /**
   * A label that occurs at `q` and is shown at the small size gets one
   * RelativeSizeSpan, from its first to the end of its last occurrence,
   * which covers that occurrence; the styling fails exactly when that range
   * does not fit the text.
   */
  lemma SmallLabelCovers(s: Styled, result: string, name: string, q: int)
    requires OccursAt(result, name, q)
    ensures var r := StyleLabel(s, result, Some(name), LabelSizeSmall, true);
      && var lo, hi := IndexOf(result, name), LastIndexOf(result, name) + |name|;
      && 0 <= lo <= q && q + |name| <= hi <= |result|
      && (r.Some? <==> hi <= |s.text|)
      && (r.Some? ==> r.value == AddSpan(s, Span(lo, hi, SmallSize)))
  {
    var lo, last := IndexOf(result, name), LastIndexOf(result, name);
    assert lo != -1 && lo <= q;
    assert last != -1 && q <= last;
  }

  /** The spans of `r` are those of `s` followed by RelativeSizeSpans only, over the same text. */
  predicate OnlyResized(s: Styled, r: Styled) {
    && r.text == s.text
    && |s.spans| <= |r.spans|
    && r.spans[..|s.spans|] == s.spans
    && forall k :: |s.spans| <= k < |r.spans| ==> r.spans[k].style == SmallSize
  }

  /** A label styled only when it is shown is never deleted, only resized. */
  lemma ShownLabelOnlyResized(s: Styled, result: string, name: Option<string>, size: int, shown: bool)
    requires name.Some? ==> shown
    ensures var r := StyleLabel(s, result, name, size, shown);
      r.Some? ==> OnlyResized(s, r.value)
  {
    var r := StyleLabel(s, result, name, size, shown);
    if r.Some? && r.value != s {
      assert r.value.spans[..|s.spans|] == s.spans;
    }
  }

  /**
   * The prefix styling never deletes: a label is remembered only when it is
   * shown, so the hiding branches cannot run, and the styling keeps the text
   * and only appends RelativeSizeSpans.
   */
  lemma PrefixStylingOnlyResizes(s: Styled, time: string, cfg: DisplayConfig, env: Env)
    requires AddPrefixes(time, cfg, env).Some?
    ensures var c := AddPrefixes(time, cfg, env).value;
      var r := StylePrefixes(s, c, cfg);
      r.Some? ==> OnlyResized(s, r.value)
  {
    var c := AddPrefixes(time, cfg, env).value;
    PrefixLayout(time, cfg, env);
    if cfg.showMore {
      ShownLabelOnlyResized(s, c.result, c.currentDay, cfg.weekdaySize, cfg.showWeekday);
      var s1 := StyleLabel(s, c.result, c.currentDay, cfg.weekdaySize, cfg.showWeekday);
      if s1.Some? {
        ShownLabelOnlyResized(s1.value, c.result, c.currentMonth, cfg.daymonthSize, cfg.showDaymonth);
        var r := StylePrefixes(s, c, cfg);
        if r.Some? {
          ResizedTwice(s, s1.value, r.value);
        }
      }
    }
  }

  /** Resizing twice is resizing. */
  lemma ResizedTwice(s: Styled, s1: Styled, s2: Styled)
    requires OnlyResized(s, s1) && OnlyResized(s1, s2)
    ensures OnlyResized(s, s2)
  {
    assert s2.spans[..|s.spans|] == s1.spans[..|s1.spans|][..|s.spans|];
    forall k | |s.spans| <= k < |s2.spans| ensures s2.spans[k].style == SmallSize {
      if k < |s1.spans| {
        assert s2.spans[k] == s2.spans[..|s1.spans|][k];
      }
    }
  }

  // ---- The whole render ----

  /**
   * A rendered label is well formed and its last span paints all of its
   * text in the colour chosen for the status bar.
   */
  lemma RenderedLabelColored(formatter: Option<string>, cfg: DisplayConfig, env: Env)
    ensures var r := RenderLabel(formatter, cfg, env);
      r.Label? ==>
        && WellFormed(r.styled)
        && |r.styled.spans| >= 1
        && r.styled.spans[|r.styled.spans| - 1] == Span(0, |r.styled.text|, Foreground(ColorFor(env.color)))
  {
  }

  /**
   * No sentinel reaches the screen: when the formatter's output carries the
   * sentinels of its pattern, that pattern has none or exactly the pair, and
   * the labels have none, the rendered text has none.
   */
  lemma NoSentinelOnScreen(p: string, cfg: DisplayConfig, env: Env)
    requires Sentinels(env.render(p)) == Sentinels(p)
    requires Sentinels(p) == [] || Sentinels(p) == [Magic1, Magic2]
    requires LabelsSentinelFree(cfg, env)
    ensures var r := RenderLabel(Some(p), cfg, env);
      r.Label? ==> SentinelFree(r.styled.text)
  {
    var time := env.render(p);
    if AddPrefixes(time, cfg, env).Some? {
      var c := AddPrefixes(time, cfg, env).value;
      PrefixesAddNoSentinel(time, cfg, env);
      SentinelEditClears(c.result, cfg.showAmPm, cfg.amPmSize);
      PrefixStylingOnlyResizes(SentinelEdit(c.result, cfg.showAmPm, cfg.amPmSize), time, cfg, env);
    }
  }

  /**
   * After the cache step of a render from a sentinel-free, non-empty
   * resource, with the formatter matching any non-blank cache key, there is
   * a formatter, and its pattern has no sentinel or exactly the pair.
   */
  lemma RefreshedFormatterBracketed(key: Option<string>, formatter: Option<string>, raw: string, amPmSize: int, showAmPm: bool)
    requires key.Some? && key.value != "" ==> formatter == key
    requires SentinelFree(raw) && raw != ""
    ensures var f := NextFormatter(key, formatter, raw, amPmSize, showAmPm);
      && f.Some?
      && (Sentinels(f.value) == [] || Sentinels(f.value) == [Magic1, Magic2])
  {
    if key == Some(raw) {
      SentinelFreeIff(raw);
    } else {
      PreparedSentinelShape(raw, amPmSize, showAmPm);
    }
  }

  /** A prepared sentinel-free pattern holds no sentinel or exactly the pair. */
  lemma PreparedSentinelShape(raw: string, amPmSize: int, showAmPm: bool)
    requires SentinelFree(raw)
    ensures Sentinels(Prepare(raw, amPmSize, showAmPm)) == []
      || Sentinels(Prepare(raw, amPmSize, showAmPm)) == [Magic1, Magic2]
  {
    PreparedSentinels(raw, amPmSize, showAmPm);
  }

  /**
   * getSmallTime with a sentinel-free, non-empty pattern resource, a
   * formatter that copies the sentinels of its pattern through, and
   * sentinel-free labels, never fails for a missing formatter and shows no
   * sentinel.
   */
  lemma SmallTimeShowsNoSentinel(key: Option<string>, formatter: Option<string>, cfg: DisplayConfig, env: Env)
    requires key.Some? && key.value != "" ==> formatter == key
    requires SentinelFree(RawPattern(env)) && RawPattern(env) != ""
    requires forall p :: Sentinels(env.render(p)) == Sentinels(p)
    requires LabelsSentinelFree(cfg, env)
    ensures var f := NextFormatter(key, formatter, RawPattern(env), cfg.amPmSize, cfg.showAmPm);
      var r := RenderLabel(f, cfg, env);
      && r != Failed(NullFormatter)
      && (r.Label? ==> SentinelFree(r.styled.text))
  {
    RefreshedFormatterBracketed(key, formatter, RawPattern(env), cfg.amPmSize, cfg.showAmPm);
    var f := NextFormatter(key, formatter, RawPattern(env), cfg.amPmSize, cfg.showAmPm);
    NoSentinelOnScreen(f.value, cfg, env);
  }

  // ---- The text colour ----

  /**
   * getColor agrees with ColorUtils.getColorLuminance of the opaque colour
   * with the same channels: black text exactly when that luminance is 128
   * or more.
   */
  lemma ColorForMatchesLuminance(rgb: Rgb)
    ensures ColorFor(rgb) == Black <==>
      ColorUtils.ColorLuminance(ColorUtils.Argb(255, rgb.red, rgb.green, rgb.blue)) >= 128
  {
    ColorUtils.ChannelsOfArgb(255, rgb.red, rgb.green, rgb.blue);
  }

  /** A lighter status bar never turns black text white. */
  lemma ColorForMonotone(darker: Rgb, lighter: Rgb)
    requires darker.red <= lighter.red && darker.green <= lighter.green && darker.blue <= lighter.blue
    ensures ColorFor(darker) == Black ==> ColorFor(lighter) == Black
  {
  }

  /** Black text on white, white text on black. */
  lemma ColorForExtremes()
    ensures ColorFor(Rgb(255, 255, 255)) == Black
    ensures ColorFor(Rgb(0, 0, 0)) == White
  {
  }

  // ---- A worked example ----

  /**
   * The 12-hour pattern "h:mm a" with the small AM/PM: the scan finds the
   * designator at 5, widening takes in the space at 4, and the sentinels
   * bracket " a".
   */
  lemma TwelveHourPrepared()
    ensures Prepare("h:mm a", AmPmSizeSmall, true) == "h:mm" + [Magic1] + " a" + [Magic2]
  {
    var raw := "h:mm a";
    assert forall k :: 0 <= k < |raw| ==> raw[k] != Quote;
    assert forall k :: 0 <= k < 5 ==> raw[k] != Designator;
    assert raw[5] == Designator;
    forall j | 0 <= j <= 5 ensures QuoteCount(raw[..j]) == 0 {
      QuoteFree(raw[..j]);
    }
    assert IsUnquotedDesignator(raw, 5);
    DesignatorIndexIsFirst(raw, 5);
    assert WhitespaceStart(raw, 5) == 4;
  }

  /** A text without quotes has quote count zero. */
  lemma {:induction false} QuoteFree(s: string)
    requires forall k :: 0 <= k < |s| ==> s[k] != Quote
    ensures QuoteCount(s) == 0
  {
    if s != [] {
      QuoteFree(s[..|s| - 1]);
    }
  }

  /**
   * Its rendering "3:07\uEF00 PM\uEF01": shown small, " PM" keeps its place and
   * is covered by the small span; hidden, it is cut away with the sentinels.
   */
  lemma TwelveHourEdited()
    ensures SentinelEdit("3:07" + [Magic1] + " PM" + [Magic2], true, AmPmSizeSmall)
      == Styled("3:07 PM", [Span(4, 7, SmallSize)])
    ensures SentinelEdit("3:07" + [Magic1] + " PM" + [Magic2], false, AmPmSizeSmall)
      == Styled("3:07", [])
  {
    var out := "3:07" + [Magic1] + " PM" + [Magic2];
    assert out[4] == Magic1 && out[8] == Magic2;
    assert forall j :: 0 <= j < 4 ==> out[j] != Magic1 && out[j] != Magic2;
    assert forall j :: 4 <= j < 8 ==> out[j] != Magic2;
  }
}
