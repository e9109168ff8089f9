# Status-bar clock label, modelled in Dafny

This project models the status-bar clock of SystemUI and the colour helpers
next to it:

- **Clock** (`Clock.java`). The clock keeps the user's display settings:
  - the AM/PM size and visibility;
  - the weekday size, format and visibility;
  - the day/month size and visibility.
  It holds each setting twice: once as read from the system settings
  (`mAmPmSize`, `mShowAmPm`, …) and once as a mirror (`AM_PM_SIZE`,
  `SHOW_AM_PM`, …). It also caches the time pattern it last prepared
  (`mClockFormatString`) and the formatter built from it (`mClockFormat`).
- **getSmallTime** builds the label in these steps:
  1. It finds the unquoted `a` designator in the pattern.
  2. It widens that range over the whitespace before the designator.
  3. It brackets the range with two private-use sentinels, MAGIC1 (U+EF00) and MAGIC2 (U+EF01).
  4. It formats the time.
  5. It puts the optional weekday and day-of-month/month labels in front.
  6. It finds the sentinels again. It then either cuts the AM/PM text away, or keeps it and shrinks it.
  7. It shrinks the prefix labels.
  8. It paints the whole text black or white, depending on the luma of the status-bar colour (getColor).
- **ColorUtils** (`ColorUtils.java`) provides three functions:
  - integer luminance;
  - luminance difference;
  - channel-wise colour difference.
  It also provides the complementary-colour choice. As written, that choice always returns holo_purple.

The Dafny modules are:

| module | file | what it holds |
|---|---|---|
| `Optional` | `optional.dfy` | the Option type; Java's null is `None` |
| `Strings` | `strings.dfy` | the java.lang.String and Character operations the label code uses |
| `ColorUtils` | `color_utils.dfy` | ColorUtils, with colours as 32-bit ARGB integers |
| `SpannedText` | `spanned_text.dfy` | SpannableStringBuilder as a class, plus text-and-spans values |
| `ClockPattern` | `clock_pattern.dfy` | the designator scan, the whitespace widening and the sentinel wrap |
| `Clock` | `clock.dfy` | the class `Clock.Clock` (fields, constructor, updateSettings, getSmallTime), the value functions that describe one render, and the methods that perform it on a builder |
| `ClockProperties` | `clock_properties.dfy` | the lemmas about the render |

How the model is built:

- **One render as a value.** `RenderLabel` describes one render as a value.
  `Clock.Clock.GetSmallTime` performs the render step by step on a
  `SpannedText.Builder`. It is proved to yield exactly `RenderLabel` and to
  leave the format cache as `NextCacheKey` and `NextFormatter` say.
- **Exceptions.** A Java exception that ends a render is a `Failed` result:
  - `NullFormatter`: the formatter is still null;
  - `NullLabel`: `getDay` or `getMonth` upper-cases a null name;
  - `SpanOutOfBounds`: setSpan or delete is given a range outside the text.

Points where the model follows the code literally:

- **The format cache.** A bracketed pattern is stored in `mClockFormatString`
  in its bracketed form. It therefore never equals the resource pattern, and
  the formatter is rebuilt on every render. `CacheSettlesIff` states this.
- **Which field each step reads.** getSmallTime takes two kinds of
  decision:
  - the AM/PM, weekday and day/month *size* decisions read the mirrors
    (`AM_PM_SIZE`, `WEEKDAY_SIZE`, `DAYMONTH_SIZE`);
  - the *visibility* decisions read the settings fields (`mShowAmPm`,
    `mShowWeekday`, `mShowDaymonth`).

  `Clock.Clock.Config` reads exactly those fields.
- **No prefix is ever deleted.** A prefix label is remembered only when it is
  shown, so the branches of getSmallTime that would delete a hidden prefix can
  never run. `PrefixStylingOnlyResizes` proves this.

## Model

| member | source | states |
|---|---|---|
| `ColorUtils.Red` | core/java/android/util/ColorUtils.java:49 | Color.red of a colour is a channel in 0..255 |
| `ColorUtils.Green` | core/java/android/util/ColorUtils.java:50 | Color.green of a colour is a channel in 0..255 |
| `ColorUtils.Blue` | core/java/android/util/ColorUtils.java:51 | Color.blue of a colour is a channel in 0..255 |
| `ColorUtils.ChannelsOfArgb` | core/java/android/util/ColorUtils.java:49-51 | red, green and blue recover the three channels of a packed ARGB colour |
| `ColorUtils.Luma` | core/java/android/util/ColorUtils.java:52 | the integer luma (299r + 587g + 114b) / 1000 of channels in range lies in 0..255 |
| `ColorUtils.LumaMonotone` | core/java/android/util/ColorUtils.java:52 | raising channels never lowers the luma |
| `ColorUtils.ColorLuminance` | core/java/android/util/ColorUtils.java:45-53 | getColorLuminance lies in 0..255 for every colour |
| `ColorUtils.LuminanceDifference` | core/java/android/util/ColorUtils.java:55-59 | getLuminanceDifference lies in 0..255 |
| `ColorUtils.LuminanceDifferenceSymmetric` | core/java/android/util/ColorUtils.java:55-59 | getLuminanceDifference does not depend on argument order |
| `ColorUtils.LuminanceDifferenceIsDistance` | core/java/android/util/ColorUtils.java:55-59 | getLuminanceDifference is the absolute difference of the two luminances, and 0 exactly when they are equal |
| `ColorUtils.ColorDifference` | core/java/android/util/ColorUtils.java:61-67 | getColorDifference lies in 0..765 |
| `ColorUtils.Max` | core/java/android/util/ColorUtils.java:58-66 | Math.max is one of its arguments and at least both |
| `ColorUtils.Min` | core/java/android/util/ColorUtils.java:58-66 | Math.min is one of its arguments and at most both |
| `ColorUtils.ColorDifferenceSymmetric` | core/java/android/util/ColorUtils.java:61-67 | getColorDifference does not depend on argument order |
| `ColorUtils.ColorDifferenceZeroIff` | core/java/android/util/ColorUtils.java:61-67 | getColorDifference is 0 exactly when all three channels agree |
| `ColorUtils.ComplementaryColor` | core/java/android/util/ColorUtils.java:69-70 | getComplementaryColor returns holo_purple for every background, and holo_purple is one of AVAILABLE_COLORS |
| `Strings.IndexOfChar` | packages/SystemUI/src/com/android/systemui/statusbar/policy/Clock.java:299-300 | indexOf(char) yields a position that holds the character with none before it, or -1 when the character does not occur |
| `Strings.IsWhitespace` | packages/SystemUI/src/com/android/systemui/statusbar/policy/Clock.java:261 | Character.isWhitespace: the Unicode space, line and paragraph separators other than the three no-break spaces, plus the controls U+0009..U+000D and U+001C..U+001F |
| `Strings.IndexOf` | packages/SystemUI/src/com/android/systemui/statusbar/policy/Clock.java:319 | indexOf(String) yields the first occurrence, or -1 when there is none |
| `Strings.LastIndexOf` | packages/SystemUI/src/com/android/systemui/statusbar/policy/Clock.java:319 | lastIndexOf(String) yields an occurrence with none after it, or -1 when there is none |
| `Strings.Decimal` | packages/SystemUI/src/com/android/systemui/statusbar/policy/Clock.java:284 | String.valueOf of the day of month is a non-empty string of decimal digits that denotes the number, with no leading zero, one digit below 10 |
| `SpannedText.DeleteRange` | packages/SystemUI/src/com/android/systemui/statusbar/policy/Clock.java:303 | delete(st, en) shortens the text by en - st and keeps every span inside the text |
| `SpannedText.ShiftPoint` | packages/SystemUI/src/com/android/systemui/statusbar/policy/Clock.java:310-311 | where delete moves one span end point; ShiftPointBounds, ShiftPointMonotone and ShiftKeepsFit state its properties |
| `SpannedText.ShiftPointBounds` | packages/SystemUI/src/com/android/systemui/statusbar/policy/Clock.java:310-311 | a deletion moves a span end point left by at most the deleted length, and never before the start of the deleted range when the point was not before it |
| `SpannedText.ShiftAll` | packages/SystemUI/src/com/android/systemui/statusbar/policy/Clock.java:310-311 | a deletion keeps the number, order and styles of the spans; each end point moves left by at most the deleted length; and a span keeps its start before its end |
| `SpannedText.ShiftKeepsFit` | packages/SystemUI/src/com/android/systemui/statusbar/policy/Clock.java:310-311 | a span that fits the text still fits after a deletion |
| `SpannedText.ShiftPointMonotone` | packages/SystemUI/src/com/android/systemui/statusbar/policy/Clock.java:310-311 | a deletion keeps the order of any two span end points |
| `SpannedText.Builder.constructor` | packages/SystemUI/src/com/android/systemui/statusbar/policy/Clock.java:297 | new SpannableStringBuilder(result) holds the text and no span |
| `SpannedText.Builder.Delete` | packages/SystemUI/src/com/android/systemui/statusbar/policy/Clock.java:303 | delete changes the builder exactly as DeleteRange describes |
| `SpannedText.Builder.SetSpan` | packages/SystemUI/src/com/android/systemui/statusbar/policy/Clock.java:307-308 | setSpan succeeds exactly when the range fits the text and then appends the span; otherwise it changes nothing |
| `SpannedText.AddSpan` | packages/SystemUI/src/com/android/systemui/statusbar/policy/Clock.java:307-308 | attaching a span that fits keeps every span inside the text |
| `ClockPattern.FindDesignator` | packages/SystemUI/src/com/android/systemui/statusbar/policy/Clock.java:244-256 | the quote-toggling scan returns the first `a` with an even number of quotes before it, or -1 when there is none |
| `ClockPattern.DesignatorIndexIsFirst` | packages/SystemUI/src/com/android/systemui/statusbar/policy/Clock.java:246-256 | the first unquoted `a` is unique: any position with that description is DesignatorIndex |
| `ClockPattern.WhitespaceStart` | packages/SystemUI/src/com/android/systemui/statusbar/policy/Clock.java:258-263 | the widened start is at most the designator, everything between them is whitespace, and the character before the start is not whitespace |
| `ClockPattern.WidenOverWhitespace` | packages/SystemUI/src/com/android/systemui/statusbar/policy/Clock.java:260-263 | the widening loop stops at WhitespaceStart |
| `ClockPattern.Wrap` | packages/SystemUI/src/com/android/systemui/statusbar/policy/Clock.java:264-265 | the sentinel wrap of the pattern; WrapRoundTrip and WrapSentinels state its content |
| `ClockPattern.WrapRoundTrip` | packages/SystemUI/src/com/android/systemui/statusbar/policy/Clock.java:264-265 | the wrapped pattern is two characters longer, holds MAGIC1 at the start and MAGIC2 right after the designator, brackets exactly the widened range, and yields the original pattern once both sentinels are removed |
| `ClockPattern.WrapSentinels` | packages/SystemUI/src/com/android/systemui/statusbar/policy/Clock.java:264-265 | wrapping a sentinel-free pattern puts exactly MAGIC1 and then MAGIC2 into it |
| `ClockPattern.SentinelPairLocated` | packages/SystemUI/src/com/android/systemui/statusbar/policy/Clock.java:299-301 | a text whose sentinels are exactly MAGIC1 then MAGIC2 has them at two found positions m1 < m2, with no sentinel anywhere else |
| `Clock.Prepare` | packages/SystemUI/src/com/android/systemui/statusbar/policy/Clock.java:243-266 | the prepared pattern is the resource pattern unless wrapping is needed, and is then two characters longer |
| `Clock.RawPattern` | packages/SystemUI/src/com/android/systemui/statusbar/policy/Clock.java:223-236 | the pattern resource getSmallTime formats with: the 24-hour pattern when the system is in 24-hour mode, the 12-hour pattern otherwise |
| `Clock.Clock.Config` | packages/SystemUI/src/com/android/systemui/statusbar/policy/Clock.java:243-331 | the fields getSmallTime consults, read as it reads them: the size decisions (wrap, AM/PM, weekday, day/month) read the mirrors AM_PM_SIZE, WEEKDAY_SIZE, WEEKDAY_FORMAT and DAYMONTH_SIZE, the visibility decisions read mShowAmPm, mShowWeekday and mShowDaymonth, and mShowMore gates the prefixes |
| `Clock.NeedsWrap` | packages/SystemUI/src/com/android/systemui/statusbar/policy/Clock.java:243-258 | the wrap condition: the AM/PM size mirror is not normal or mShowAmPm is off, and an unquoted `a` exists; PrepareChangesIffWrapped ties it to the prepared pattern |
| `Clock.NextCacheKey` | packages/SystemUI/src/com/android/systemui/statusbar/policy/Clock.java:237-273 | mClockFormatString after a render: kept on a hit, the prepared pattern on a miss; CacheSettlesIff states when it settles |
| `Clock.NextFormatter` | packages/SystemUI/src/com/android/systemui/statusbar/policy/Clock.java:237-273 | the pattern of mClockFormat after a render; RefreshedFormatterBracketed states that it exists and holds no sentinel or exactly the pair |
| `Clock.PreparePattern` | packages/SystemUI/src/com/android/systemui/statusbar/policy/Clock.java:243-266 | the scan, the widening and the wrap together produce Prepare |
| `Clock.GetDay` | packages/SystemUI/src/com/android/systemui/statusbar/policy/Clock.java:362-442 | getDay yields a label exactly for formats 0..2 and days 1..7; the label is the upper-cased name followed by one space; it is None (the crash) otherwise |
| `Clock.GetMonth` | packages/SystemUI/src/com/android/systemui/statusbar/policy/Clock.java:444-485 | getMonth yields a label exactly for months 0..11; the label is the upper-cased medium name followed by one space |
| `Clock.PrefixTime` | packages/SystemUI/src/com/android/systemui/statusbar/policy/Clock.java:276-295 | the prefixing step computes AddPrefixes |
| `Clock.AddPrefixes` | packages/SystemUI/src/com/android/systemui/statusbar/policy/Clock.java:279-295 | the prefixed text as a value; PrefixLayout and PrefixFailsIff state its layout and its failure case |
| `Clock.SentinelEdit` | packages/SystemUI/src/com/android/systemui/statusbar/policy/Clock.java:299-313 | the edit found through the two indexOf calls keeps all spans inside the text; SentinelEditGuarded gives its result when the guard holds (whatever stray sentinels remain) and SentinelEditUnbracketed when it fails |
| `Clock.EditAt` | packages/SystemUI/src/com/android/systemui/statusbar/policy/Clock.java:301-313 | the edit at given sentinel positions keeps all spans inside the text; when MAGIC1 is missing or MAGIC2 is not after it, the text is left unedited (SentinelEditUnbracketed) |
| `Clock.EditBracket` | packages/SystemUI/src/com/android/systemui/statusbar/policy/Clock.java:302-312 | hiding, or shrinking and unwrapping, the bracketed range keeps all spans inside the text |
| `Clock.ApplySentinelEdit` | packages/SystemUI/src/com/android/systemui/statusbar/policy/Clock.java:297-313 | the edits on the builder yield exactly SentinelEdit |
| `Clock.ApplyBracketEdit` | packages/SystemUI/src/com/android/systemui/statusbar/policy/Clock.java:302-312 | the deletions and the span on the builder yield exactly EditBracket |
| `Clock.StyleLabel` | packages/SystemUI/src/com/android/systemui/statusbar/policy/Clock.java:316-324 | styling one prefix label keeps every span inside the text |
| `Clock.ApplyLabelStyle` | packages/SystemUI/src/com/android/systemui/statusbar/policy/Clock.java:316-324 | on the builder, a label styling fails exactly where StyleLabel does, and otherwise yields StyleLabel |
| `Clock.ApplyPrefixStyles` | packages/SystemUI/src/com/android/systemui/statusbar/policy/Clock.java:315-337 | on the builder, the weekday and then the day/month styling fails exactly where StylePrefixes does, and otherwise yields StylePrefixes |
| `Clock.StylePrefixes` | packages/SystemUI/src/com/android/systemui/statusbar/policy/Clock.java:315-337 | the weekday and day/month styling keeps every span inside the text |
| `Clock.ColorFor` | packages/SystemUI/src/com/android/systemui/statusbar/policy/Clock.java:356-358 | getColor chooses black exactly when 299r + 587g + 114b is at least 128000, i.e. when the integer luma is at least 128 |
| `Clock.Colorize` | packages/SystemUI/src/com/android/systemui/statusbar/policy/Clock.java:338-339 | the colour span keeps a well-formed label well formed |
| `Clock.StyleText` | packages/SystemUI/src/com/android/systemui/statusbar/policy/Clock.java:297-340 | the styling half of getSmallTime on a builder yields exactly StyleComposed |
| `Clock.StyleComposed` | packages/SystemUI/src/com/android/systemui/statusbar/policy/Clock.java:297-340 | the styling half of getSmallTime as a value; RenderedLabelColored and NoSentinelOnScreen state what it yields |
| `Clock.RenderLabel` | packages/SystemUI/src/com/android/systemui/statusbar/policy/Clock.java:274-340 | one render from the formatter pattern as a value; GetSmallTime is proved to return it, and SmallTimeShowsNoSentinel states that it shows no sentinel |
| `Clock.Clock.constructor` | packages/SystemUI/src/com/android/systemui/statusbar/policy/Clock.java:149-164 | the field defaults and then updateSettings. With mShowMore, every setting takes its system value or default and each mirror equals its setting. Without it, the weekday and day/month settings keep their zero defaults and the mirrors keep WEEKDAY_SIZE_SMALL, WEEKDAY_FORMAT_MEDIUM, SMALL and hidden. Config() is stated outright in both cases. The formatter is null, and the cache key is blank exactly when the AM/PM settings differ from the defaults AM_PM_SIZE_SMALL and SHOW_AM_PM false |
| `Clock.Clock.UpdateSettings` | packages/SystemUI/src/com/android/systemui/statusbar/policy/Clock.java:487-544 | the settings are read with their defaults, and the weekday and day/month ones only with mShowMore; afterwards the AM/PM mirrors, and with mShowMore also the weekday and day/month mirrors, equal their settings, while without mShowMore those extra mirrors keep their values; the cache key is blanked exactly when the AM/PM size or visibility changed |
| `Clock.Clock.ReadSettings` | packages/SystemUI/src/com/android/systemui/statusbar/policy/Clock.java:490-507 | each settings field takes the system value or its default; without mShowMore the weekday and day/month fields are untouched |
| `Clock.Clock.SyncMirrors` | packages/SystemUI/src/com/android/systemui/statusbar/policy/Clock.java:509-539 | the AM/PM mirrors take their settings' values, and with mShowMore so do the weekday and day/month mirrors (without it those keep their values); a changed AM/PM size or visibility blanks the cache key |
| `Clock.Clock.SyncExtraMirrors` | packages/SystemUI/src/com/android/systemui/statusbar/policy/Clock.java:519-539 | the weekday and day/month mirrors equal their settings |
| `Clock.Clock.RefreshFormatter` | packages/SystemUI/src/com/android/systemui/statusbar/policy/Clock.java:235-273 | a cache hit keeps key and formatter; a miss stores the prepared pattern in both; a null formatter remains only for an empty resource |
| `Clock.Clock.GetSmallTime` | packages/SystemUI/src/com/android/systemui/statusbar/policy/Clock.java:221-341 | updates the cache as NextCacheKey/NextFormatter, returns exactly RenderLabel for the new formatter and settings, and fails for a null formatter only when the resource pattern is empty |
| `ClockProperties.PrepareChangesIffWrapped` | packages/SystemUI/src/com/android/systemui/statusbar/policy/Clock.java:243-266 | the prepared pattern differs from the resource exactly when wrapping is needed |
| `ClockProperties.CacheSettlesIff` | packages/SystemUI/src/com/android/systemui/statusbar/policy/Clock.java:237-273 | after a render the cache key equals the resource exactly when it already did or no wrapping is needed |
| `ClockProperties.PreparedSentinels` | packages/SystemUI/src/com/android/systemui/statusbar/policy/Clock.java:258-266 | a prepared sentinel-free pattern holds MAGIC1 at the widened start, MAGIC2 two places after the designator, and no other sentinel |
| `ClockProperties.SentinelEditUntouched` | packages/SystemUI/src/com/android/systemui/statusbar/policy/Clock.java:299-301 | without sentinels the text is kept as it is, with no span |
| `ClockProperties.SentinelEditUnbracketed` | packages/SystemUI/src/com/android/systemui/statusbar/policy/Clock.java:299-301 | unless MAGIC1 is found and MAGIC2 after it, the text is kept as it is, with no span: this covers no sentinel, only one of them, and MAGIC2 before MAGIC1 |
| `ClockProperties.StraySentinelsUntouched` | packages/SystemUI/src/com/android/systemui/statusbar/policy/Clock.java:299-301 | outputs "3:07", MAGIC1, " PM" (MAGIC2 lost), "3:07 PM", MAGIC2 (MAGIC1 lost) and "3:07", MAGIC2, " PM", MAGIC1 (swapped) all come out unedited |
| `ClockProperties.SentinelEditIsBracket` | packages/SystemUI/src/com/android/systemui/statusbar/policy/Clock.java:299-301 | with exactly MAGIC1 then MAGIC2 the edit is the bracket edit at their positions |
| `ClockProperties.SentinelEditGuarded` | packages/SystemUI/src/com/android/systemui/statusbar/policy/Clock.java:299-313 | whenever MAGIC1 is found and the first MAGIC2 lies after it, both lie inside the text and the edit is the bracket edit at those two positions, whatever other sentinels the text holds |
| `ClockProperties.StrayMagic2Kept` | packages/SystemUI/src/com/android/systemui/statusbar/policy/Clock.java:299-303 | with the AM/PM hidden, a second MAGIC2 after the bracket is not removed: "3:07" MAGIC1 " PM" MAGIC2 MAGIC2 becomes "3:07" MAGIC2 with no spans |
| `ClockProperties.SentinelEditHidden` | packages/SystemUI/src/com/android/systemui/statusbar/policy/Clock.java:302-303 | a hidden AM/PM removes both sentinels and everything between them, adds no span and leaves no sentinel |
| `ClockProperties.SentinelEditShown` | packages/SystemUI/src/com/android/systemui/statusbar/policy/Clock.java:304-311 | a shown AM/PM removes just the two sentinels; at the small size one span covers exactly the text that stood between them, at any other size there is no span; no sentinel is left |
| `ClockProperties.HidingRemovesTheShownAmPm` | packages/SystemUI/src/com/android/systemui/statusbar/policy/Clock.java:302-311 | the hidden text is the shown text without the part the small span covers |
| `ClockProperties.SentinelEditClears` | packages/SystemUI/src/com/android/systemui/statusbar/policy/Clock.java:299-313 | whether shown or hidden, the edited text has no sentinel |
| `ClockProperties.PrefixFailsIff` | packages/SystemUI/src/com/android/systemui/statusbar/policy/Clock.java:279-295 | prefixing fails exactly when a shown weekday or day/month has no name for its calendar value |
| `ClockProperties.PrefixLayout` | packages/SystemUI/src/com/android/systemui/statusbar/policy/Clock.java:279-295 | the result is weekday label, then day of month, a space and month label, then the time; a label is remembered exactly when it is shown |
| `ClockProperties.DayMonthPrefix` | packages/SystemUI/src/com/android/systemui/statusbar/policy/Clock.java:284-288 | the reference definition of the day/month prefix, apart from AddPrefixes: the digits, one space and the month label, or nothing |
| `ClockProperties.PrefixesAddNoSentinel` | packages/SystemUI/src/com/android/systemui/statusbar/policy/Clock.java:279-295 | prefixing with sentinel-free labels keeps the sentinels of the time and adds none |
| `ClockProperties.SmallLabelCovers` | packages/SystemUI/src/com/android/systemui/statusbar/policy/Clock.java:319-322 | a small shown label gets one span from its first occurrence to the end of its last, covering each occurrence; the styling fails exactly when that range does not fit |
| `ClockProperties.ShownLabelOnlyResized` | packages/SystemUI/src/com/android/systemui/statusbar/policy/Clock.java:316-324 | a label styled only while shown is never deleted: the text is kept and only size spans are added |
| `ClockProperties.PrefixStylingOnlyResizes` | packages/SystemUI/src/com/android/systemui/statusbar/policy/Clock.java:315-337 | the whole prefix styling keeps the text and only appends size spans |
| `ClockProperties.ResizedTwice` | packages/SystemUI/src/com/android/systemui/statusbar/policy/Clock.java:315-337 | two resize-only stylings in a row are one |
| `ClockProperties.RenderedLabelColored` | packages/SystemUI/src/com/android/systemui/statusbar/policy/Clock.java:338-339 | a rendered label is well formed, and its last span paints all of its text in the chosen colour |
| `ClockProperties.NoSentinelOnScreen` | packages/SystemUI/src/com/android/systemui/statusbar/policy/Clock.java:274-340 | when the formatter copies sentinels through, the pattern has none or exactly the pair, and the labels have none, no sentinel reaches the label |
| `ClockProperties.RefreshedFormatterBracketed` | packages/SystemUI/src/com/android/systemui/statusbar/policy/Clock.java:237-273 | after the cache step, for a sentinel-free non-empty resource, a formatter exists and its pattern has no sentinel or exactly the pair |
| `ClockProperties.SmallTimeShowsNoSentinel` | packages/SystemUI/src/com/android/systemui/statusbar/policy/Clock.java:221-341 | getSmallTime on a sentinel-free non-empty pattern never fails for a null formatter and shows no sentinel |
| `ClockProperties.ColorForMatchesLuminance` | packages/SystemUI/src/com/android/systemui/statusbar/policy/Clock.java:356-358 | getColor picks black exactly when ColorUtils.getColorLuminance of the opaque colour is at least 128 |
| `ClockProperties.ColorForMonotone` | packages/SystemUI/src/com/android/systemui/statusbar/policy/Clock.java:356-358 | a lighter status bar never turns black text white |
| `ClockProperties.ColorForExtremes` | packages/SystemUI/src/com/android/systemui/statusbar/policy/Clock.java:358 | white gets black text, and black gets white text |
| `ClockProperties.TwelveHourPrepared` | packages/SystemUI/src/com/android/systemui/statusbar/policy/Clock.java:243-266 | "h:mm a" with the small AM/PM is prepared as "h:mm", MAGIC1, " a", MAGIC2 |
| `ClockProperties.TwelveHourEdited` | packages/SystemUI/src/com/android/systemui/statusbar/policy/Clock.java:299-313 | its output "3:07", MAGIC1, " PM", MAGIC2 becomes "3:07 PM" with " PM" small when shown, and "3:07" when hidden |

## Left out

- Event wiring is not modelled. This covers:
  - the settings observer (Clock.java 110-139);
  - attach and detach (166-199);
  - the broadcast receiver (201-214), including its time-zone change of the formatter;
  - updateClock (216-219).

  These are Android callbacks. Their effect on the label is to call updateSettings or getSmallTime, which are modelled. The time zone is part of the `render` function.
- The final `if (mAttached) updateClock()` of updateSettings (541-543) is not modelled. It only triggers the re-render that GetSmallTime models.
- Settings.System reads are a `Settings` value. An unset setting is `None`, which takes the same default as in the code.
- The colour-string parsing of getColor (343-355) is not modelled: the ExtendedPropertiesUtils defaults, the split and the BigInteger hex parse. The parsed colour is given as three channels in 0..255.
- SimpleDateFormat, Calendar, TimeZone and the current instant are not modelled. Formatting is a function `render` from pattern to string, and the calendar fields are given values. SimpleDateFormat's own pattern validation is not modelled either, so an invalid pattern is not shown to throw.
- String resources and toUpperCase are given as functions (`Names`). Their text and the locale's case mapping are not modelled.
- RelativeSizeSpan(0.7f) is the tag `SmallSize` and Color.rgb black/white is `Black`/`White`. The float factor and the span flags (SPAN_EXCLUSIVE_INCLUSIVE) are not modelled.
- The platform's removal of spans that become empty after a deletion is not modelled. A span is kept with equal end points.
- mShowClock and mShowAlways are not modelled. Clock.java does not use them in the modelled code.
- The click and long-click handlers and their intents (546-578) are not modelled. They are UI actions outside the label.
- The complementary-colour search loop after the early return of getComplementaryColor (ColorUtils.java 71-87) is commented out in the source and is not modelled.
- UTF-16 code units are not modelled. Java strings are sequences of UTF-16 code units, while the model's strings are sequences of Unicode scalar values. A surrogate pair in a pattern or a name is therefore one character here, and positions count characters.
