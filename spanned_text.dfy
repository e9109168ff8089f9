/**
 * Styled text as android.text.SpannableStringBuilder keeps it: the characters
 * and a list of spans, each a [start, end) range with a style. Deleting a
 * range moves every span end point: points before the range stay, points
 * inside it collapse to its start, points after it move left by its length.
 */
module SpannedText {

  /** The colour a ForegroundColorSpan paints with; the clock only uses these two. */
  datatype TextColor = Black | White

  /** RelativeSizeSpan(0.7f) or ForegroundColorSpan(color). */
  datatype Style = SmallSize | Foreground(color: TextColor)

  datatype Span = Span(start: int, end: int, style: Style)

  datatype Styled = Styled(text: string, spans: seq<Span>)

  /** A span setSpan accepts on a text of length `len`. */
  predicate SpanFits(span: Span, len: int) {
    0 <= span.start <= span.end <= len
  }

  /** Every span lies inside the text. */
  predicate WellFormed(s: Styled) {
    forall k :: 0 <= k < |s.spans| ==> SpanFits(s.spans[k], |s.text|)
  }

  /** Where the point `p` ends up once [st, en) is deleted. */
  function ShiftPoint(p: int, st: int, en: int): int
    requires st <= en
  {
    if p <= st then p else if p >= en then p - (en - st) else st
  }

  function ShiftSpan(span: Span, st: int, en: int): Span
    requires st <= en
  {
    Span(ShiftPoint(span.start, st, en), ShiftPoint(span.end, st, en), span.style)
  }

  /**
   * All spans after the deletion of [st, en), in the same order: each keeps
   * its style, each end point moves left by at most the deleted length, and a
   * span keeps its start before its end.
   */
  function ShiftAll(spans: seq<Span>, st: int, en: int): (r: seq<Span>)
    requires st <= en
    ensures |r| == |spans|
    ensures forall k :: 0 <= k < |spans| ==> r[k] == ShiftSpan(spans[k], st, en)
    ensures forall k :: 0 <= k < |spans| ==>
      && r[k].style == spans[k].style
      && spans[k].start - (en - st) <= r[k].start <= spans[k].start
      && spans[k].end - (en - st) <= r[k].end <= spans[k].end
    ensures forall k :: 0 <= k < |spans| && spans[k].start <= spans[k].end ==> r[k].start <= r[k].end
  {
    var r := seq(|spans|, k requires 0 <= k < |spans| => ShiftSpan(spans[k], st, en));
    assert forall k :: 0 <= k < |spans| && spans[k].start <= spans[k].end ==> r[k].start <= r[k].end by {
      forall k | 0 <= k < |spans| && spans[k].start <= spans[k].end
        ensures r[k].start <= r[k].end
      {
        ShiftPointMonotone(spans[k].start, spans[k].end, st, en);
      }
    }
    r
  }

  /** SpannableStringBuilder.delete(st, en) on a value. */
  function DeleteRange(s: Styled, st: int, en: int): (r: Styled)
    requires 0 <= st <= en <= |s.text|
    ensures |r.text| == |s.text| - (en - st)
    ensures WellFormed(s) ==> WellFormed(r)
  {
    var r := Styled(s.text[..st] + s.text[en..], ShiftAll(s.spans, st, en));
    assert WellFormed(s) ==> WellFormed(r) by {
      if WellFormed(s) {
        forall k | 0 <= k < |r.spans| ensures SpanFits(r.spans[k], |r.text|) {
          ShiftKeepsFit(s.spans[k], st, en, |s.text|);
        }
      }
    }
    r
  }

  /** SpannableStringBuilder.setSpan on a value, once the range check has passed. */
  function AddSpan(s: Styled, span: Span): (r: Styled)
    ensures WellFormed(s) && SpanFits(span, |s.text|) ==> WellFormed(r)
  {
    Styled(s.text, s.spans + [span])
  }

  // ---- Properties ----

  /** A span that fits the text still fits, and keeps its order of end points, after a deletion. */
  lemma ShiftKeepsFit(span: Span, st: int, en: int, len: int)
    requires 0 <= st <= en <= len
    requires SpanFits(span, len)
    ensures SpanFits(ShiftSpan(span, st, en), len - (en - st))
  {
  }

  /** A deletion moves a point left by at most the deleted length, and never before the range it deletes. */
  lemma ShiftPointBounds(p: int, st: int, en: int)
    requires st <= en
    ensures p - (en - st) <= ShiftPoint(p, st, en) <= p
    ensures p >= st ==> ShiftPoint(p, st, en) >= st
  {
  }

  /** Moving points is monotone: the order of two points survives a deletion. */
  lemma ShiftPointMonotone(p: int, q: int, st: int, en: int)
    requires st <= en && p <= q
    ensures ShiftPoint(p, st, en) <= ShiftPoint(q, st, en)
  {
  }

  /**
   * The mutable builder. `text` and `spans` are what the platform object
   * holds; the operations change them as the value functions above say.
   */
  class Builder {
    var text: string
    var spans: seq<Span>

    /** The builder's current contents as a value. */
    function Value(): Styled
      reads this
    {
      Styled(text, spans)
    }

    /** new SpannableStringBuilder(s): the characters of `s`, no spans. */
    constructor (s: string)
      ensures Value() == Styled(s, [])
    {
      text := s;
      spans := [];
    }

    /** delete(st, en) on a range the caller has checked. */
    method Delete(st: int, en: int)
      requires 0 <= st <= en <= |text|
      modifies this
      ensures Value() == DeleteRange(old(Value()), st, en)
    {
      text := text[..st] + text[en..];
      spans := ShiftAll(spans, st, en);
    }

    /**
     * setSpan(style, start, end, flags): attaches the span when its range
     * fits the text; otherwise the platform throws IndexOutOfBoundsException,
     * reported here as `ok == false` with nothing changed.
     */
    method SetSpan(span: Span) returns (ok: bool)
      modifies this
      ensures ok == SpanFits(span, |old(text)|)
      ensures Value() == if ok then AddSpan(old(Value()), span) else old(Value())
    {
      ok := SpanFits(span, |text|);
      if ok {
        spans := spans + [span];
      }
    }
  }
}
