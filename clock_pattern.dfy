/**
 * The time-pattern preparation at the start of Clock.getSmallTime: finding
 * the unquoted AM/PM designator `a`, widening it over the whitespace before
 * it, and bracketing that span with two private-use sentinel characters that
 * the date formatter copies through, so that the designator's rendered text
 * can be found again afterwards.
 */
module ClockPattern {
  import opened Strings

  /** MAGIC1 and MAGIC2. */
  const Magic1: char := '\U{EF00}'
  const Magic2: char := '\U{EF01}'

  /** The quote that toggles literal text in a SimpleDateFormat pattern. */
  const Quote: char := '\''

  /** The AM/PM designator letter of a SimpleDateFormat pattern. */
  const Designator: char := 'a'

  /** The number of quote characters in `s`. */
  function QuoteCount(s: string): nat {
    if s == [] then 0
    else QuoteCount(s[..|s| - 1]) + (if s[|s| - 1] == Quote then 1 else 0)
  }

  /** Position `i` holds an `a` with an even number of quotes before it, so it is outside quoted text. */
  predicate IsUnquotedDesignator(f: string, i: int) {
    0 <= i < |f| && f[i] == Designator && QuoteCount(f[..i]) % 2 == 0
  }

  /** The first unquoted designator at or after `i`, or -1. */
  function FirstUnquotedDesignatorFrom(f: string, i: nat): (r: int)
    ensures r == -1 || (i <= r && IsUnquotedDesignator(f, r))
    ensures forall j :: i <= j && (r == -1 || j < r) ==> !IsUnquotedDesignator(f, j)
    decreases |f| - i
  {
    if i >= |f| then -1
    else if IsUnquotedDesignator(f, i) then i
    else FirstUnquotedDesignatorFrom(f, i + 1)
  }

  /** The position of the first unquoted designator of the pattern, or -1 when there is none. */
  function DesignatorIndex(f: string): int {
    FirstUnquotedDesignatorFrom(f, 0)
  }

  /**
   * The scan of getSmallTime: a left-to-right pass that toggles a `quoted`
   * flag at each quote before testing for `a`, and stops at the first hit.
   */
  method FindDesignator(format: string) returns (a: int)
    ensures a == DesignatorIndex(format)
    ensures a == -1 || IsUnquotedDesignator(format, a)
    ensures forall j :: 0 <= j && (a == -1 || j < a) ==> !IsUnquotedDesignator(format, j)
  {
    a := -1;
    var quoted := false;
    for i := 0 to |format|
      invariant a == -1
      invariant quoted <==> QuoteCount(format[..i]) % 2 == 1
      invariant forall j :: 0 <= j < i ==> !IsUnquotedDesignator(format, j)
    {
      var c := format[i];
      assert format[..i + 1][..i] == format[..i];
      if c == Quote {
        quoted := !quoted;
      }
      if !quoted && c == Designator {
        a := i;
        break;
      }
    }
    DesignatorIndexIsFirst(format, a);
  }

  /** The outright description of the scan's result pins it down: it is DesignatorIndex. */
  lemma DesignatorIndexIsFirst(f: string, a: int)
    requires a == -1 || IsUnquotedDesignator(f, a)
    requires forall j :: 0 <= j && (a == -1 || j < a) ==> !IsUnquotedDesignator(f, j)
    ensures a == DesignatorIndex(f)
  {
    var r := DesignatorIndex(f);
    if r != -1 {
      assert IsUnquotedDesignator(f, r);
    }
  }

  /** The start of the run of whitespace that ends just before position `a`. */
  function WhitespaceStart(f: string, a: int): (r: int)
    requires 0 <= a <= |f|
    ensures 0 <= r <= a
    ensures forall k :: r <= k < a ==> IsWhitespace(f[k])
    ensures r == 0 || !IsWhitespace(f[r - 1])
    decreases a
  {
    if a > 0 && IsWhitespace(f[a - 1]) then WhitespaceStart(f, a - 1) else a
  }

  /** The backward walk of getSmallTime that moves the start of the span over the whitespace before `a`. */
  method WidenOverWhitespace(format: string, designator: int) returns (start: int)
    requires 0 <= designator < |format|
    ensures start == WhitespaceStart(format, designator)
    ensures 0 <= start <= designator
    ensures forall k :: start <= k < designator ==> IsWhitespace(format[k])
    ensures start == 0 || !IsWhitespace(format[start - 1])
  {
    start := designator;
    while start > 0 && IsWhitespace(format[start - 1])
      invariant 0 <= start <= designator
      invariant WhitespaceStart(format, start) == WhitespaceStart(format, designator)
    {
      start := start - 1;
    }
  }

  /**
   * The wrapped pattern: MAGIC1 before the whitespace run, MAGIC2 right after
   * the designator, everything else as it was.
   */
  function Wrap(f: string, start: int, designator: int): (w: string)
    requires 0 <= start <= designator < |f|
  {
    f[..start] + [Magic1] + f[start..designator] + [Designator] + [Magic2] + f[designator + 1..]
  }

  predicate IsSentinel(c: char) {
    c == Magic1 || c == Magic2
  }

  predicate SentinelFree(s: string) {
    forall k :: 0 <= k < |s| ==> !IsSentinel(s[k])
  }

  /** The sentinel characters of `s`, in order. */
  function Sentinels(s: string): (r: string)
    ensures forall k :: 0 <= k < |r| ==> IsSentinel(r[k])
  {
    if s == [] then []
    else (if IsSentinel(s[0]) then [s[0]] else []) + Sentinels(s[1..])
  }

  // ---- Properties ----

  /**
   * Wrapping adds exactly two characters, MAGIC1 at `start` and MAGIC2 two
   * places after the designator; removing those two gives the pattern back
   * character for character, and the bracketed text is the whitespace run
   * followed by the designator.
   */
  lemma WrapRoundTrip(f: string, start: int, designator: int)
    requires 0 <= start <= designator < |f| && f[designator] == Designator
    ensures var w := Wrap(f, start, designator);
      && |w| == |f| + 2
      && w[start] == Magic1 && w[designator + 2] == Magic2
      && w[start + 1..designator + 2] == f[start..designator + 1]
      && w[..start] + w[start + 1..designator + 2] + w[designator + 3..] == f
  {
    var w := Wrap(f, start, designator);
    assert w[..start] == f[..start];
    assert w[start + 1..designator + 2] == f[start..designator] + [Designator];
    assert f[start..designator + 1] == f[start..designator] + [Designator];
    assert w[designator + 3..] == f[designator + 1..];
    assert f == f[..start] + f[start..designator + 1] + f[designator + 1..];
  }

  lemma {:induction false} SentinelsAppend(a: string, b: string)
    ensures Sentinels(a + b) == Sentinels(a) + Sentinels(b)
  {
    if a == [] {
      assert a + b == b;
    } else {
      assert (a + b)[1..] == a[1..] + b;
      SentinelsAppend(a[1..], b);
    }
  }

  lemma {:induction false} SentinelFreeIff(s: string)
    ensures SentinelFree(s) <==> Sentinels(s) == []
  {
    if s != [] {
      SentinelFreeIff(s[1..]);
      if SentinelFree(s[1..]) && !IsSentinel(s[0]) {
        forall k | 0 <= k < |s| ensures !IsSentinel(s[k]) {
          if k > 0 { assert s[k] == s[1..][k - 1]; }
        }
      }
    }
  }

  /** A sentinel-free pattern, once wrapped, holds exactly MAGIC1 then MAGIC2. */
  lemma WrapSentinels(f: string, start: int, designator: int)
    requires 0 <= start <= designator < |f| && SentinelFree(f)
    ensures Sentinels(Wrap(f, start, designator)) == [Magic1, Magic2]
  {
    var p1, p2, p3 := f[..start], f[start..designator], f[designator + 1..];
    SentinelFreeIff(p1);
    SentinelFreeIff(p2);
    SentinelFreeIff(p3);
    SentinelsAppend(p1, [Magic1]);
    SentinelsAppend(p1 + [Magic1], p2);
    SentinelsAppend(p1 + [Magic1] + p2, [Designator]);
    SentinelsAppend(p1 + [Magic1] + p2 + [Designator], [Magic2]);
    SentinelsAppend(p1 + [Magic1] + p2 + [Designator] + [Magic2], p3);
  }

  /** Text holding exactly one sentinel `c`: it is found, and nothing around it is a sentinel. */
  lemma {:induction false} SingleSentinelLocated(s: string, c: char)
    requires Sentinels(s) == [c]
    ensures var j := IndexOfChar(s, c);
      0 <= j && SentinelFree(s[..j]) && SentinelFree(s[j + 1..])
  {
    assert s != [];
    assert Sentinels(s) == (if IsSentinel(s[0]) then [s[0]] else []) + Sentinels(s[1..]);
    if IsSentinel(s[0]) {
      assert Sentinels(s)[0] == s[0];
      SentinelFreeIff(s[1..]);
    } else {
      SingleSentinelLocated(s[1..], c);
      var j' := IndexOfChar(s[1..], c);
      assert s[..j' + 1] == [s[0]] + s[1..][..j'];
      assert s[j' + 2..] == s[1..][j' + 1..];
    }
  }

  /**
   * Text holding exactly MAGIC1 then MAGIC2 as its sentinels: both are found,
   * MAGIC1 first, and the three pieces around them are sentinel-free.
   */
  lemma {:induction false} SentinelPairLocated(s: string)
    requires Sentinels(s) == [Magic1, Magic2]
    ensures var i, j := IndexOfChar(s, Magic1), IndexOfChar(s, Magic2);
      && 0 <= i < j
      && SentinelFree(s[..i]) && SentinelFree(s[i + 1..j]) && SentinelFree(s[j + 1..])
  {
    assert s != [];
    assert Sentinels(s) == (if IsSentinel(s[0]) then [s[0]] else []) + Sentinels(s[1..]);
    if IsSentinel(s[0]) {
      SentinelHead(s);
    } else {
      SentinelPairLocated(s[1..]);
      var i', j' := IndexOfChar(s[1..], Magic1), IndexOfChar(s[1..], Magic2);
      IndexPastHead(s, Magic1);
      IndexPastHead(s, Magic2);
      PairAfterFront(s, i', j');
    }
  }

  /** SentinelPairLocated when the text starts with a sentinel. */
  lemma SentinelHead(s: string)
    requires s != [] && IsSentinel(s[0])
    requires Sentinels(s) == [s[0]] + Sentinels(s[1..]) == [Magic1, Magic2]
    ensures var i, j := IndexOfChar(s, Magic1), IndexOfChar(s, Magic2);
      && 0 <= i < j
      && SentinelFree(s[..i]) && SentinelFree(s[i + 1..j]) && SentinelFree(s[j + 1..])
  {
    assert Sentinels(s)[0] == s[0];
    assert Sentinels(s[1..]) == Sentinels(s)[1..] == [Magic2];
    SingleSentinelLocated(s[1..], Magic2);
    PairAtFront(s);
  }

  /** SentinelPairLocated when the text starts with MAGIC1. */
  lemma PairAtFront(s: string)
    requires s != [] && s[0] == Magic1
    requires var j' := IndexOfChar(s[1..], Magic2);
      0 <= j' && SentinelFree(s[1..][..j']) && SentinelFree(s[1..][j' + 1..])
    ensures var i, j := IndexOfChar(s, Magic1), IndexOfChar(s, Magic2);
      && 0 <= i < j
      && SentinelFree(s[..i]) && SentinelFree(s[i + 1..j]) && SentinelFree(s[j + 1..])
  {
    var j' := IndexOfChar(s[1..], Magic2);
    assert IndexOfChar(s, Magic2) == j' + 1;
    assert s[1..j' + 1] == s[1..][..j'];
    assert s[j' + 2..] == s[1..][j' + 1..];
  }

  /**
   * The three sentinel-free pieces of the tail, with the head put back in
   * front of the first one.
   */
  lemma PairAfterFront(s: string, i: int, j: int)
    requires s != [] && !IsSentinel(s[0]) && 0 <= i < j < |s| - 1
    requires SentinelFree(s[1..][..i]) && SentinelFree(s[1..][i + 1..j]) && SentinelFree(s[1..][j + 1..])
    ensures SentinelFree(s[..i + 1]) && SentinelFree(s[i + 2..j + 1]) && SentinelFree(s[j + 2..])
  {
    FreeWithHead(s, i);
    FreeShifted(s, i + 1, j);
    FreeShifted(s, j + 1, |s| - 1);
    assert s[j + 2..] == s[j + 2..|s|];
  }

  /** A sentinel-free slice of the tail is the same slice of `s`, one place right. */
  lemma FreeShifted(s: string, lo: int, hi: int)
    requires 0 <= lo <= hi < |s| && SentinelFree(s[1..][lo..hi])
    ensures SentinelFree(s[lo + 1..hi + 1])
  {
    var x, y := s[lo + 1..hi + 1], s[1..][lo..hi];
    forall k | 0 <= k < |x|
      ensures !IsSentinel(x[k])
    {
      assert x[k] == y[k];
    }
  }

  /** A sentinel-free stretch after a non-sentinel head stays free with the head. */
  lemma FreeWithHead(s: string, n: int)
    requires s != [] && !IsSentinel(s[0])
    requires 0 <= n < |s| && SentinelFree(s[1..][..n])
    ensures SentinelFree(s[..n + 1])
  {
    assert s[..n + 1] == [s[0]] + s[1..][..n];
  }

  /** Skipping a head that is not `c` moves the first `c` one place right. */
  lemma IndexPastHead(s: string, c: char)
    requires s != [] && s[0] != c && IndexOfChar(s[1..], c) >= 0
    ensures IndexOfChar(s, c) == IndexOfChar(s[1..], c) + 1
  {
  }
}
