/**
 * Integer colour metrics over packed 32-bit ARGB colours
 * (core/java/android/util/ColorUtils.java).
 *
 * A packed colour is a Java `int`; it is modelled as a Dafny `int` holding the
 * signed value. Dafny's `/` by a positive constant rounds toward negative
 * infinity, which is what the arithmetic shift `>>` does, and `% 0x100` is the
 * non-negative remainder, which is what `& 0xFF` keeps, so the channel
 * extractions below agree with Color.red/green/blue on every int.
 */
module ColorUtils {

  const ChannelMax: int := 255

  /** Color.red: (color >> 16) & 0xFF. */
  function Red(color: int): (r: int)
    ensures 0 <= r <= ChannelMax
  {
    (color / 0x1_0000) % 0x100
  }

  /** Color.green: (color >> 8) & 0xFF. */
  function Green(color: int): (g: int)
    ensures 0 <= g <= ChannelMax
  {
    (color / 0x100) % 0x100
  }

  /** Color.blue: color & 0xFF. */
  function Blue(color: int): (b: int)
    ensures 0 <= b <= ChannelMax
  {
    color % 0x100
  }

  /**
   * Color.argb: the packed colour with the given channels, as the signed
   * 32-bit value Java holds (an alpha of 0x80 or more gives a negative int).
   * It is not part of ColorUtils itself: it packs the channels so that
   * ChannelsOfArgb can state that Red, Green and Blue invert the packing.
   */
  function Argb(alpha: int, red: int, green: int, blue: int): int
    requires 0 <= alpha <= ChannelMax && 0 <= red <= ChannelMax
    requires 0 <= green <= ChannelMax && 0 <= blue <= ChannelMax
  {
    var unsigned := alpha * 0x100_0000 + red * 0x1_0000 + green * 0x100 + blue;
    if unsigned >= 0x8000_0000 then unsigned - 0x1_0000_0000 else unsigned
  }

  /**
   * The weighted luma (299 r + 587 g + 114 b) / 1000 of channel values.
   * The numerator is never negative for channels in range, so Java's
   * truncating division and Dafny's division agree.
   */
  function Luma(red: int, green: int, blue: int): (l: int)
    requires 0 <= red <= ChannelMax && 0 <= green <= ChannelMax && 0 <= blue <= ChannelMax
    ensures 0 <= l <= ChannelMax
  {
    LumaBounds(red, green, blue);
    (red * 299 + green * 587 + blue * 114) / 1000
  }

  lemma LumaBounds(red: int, green: int, blue: int)
    requires 0 <= red <= ChannelMax && 0 <= green <= ChannelMax && 0 <= blue <= ChannelMax
    ensures 0 <= red * 299 + green * 587 + blue * 114 <= 1000 * ChannelMax
  {
  }

  /**
   * getColorLuminance. `Math.round` receives an int that has already been
   * divided; the int widens to a float, which is exact below 2^24, and
   * rounding an integral float gives the same value back, so the rounding
   * step is the identity here.
   */
  function ColorLuminance(color: int): (l: int)
    ensures 0 <= l <= ChannelMax
  {
    Luma(Red(color), Green(color), Blue(color))
  }

  /** getLuminanceDifference: max(l1, l2) - min(l1, l2). */
  function LuminanceDifference(color1: int, color2: int): (d: int)
    ensures 0 <= d <= ChannelMax
  {
    var l1 := ColorLuminance(color1);
    var l2 := ColorLuminance(color2);
    Max(l1, l2) - Min(l1, l2)
  }

  /** getColorDifference: the sum over the three channels of max - min. */
  function ColorDifference(color1: int, color2: int): (d: int)
    ensures 0 <= d <= 3 * ChannelMax
  {
    (Max(Red(color1), Red(color2)) - Min(Red(color1), Red(color2)))
    + (Max(Green(color1), Green(color2)) - Min(Green(color1), Green(color2)))
    + (Max(Blue(color1), Blue(color2)) - Min(Blue(color1), Blue(color2)))
  }

  /** Math.max: one of the two arguments, and at least both. */
  function Max(x: int, y: int): (m: int)
    ensures m >= x && m >= y && (m == x || m == y)
  {
    if x >= y then x else y
  }

  /** Math.min: one of the two arguments, and at most both. */
  function Min(x: int, y: int): (m: int)
    ensures m <= x && m <= y && (m == x || m == y)
  {
    if x <= y then x else y
  }

  /** The colour resources the complementary-colour search chose from. */
  datatype ColorResource =
    | Black | HoloBlueBright | HoloBlueDark | HoloBlueLight | HoloGreenDark | HoloGreenLight
    | HoloOrangeDark | HoloOrangeLight | HoloPurple | HoloRedDark | HoloRedLight | White

  /** AVAILABLE_COLORS, in the source's order. */
  const AvailableColors: seq<ColorResource> := [
    Black, HoloBlueBright, HoloBlueDark, HoloBlueLight, HoloGreenDark, HoloGreenLight,
    HoloOrangeDark, HoloOrangeLight, HoloPurple, HoloRedDark, HoloRedLight, White
  ]

  /**
   * getComplementaryColor: the search over AVAILABLE_COLORS is switched off
   * and every background gets holo_purple, which is one of the palette.
   */
  function ComplementaryColor(background: int): (c: ColorResource)
    ensures c in AvailableColors
    ensures c == HoloPurple
  {
    HoloPurple
  }

  // ---- Properties ----

  /** The three channels of a packed colour are recovered by Color.red/green/blue. */
  lemma ChannelsOfArgb(alpha: int, red: int, green: int, blue: int)
    requires 0 <= alpha <= ChannelMax && 0 <= red <= ChannelMax
    requires 0 <= green <= ChannelMax && 0 <= blue <= ChannelMax
    ensures Red(Argb(alpha, red, green, blue)) == red
    ensures Green(Argb(alpha, red, green, blue)) == green
    ensures Blue(Argb(alpha, red, green, blue)) == blue
  {
    var c := Argb(alpha, red, green, blue);
    var hi := if alpha >= 0x80 then alpha - 0x100 else alpha;
    assert c == hi * 0x100_0000 + red * 0x1_0000 + green * 0x100 + blue;
    assert c / 0x1_0000 == hi * 0x100 + red;
    assert c / 0x100 == hi * 0x1_0000 + red * 0x100 + green;
  }

  /** Raising one channel never lowers the luma. */
  lemma LumaMonotone(r1: int, g1: int, b1: int, r2: int, g2: int, b2: int)
    requires 0 <= r1 <= r2 <= ChannelMax && 0 <= g1 <= g2 <= ChannelMax && 0 <= b1 <= b2 <= ChannelMax
    ensures Luma(r1, g1, b1) <= Luma(r2, g2, b2)
  {
    var n1 := r1 * 299 + g1 * 587 + b1 * 114;
    var n2 := r2 * 299 + g2 * 587 + b2 * 114;
    assert n1 <= n2;
  }

  /** getLuminanceDifference does not depend on the order of its arguments. */
  lemma LuminanceDifferenceSymmetric(color1: int, color2: int)
    ensures LuminanceDifference(color1, color2) == LuminanceDifference(color2, color1)
  {
  }

  /** getLuminanceDifference is the distance between the two luminances, 0 exactly when they are equal. */
  lemma LuminanceDifferenceIsDistance(color1: int, color2: int)
    ensures var l1, l2 := ColorLuminance(color1), ColorLuminance(color2);
      LuminanceDifference(color1, color2) == (if l1 >= l2 then l1 - l2 else l2 - l1)
      && (LuminanceDifference(color1, color2) == 0 <==> l1 == l2)
  {
  }

  /** getColorDifference does not depend on the order of its arguments. */
  lemma ColorDifferenceSymmetric(color1: int, color2: int)
    ensures ColorDifference(color1, color2) == ColorDifference(color2, color1)
  {
  }

  /** getColorDifference is 0 exactly when all three channels match. */
  lemma ColorDifferenceZeroIff(color1: int, color2: int)
    ensures ColorDifference(color1, color2) == 0
      <==> Red(color1) == Red(color2) && Green(color1) == Green(color2) && Blue(color1) == Blue(color2)
  {
  }
}
