/** How a rating is shown: the three-band colour and the row of five star
    glyphs of the dish detail screen. */
module RatingDisplay {

  datatype Band = Red | Amber | Green

  /** The global `ratingColor(for:)`: `0..<2.5` red, `2.5..<3.8` amber, any
      other value (including a negative one) green. */
  function RatingColor(rating: real): (b: Band)
    ensures b == Red <==> 0.0 <= rating < 2.5
    ensures b == Amber <==> 2.5 <= rating < 3.8
    ensures b == Green <==> rating < 0.0 || rating >= 3.8
  {
    if 0.0 <= rating < 2.5 then Red
    else if 2.5 <= rating < 3.8 then Amber
    else Green
  }

  /** The private copy inside the rating detail view, written as the switch
      over ranges it is in the source. */
  function DetailRatingColor(rating: real): Band
  {
    if rating < 0.0 then Green
    else if rating < 2.5 then Red
    else if rating < 3.8 then Amber
    else Green
  }

  /** The `ratingColor` property on a dish, which names its colours red,
      orange and green. */
  datatype DishColor = DishRed | DishOrange | DishGreen

  function DishRatingColor(averageRating: real): DishColor
  {
    if averageRating < 0.0 then DishGreen
    else if averageRating < 2.5 then DishRed
    else if averageRating < 3.8 then DishOrange
    else DishGreen
  }

  /** The three copies of the colour rule agree on every rating. */
  lemma RatingColorsAgree(rating: real)
    ensures DetailRatingColor(rating) == RatingColor(rating)
    ensures DishRatingColor(rating) == match RatingColor(rating)
      case Red => DishRed
      case Amber => DishOrange
      case Green => DishGreen
  {
  }

  /** Swift's `Int(value)`: rounds toward zero. */
  function Truncate(value: real): (n: int)
    ensures value >= 0.0 ==> n as real <= value < n as real + 1.0
    ensures value < 0.0 ==> n as real - 1.0 < value <= n as real
  {
    if value >= 0.0 then value.Floor else -((-value).Floor)
  }

  datatype Glyph = Full | Half | Empty

  /** The glyph of star `star` (1..5) for `value`: full up to the integer
      part, a half star when the value lies strictly between the star and
      the one before it, otherwise empty. */
  function StarGlyph(star: int, value: real): Glyph
  {
    if star <= Truncate(value) then Full
    else if (star - 1) as real < value < star as real then Half
    else Empty
  }

  /** How many of stars 1..n show glyph `g`. */
  function CountGlyph(g: Glyph, value: real, n: nat): nat
  {
    if n == 0 then 0
    else CountGlyph(g, value, n - 1) + (if StarGlyph(n, value) == g then 1 else 0)
  }

  /** A star is full exactly up to the integer part of the value, and half
      exactly when it is the one straddling a non-integer value. */
  lemma StarGlyphCases(star: int, value: real)
    requires value >= 0.0
    ensures StarGlyph(star, value) == Full <==> star <= value.Floor
    ensures StarGlyph(star, value) == Half <==> star == value.Floor + 1 && value != value.Floor as real
  {
  }

  /** For a value in [0, 5] the five stars show min(5, floor(value)) full
      stars, at most one half star, and no half star on a whole value. */
  lemma {:induction false} StarCounts(value: real, n: nat)
    requires 0.0 <= value
    ensures CountGlyph(Full, value, n) == if value.Floor <= n then value.Floor else n
    ensures CountGlyph(Half, value, n) ==
              if value != value.Floor as real && value.Floor + 1 <= n then 1 else 0
    ensures CountGlyph(Half, value, n) <= 1
  {
    if n > 0 {
      StarCounts(value, n - 1);
      StarGlyphCases(n, value);
    }
  }

  lemma FiveStars(value: real)
    requires 0.0 <= value <= 5.0
    ensures CountGlyph(Full, value, 5) == value.Floor
    ensures CountGlyph(Half, value, 5) <= 1
    ensures value == value.Floor as real ==> CountGlyph(Half, value, 5) == 0
    ensures CountGlyph(Full, value, 5) + CountGlyph(Half, value, 5) + CountGlyph(Empty, value, 5) == 5
  {
    StarCounts(value, 5);
    GlyphsCover(value, 5);
  }

  /** Each star shows exactly one glyph. */
  lemma {:induction false} GlyphsCover(value: real, n: nat)
    ensures CountGlyph(Full, value, n) + CountGlyph(Half, value, n) + CountGlyph(Empty, value, n) == n
  {
    if n > 0 {
      GlyphsCover(value, n - 1);
    }
  }
}
