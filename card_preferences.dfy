/** The share-card preferences that are persisted: the theme, stored by its
    raw string, and the text customisation, whose font weight is stored as
    an integer code. */
module CardPreferences {
  import opened Wrappers

  // ------------------------------------------------------------------ themes

  datatype PlateCardTheme = Classic | Modern | Minimal | Vibrant | Elegant

  /** `allCases`, in declaration order. */
  const AllThemes: seq<PlateCardTheme> := [Classic, Modern, Minimal, Vibrant, Elegant]

  /** The enum's `rawValue`: each case's own name. */
  function RawValue(t: PlateCardTheme): string
  {
    match t
    case Classic => "classic"
    case Modern => "modern"
    case Minimal => "minimal"
    case Vibrant => "vibrant"
    case Elegant => "elegant"
  }

  /** `allCases.first(where: { $0.rawValue == raw })`. */
  function ThemeNamed(raw: string): (r: Option<PlateCardTheme>)
    ensures r.Some? ==> RawValue(r.value) == raw
    ensures r.None? ==> forall t :: RawValue(t) != raw
  {
    FirstWithRaw(AllThemes, raw)
  }

  function FirstWithRaw(themes: seq<PlateCardTheme>, raw: string): (r: Option<PlateCardTheme>)
    ensures r.Some? ==> r.value in themes && RawValue(r.value) == raw
    ensures r.None? ==> forall t :: t in themes ==> RawValue(t) != raw
  {
    if themes == [] then None
    else if RawValue(themes[0]) == raw then Some(themes[0])
    else FirstWithRaw(themes[1..], raw)
  }

  /** Saving a theme and loading it back gives the same theme. */
  lemma ThemeRoundTrip(t: PlateCardTheme)
    ensures ThemeNamed(RawValue(t)) == Some(t)
  {
    RawValueInjective();
  }

  /** Distinct themes have distinct raw values. */
  lemma RawValueInjective()
    ensures forall a, b :: RawValue(a) == RawValue(b) ==> a == b
  {
    forall a, b | RawValue(a) == RawValue(b) ensures a == b {
      assert RawValue(a)[0] == RawValue(b)[0];
      assert RawValue(a)[1] == RawValue(b)[1];
    }
  }

  // ------------------------------------------------------ text customisation

  datatype FontWeight =
    | UltraLight | Thin | Light | Regular | Medium | Semibold | Bold | Heavy | Black

  /** The integer a weight is stored as. */
  function WeightCode(w: FontWeight): int
  {
    match w
    case UltraLight => 1
    case Thin => 2
    case Light => 3
    case Regular => 4
    case Medium => 5
    case Semibold => 6
    case Bold => 7
    case Heavy => 8
    case Black => 9
  }

  /** The weight a stored integer decodes to; an unknown code is regular. */
  function WeightOfCode(code: int): FontWeight
  {
    if code == 1 then UltraLight
    else if code == 2 then Thin
    else if code == 3 then Light
    else if code == 4 then Regular
    else if code == 5 then Medium
    else if code == 6 then Semibold
    else if code == 7 then Bold
    else if code == 8 then Heavy
    else if code == 9 then Black
    else Regular
  }

  /** Codes run over 1..9, weights survive a round trip, and a code survives
      one exactly when it is in 1..9 (any other code comes back as 4). */
  lemma WeightCodec(w: FontWeight, code: int)
    ensures 1 <= WeightCode(w) <= 9
    ensures WeightOfCode(WeightCode(w)) == w
    ensures WeightCode(WeightOfCode(code)) == if 1 <= code <= 9 then code else 4
    ensures (code < 1 || code > 9) ==> WeightOfCode(code) == Regular
  {
  }

  /** The whole record, and its keyed form in the archive: a missing key or a
      value of the wrong type is `None`. */
  datatype TextCustomization = TextCustomization(fontSize: real, fontWeight: FontWeight)

  datatype Container = Container(fontSize: Option<real>, fontWeight: Option<int>)

  datatype DecodeError = KeyNotFound(key: string)

  datatype Result<T> = Ok(value: T) | Err(error: DecodeError)

  /** The defaults of `init()`. */
  const DefaultCustomization: TextCustomization := TextCustomization(1.0, Regular)

  function Encode(c: TextCustomization): (box: Container)
    ensures box.fontSize == Some(c.fontSize)
    ensures box.fontWeight.Some? && 1 <= box.fontWeight.value <= 9
  {
    Container(Some(c.fontSize), Some(WeightCode(c.fontWeight)))
  }

  /** `init(from:)`: both keys are required, the size is read first. */
  function Decode(box: Container): (r: Result<TextCustomization>)
    ensures r.Err? <==> box.fontSize.None? || box.fontWeight.None?
    ensures box.fontSize.None? ==> r == Err(KeyNotFound("fontSize"))
    ensures box.fontSize.Some? && box.fontWeight.None? ==> r == Err(KeyNotFound("fontWeight"))
    ensures r.Ok? ==> r.value.fontSize == box.fontSize.value
    ensures r.Ok? ==> r.value.fontWeight == WeightOfCode(box.fontWeight.value)
  {
    match box.fontSize
    case None => Err(KeyNotFound("fontSize"))
    case Some(size) =>
      match box.fontWeight
      case None => Err(KeyNotFound("fontWeight"))
      case Some(code) => Ok(TextCustomization(size, WeightOfCode(code)))
  }

  /** Encoding then decoding gives back the customisation. */
  lemma CustomizationRoundTrip(c: TextCustomization)
    ensures Decode(Encode(c)) == Ok(c)
  {
    WeightCodec(c.fontWeight, 0);
  }
}
