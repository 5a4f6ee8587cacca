/** The character's appearance (Character.cs): four body-part colours stored
    exactly as given, and a head and a foot scale that every setter clamps to
    [0.5, 1.5] and rounds to the nearest tenth. */
module CharacterModel {
  import opened Numeric

  /** A Unity `Color`: four channels, stored without any constraint. */
  datatype Color = Color(r: real, g: real, b: real, a: real)

  const White: Color := Color(1.0, 1.0, 1.0, 1.0)

  const MinScale: real := 0.5
  const MaxScale: real := 1.5
  const ScaleStep: real := 0.1

  /** The live domain object: the current value of each of its six
      reactive properties. */
  datatype Character = Character(
    rightHandColor: Color,
    leftHandColor: Color,
    rightFootColor: Color,
    leftFootColor: Color,
    headScale: real,
    footScale: real)

  /** The serialisable transfer record; its scales are whatever was stored,
      so they may lie off the grid. */
  datatype CharacterData = CharacterData(
    rightHandColor: Color,
    leftHandColor: Color,
    rightFootColor: Color,
    leftFootColor: Color,
    headScale: real,
    footScale: real)

  /** A scale the setters can store: a multiple of 0.1 in [0.5, 1.5]. */
  predicate OnScaleGrid(s: real) {
    MinScale <= s <= MaxScale && (s * 10.0).Floor as real == s * 10.0
  }

  /** The invariant every operation keeps. */
  predicate Valid(c: Character) {
    OnScaleGrid(c.headScale) && OnScaleGrid(c.footScale)
  }

  /** `s` is a value a scale setter may store for the raw input `x`: a grid
      point no more than half a step from `x` clamped to the range. Away
      from exact ties this pins `s` down (see `QuantisedIsUnique`). */
  ghost predicate QuantisedFrom(x: real, s: real) {
    OnScaleGrid(s) && Abs(s - Clamp(x, MinScale, MaxScale)) <= ScaleStep / 2.0
  }

  /** The values of the fields at construction. */
  const Initial: Character := Character(White, White, White, White, 1.0, 1.0)

  /** Clamp to [0.5, 1.5], then round to the nearest tenth. */
  function QuantiseScale(x: real): (s: real)
    ensures QuantisedFrom(x, s)
    ensures OnScaleGrid(x) ==> s == x
  {
    var n := Round(Clamp(x, MinScale, MaxScale) * 10.0);
    n as real / 10.0
  }

  /** Two admissible results for the same input are equal unless the
      clamped input sits exactly between two grid points. */
  lemma QuantisedIsUnique(x: real, s: real, t: real)
    requires QuantisedFrom(x, s) && QuantisedFrom(x, t)
    requires Abs(s - Clamp(x, MinScale, MaxScale)) < ScaleStep / 2.0
    ensures s == t
  {
  }

  function SetRightHandColor(c: Character, color: Color): (r: Character)
    ensures r.rightHandColor == color
    ensures r.(rightHandColor := c.rightHandColor) == c
  {
    c.(rightHandColor := color)
  }

  function SetLeftHandColor(c: Character, color: Color): (r: Character)
    ensures r.leftHandColor == color
    ensures r.(leftHandColor := c.leftHandColor) == c
  {
    c.(leftHandColor := color)
  }

  function SetRightFootColor(c: Character, color: Color): (r: Character)
    ensures r.rightFootColor == color
    ensures r.(rightFootColor := c.rightFootColor) == c
  {
    c.(rightFootColor := color)
  }

  function SetLeftFootColor(c: Character, color: Color): (r: Character)
    ensures r.leftFootColor == color
    ensures r.(leftFootColor := c.leftFootColor) == c
  {
    c.(leftFootColor := color)
  }

  function SetHeadScale(c: Character, x: real): (r: Character)
    ensures QuantisedFrom(x, r.headScale)
    ensures OnScaleGrid(x) ==> r.headScale == x
    ensures r.(headScale := c.headScale) == c
    ensures Valid(c) ==> Valid(r)
  {
    c.(headScale := QuantiseScale(x))
  }

  function SetFootScale(c: Character, x: real): (r: Character)
    ensures QuantisedFrom(x, r.footScale)
    ensures OnScaleGrid(x) ==> r.footScale == x
    ensures r.(footScale := c.footScale) == c
    ensures Valid(c) ==> Valid(r)
  {
    c.(footScale := QuantiseScale(x))
  }

  /** One step up from a grid point is the next grid point, or the top of
      the range when already there. */
  lemma StepUp(s: real)
    ensures OnScaleGrid(s) && s < MaxScale ==> QuantiseScale(s + ScaleStep) == s + ScaleStep
    ensures s == MaxScale ==> QuantiseScale(s + ScaleStep) == MaxScale
  {
  }

  /** One step down from a grid point is the previous grid point, or the
      bottom of the range when already there. */
  lemma StepDown(s: real)
    ensures OnScaleGrid(s) && s > MinScale ==> QuantiseScale(s - ScaleStep) == s - ScaleStep
    ensures s == MinScale ==> QuantiseScale(s - ScaleStep) == MinScale
  {
  }

  function IncreaseHeadScale(c: Character): (r: Character)
    ensures QuantisedFrom(c.headScale + ScaleStep, r.headScale)
    ensures Valid(c) && c.headScale < MaxScale ==> r.headScale == c.headScale + ScaleStep
    ensures Valid(c) && c.headScale == MaxScale ==> r.headScale == MaxScale
    ensures r.(headScale := c.headScale) == c
  {
    StepUp(c.headScale);
    SetHeadScale(c, c.headScale + ScaleStep)
  }

  function DecreaseHeadScale(c: Character): (r: Character)
    ensures QuantisedFrom(c.headScale - ScaleStep, r.headScale)
    ensures Valid(c) && c.headScale > MinScale ==> r.headScale == c.headScale - ScaleStep
    ensures Valid(c) && c.headScale == MinScale ==> r.headScale == MinScale
    ensures r.(headScale := c.headScale) == c
  {
    StepDown(c.headScale);
    SetHeadScale(c, c.headScale - ScaleStep)
  }

  function IncreaseFootScale(c: Character): (r: Character)
    ensures QuantisedFrom(c.footScale + ScaleStep, r.footScale)
    ensures Valid(c) && c.footScale < MaxScale ==> r.footScale == c.footScale + ScaleStep
    ensures Valid(c) && c.footScale == MaxScale ==> r.footScale == MaxScale
    ensures r.(footScale := c.footScale) == c
  {
    StepUp(c.footScale);
    SetFootScale(c, c.footScale + ScaleStep)
  }

  function DecreaseFootScale(c: Character): (r: Character)
    ensures QuantisedFrom(c.footScale - ScaleStep, r.footScale)
    ensures Valid(c) && c.footScale > MinScale ==> r.footScale == c.footScale - ScaleStep
    ensures Valid(c) && c.footScale == MinScale ==> r.footScale == MinScale
    ensures r.(footScale := c.footScale) == c
  {
    StepDown(c.footScale);
    SetFootScale(c, c.footScale - ScaleStep)
  }

  /** A step up and a step down cancel out wherever neither saturates. */
  lemma StepsCancel(c: Character)
    ensures Valid(c) && c.headScale < MaxScale ==> DecreaseHeadScale(IncreaseHeadScale(c)) == c
    ensures Valid(c) && c.headScale > MinScale ==> IncreaseHeadScale(DecreaseHeadScale(c)) == c
    ensures Valid(c) && c.footScale < MaxScale ==> DecreaseFootScale(IncreaseFootScale(c)) == c
    ensures Valid(c) && c.footScale > MinScale ==> IncreaseFootScale(DecreaseFootScale(c)) == c
  {
  }

  /** Every colour back to white and both scales back to 1.0: the same
      state a freshly constructed character has. */
  function ResetToDefault(c: Character): (r: Character)
    ensures r == Initial
    ensures Valid(r)
  {
    Character(White, White, White, White, 1.0, 1.0)
  }

  /** Copies the colours verbatim and sends both scales through the
      quantising setters, so any record yields a valid character. */
  function FromData(d: CharacterData): (c: Character)
    ensures Valid(c)
    ensures c.rightHandColor == d.rightHandColor && c.leftHandColor == d.leftHandColor
    ensures c.rightFootColor == d.rightFootColor && c.leftFootColor == d.leftFootColor
    ensures QuantisedFrom(d.headScale, c.headScale) && QuantisedFrom(d.footScale, c.footScale)
  {
    var colours := Character(d.rightHandColor, d.leftHandColor, d.rightFootColor, d.leftFootColor,
                             Initial.headScale, Initial.footScale);
    SetFootScale(SetHeadScale(colours, d.headScale), d.footScale)
  }

  /** A snapshot of the six current values; restoring it gives back the
      same character. */
  function ToData(c: Character): (d: CharacterData)
    ensures d.rightHandColor == c.rightHandColor && d.leftHandColor == c.leftHandColor
    ensures d.rightFootColor == c.rightFootColor && d.leftFootColor == c.leftFootColor
    ensures d.headScale == c.headScale && d.footScale == c.footScale
    ensures Valid(c) ==> FromData(d) == c
  {
    CharacterData(c.rightHandColor, c.leftHandColor, c.rightFootColor, c.leftFootColor,
                  c.headScale, c.footScale)
  }

  /** The rounding cases exercised by the unit tests. */
  lemma ScaleExamples()
    ensures QuantiseScale(0.851) == 0.9 && QuantiseScale(0.84) == 0.8
    ensures QuantiseScale(0.3) == 0.5 && QuantiseScale(1.8) == 1.5
    ensures QuantiseScale(0.5) == 0.5 && QuantiseScale(1.0) == 1.0 && QuantiseScale(1.5) == 1.5
  {
  }
}
