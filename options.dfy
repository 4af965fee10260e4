/**
 * The constructor's validation and defaulting of the numeric options
 * (src/RadialMenu.js:93-113 and :133), and the checks of `createGradient`
 * (src/RadialMenu.js:494-545).
 */
module MenuOptions {
  import opened Common
  import opened Angles

  /**
   * An option as the constructor receives it. `Absent` stands for both
   * `undefined` and `NaN`, which behave alike under `||` and `isNaN`;
   * `NonNumeric` for a truthy value that `isNaN` rejects, such as "abc".
   */
  datatype Value = Absent | Num(x: real) | NonNumeric

  /** The exceptions the validated part of the menu throws. */
  datatype MenuError =
    | FontSizeNotANumber         // "Font size must be a number"
    | InnerLargerThanOuter       // "Inner circle can't be larger than outer circle"
    | InnerNegative              // "Inner circle can't be negative"
    | ButtonsNotAnArray          // "Buttons must be an Array of button objects"
    | ButtonWithoutTextOrAction  // "Button must have a text and an action value"
    | InvalidGradientObject      // "Invalid gradient object"
    | InvalidGradientValue       // "Invalid gradient value"
    | InvalidColorPosition       // "Invalid color position"

  /** The constructor options this model covers. */
  datatype Options = Options(
    fontFamily: Option<string>,
    fontSize: Value,
    innerCircle: Value,
    outerCircle: Value,
    rotation: Value,
    buttonGap: Option<real>)

  /** The values the constructor stores once the options are resolved. */
  datatype Settings = Settings(
    fontFamily: string,
    fontSize: real,
    innerCircle: real,
    outerCircle: real,
    rotation: real,
    buttonGap: real)

  const DefaultFontFamily: string := "FontAwesome"
  const DefaultFontSize: real := 14.0
  const DefaultInnerCircle: real := 50.0
  const DefaultOuterCircle: real := 100.0

  /** What a successfully built menu always satisfies. */
  predicate ValidSettings(s: Settings) {
    && 0.0 <= s.innerCircle <= s.outerCircle
    && 0.0 <= s.rotation < TwoPi
  }

  /** `!isNaN(v) ? v : dflt`, the defaulting of the two radii. */
  function Radius(v: Value, dflt: real): real {
    if v.Num? then v.x else dflt
  }

  /** `Math.abs(rotation % TWOPI) || 0`. */
  function ResolveRotation(v: Value): (r: real)
    ensures 0.0 <= r < TwoPi
    ensures v.Num? && 0.0 <= v.x < TwoPi ==> r == v.x
    ensures v.Num? && -TwoPi < v.x < 0.0 ==> r == -v.x
    ensures !v.Num? ==> r == 0.0
    ensures v.Num? ==> r == Mod2Pi(v.x) || r == -Mod2Pi(v.x)
  {
    if v.Num? then
      var m := Mod2Pi(v.x);
      if m < 0.0 then -m else m
    else
      0.0
  }

  /** A rotation of 7 radians is stored as 7 - 2*PI, and one of -7 as the same. */
  lemma RotationSevenStored()
    ensures ResolveRotation(Num(7.0)) == 7.0 - TwoPi
    ensures ResolveRotation(Num(-7.0)) == 7.0 - TwoPi
  {
    Mod2PiUnique(7.0, 7.0 - TwoPi, 1);
    Mod2PiUnique(-7.0, TwoPi - 7.0, -1);
  }

  /**
   * The option handling of the constructor, in source order: the font
   * size check, then inner > outer, then inner < 0.
   */
  function ResolveOptions(o: Options): (r: Result<Settings, MenuError>)
    ensures r.Failure? <==>
      || o.fontSize.NonNumeric?
      || Radius(o.innerCircle, DefaultInnerCircle) > Radius(o.outerCircle, DefaultOuterCircle)
      || Radius(o.innerCircle, DefaultInnerCircle) < 0.0
    ensures r.Failure? && o.fontSize.NonNumeric? ==> r.error == FontSizeNotANumber
    ensures r.Failure? && !o.fontSize.NonNumeric? ==>
      r.error == if Radius(o.innerCircle, DefaultInnerCircle) > Radius(o.outerCircle, DefaultOuterCircle)
                 then InnerLargerThanOuter else InnerNegative
    ensures r.Success? ==> ValidSettings(r.value)
    ensures r.Success? ==>
      && r.value.innerCircle == Radius(o.innerCircle, DefaultInnerCircle)
      && r.value.outerCircle == Radius(o.outerCircle, DefaultOuterCircle)
      && r.value.rotation == ResolveRotation(o.rotation)
      && r.value.buttonGap == (if o.buttonGap.Some? then o.buttonGap.value else 0.0)
      && r.value.fontSize == (if o.fontSize.Num? && o.fontSize.x != 0.0 then o.fontSize.x else DefaultFontSize)
      && r.value.fontFamily == (if o.fontFamily.Some? && o.fontFamily.value != "" then o.fontFamily.value else DefaultFontFamily)
  {
    var fontFamily := if o.fontFamily.Some? && o.fontFamily.value != "" then o.fontFamily.value else DefaultFontFamily;
    if o.fontSize.NonNumeric? then Failure(FontSizeNotANumber)
    else
      var fontSize := if o.fontSize.Num? && o.fontSize.x != 0.0 then o.fontSize.x else DefaultFontSize;
      var inner := Radius(o.innerCircle, DefaultInnerCircle);
      var outer := Radius(o.outerCircle, DefaultOuterCircle);
      if inner > outer then Failure(InnerLargerThanOuter)
      else if inner < 0.0 then Failure(InnerNegative)
      else
        var gap := if o.buttonGap.Some? then o.buttonGap.value else 0.0;
        Success(Settings(fontFamily, fontSize, inner, outer, ResolveRotation(o.rotation), gap))
  }

  /** With neither radius given, the menu is a ring from 50 to 100 and never fails on radii. */
  lemma DefaultRadii(o: Options)
    requires !o.fontSize.NonNumeric?
    requires !o.innerCircle.Num? && !o.outerCircle.Num?
    ensures ResolveOptions(o).Success?
    ensures ResolveOptions(o).value.innerCircle == 50.0
    ensures ResolveOptions(o).value.outerCircle == 100.0
  {
  }

  /** A colour-stop position passes `isNaN(key) || key < 0 || key > 1` unharmed. */
  predicate ValidColorStop(key: Value) {
    key.Num? && 0.0 <= key.x <= 1.0
  }

  /**
   * The key loop of `createGradient`: every colour-stop position must be a
   * number in [0, 1], and the first one that is not throws.
   */
  method CheckColorStopKeys(keys: seq<Value>) returns (r: Outcome<MenuError>)
    ensures r.Pass? <==> forall k | k in keys :: ValidColorStop(k)
    ensures r.Fail? ==> r.error == InvalidColorPosition
  {
    var i := 0;
    while i < |keys|
      invariant 0 <= i <= |keys|
      invariant forall j | 0 <= j < i :: ValidColorStop(keys[j])
    {
      var key := keys[i];
      if !key.Num? || key.x < 0.0 || key.x > 1.0 {
        assert key in keys && !ValidColorStop(key);
        return Fail(InvalidColorPosition);
      }
      i := i + 1;
    }
    return Pass;
  }

  /**
   * A colour option given as an object: its `gradient` key (absent, or the
   * string it holds) and the keys of its `colors` object, in order.
   */
  datatype GradientSpec = GradientSpec(kind: Option<string>, colorKeys: seq<Value>)

  /** The gradient names `createGradient` accepts. */
  const GradientKinds: set<string> := {"radial", "linear1", "linear2", "linear3", "linear4"}

  /**
   * The checks of `createGradient`, without the canvas calls: the object
   * must have a `gradient` key naming one of the five kinds, and then every
   * colour-stop key must pass.
   */
  method CheckGradient(g: GradientSpec) returns (r: Outcome<MenuError>)
    ensures g.kind.None? ==> r == Fail(InvalidGradientObject)
    ensures g.kind.Some? && g.kind.value !in GradientKinds ==> r == Fail(InvalidGradientValue)
    ensures g.kind.Some? && g.kind.value in GradientKinds ==>
      && (r.Pass? <==> forall k | k in g.colorKeys :: ValidColorStop(k))
      && (r.Fail? ==> r.error == InvalidColorPosition)
  {
    if g.kind.None? {
      return Fail(InvalidGradientObject);
    }
    var kind := g.kind.value;
    if kind != "radial" && kind != "linear1" && kind != "linear2" && kind != "linear3" && kind != "linear4" {
      return Fail(InvalidGradientValue);
    }
    r := CheckColorStopKeys(g.colorKeys);
  }
}
