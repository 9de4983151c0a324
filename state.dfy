/** The effect parameters of a depth scene and their serialisation into the ordered list of
    shader uniforms (`pipeline`), with the x/y pair accessors of the camera state. */
module EffectState {
  import opened Wrappers

  // ---------------------------------------------------------------------------------------- //
  // Uniforms

  datatype UniformValue =
    | BoolValue(b: bool)
    | FloatValue(f: real)
    | IntValue(i: int)
    | Vec2Value(vx: real, vy: real)

  /** `Uniform(type, name, value)`: a GLSL type name, the variable name and its value. */
  datatype Uniform = Uniform(kind: string, name: string, value: UniformValue)

  /** The GLSL type name agrees with the kind of the value. */
  predicate WellTyped(u: Uniform) {
    match u.value
    case BoolValue(_) => u.kind == "bool"
    case FloatValue(_) => u.kind == "float"
    case IntValue(_) => u.kind == "int"
    case Vec2Value(_, _) => u.kind == "vec2"
  }

  predicate AllWellTyped(us: seq<Uniform>) {
    forall i :: 0 <= i < |us| ==> WellTyped(us[i])
  }

  function BoolUniform(name: string, b: bool): Uniform { Uniform("bool", name, BoolValue(b)) }
  function FloatUniform(name: string, f: real): Uniform { Uniform("float", name, FloatValue(f)) }
  function IntUniform(name: string, i: int): Uniform { Uniform("int", name, IntValue(i)) }
  function Vec2Uniform(name: string, v: (real, real)): Uniform { Uniform("vec2", name, Vec2Value(v.0, v.1)) }

  /** Readers used by the decoders: the value of `u` if it has the expected type and name. */
  function ReadBool(u: Uniform, name: string): (r: Option<bool>)
    ensures r.Some? ==> u == BoolUniform(name, r.value)
  {
    if u.kind == "bool" && u.name == name && u.value.BoolValue? then Some(u.value.b) else None
  }

  function ReadFloat(u: Uniform, name: string): (r: Option<real>)
    ensures r.Some? ==> u == FloatUniform(name, r.value)
  {
    if u.kind == "float" && u.name == name && u.value.FloatValue? then Some(u.value.f) else None
  }

  function ReadInt(u: Uniform, name: string): (r: Option<int>)
    ensures r.Some? ==> u == IntUniform(name, r.value)
  {
    if u.kind == "int" && u.name == name && u.value.IntValue? then Some(u.value.i) else None
  }

  function ReadVec2(u: Uniform, name: string): (r: Option<(real, real)>)
    ensures r.Some? ==> u == Vec2Uniform(name, r.value)
  {
    if u.kind == "vec2" && u.name == name && u.value.Vec2Value? then Some((u.value.vx, u.value.vy)) else None
  }

  // ---------------------------------------------------------------------------------------- //
  // Vignette

  datatype VignetteState = VignetteState(enable: bool, intensity: real, decay: real)

  function DefaultVignette(): VignetteState { VignetteState(false, 0.2, 20.0) }

  function VignettePipeline(v: VignetteState): seq<Uniform> {
    [ BoolUniform("iVigEnable", v.enable),
      FloatUniform("iVigIntensity", v.intensity),
      FloatUniform("iVigDecay", v.decay) ]
  }

  function DecodeVignette(us: seq<Uniform>): Option<VignetteState> {
    if |us| != 3 then None
    else
      var enable :- ReadBool(us[0], "iVigEnable");
      var intensity :- ReadFloat(us[1], "iVigIntensity");
      var decay :- ReadFloat(us[2], "iVigDecay");
      Some(VignetteState(enable, intensity, decay))
  }

  // ---------------------------------------------------------------------------------------- //
  // Lens

  datatype LensState = LensState(enable: bool, intensity: real, decay: real, quality: int)

  function DefaultLens(): LensState { LensState(false, 0.1, 0.4, 30) }

  function LensPipeline(l: LensState): seq<Uniform> {
    [ BoolUniform("iLensEnable", l.enable),
      FloatUniform("iLensIntensity", l.intensity),
      FloatUniform("iLensDecay", l.decay),
      IntUniform("iLensQuality", l.quality) ]
  }

  function DecodeLens(us: seq<Uniform>): Option<LensState> {
    if |us| != 4 then None
    else
      var enable :- ReadBool(us[0], "iLensEnable");
      var intensity :- ReadFloat(us[1], "iLensIntensity");
      var decay :- ReadFloat(us[2], "iLensDecay");
      var quality :- ReadInt(us[3], "iLensQuality");
      Some(LensState(enable, intensity, decay, quality))
  }

  // ---------------------------------------------------------------------------------------- //
  // Blur

  datatype BlurState = BlurState(
    enable: bool, intensity: real, start: real, end: real, exponent: real,
    quality: int, directions: int)

  function DefaultBlur(): BlurState { BlurState(false, 1.0, 0.6, 1.0, 2.0, 4, 16) }

  /** The blur radius is sent scaled down by 100; every other field passes through. */
  function BlurPipeline(b: BlurState): seq<Uniform> {
    [ BoolUniform("iBlurEnable", b.enable),
      FloatUniform("iBlurIntensity", b.intensity / 100.0),
      FloatUniform("iBlurStart", b.start),
      FloatUniform("iBlurEnd", b.end),
      FloatUniform("iBlurExponent", b.exponent),
      IntUniform("iBlurQuality", b.quality),
      IntUniform("iBlurDirections", b.directions) ]
  }

  function DecodeBlur(us: seq<Uniform>): Option<BlurState> {
    if |us| != 7 then None
    else
      var enable :- ReadBool(us[0], "iBlurEnable");
      var intensity :- ReadFloat(us[1], "iBlurIntensity");
      var start :- ReadFloat(us[2], "iBlurStart");
      var end :- ReadFloat(us[3], "iBlurEnd");
      var exponent :- ReadFloat(us[4], "iBlurExponent");
      var quality :- ReadInt(us[5], "iBlurQuality");
      var directions :- ReadInt(us[6], "iBlurDirections");
      Some(BlurState(enable, intensity * 100.0, start, end, exponent, quality, directions))
  }

  // ---------------------------------------------------------------------------------------- //
  // Inpaint

  datatype InpaintState = InpaintState(enable: bool, black: bool, limit: real)

  function DefaultInpaint(): InpaintState { InpaintState(false, false, 1.0) }

  function InpaintPipeline(p: InpaintState): seq<Uniform> {
    [ BoolUniform("iInpaint", p.enable),
      BoolUniform("iInpaintBlack", p.black),
      FloatUniform("iInpaintLimit", p.limit) ]
  }

  function DecodeInpaint(us: seq<Uniform>): Option<InpaintState> {
    if |us| != 3 then None
    else
      var enable :- ReadBool(us[0], "iInpaint");
      var black :- ReadBool(us[1], "iInpaintBlack");
      var limit :- ReadFloat(us[2], "iInpaintLimit");
      Some(InpaintState(enable, black, limit))
  }

  // ---------------------------------------------------------------------------------------- //
  // Colors

  datatype ColorState = ColorState(
    enable: bool, saturation: real, contrast: real, brightness: real, gamma: real,
    grayscale: real, sepia: real)

  function DefaultColors(): ColorState { ColorState(false, 100.0, 100.0, 100.0, 100.0, 0.0, 0.0) }

  /** All six color fields are sent as fractions of 100; the enable flag is not sent. */
  function ColorsPipeline(c: ColorState): seq<Uniform> {
    [ FloatUniform("iColorsSaturation", c.saturation / 100.0),
      FloatUniform("iColorsContrast", c.contrast / 100.0),
      FloatUniform("iColorsBrightness", c.brightness / 100.0),
      FloatUniform("iColorsGamma", c.gamma / 100.0),
      FloatUniform("iColorsGrayscale", c.grayscale / 100.0),
      FloatUniform("iColorsSepia", c.sepia / 100.0) ]
  }

  /** Decoding cannot recover `enable`, which the pipeline does not send; it reads as the
      default, disabled. */
  function DecodeColors(us: seq<Uniform>): Option<ColorState> {
    if |us| != 6 then None
    else
      var saturation :- ReadFloat(us[0], "iColorsSaturation");
      var contrast :- ReadFloat(us[1], "iColorsContrast");
      var brightness :- ReadFloat(us[2], "iColorsBrightness");
      var gamma :- ReadFloat(us[3], "iColorsGamma");
      var grayscale :- ReadFloat(us[4], "iColorsGrayscale");
      var sepia :- ReadFloat(us[5], "iColorsSepia");
      Some(ColorState(false, saturation * 100.0, contrast * 100.0, brightness * 100.0,
                      gamma * 100.0, grayscale * 100.0, sepia * 100.0))
  }

  // ---------------------------------------------------------------------------------------- //
  // The depth state

  datatype DepthState = DepthState(
    height: real, steady: real, focus: real, zoom: real, isometric: real, dolly: real,
    invert: real, mirror: bool,
    offsetX: real, offsetY: real, centerX: real, centerY: real, originX: real, originY: real,
    vignette: VignetteState, lens: LensState, inpaint: InpaintState, colors: ColorState,
    blur: BlurState)

  function DefaultDepthState(): DepthState {
    DepthState(0.20, 0.0, 0.0, 1.0, 0.0, 0.0, 0.0, true, 0.0, 0.0, 0.0, 0.0, 0.0, 0.0,
               DefaultVignette(), DefaultLens(), DefaultInpaint(), DefaultColors(), DefaultBlur())
  }

  /** The `offset`, `center` and `origin` properties and their setters. */
  function Offset(s: DepthState): (real, real) { (s.offsetX, s.offsetY) }
  function Center(s: DepthState): (real, real) { (s.centerX, s.centerY) }
  function Origin(s: DepthState): (real, real) { (s.originX, s.originY) }

  function WithOffset(s: DepthState, v: (real, real)): DepthState { s.(offsetX := v.0, offsetY := v.1) }
  function WithCenter(s: DepthState, v: (real, real)): DepthState { s.(centerX := v.0, centerY := v.1) }
  function WithOrigin(s: DepthState, v: (real, real)): DepthState { s.(originX := v.0, originY := v.1) }

  /** The eleven uniforms of the depth state itself. */
  function OwnPipeline(s: DepthState): seq<Uniform> {
    [ FloatUniform("iDepthHeight", s.height),
      FloatUniform("iDepthSteady", s.steady),
      FloatUniform("iDepthFocus", s.focus),
      FloatUniform("iDepthInvert", s.invert),
      FloatUniform("iDepthZoom", s.zoom),
      FloatUniform("iDepthIsometric", s.isometric),
      FloatUniform("iDepthDolly", s.dolly),
      Vec2Uniform("iDepthOffset", Offset(s)),
      Vec2Uniform("iDepthCenter", Center(s)),
      Vec2Uniform("iDepthOrigin", Origin(s)),
      BoolUniform("iDepthMirror", s.mirror) ]
  }

  /** `DepthState.pipeline`: its own uniforms, then the vignette, lens, inpaint, colors and
      blur sub-pipelines, in that order. */
  function Pipeline(s: DepthState): (r: seq<Uniform>)
    ensures |r| == 34
    ensures r[..11] == OwnPipeline(s)
    ensures r[11..14] == VignettePipeline(s.vignette)
    ensures r[14..18] == LensPipeline(s.lens)
    ensures r[18..21] == InpaintPipeline(s.inpaint)
    ensures r[21..27] == ColorsPipeline(s.colors)
    ensures r[27..] == BlurPipeline(s.blur)
  {
    var r := OwnPipeline(s) + VignettePipeline(s.vignette) + LensPipeline(s.lens)
      + InpaintPipeline(s.inpaint) + ColorsPipeline(s.colors) + BlurPipeline(s.blur);
    assert r[..11] == OwnPipeline(s);
    assert r[11..14] == VignettePipeline(s.vignette);
    assert r[14..18] == LensPipeline(s.lens);
    assert r[18..21] == InpaintPipeline(s.inpaint);
    assert r[21..27] == ColorsPipeline(s.colors);
    assert r[27..] == BlurPipeline(s.blur);
    r
  }

  /** The depth state's own fields with every sub-state at its default. */
  function OwnPart(s: DepthState): DepthState {
    s.(vignette := DefaultVignette(), lens := DefaultLens(), inpaint := DefaultInpaint(),
       colors := DefaultColors(), blur := DefaultBlur())
  }

  /** Reads the depth state's own fields back from its eleven uniforms. */
  function DecodeOwn(us: seq<Uniform>): Option<DepthState> {
    if |us| != 11 then None
    else
      var height :- ReadFloat(us[0], "iDepthHeight");
      var steady :- ReadFloat(us[1], "iDepthSteady");
      var focus :- ReadFloat(us[2], "iDepthFocus");
      var invert :- ReadFloat(us[3], "iDepthInvert");
      var zoom :- ReadFloat(us[4], "iDepthZoom");
      var isometric :- ReadFloat(us[5], "iDepthIsometric");
      var dolly :- ReadFloat(us[6], "iDepthDolly");
      var offset :- ReadVec2(us[7], "iDepthOffset");
      var center :- ReadVec2(us[8], "iDepthCenter");
      var origin :- ReadVec2(us[9], "iDepthOrigin");
      var mirror :- ReadBool(us[10], "iDepthMirror");
      Some(DepthState(height, steady, focus, zoom, isometric, dolly, invert, mirror,
                      offset.0, offset.1, center.0, center.1, origin.0, origin.1,
                      DefaultVignette(), DefaultLens(), DefaultInpaint(), DefaultColors(), DefaultBlur()))
  }

  /** Reads a depth state back from its 34 uniforms. */
  function DecodeDepthState(us: seq<Uniform>): Option<DepthState> {
    if |us| != 34 then None
    else
      var own :- DecodeOwn(us[..11]);
      var vignette :- DecodeVignette(us[11..14]);
      var lens :- DecodeLens(us[14..18]);
      var inpaint :- DecodeInpaint(us[18..21]);
      var colors :- DecodeColors(us[21..27]);
      var blur :- DecodeBlur(us[27..]);
      Some(own.(vignette := vignette, lens := lens, inpaint := inpaint, colors := colors, blur := blur))
  }

  // ---------------------------------------------------------------------------------------- //
  // Properties

  /** The vignette uniforms read back to the vignette state, the enable flag first. */
  lemma VignetteRoundTrip(v: VignetteState)
    ensures DecodeVignette(VignettePipeline(v)) == Some(v)
    ensures VignettePipeline(v)[0] == BoolUniform("iVigEnable", v.enable)
  {
  }

  /** The lens uniforms read back to the lens state, the enable flag first. */
  lemma LensRoundTrip(l: LensState)
    ensures DecodeLens(LensPipeline(l)) == Some(l)
    ensures LensPipeline(l)[0] == BoolUniform("iLensEnable", l.enable)
  {
  }

  /** The inpaint uniforms read back to the inpaint state, the enable flag first. */
  lemma InpaintRoundTrip(p: InpaintState)
    ensures DecodeInpaint(InpaintPipeline(p)) == Some(p)
    ensures InpaintPipeline(p)[0] == BoolUniform("iInpaint", p.enable)
  {
  }

  /** The colors uniforms read back to the colors state up to its unsent enable flag. */
  lemma ColorsRoundTrip(c: ColorState)
    ensures DecodeColors(ColorsPipeline(c)) == Some(c.(enable := false))
  {
  }

  /** The blur uniforms read back to the blur state, the enable flag first. */
  lemma BlurRoundTrip(b: BlurState)
    ensures DecodeBlur(BlurPipeline(b)) == Some(b)
    ensures BlurPipeline(b)[0] == BoolUniform("iBlurEnable", b.enable)
  {
  }

  /** The own uniforms read back to the own fields. */
  lemma OwnRoundTrip(s: DepthState)
    ensures DecodeOwn(OwnPipeline(s)) == Some(OwnPart(s))
  {
  }

  /** The whole pipeline loses nothing but `colors.enable`: decoding it gives back the state
      with that flag cleared. */
  lemma {:induction false} PipelineRoundTrip(s: DepthState)
    ensures DecodeDepthState(Pipeline(s)) == Some(s.(colors := s.colors.(enable := false)))
  {
    VignetteRoundTrip(s.vignette);
    LensRoundTrip(s.lens);
    InpaintRoundTrip(s.inpaint);
    ColorsRoundTrip(s.colors);
    BlurRoundTrip(s.blur);
    OwnRoundTrip(s);
  }

  /** Two states whose parts send the same uniforms send the same pipeline. */
  lemma PipelineCongruence(a: DepthState, b: DepthState)
    requires OwnPipeline(a) == OwnPipeline(b) && ColorsPipeline(a.colors) == ColorsPipeline(b.colors)
    requires a.vignette == b.vignette && a.lens == b.lens && a.inpaint == b.inpaint && a.blur == b.blur
    ensures Pipeline(a) == Pipeline(b)
  {
  }

  /** Consequently two states send the same uniforms exactly when they differ at most in
      `colors.enable`. */
  lemma PipelineInjective(a: DepthState, b: DepthState)
    ensures Pipeline(a) == Pipeline(b)
            <==> a.(colors := a.colors.(enable := false)) == b.(colors := b.colors.(enable := false))
  {
    PipelineRoundTrip(a);
    PipelineRoundTrip(b);
    if a.(colors := a.colors.(enable := false)) == b.(colors := b.colors.(enable := false)) {
      ColorsIgnoreEnable(a.colors, false);
      ColorsIgnoreEnable(b.colors, false);
      PipelineCongruence(a, b);
    }
  }

  /** The colors pipeline is unaffected by its enable flag, sends only floats, and scales
      every field by 1/100 in field order. */
  lemma ColorsIgnoreEnable(c: ColorState, e: bool)
    ensures ColorsPipeline(c.(enable := e)) == ColorsPipeline(c)
    ensures forall i :: 0 <= i < 6 ==> ColorsPipeline(c)[i].kind == "float"
    ensures [ColorsPipeline(c)[0].value, ColorsPipeline(c)[1].value, ColorsPipeline(c)[2].value,
             ColorsPipeline(c)[3].value, ColorsPipeline(c)[4].value, ColorsPipeline(c)[5].value]
            == [FloatValue(c.saturation / 100.0), FloatValue(c.contrast / 100.0),
                FloatValue(c.brightness / 100.0), FloatValue(c.gamma / 100.0),
                FloatValue(c.grayscale / 100.0), FloatValue(c.sepia / 100.0)]
  {
  }

  /** The blur pipeline sends the intensity divided by 100, and changing any other field
      changes only its own uniform. */
  lemma BlurScalesOnlyIntensity(b: BlurState, x: real)
    ensures BlurPipeline(b)[1].value == FloatValue(b.intensity / 100.0)
    ensures BlurPipeline(b.(intensity := x)) == BlurPipeline(b)[1 := FloatUniform("iBlurIntensity", x / 100.0)]
    ensures BlurPipeline(b.(start := x)) == BlurPipeline(b)[2 := FloatUniform("iBlurStart", x)]
    ensures BlurPipeline(b.(end := x)) == BlurPipeline(b)[3 := FloatUniform("iBlurEnd", x)]
    ensures BlurPipeline(b.(exponent := x)) == BlurPipeline(b)[4 := FloatUniform("iBlurExponent", x)]
  {
  }

  /** Every uniform the pipeline emits has a type name that matches its value. */
  lemma {:induction false} PipelineWellTyped(s: DepthState)
    ensures AllWellTyped(Pipeline(s))
  {
    var us := Pipeline(s);
    forall i | 0 <= i < |us| ensures WellTyped(us[i]) {
      if i < 11 { assert us[i] == OwnPipeline(s)[i]; }
      else if i < 14 { assert us[i] == VignettePipeline(s.vignette)[i - 11]; }
      else if i < 18 { assert us[i] == LensPipeline(s.lens)[i - 14]; }
      else if i < 21 { assert us[i] == InpaintPipeline(s.inpaint)[i - 18]; }
      else if i < 27 { assert us[i] == ColorsPipeline(s.colors)[i - 21]; }
      else { assert us[i] == BlurPipeline(s.blur)[i - 27]; }
    }
  }

  /** Writing a pair and reading it back gives the pair; writing what was read changes
      nothing; each setter changes only its own two fields and leaves the other pairs alone. */
  lemma PairRoundTrips(s: DepthState, v: (real, real))
    ensures Offset(WithOffset(s, v)) == v && WithOffset(s, Offset(s)) == s
    ensures Center(WithCenter(s, v)) == v && WithCenter(s, Center(s)) == s
    ensures Origin(WithOrigin(s, v)) == v && WithOrigin(s, Origin(s)) == s
    ensures Center(WithOffset(s, v)) == Center(s) && Origin(WithOffset(s, v)) == Origin(s)
    ensures Offset(WithCenter(s, v)) == Offset(s) && Origin(WithCenter(s, v)) == Origin(s)
    ensures Offset(WithOrigin(s, v)) == Offset(s) && Center(WithOrigin(s, v)) == Center(s)
    ensures WithOffset(s, v) == s.(offsetX := v.0, offsetY := v.1)
    ensures WithCenter(s, v) == s.(centerX := v.0, centerY := v.1)
    ensures WithOrigin(s, v) == s.(originX := v.0, originY := v.1)
  {
  }

  /** A state that differs from another only in its own uniform `i` sends the other's
      pipeline with just that uniform replaced. */
  lemma PipelineUpdateOwn(a: DepthState, b: DepthState, i: nat, u: Uniform)
    requires i < 11 && OwnPipeline(b) == OwnPipeline(a)[i := u]
    requires a.vignette == b.vignette && a.lens == b.lens && a.inpaint == b.inpaint
    requires a.colors == b.colors && a.blur == b.blur
    ensures Pipeline(b) == Pipeline(a)[i := u]
  {
    var rest := VignettePipeline(a.vignette) + LensPipeline(a.lens) + InpaintPipeline(a.inpaint)
      + ColorsPipeline(a.colors) + BlurPipeline(a.blur);
    assert Pipeline(a) == OwnPipeline(a) + rest;
    assert Pipeline(b) == OwnPipeline(b) + rest;
    assert (OwnPipeline(a) + rest)[i := u] == OwnPipeline(a)[i := u] + rest;
  }

  /** Each pair setter changes exactly its own uniform of the pipeline. */
  lemma PairSettersTouchOneUniform(s: DepthState, v: (real, real))
    ensures Pipeline(WithOffset(s, v)) == Pipeline(s)[7 := Vec2Uniform("iDepthOffset", v)]
    ensures Pipeline(WithCenter(s, v)) == Pipeline(s)[8 := Vec2Uniform("iDepthCenter", v)]
    ensures Pipeline(WithOrigin(s, v)) == Pipeline(s)[9 := Vec2Uniform("iDepthOrigin", v)]
  {
    PipelineUpdateOwn(s, WithOffset(s, v), 7, Vec2Uniform("iDepthOffset", v));
    PipelineUpdateOwn(s, WithCenter(s, v), 8, Vec2Uniform("iDepthCenter", v));
    PipelineUpdateOwn(s, WithOrigin(s, v), 9, Vec2Uniform("iDepthOrigin", v));
  }

  /** With the default state every effect is disabled: the only true boolean uniform is the
      mirror flag, and the depth uniforms start at height 0.2 and zoom 1. */
  lemma {:induction false} DefaultsDisableEffects()
    ensures var us := Pipeline(DefaultDepthState());
            && (forall i :: 0 <= i < |us| && us[i].value.BoolValue? ==>
                  (us[i].value.b <==> us[i].name == "iDepthMirror"))
            && us[0] == FloatUniform("iDepthHeight", 0.20)
            && us[4] == FloatUniform("iDepthZoom", 1.0)
  {
    var s := DefaultDepthState();
    var us := Pipeline(s);
    forall i | 0 <= i < |us| && us[i].value.BoolValue?
      ensures us[i].value.b <==> us[i].name == "iDepthMirror"
    {
      if i < 11 { assert us[i] == OwnPipeline(s)[i]; }
      else if i < 14 { assert us[i] == VignettePipeline(s.vignette)[i - 11]; }
      else if i < 18 { assert us[i] == LensPipeline(s.lens)[i - 14]; }
      else if i < 21 { assert us[i] == InpaintPipeline(s.inpaint)[i - 18]; }
      else if i < 27 { assert us[i] == ColorsPipeline(s.colors)[i - 21]; }
      else { assert us[i] == BlurPipeline(s.blur)[i - 27]; }
    }
    assert us[0] == OwnPipeline(s)[0];
    assert us[4] == OwnPipeline(s)[4];
  }
}
