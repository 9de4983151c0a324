/** The animation layer of a depth scene: targets of the scene state, the time each
    animation sees, the single-target components (constants, linear ramp, waves) and how
    they write into the state, the special and filter steps, and the ordered step list that
    is applied once per frame.

    The animated scene state is seen as a map from targets to numbers; boolean fields read
    as 1 or 0.  `sin`, `cos` and `pow` are the abstract functions of a `Numerics` value. */
module Animation {
  import opened Wrappers
  import opened EffectState

  // ---------------------------------------------------------------------------------------- //
  // Class namespaces listed as enum members

  /** `ClassEnum.members` keeps a name unless it starts with `_` or is `members` itself. */
  predicate Listed(name: string) {
    !(|name| > 0 && name[0] == '_') && name != "members"
  }

  /** `ClassEnum.members` over the names of a class namespace, in namespace order. */
  function Members(names: seq<string>): (r: seq<string>)
    ensures forall n :: n in r <==> n in names && Listed(n)
    ensures |r| <= |names|
  {
    if names == [] then []
    else if Listed(names[0]) then [names[0]] + Members(names[1..])
    else Members(names[1..])
  }

  /** The listing keeps namespace order: listing two halves is listing their concatenation. */
  lemma {:induction false} MembersKeepOrder(a: seq<string>, b: seq<string>)
    ensures Members(a + b) == Members(a) + Members(b)
  {
    if a == [] {
      assert a + b == b;
    } else {
      assert (a + b)[0] == a[0];
      assert (a + b)[1..] == a[1..] + b;
      MembersKeepOrder(a[1..], b);
    }
  }

  /** Listing a namespace one name at a time: a listed name is kept in front, any other is
      dropped. */
  lemma {:induction false} MembersCons(n: string, rest: seq<string>)
    ensures Members([n] + rest) == (if Listed(n) then [n] else []) + Members(rest)
  {
    assert ([n] + rest)[0] == n;
    assert ([n] + rest)[1..] == rest;
  }

  /** The private bases of the constant and wave components, the interpreter's own entries and
      the listing method itself are not listed; the animation classes are. */
  lemma PrivateNamesNotListed()
    ensures !Listed("_ConstantBase") && !Listed("_WaveBase")
    ensures !Listed("__module__") && !Listed("__qualname__") && !Listed("__doc__")
    ensures !Listed("members")
    ensures Listed("Set") && Listed("Add") && Listed("Triangle") && Listed("Orbital")
  {
  }

  // ---------------------------------------------------------------------------------------- //
  // Targets and the animated state

  /** The state variables an animation can modulate (`Target`). */
  datatype Target =
    | Nothing
    | Height | Steady | Focus | Zoom | Isometric | Dolly | Invert | Mirror
    | CenterX | CenterY | OriginX | OriginY | OffsetX | OffsetY
    | VignetteEnable | VignetteIntensity | VignetteDecay
    | LensEnable | LensIntensity | LensDecay | LensQuality
    | BlurEnable | BlurStart | BlurEnd | BlurExponent | BlurIntensity | BlurQuality | BlurDirections
    | InpaintEnable | InpaintBlack | InpaintLimit
    | ColorEnable | ColorSaturation | ColorContrast | ColorBrightness | ColorGamma
    | ColorGrayscale | ColorSepia

  /** The part of a depth state a target lives in: the camera fields or one effect sub-state. */
  datatype Group = Camera | VignetteGroup | LensGroup | BlurGroup | InpaintGroup | ColorsGroup

  function GroupOf(t: Target): Group {
    match t
    case VignetteEnable | VignetteIntensity | VignetteDecay => VignetteGroup
    case LensEnable | LensIntensity | LensDecay | LensQuality => LensGroup
    case BlurEnable | BlurStart | BlurEnd | BlurExponent | BlurIntensity | BlurQuality | BlurDirections => BlurGroup
    case InpaintEnable | InpaintBlack | InpaintLimit => InpaintGroup
    case ColorEnable | ColorSaturation | ColorContrast | ColorBrightness | ColorGamma
       | ColorGrayscale | ColorSepia => ColorsGroup
    case _ => Camera
  }

  /** The animated scene state: the number each field reads as. */
  type Scenery = map<Target, real>

  /** A state holding exactly the fields of a depth state: every target but `Nothing`. */
  predicate Complete(st: Scenery) {
    forall t :: t in st <==> t != Nothing
  }

  /** A boolean field read as a number (`True` adds as 1). */
  function Flag(b: bool): real { if b then 1.0 else 0.0 }

  function ReadVignette(v: VignetteState, t: Target): real {
    match t
    case VignetteEnable => Flag(v.enable)
    case VignetteIntensity => v.intensity
    case VignetteDecay => v.decay
    case _ => 0.0
  }

  function ReadLens(l: LensState, t: Target): real {
    match t
    case LensEnable => Flag(l.enable)
    case LensIntensity => l.intensity
    case LensDecay => l.decay
    case LensQuality => l.quality as real
    case _ => 0.0
  }

  function ReadBlur(b: BlurState, t: Target): real {
    match t
    case BlurEnable => Flag(b.enable)
    case BlurStart => b.start
    case BlurEnd => b.end
    case BlurExponent => b.exponent
    case BlurIntensity => b.intensity
    case BlurQuality => b.quality as real
    case BlurDirections => b.directions as real
    case _ => 0.0
  }

  function ReadInpaint(p: InpaintState, t: Target): real {
    match t
    case InpaintEnable => Flag(p.enable)
    case InpaintBlack => Flag(p.black)
    case InpaintLimit => p.limit
    case _ => 0.0
  }

  function ReadColors(c: ColorState, t: Target): real {
    match t
    case ColorEnable => Flag(c.enable)
    case ColorSaturation => c.saturation
    case ColorContrast => c.contrast
    case ColorBrightness => c.brightness
    case ColorGamma => c.gamma
    case ColorGrayscale => c.grayscale
    case ColorSepia => c.sepia
    case _ => 0.0
  }

  /** `BrokenAttribute.get(state, target.value)`: the dotted path into the state. */
  function Read(s: DepthState, t: Target): real {
    match t
    case Nothing => 0.0
    case Height => s.height
    case Steady => s.steady
    case Focus => s.focus
    case Zoom => s.zoom
    case Isometric => s.isometric
    case Dolly => s.dolly
    case Invert => s.invert
    case Mirror => Flag(s.mirror)
    case CenterX => s.centerX
    case CenterY => s.centerY
    case OriginX => s.originX
    case OriginY => s.originY
    case OffsetX => s.offsetX
    case OffsetY => s.offsetY
    case VignetteEnable => Flag(s.vignette.enable)
    case VignetteIntensity => s.vignette.intensity
    case VignetteDecay => s.vignette.decay
    case LensEnable => Flag(s.lens.enable)
    case LensIntensity => s.lens.intensity
    case LensDecay => s.lens.decay
    case LensQuality => s.lens.quality as real
    case BlurEnable => Flag(s.blur.enable)
    case BlurStart => s.blur.start
    case BlurEnd => s.blur.end
    case BlurExponent => s.blur.exponent
    case BlurIntensity => s.blur.intensity
    case BlurQuality => s.blur.quality as real
    case BlurDirections => s.blur.directions as real
    case InpaintEnable => Flag(s.inpaint.enable)
    case InpaintBlack => Flag(s.inpaint.black)
    case InpaintLimit => s.inpaint.limit
    case ColorEnable => Flag(s.colors.enable)
    case ColorSaturation => s.colors.saturation
    case ColorContrast => s.colors.contrast
    case ColorBrightness => s.colors.brightness
    case ColorGamma => s.colors.gamma
    case ColorGrayscale => s.colors.grayscale
    case ColorSepia => s.colors.sepia
  }

  /** A depth state seen as the animated state. */
  function StateView(s: DepthState): (r: Scenery)
    ensures Complete(r)
  {
    map t: Target | t != Nothing :: Read(s, t)
  }

  // ---------------------------------------------------------------------------------------- //
  // Time

  /** `2 * math.pi`. */
  const TwoPi: real := 6.283185307179586

  /** `get_time`: the normalised time and the phase angle, played backwards when reversed. */
  function GetTime(reverse: bool, tau: real, cycle: real): (real, real) {
    if reverse then (1.0 - tau, TwoPi - cycle) else (tau, cycle)
  }

  /** Forward time is the scene's own; reversed time mirrors both; reversing twice is the
      identity. */
  lemma ReverseTwice(tau: real, cycle: real)
    ensures GetTime(false, tau, cycle) == (tau, cycle)
    ensures GetTime(true, tau, cycle) == (1.0 - tau, TwoPi - cycle)
    ensures var (t, c) := GetTime(true, tau, cycle); GetTime(true, t, c) == (tau, cycle)
  {
  }

  // ---------------------------------------------------------------------------------------- //
  // Components

  /** The abstract numeric functions the components use. */
  datatype Numerics = Numerics(sin: real -> real, cos: real -> real, pow: (real, real) -> real)

  /** What a single-target component computes, with its own parameters. */
  datatype Wave =
    | Set(value: real)
    | Add(value: real)
    | Linear(start: real, end: real, low: real, high: real, exponent: real, reverse: bool)
    | Sine(amplitude: real, bias: real, cycles: real, phase: real, reverse: bool)
    | Cosine(amplitude: real, bias: real, cycles: real, phase: real, reverse: bool)
    | Triangle(amplitude: real, bias: real, cycles: real, phase: real, reverse: bool)

  /** A component: its target, its `cumulative` flag and what it computes. */
  datatype Component = Component(target: Target, cumulative: bool, wave: Wave)

  /** `getattr(self, "reverse", False)`: the constants have no reverse flag. */
  function Reversed(w: Wave): bool {
    if w.Set? || w.Add? then false else w.reverse
  }

  function Abs(x: real): real { if x < 0.0 then -x else x }

  /** `x % 1` on a float: the fractional part, in [0, 1). */
  function Frac(x: real): (r: real)
    ensures 0.0 <= r < 1.0
    ensures (x - r).Floor as real == x - r
  {
    x - x.Floor as real
  }

  /** The triangle wave at time `tau`. */
  function TriangleWave(amplitude: real, bias: real, cycles: real, phase: real, tau: real): real {
    var t := Frac(tau * cycles + phase + 0.25);
    amplitude * (1.0 - 4.0 * Abs(t - 0.5)) + bias
  }

  lemma MulNonneg(x: real, y: real)
    requires 0.0 <= x && 0.0 <= y
    ensures 0.0 <= x * y
  {
  }

  /** `a * w` lies within `±|a|` when `w` lies within [-1, 1]. */
  lemma ScaledUnitBounded(a: real, w: real)
    requires -1.0 <= w <= 1.0
    ensures -Abs(a) <= a * w <= Abs(a)
  {
    MulNonneg(Abs(a), 1.0 - w);
    MulNonneg(Abs(a), 1.0 + w);
    if a < 0.0 {
      assert Abs(a) * (1.0 - w) == -a + a * w;
      assert Abs(a) * (1.0 + w) == -a - a * w;
    } else {
      assert Abs(a) * (1.0 - w) == a - a * w;
      assert Abs(a) * (1.0 + w) == a + a * w;
    }
  }

  /** The triangle wave stays within `bias ± |amplitude|`. */
  lemma TriangleBounded(amplitude: real, bias: real, cycles: real, phase: real, tau: real)
    ensures bias - Abs(amplitude) <= TriangleWave(amplitude, bias, cycles, phase, tau) <= bias + Abs(amplitude)
  {
    var t := Frac(tau * cycles + phase + 0.25);
    var w := 1.0 - 4.0 * Abs(t - 0.5);
    assert -1.0 <= w <= 1.0;
    ScaledUnitBounded(amplitude, w);
  }

  /** The angle a sine or cosine wave takes at phase angle `cycle`. */
  function Angle(cycles: real, phase: real, cycle: real): real {
    cycle * cycles + phase * TwoPi
  }

  /** `max(0, min(1, normal))`: the ramp's progress at time `tau`, clamped to [0, 1]. */
  function Progress(w: Wave, tau: real): (p: real)
    requires w.Linear? && w.end != w.start
    ensures 0.0 <= p <= 1.0
  {
    var normal := (tau - w.start) / (w.end - w.start);
    if normal < 0.0 then 0.0 else if normal > 1.0 then 1.0 else normal
  }

  /** Whether `compute` raises at time `tau`: only a linear ramp can, either dividing by a
      zero length or asking `math.pow` for zero to a negative power. */
  predicate Raises(w: Wave, tau: real) {
    w.Linear? && (w.end == w.start || (Progress(w, tau) == 0.0 && w.exponent < 0.0))
  }

  /** `compute(tau, cycle)`: the component's value and its `cumulative` flag afterwards.  A
      linear ramp whose start and end coincide divides by zero, and one at progress 0 with a
      negative exponent is outside the domain of `math.pow`; both raise. */
  function Compute(c: Component, tau: real, cycle: real, m: Numerics): (r: Result<(real, bool)>)
    ensures r.Raised? <==> Raises(c.wave, tau)
    ensures r.Raised? ==> r.message == (if c.wave.end == c.wave.start then "float division by zero"
                                        else "math domain error")
    ensures r.Success? && c.wave.Set? ==> r.value == (c.wave.value, false)
    ensures r.Success? && c.wave.Add? ==> r.value == (c.wave.value, true)
    ensures r.Success? && !(c.wave.Set? || c.wave.Add?) ==> r.value.1 == c.cumulative
  {
    match c.wave
    case Set(value) => Success((value, false))
    case Add(value) => Success((value, true))
    case Linear(start, end, low, high, exponent, _) =>
      if end == start then Raised("float division by zero")
      else
        var clamped := Progress(c.wave, tau);
        if clamped == 0.0 && exponent < 0.0 then Raised("math domain error")
        else Success((low + (high - low) * m.pow(clamped, exponent), c.cumulative))
    case Sine(amplitude, bias, cycles, phase, _) =>
      Success((amplitude * m.sin(Angle(cycles, phase, cycle)) + bias, c.cumulative))
    case Cosine(amplitude, bias, cycles, phase, _) =>
      Success((amplitude * m.cos(Angle(cycles, phase, cycle)) + bias, c.cumulative))
    case Triangle(amplitude, bias, cycles, phase, _) =>
      Success((TriangleWave(amplitude, bias, cycles, phase, tau), c.cumulative))
  }

  /** A ramp from 0 to 1 with exponent -1 at time 0 asks `math.pow(0, -1)` and raises; the
      same ramp at time 0.5 does not. */
  lemma NegativeExponentAtStartRaises(t: Target, low: real, high: real, cycle: real, m: Numerics)
    ensures Compute(Component(t, false, Linear(0.0, 1.0, low, high, -1.0, false)), 0.0, cycle, m)
            == Raised("math domain error")
    ensures Compute(Component(t, false, Linear(0.0, 1.0, low, high, -1.0, false)), 0.5, cycle, m).Success?
  {
  }

  /** A sine or cosine component stays within `bias ± |amplitude|` when the abstract
      function stays within [-1, 1]. */
  lemma WaveBounded(m: Numerics, c: Component, tau: real, cycle: real)
    requires c.wave.Sine? || c.wave.Cosine?
    requires forall x :: -1.0 <= m.sin(x) <= 1.0
    requires forall x :: -1.0 <= m.cos(x) <= 1.0
    ensures Compute(c, tau, cycle, m).Success?
    ensures var r := Compute(c, tau, cycle, m).value.0;
            c.wave.bias - Abs(c.wave.amplitude) <= r <= c.wave.bias + Abs(c.wave.amplitude)
  {
    var x := Angle(c.wave.cycles, c.wave.phase, cycle);
    if c.wave.Sine? {
      ScaledUnitBounded(c.wave.amplitude, m.sin(x));
    } else {
      ScaledUnitBounded(c.wave.amplitude, m.cos(x));
    }
  }

  /** A linear ramp that does not raise lies between its low and high values when `pow`
      keeps [0, 1] in [0, 1]. */
  lemma LinearBetween(m: Numerics, c: Component, tau: real, cycle: real)
    requires c.wave.Linear? && c.wave.low <= c.wave.high
    requires forall x :: 0.0 <= x <= 1.0 ==> 0.0 <= m.pow(x, c.wave.exponent) <= 1.0
    ensures Compute(c, tau, cycle, m).Success? <==> !Raises(c.wave, tau)
    ensures Compute(c, tau, cycle, m).Success? ==>
              c.wave.low <= Compute(c, tau, cycle, m).value.0 <= c.wave.high
  {
    if Raises(c.wave, tau) { return; }
    var w := c.wave;
    var clamped := Progress(w, tau);
    var p := m.pow(clamped, w.exponent);
    assert 0.0 <= p <= 1.0;
    assert Compute(c, tau, cycle, m).value.0 == w.low + (w.high - w.low) * p;
    MulNonneg(w.high - w.low, p);
    MulNonneg(w.high - w.low, 1.0 - p);
    assert (w.high - w.low) * (1.0 - p) == (w.high - w.low) - (w.high - w.low) * p;
  }

  /** `ComponentBase.apply`: with a target, the target becomes the computed value, plus the
      target's current value (0 when absent) if the component is cumulative after `compute`;
      nothing else changes.  Without a target nothing happens, not even `compute`. */
  function ApplyComponent(c: Component, st: Scenery, tau: real, cycle: real, m: Numerics): (r: Result<(Component, Scenery)>)
    ensures c.target == Nothing ==> r == Success((c, st))
    ensures c.target != Nothing ==>
              (r.Raised? <==> Compute(c, GetTime(Reversed(c.wave), tau, cycle).0,
                                      GetTime(Reversed(c.wave), tau, cycle).1, m).Raised?)
    ensures r.Success? && c.target != Nothing ==>
              var (v, cumulative) := Compute(c, GetTime(Reversed(c.wave), tau, cycle).0,
                                             GetTime(Reversed(c.wave), tau, cycle).1, m).value;
              && r.value.0 == c.(cumulative := cumulative)
              && r.value.1.Keys == st.Keys + {c.target}
              && r.value.1[c.target] == v + (if cumulative && c.target in st then st[c.target] else 0.0)
              && forall t :: t in st && t != c.target ==> r.value.1[t] == st[t]
  {
    if c.target == Nothing then Success((c, st))
    else
      var (tau', cycle') := GetTime(Reversed(c.wave), tau, cycle);
      var (v, cumulative) :- Compute(c, tau', cycle', m);
      var current := if c.target in st then st[c.target] else 0.0;
      Success((c.(cumulative := cumulative), st[c.target := v + (if cumulative then current else 0.0)]))
  }

  /** `Set` overwrites its target with its value and `Add` adds its value to the target's
      current value, whatever the component's `cumulative` flag was; `Set` leaves the flag
      false and `Add` true. */
  lemma SetOverwritesAddAccumulates(t: Target, cumulative: bool, value: real, st: Scenery,
                                    tau: real, cycle: real, m: Numerics)
    requires t != Nothing && t in st
    ensures ApplyComponent(Component(t, cumulative, Set(value)), st, tau, cycle, m)
            == Success((Component(t, false, Set(value)), st[t := value]))
    ensures ApplyComponent(Component(t, cumulative, Add(value)), st, tau, cycle, m)
            == Success((Component(t, true, Add(value)), st[t := value + st[t]]))
  {
  }

  /** A cumulative wave applied twice adds its value twice, while a non-cumulative one
      writes the same value both times. */
  lemma CumulativeAccumulatesAcrossFrames(c: Component, st: Scenery, tau: real, cycle: real, m: Numerics)
    requires c.target != Nothing && c.target in st && !(c.wave.Set? || c.wave.Add? || c.wave.Linear?)
    ensures var first := ApplyComponent(c, st, tau, cycle, m);
            var second := ApplyComponent(first.value.0, first.value.1, tau, cycle, m);
            var v := first.value.1[c.target] - (if c.cumulative then st[c.target] else 0.0);
            && second.value.0 == c
            && second.value.1[c.target] == (if c.cumulative then st[c.target] + 2.0 * v else v)
  {
  }

  // ---------------------------------------------------------------------------------------- //
  // Filters

  /** A post-processing filter carrying the parameters it installs. */
  datatype Filter =
    | VignetteFilter(vignette: VignetteState)
    | LensFilter(lens: LensState)
    | BlurFilter(blur: BlurState)
    | InpaintFilter(inpaint: InpaintState)
    | ColorsFilter(colors: ColorState)

  /** `update(enable=True)`: the filter switched on. */
  function Enabled(f: Filter): Filter {
    match f
    case VignetteFilter(v) => VignetteFilter(v.(enable := true))
    case LensFilter(l) => LensFilter(l.(enable := true))
    case BlurFilter(b) => BlurFilter(b.(enable := true))
    case InpaintFilter(p) => InpaintFilter(p.(enable := true))
    case ColorsFilter(c) => ColorsFilter(c.(enable := true))
  }

  /** The sub-state a filter replaces. */
  function FilterGroup(f: Filter): Group {
    match f
    case VignetteFilter(_) => VignetteGroup
    case LensFilter(_) => LensGroup
    case BlurFilter(_) => BlurGroup
    case InpaintFilter(_) => InpaintGroup
    case ColorsFilter(_) => ColorsGroup
  }

  /** The `enable` target of the sub-state a filter replaces. */
  function EnableTarget(f: Filter): Target {
    match f
    case VignetteFilter(_) => VignetteEnable
    case LensFilter(_) => LensEnable
    case BlurFilter(_) => BlurEnable
    case InpaintFilter(_) => InpaintEnable
    case ColorsFilter(_) => ColorEnable
  }

  /** What the filter's own parameters read as for a target of its sub-state. */
  function ReadFilter(f: Filter, t: Target): real {
    match f
    case VignetteFilter(v) => ReadVignette(v, t)
    case LensFilter(l) => ReadLens(l, t)
    case BlurFilter(b) => ReadBlur(b, t)
    case InpaintFilter(p) => ReadInpaint(p, t)
    case ColorsFilter(c) => ReadColors(c, t)
  }

  /** A filter's effect on the animated state: each target of its sub-state reads as the
      filter's parameter, and every other target keeps its value. */
  function ApplyFilter(f: Filter, st: Scenery): (r: Scenery)
    ensures r.Keys == st.Keys
    ensures forall t :: t in st && GroupOf(t) == FilterGroup(f) ==> r[t] == ReadFilter(f, t)
    ensures forall t :: t in st && GroupOf(t) != FilterGroup(f) ==> r[t] == st[t]
  {
    map t | t in st :: if GroupOf(t) == FilterGroup(f) then ReadFilter(f, t) else st[t]
  }

  // ---------------------------------------------------------------------------------------- //
  // Steps

  /** The message of the `TypeError` the step list raises on a `Custom` step: its `apply`
      wants `tau` and `cycle`, which the list never passes. */
  const CustomArityMessage: string :=
    "Animation.Custom.apply() missing 2 required positional arguments: 'tau' and 'cycle'"

  /** One entry of an animation's step list. */
  datatype Step =
    | ComponentStep(component: Component)
    | StateStep(state: DepthState)
    | NothingStep
    | CustomStep(code: string)
    | ResetStep
    | FilterStep(filter: Filter)

  /** `apply` of one step: the step afterwards (a component may have had its `cumulative`
      flag forced, a filter is switched on) and the state afterwards. */
  function ApplyStep(step: Step, st: Scenery, tau: real, cycle: real, m: Numerics): Result<(Step, Scenery)> {
    match step
    case ComponentStep(c) =>
      var (c', st') :- ApplyComponent(c, st, tau, cycle, m);
      Success((ComponentStep(c'), st'))
    case StateStep(s) => Success((step, StateView(s)))
    case NothingStep => Success((step, st))
    case CustomStep(_) => Raised(CustomArityMessage)
    case ResetStep => Success((step, StateView(DefaultDepthState())))
    case FilterStep(f) => Success((FilterStep(Enabled(f)), ApplyFilter(Enabled(f), st)))
  }

  /** Steps keep the state complete; only a custom step and a targeted linear ramp that
      raises at the step's own time raise. */
  lemma {:induction false} ApplyStepKeepsComplete(step: Step, st: Scenery, tau: real, cycle: real, m: Numerics)
    requires Complete(st)
    ensures ApplyStep(step, st, tau, cycle, m).Success? ==> Complete(ApplyStep(step, st, tau, cycle, m).value.1)
    ensures ApplyStep(step, st, tau, cycle, m).Raised? <==>
              || step.CustomStep?
              || (step.ComponentStep? && step.component.target != Nothing
                  && Raises(step.component.wave, GetTime(Reversed(step.component.wave), tau, cycle).0))
  {
  }

  /** A filter step switches its effect on, installs its parameters and leaves the camera
      and the other effects alone. */
  lemma FilterSwitchesOn(f: Filter, st: Scenery, tau: real, cycle: real, m: Numerics)
    requires Complete(st)
    ensures var r := ApplyStep(FilterStep(f), st, tau, cycle, m);
            && r == Success((FilterStep(Enabled(f)), r.value.1))
            && r.value.1[EnableTarget(f)] == 1.0
            && forall t :: t in st && GroupOf(t) != FilterGroup(f) ==> r.value.1[t] == st[t]
  {
    EnabledFilterReadsOn(f);
    assert EnableTarget(f) in st;
  }

  /** Switching a filter on keeps its sub-state, whose `enable` target then reads as 1. */
  lemma EnabledFilterReadsOn(f: Filter)
    ensures FilterGroup(Enabled(f)) == FilterGroup(f)
    ensures GroupOf(EnableTarget(f)) == FilterGroup(f)
    ensures ReadFilter(Enabled(f), EnableTarget(f)) == 1.0
  {
  }

  /** A reset installs the default state, whatever the state was before. */
  lemma ResetInstallsDefaults(st: Scenery, tau: real, cycle: real, m: Numerics)
    ensures ApplyStep(ResetStep, st, tau, cycle, m) == Success((ResetStep, StateView(DefaultDepthState())))
  {
  }

  /** A `State` step installs its own depth state, whatever the state was before: every
      target then reads the step's field. */
  lemma StateStepInstallsItself(s: DepthState, st: Scenery, tau: real, cycle: real, m: Numerics)
    ensures ApplyStep(StateStep(s), st, tau, cycle, m) == Success((StateStep(s), StateView(s)))
    ensures forall t :: t != Nothing ==> ApplyStep(StateStep(s), st, tau, cycle, m).value.1[t] == Read(s, t)
  {
  }

  /** A `Nothing` step leaves the step and the state exactly as they were. */
  lemma NothingStepChangesNothing(st: Scenery, tau: real, cycle: real, m: Numerics)
    ensures ApplyStep(NothingStep, st, tau, cycle, m) == Success((NothingStep, st))
  {
  }

  /** The default state reads height 0.2, zoom 1 and mirroring on. */
  lemma DefaultCamera()
    ensures var v := StateView(DefaultDepthState());
            v[Height] == 0.20 && v[Zoom] == 1.0 && v[Mirror] == 1.0
  {
  }

  // ---------------------------------------------------------------------------------------- //
  // The step list

  /** How a step is invoked on the scene state: the step and the state afterwards, or the
      exception it raised. */
  type Invoker = (Step, Scenery) -> Result<(Step, Scenery)>

  /** `animation.apply(scene)` at the scene's time `(tau, cycle)`. */
  function Invoke(tau: real, cycle: real, m: Numerics): Invoker {
    (step, st) => ApplyStep(step, st, tau, cycle, m)
  }

  /** The outcome of applying a step list in order: the steps afterwards, the state, the
      exception that stopped it if any, and how many steps were invoked. */
  datatype Run = Run(steps: seq<Step>, state: Scenery, error: Option<string>, ran: nat)

  /** One more step of a run: skipped once a step has raised, otherwise invoked. */
  function Advance(f: Invoker, prev: Run, step: Step): (r: Run)
    ensures |r.steps| == |prev.steps| + 1 && r.steps[..|prev.steps|] == prev.steps
    ensures prev.error.Some? ==> r == prev.(steps := prev.steps + [step])
    ensures r.ran == prev.ran + (if prev.error.Some? then 0 else 1)
  {
    if prev.error.Some? then prev.(steps := prev.steps + [step])
    else
      match f(step, prev.state)
      case Success((step', st')) => Run(prev.steps + [step'], st', None, prev.ran + 1)
      case Raised(e) => Run(prev.steps + [step], prev.state, Some(e), prev.ran + 1)
  }

  /** `DepthAnimation.apply`: each step in list order, stopping at the first that raises. */
  function RunSteps(f: Invoker, steps: seq<Step>, st: Scenery): (r: Run)
    ensures |r.steps| == |steps|
    ensures r.ran <= |steps| && (r.error.None? ==> r.ran == |steps|)
    decreases |steps|
  {
    if steps == [] then Run([], st, None, 0)
    else Advance(f, RunSteps(f, steps[..|steps| - 1], st), steps[|steps| - 1])
  }

  /** The run of a prefix one longer is one more step. */
  lemma RunOneMore(f: Invoker, steps: seq<Step>, i: nat, st: Scenery)
    requires i < |steps|
    ensures RunSteps(f, steps[..i + 1], st) == Advance(f, RunSteps(f, steps[..i], st), steps[i])
  {
    assert steps[..i + 1][..i] == steps[..i];
  }

  /** Once a step has raised, the later steps are neither invoked nor changed. */
  lemma {:induction false} ErrorStops(f: Invoker, steps: seq<Step>, i: nat, st: Scenery)
    requires i <= |steps| && RunSteps(f, steps[..i], st).error.Some?
    ensures var early := RunSteps(f, steps[..i], st);
            RunSteps(f, steps, st) == early.(steps := early.steps + steps[i..])
    decreases |steps|
  {
    if i == |steps| {
      assert steps[..i] == steps;
      assert steps[i..] == [];
    } else {
      var n := |steps| - 1;
      var prefix := steps[..n];
      assert prefix[..i] == steps[..i];
      ErrorStops(f, prefix, i, st);
      var early := RunSteps(f, steps[..i], st);
      var mid := RunSteps(f, prefix, st);
      assert mid == early.(steps := early.steps + prefix[i..]);
      assert RunSteps(f, steps, st) == mid.(steps := mid.steps + [steps[n]]);
      assert early.steps + prefix[i..] + [steps[n]] == early.steps + steps[i..];
    }
  }

  /** Applying a step list keeps the state complete. */
  lemma {:induction false} RunKeepsComplete(steps: seq<Step>, st: Scenery, tau: real, cycle: real, m: Numerics)
    requires Complete(st)
    ensures Complete(RunSteps(Invoke(tau, cycle, m), steps, st).state)
    decreases |steps|
  {
    if steps != [] {
      var prev := RunSteps(Invoke(tau, cycle, m), steps[..|steps| - 1], st);
      RunKeepsComplete(steps[..|steps| - 1], st, tau, cycle, m);
      ApplyStepKeepsComplete(steps[|steps| - 1], prev.state, tau, cycle, m);
    }
  }

  /** One more step treats the steps already run as an opaque prefix. */
  lemma AdvanceShifts(f: Invoker, p: seq<Step>, k: nat, r: Run, step: Step)
    ensures var next := Advance(f, r, step);
            Advance(f, Run(p + r.steps, r.state, r.error, k + r.ran), step)
              == Run(p + next.steps, next.state, next.error, k + next.ran)
  {
    assert p + r.steps + [step] == p + (r.steps + [step]);
    match f(step, r.state)
    case Success((step', _)) =>
      assert p + r.steps + [step'] == p + (r.steps + [step']);
    case Raised(_) =>
  }

  /** Without a failing step, running `a + b` is running `b` on the state `a` left. */
  lemma {:induction false} RunSequential(f: Invoker, a: seq<Step>, b: seq<Step>, st: Scenery)
    requires RunSteps(f, a, st).error.None?
    ensures var first := RunSteps(f, a, st);
            var second := RunSteps(f, b, first.state);
            RunSteps(f, a + b, st)
              == Run(first.steps + second.steps, second.state, second.error, first.ran + second.ran)
    decreases |b|
  {
    var first := RunSteps(f, a, st);
    if b == [] {
      assert a + b == a;
      assert first.steps + [] == first.steps;
    } else {
      var b' := b[..|b| - 1];
      var last := b[|b| - 1];
      assert (a + b)[..|a + b| - 1] == a + b';
      assert (a + b)[|a + b| - 1] == last;
      RunSequential(f, a, b', st);
      AdvanceShifts(f, first.steps, first.ran, RunSteps(f, b', first.state), last);
    }
  }

  /** The step list of a run in progress: the first `i` entries are the run's, the rest are
      still the original ones. */
  lemma UpdateAt<T>(p: seq<T>, s: seq<T>, i: nat, x: T)
    requires |p| == i < |s|
    ensures (p + s[i..])[i] == s[i]
    ensures (p + s[i..])[i := x] == p + [x] + s[i + 1..]
  {
  }

  /** A step that raises sets the run's error and leaves that step as it was. */
  lemma RaisesAt(f: Invoker, steps: seq<Step>, i: nat, st: Scenery, run: Run, message: string)
    requires i < |steps| && run == RunSteps(f, steps[..i], st) && run.error.None?
    requires f(steps[i], run.state) == Raised(message)
    ensures RunSteps(f, steps[..i + 1], st) == Run(run.steps + [steps[i]], run.state, Some(message), run.ran + 1)
  {
    RunOneMore(f, steps, i, st);
  }

  /** A step that raises ends the run there, leaving the later steps as they were. */
  lemma RaisedAt(f: Invoker, steps: seq<Step>, i: nat, st: Scenery, run: Run, message: string)
    requires i < |steps| && run == RunSteps(f, steps[..i], st) && run.error.None?
    requires f(steps[i], run.state) == Raised(message)
    ensures RunSteps(f, steps, st) == Run(run.steps + steps[i..], run.state, Some(message), run.ran + 1)
  {
    RaisesAt(f, steps, i, st, run, message);
    ErrorStops(f, steps, i + 1, st);
    assert steps[i..] == [steps[i]] + steps[i + 1..];
    assert run.steps + [steps[i]] + steps[i + 1..] == run.steps + steps[i..];
  }

  /** A step that succeeds extends the run by its result. */
  lemma SucceededAt(f: Invoker, steps: seq<Step>, i: nat, st: Scenery, run: Run, step: Step, state: Scenery)
    requires i < |steps| && run == RunSteps(f, steps[..i], st) && run.error.None?
    requires f(steps[i], run.state) == Success((step, state))
    ensures RunSteps(f, steps[..i + 1], st) == Run(run.steps + [step], state, None, run.ran + 1)
  {
    RunOneMore(f, steps, i, st);
  }

  /** The loop of `DepthAnimation.apply` over the step list and the scene state: each step in
      turn, updated in place, until one raises. */
  method ApplySteps(f: Invoker, steps: seq<Step>, st: Scenery)
      returns (list: seq<Step>, state: Scenery, error: Option<string>)
    ensures var run := RunSteps(f, steps, st); list == run.steps && state == run.state && error == run.error
  {
    list, state := steps, st;
    ghost var run := Run([], st, None, 0);
    error := None;
    var i := 0;
    while i < |list|
      invariant 0 <= i <= |list| == |steps|
      invariant run == RunSteps(f, steps[..i], st)
      invariant run.error.None? && run.ran == i
      invariant list == run.steps + steps[i..] && state == run.state
    {
      UpdateAt(run.steps, steps, i, list[i]);
      var r := f(list[i], state);
      if r.Raised? {
        error := Some(r.message);
        RaisedAt(f, steps, i, st, run, r.message);
        return;
      }
      var (step, next) := r.value;
      SucceededAt(f, steps, i, st, run, step, next);
      UpdateAt(run.steps, steps, i, step);
      run := Run(run.steps + [step], next, None, i + 1);
      list, state := list[i := step], next;
      i := i + 1;
    }
    assert steps[..i] == steps;
  }

  // ---------------------------------------------------------------------------------------- //
  // The scene and the step list

  /** The parts of a depth scene an animation reads and writes. */
  class Scene {
    var state: Scenery
    var tau: real
    var cycle: real

    constructor (tau: real, cycle: real)
      ensures state == StateView(DefaultDepthState()) && this.tau == tau && this.cycle == cycle
    {
      state := StateView(DefaultDepthState());
      this.tau := tau;
      this.cycle := cycle;
    }
  }

  /** `DepthAnimation`: the ordered list of steps applied every frame. */
  class DepthAnimation {
    var steps: seq<Step>

    constructor ()
      ensures steps == []
    {
      steps := [];
    }

    /** `add`: append a copy of the animation and hand that copy back. */
    method Add(animation: Step) returns (copy: Step)
      modifies this
      ensures copy == animation
      ensures steps == old(steps) + [copy]
      ensures IsActive()
    {
      copy := animation;
      steps := steps + [copy];
    }

    /** `clear`: no steps remain. */
    method Clear()
      modifies this
      ensures steps == [] && !IsActive()
    {
      steps := [];
    }

    /** `__bool__`: an animation is truthy when it has steps. */
    predicate IsActive()
      reads this
    {
      |steps| > 0
    }

    /** `apply`: invoke each step once, in list order, on the scene; an exception from a step
        stops the loop and propagates. */
    method Apply(scene: Scene, m: Numerics) returns (error: Option<string>)
      modifies this, scene
      ensures var run := RunSteps(Invoke(scene.tau, scene.cycle, m), old(steps), old(scene.state));
              steps == run.steps && scene.state == run.state && error == run.error
      ensures error.None? ==>
                RunSteps(Invoke(scene.tau, scene.cycle, m), old(steps), old(scene.state)).ran == |old(steps)|
      ensures scene.tau == old(scene.tau) && scene.cycle == old(scene.cycle)
    {
      var list, state;
      list, state, error := ApplySteps(Invoke(scene.tau, scene.cycle, m), steps, scene.state);
      steps, scene.state := list, state;
    }
  }
}
