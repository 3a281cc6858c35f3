/**
 * The effect registry of `EffectsController`: the ordered list of effect
 * names shown in the table, the effects the `setEffect` switch knows, the
 * CoreImage filters those effects install with their fixed parameters, and
 * the per-frame decision between a filter's output and the camera frame.
 *
 * The CoreImage library itself is abstract: whether `CIFilter(name:)` can
 * create a filter is the oracle `canCreate`, whether the invert stage of
 * "X-Ray" reports an output image is the oracle `invertHasOutput`, and what
 * a filter makes of a frame is the oracle `render`.
 */
module Effects {
  import opened Wrappers

  /** The names listed by `availableEffects`, in table order. */
  const AVAILABLE_EFFECTS: seq<string> := [
    "Normal",
    "Sepia",
    "Comic Effect",
    "Color Invert",
    "Thermal",
    "X-Ray",
    "Bloom",
    "Pixellate",
    "Kaleidoscope",
    "Zoom Blur",
    "Vignette"
  ]

  /** One value per non-default case of the `setEffect` switch. */
  datatype Effect =
    | Normal | Sepia | ComicEffect | ColorInvert | Thermal | XRay
    | Bloom | Pixellate | Kaleidoscope | ZoomBlur | Vignette

  /** A `CIColor(red:green:blue:)`; alpha keeps its default of 1. */
  datatype Color = Color(red: real, green: real, blue: real)

  /** A two-component `CIVector(x:y:)`. */
  datatype Vector = Vector(x: real, y: real)

  /**
   * A configured CoreImage filter: one constructor per filter the controller
   * creates, carrying exactly the parameters it sets. Parameters it leaves at
   * CoreImage's defaults are not represented.
   */
  datatype FilterSpec =
    | CISepiaTone(intensity: real)
    | CIComicEffect
    | CIColorInvert
    | CIFalseColor(color0: Color, color1: Color)
    | CIColorControls(saturation: real, brightness: real)
    | CIBloom(radius: real, intensity: real)
    | CIPixellate(scale: real)
    | CIKaleidoscope(count: real, center: Vector)
    | CIZoomBlur(center: Vector, amount: real)
    | CIVignette(intensity: real, radius: real)

  /** The name handed to `CIFilter(name:)` to create a filter of this kind. */
  function LibraryName(f: FilterSpec): string {
    match f
    case CISepiaTone(_) => "CISepiaTone"
    case CIComicEffect => "CIComicEffect"
    case CIColorInvert => "CIColorInvert"
    case CIFalseColor(_, _) => "CIFalseColor"
    case CIColorControls(_, _) => "CIColorControls"
    case CIBloom(_, _) => "CIBloom"
    case CIPixellate(_) => "CIPixellate"
    case CIKaleidoscope(_, _) => "CIKaleidoscope"
    case CIZoomBlur(_, _) => "CIZoomBlur"
    case CIVignette(_, _) => "CIVignette"
  }

  /** The case label under which the `setEffect` switch handles an effect. */
  function Name(e: Effect): string {
    match e
    case Normal => "Normal"
    case Sepia => "Sepia"
    case ComicEffect => "Comic Effect"
    case ColorInvert => "Color Invert"
    case Thermal => "Thermal"
    case XRay => "X-Ray"
    case Bloom => "Bloom"
    case Pixellate => "Pixellate"
    case Kaleidoscope => "Kaleidoscope"
    case ZoomBlur => "Zoom Blur"
    case Vignette => "Vignette"
  }

  /**
   * Which case of the `setEffect` switch a name reaches: `None` is the
   * `default` case, the one that reports an unknown effect.
   */
  function Parse(name: string): (r: Option<Effect>)
    ensures r.Some? ==> Name(r.value) == name
  {
    if name == "Normal" then Some(Normal)
    else if name == "Sepia" then Some(Sepia)
    else if name == "Comic Effect" then Some(ComicEffect)
    else if name == "Color Invert" then Some(ColorInvert)
    else if name == "Thermal" then Some(Thermal)
    else if name == "X-Ray" then Some(XRay)
    else if name == "Bloom" then Some(Bloom)
    else if name == "Pixellate" then Some(Pixellate)
    else if name == "Kaleidoscope" then Some(Kaleidoscope)
    else if name == "Zoom Blur" then Some(ZoomBlur)
    else if name == "Vignette" then Some(Vignette)
    else None
  }

  const BLUE: Color := Color(0.0, 0.0, 1.0)
  const RED: Color := Color(1.0, 0.0, 0.0)
  const CENTER: Vector := Vector(150.0, 150.0)

  /**
   * The filter a single-stage effect installs when its creation succeeds.
   * "Normal" installs nothing and "X-Ray" has two stages, so neither has one.
   */
  function Preset(e: Effect): (r: Option<FilterSpec>)
    ensures r.None? <==> e == Normal || e == XRay
  {
    match e
    case Normal => None
    case Sepia => Some(CISepiaTone(0.8))
    case ComicEffect => Some(CIComicEffect)
    case ColorInvert => Some(CIColorInvert)
    case Thermal => Some(CIFalseColor(BLUE, RED))
    case XRay => None
    case Bloom => Some(CIBloom(2.5, 1.0))
    case Pixellate => Some(CIPixellate(20.0))
    case Kaleidoscope => Some(CIKaleidoscope(8.0, CENTER))
    case ZoomBlur => Some(CIZoomBlur(CENTER, 30.0))
    case Vignette => Some(CIVignette(1.0, 5.0))
  }

  /** `CIFilter(name:)` followed by the parameter settings: nil when the library refuses. */
  function Create(f: FilterSpec, canCreate: string -> bool): (r: Option<FilterSpec>)
    ensures r.Some? <==> canCreate(LibraryName(f))
    ensures r.Some? ==> r.value == f
  {
    if canCreate(LibraryName(f)) then Some(f) else None
  }

  /**
   * What the active-filter slot holds after the switch case for `e` has run.
   * "X-Ray" first installs the invert stage and replaces it by the
   * colour-controls stage, itself possibly nil, when the invert stage
   * reports an output image.
   */
  function Install(e: Effect, canCreate: string -> bool, invertHasOutput: bool): (r: Option<FilterSpec>)
    ensures r.Some? ==> canCreate(LibraryName(r.value))
    ensures e == Normal ==> r.None?
    ensures Preset(e).Some? ==> r == Create(Preset(e).value, canCreate)
  {
    match e
    case Normal => None
    case XRay =>
      if !canCreate("CIColorInvert") then None
      else if invertHasOutput then Create(CIColorControls(0.5, 0.2), canCreate)
      else Some(CIColorInvert)
    case _ => Create(Preset(e).value, canCreate)
  }

  /**
   * The active filter after `setEffect(name)`: the slot is cleared first, so
   * an unknown name leaves it empty and the previous filter plays no part.
   */
  function Select(name: string, canCreate: string -> bool, invertHasOutput: bool): (r: Option<FilterSpec>)
    ensures Parse(name).None? ==> r.None?
    ensures r.Some? ==> canCreate(LibraryName(r.value))
  {
    match Parse(name)
    case None => None
    case Some(e) => Install(e, canCreate, invertHasOutput)
  }

  /**
   * The image `captureOutput` goes on with: the filter's output when there
   * is a filter and it produces one, the camera frame otherwise.
   */
  function ApplyFilter<F>(current: Option<FilterSpec>, frame: F, render: (FilterSpec, F) -> Option<F>): (r: F)
    ensures current.None? ==> r == frame
    ensures current.Some? && render(current.value, frame).Some? ==> r == render(current.value, frame).value
    ensures current.Some? && render(current.value, frame).None? ==> r == frame
  {
    match current
    case None => frame
    case Some(f) =>
      match render(f, frame)
      case Some(out) => out
      case None => frame
  }

  // ---------------------------------------------------------------------
  // The registry and the switch agree.

  /** The 11 registry names are pairwise distinct. */
  lemma RegistryDistinct()
    ensures |AVAILABLE_EFFECTS| == 11
    ensures forall i, j :: 0 <= i < j < |AVAILABLE_EFFECTS| ==> AVAILABLE_EFFECTS[i] != AVAILABLE_EFFECTS[j]
  {
  }

  /** Every case label of the switch names exactly its own effect. */
  lemma ParseName(e: Effect)
    ensures Parse(Name(e)) == Some(e)
  {
  }

  /**
   * A name reaches a non-default case of the switch exactly when it is in
   * the registry: the unknown-effect path is open only to names outside it.
   */
  lemma KnownIffListed(name: string)
    ensures Parse(name).Some? <==> name in AVAILABLE_EFFECTS
  {
  }

  /** Every effect of the switch is listed in the registry. */
  lemma EveryEffectListed(e: Effect)
    ensures Name(e) in AVAILABLE_EFFECTS
  {
    ParseName(e);
    KnownIffListed(Name(e));
  }

  // ---------------------------------------------------------------------
  // What each selection installs.

  /** "Normal", an unknown name and a refused creation all leave the slot empty. */
  lemma SelectEmpty(name: string, canCreate: string -> bool, invertHasOutput: bool)
    ensures name == "Normal" ==> Select(name, canCreate, invertHasOutput).None?
    ensures name !in AVAILABLE_EFFECTS ==> Select(name, canCreate, invertHasOutput).None?
    ensures Parse(name).Some? && Preset(Parse(name).value).Some?
            && !canCreate(LibraryName(Preset(Parse(name).value).value))
            ==> Select(name, canCreate, invertHasOutput).None?
  {
    KnownIffListed(name);
  }

  /** A known name reaches the switch case of its own effect. */
  lemma SelectByName(e: Effect, canCreate: string -> bool, invertHasOutput: bool)
    ensures Select(Name(e), canCreate, invertHasOutput) == Install(e, canCreate, invertHasOutput)
  {
    ParseName(e);
  }

  /**
   * With creation succeeding, each single-stage effect installs its fixed
   * parameters, and with creation refused it installs nothing.
   */
  lemma SelectPreset(e: Effect, canCreate: string -> bool, invertHasOutput: bool)
    requires e != Normal && e != XRay
    ensures canCreate(LibraryName(Preset(e).value))
            ==> Select(Name(e), canCreate, invertHasOutput) == Preset(e)
    ensures !canCreate(LibraryName(Preset(e).value))
            ==> Select(Name(e), canCreate, invertHasOutput).None?
  {
    SelectByName(e, canCreate, invertHasOutput);
  }

  /** The fixed parameter constants of the single-stage effects. */
  lemma PresetConstants()
    ensures Preset(Sepia) == Some(CISepiaTone(0.8))
    ensures Preset(ComicEffect) == Some(CIComicEffect)
    ensures Preset(ColorInvert) == Some(CIColorInvert)
    ensures Preset(Thermal) == Some(CIFalseColor(Color(0.0, 0.0, 1.0), Color(1.0, 0.0, 0.0)))
    ensures Preset(Bloom) == Some(CIBloom(2.5, 1.0))
    ensures Preset(Pixellate) == Some(CIPixellate(20.0))
    ensures Preset(Kaleidoscope) == Some(CIKaleidoscope(8.0, Vector(150.0, 150.0)))
    ensures Preset(ZoomBlur) == Some(CIZoomBlur(Vector(150.0, 150.0), 30.0))
    ensures Preset(Vignette) == Some(CIVignette(1.0, 5.0))
  {
  }

  /**
   * "X-Ray" installs nothing unless the invert stage can be created; then it
   * installs the colour-controls stage exactly when the invert stage has an
   * output (an empty slot if that stage cannot be created), and the invert
   * stage alone otherwise.
   */
  lemma SelectXRay(canCreate: string -> bool, invertHasOutput: bool)
    ensures !canCreate("CIColorInvert") ==> Select("X-Ray", canCreate, invertHasOutput).None?
    ensures canCreate("CIColorInvert") && !invertHasOutput
            ==> Select("X-Ray", canCreate, invertHasOutput) == Some(CIColorInvert)
    ensures canCreate("CIColorInvert") && invertHasOutput
            ==> Select("X-Ray", canCreate, invertHasOutput)
                == if canCreate("CIColorControls") then Some(CIColorControls(0.5, 0.2)) else None
    ensures Select("X-Ray", canCreate, invertHasOutput) == Some(CIColorControls(0.5, 0.2))
            <==> canCreate("CIColorInvert") && canCreate("CIColorControls") && invertHasOutput
  {
    SelectByName(XRay, canCreate, invertHasOutput);
  }

  // ---------------------------------------------------------------------
  // The per-frame decision.

  /** The frame that goes on is the camera frame or what the active filter made of it. */
  lemma ApplyInputOrOutput<F>(current: Option<FilterSpec>, frame: F, render: (FilterSpec, F) -> Option<F>)
    ensures ApplyFilter(current, frame, render) == frame
            || (current.Some? && render(current.value, frame) == Some(ApplyFilter(current, frame, render)))
  {
  }

  /** After selecting "Normal" or an unknown effect, every frame passes through unchanged. */
  lemma NormalPassesThrough<F>(name: string, canCreate: string -> bool, invertHasOutput: bool,
                               frame: F, render: (FilterSpec, F) -> Option<F>)
    requires name == "Normal" || name !in AVAILABLE_EFFECTS
    ensures ApplyFilter(Select(name, canCreate, invertHasOutput), frame, render) == frame
  {
    SelectEmpty(name, canCreate, invertHasOutput);
  }
}
