/**
 * `EffectsController`: the run flag guarding the capture session, the
 * active-filter slot, and the handlers that change or read them.
 */
module Controller {
  import opened Wrappers
  import opened Effects
  import opened RunControl

  class EffectsController {
    var isRunning: bool
    /** `currentFilter`: the configured CoreImage filter, if any. */
    var current: Option<FilterSpec>
    /** What the controller has told the `AVCaptureSession` it owns. */
    ghost var session: Session
    /** How many preview refreshes `setEffect` has dispatched to the main queue. */
    ghost var refreshes: nat

    ghost function State(): RunState
      reads this
    {
      RunState(isRunning, session)
    }

    ghost predicate Valid()
      reads this
    {
      Consistent(State())
    }

    /** Permission checking, and with it `setupCamera`, is not part of this constructor. */
    constructor ()
      ensures Valid()
      ensures State() == INITIAL && current == None && refreshes == 0
    {
      isRunning := false;
      current := None;
      session := Session(false, 0, 0);
      refreshes := 0;
    }

    method Start()
      requires Valid()
      modifies this
      ensures Valid()
      ensures State() == RunControl.Start(old(State()))
      ensures current == old(current) && refreshes == old(refreshes)
    {
      if !isRunning {
        session := session.(running := true, starts := session.starts + 1);
        isRunning := true;
      }
    }

    method Stop()
      requires Valid()
      modifies this
      ensures Valid()
      ensures State() == RunControl.Stop(old(State()))
      ensures current == old(current) && refreshes == old(refreshes)
    {
      if isRunning {
        session := session.(running := false, stops := session.stops + 1);
        isRunning := false;
      }
    }

    /**
     * `setEffect(name)`. The slot is cleared before the switch; every known
     * name then schedules a preview refresh, the unknown-name case returns
     * before doing so.
     */
    method SetEffect(name: string, canCreate: string -> bool, invertHasOutput: bool)
      modifies this
      ensures current == Select(name, canCreate, invertHasOutput)
      ensures refreshes == old(refreshes) + (if Parse(name).Some? then 1 else 0)
      ensures State() == old(State())
    {
      current := None;
      match Parse(name) {
        case None =>
          return;
        case Some(Normal) =>
        case Some(Sepia) =>
          if canCreate("CISepiaTone") {
            current := Some(CISepiaTone(0.8));
          }
        case Some(ComicEffect) =>
          current := if canCreate("CIComicEffect") then Some(CIComicEffect) else None;
        case Some(ColorInvert) =>
          current := if canCreate("CIColorInvert") then Some(CIColorInvert) else None;
        case Some(Thermal) =>
          current := if canCreate("CIFalseColor") then Some(CIFalseColor(BLUE, RED)) else None;
        case Some(XRay) =>
          if canCreate("CIColorInvert") {
            current := Some(CIColorInvert);
            var colorFilter := if canCreate("CIColorControls") then Some(CIColorControls(0.5, 0.2)) else None;
            if invertHasOutput {
              current := colorFilter;
            }
          }
        case Some(Bloom) =>
          if canCreate("CIBloom") {
            current := Some(CIBloom(2.5, 1.0));
          }
        case Some(Pixellate) =>
          if canCreate("CIPixellate") {
            current := Some(CIPixellate(20.0));
          }
        case Some(Kaleidoscope) =>
          if canCreate("CIKaleidoscope") {
            current := Some(CIKaleidoscope(8.0, CENTER));
          }
        case Some(ZoomBlur) =>
          if canCreate("CIZoomBlur") {
            current := Some(CIZoomBlur(CENTER, 30.0));
          }
        case Some(Vignette) =>
          if canCreate("CIVignette") {
            current := Some(CIVignette(1.0, 5.0));
          }
      }
      refreshes := refreshes + 1;
    }

    /**
     * The default-filter part of `setupCamera`: reached only when a camera
     * exists and its input could be attached; it then installs Sepia 0.8,
     * or nothing if the library refuses to create the filter.
     */
    method SetupCamera(hasCamera: bool, inputAttached: bool, canCreate: string -> bool)
      modifies this
      ensures hasCamera && inputAttached ==> current == Create(CISepiaTone(0.8), canCreate)
      ensures !(hasCamera && inputAttached) ==> current == old(current)
      ensures State() == old(State()) && refreshes == old(refreshes)
    {
      if !hasCamera {
        return;
      }
      if !inputAttached {
        return;
      }
      current := if canCreate("CISepiaTone") then Some(CISepiaTone(0.8)) else None;
    }

    /**
     * `captureOutput`: a sample without a pixel buffer is dropped; otherwise
     * the frame is run through the active filter, falling back to the frame
     * itself, and the result is what goes to the preview.
     */
    method CaptureOutput<F>(sample: Option<F>, render: (FilterSpec, F) -> Option<F>) returns (presented: Option<F>)
      ensures sample.None? ==> presented.None?
      ensures sample.Some? ==> presented == Some(ApplyFilter(current, sample.value, render))
    {
      if sample.None? {
        return None;
      }
      var image := sample.value;
      if current.Some? {
        var filtered := render(current.value, image);
        if filtered.Some? {
          image := filtered.value;
        }
      }
      presented := Some(image);
    }
  }
}
