# abagnale effects controller, modelled in Dafny

abagnale is a macOS camera app. It shows the live camera picture either
unchanged ("Normal") or with one of ten CoreImage effects applied. All pixel work is done by CoreImage and
AVFoundation. The logic of the app sits in `EffectsController` and in the
two `MainView` handlers that drive it:

- a run flag `isRunning` that guards starting and stopping the capture session;
- an ordered registry of eleven effect names;
- `setEffect(name)`, which clears the active-filter slot and then fills it
  from a name-keyed switch with fixed parameter constants;
- the default Sepia filter that `setupCamera` installs;
- the per-frame choice between the filter's output and the camera frame;
- the start/stop button, whose title follows the run flag, and the effect
  table, whose rows select registry entries.

This project models that controller and proves its properties.

Modules (all model `Sources/abagnale/main.swift`; `Effects` and
`RunControl` are the pure parts of `EffectsController`):

- `Wrappers`: the `Option` type used for Swift optionals.
- `Effects`: the registry `AVAILABLE_EFFECTS`, the switch cases as the
  enumeration `Effect`, and one `FilterSpec` constructor per CoreImage
  filter, carrying its constants as exact reals. It also holds the
  oracle-driven functions `Install`/`Select` (what the slot holds after
  `setEffect`) and `ApplyFilter` (the per-frame decision).
- `RunControl`: the run flag and a ghost record of what the controller has
  told the capture session (whether its last word was `startRunning`, how
  many `startRunning`/`stopRunning` calls it sent), the
  pure `Start`/`Stop` transitions, and lemmas over arbitrary call sequences.
- `Controller`: the class `EffectsController` with fields `isRunning`,
  `current` (`currentFilter`), and the ghost fields `session` and
  `refreshes` (preview refreshes that `setEffect` dispatches). Its methods
  update these fields in place and are proved against the pure functions.
- `View`: the class `MainView`, with the button title as a field, the
  toggle, the row count and the table selection.

The library is abstract, as three oracles passed as parameters:

- `canCreate: string -> bool` answers whether `CIFilter(name:)` returns a filter.
- `invertHasOutput: bool` answers whether the "X-Ray" invert stage reports an output image.
- `render: (FilterSpec, F) -> Option<F>` is a filter's `outputImage` for a frame of the abstract type `F`.

The camera's presence and whether its input attaches become the boolean
parameters of `SetupCamera`.

Notes on the code:

- "X-Ray" installs a single stage. The colour-controls stage replaces the
  invert stage only when the invert stage already has an output image. The
  colour-controls stage is itself an optional, so if it cannot be created
  the slot ends empty (main.swift:225-234). `captureOutput` sets each
  frame as the installed filter's input image, so colour controls are
  applied to the raw frame.
- A filter that yields no output image lets the camera frame pass on; the
  code only prints a message (main.swift:363-367).
- The inverting effect is named "Color Invert" (main.swift:160, 216).

## Model

| member | source | states |
|---|---|---|
| Effects.Parse | Sources/abagnale/main.swift:206-267 | a name that reaches a non-default switch case reaches the case labelled with exactly that name |
| Effects.ParseName | Sources/abagnale/main.swift:206-264 | every case label leads to its own case, so the switch and the effect enumeration are in one-to-one correspondence |
| Effects.RegistryDistinct | Sources/abagnale/main.swift:156-168 | the registry has 11 entries and they are pairwise distinct |
| Effects.KnownIffListed | Sources/abagnale/main.swift:156-168 | a name is handled by a non-default switch case if and only if it is in the registry, so the unknown-name path is reachable only from outside the registry |
| Effects.EveryEffectListed | Sources/abagnale/main.swift:156-168 | every effect the switch handles is listed in the registry |
| Effects.Preset | Sources/abagnale/main.swift:209-263 | exactly "Normal" and "X-Ray" have no single fixed filter; every other effect has one |
| Effects.PresetConstants | Sources/abagnale/main.swift:209-263 | the fixed parameters: Sepia 0.8; false colour blue to red; Bloom radius 2.5 and intensity 1; Pixellate scale 20; Kaleidoscope count 8 at (150,150); Zoom Blur at (150,150) with amount 30; Vignette intensity 1 and radius 5 |
| Effects.Create | Sources/abagnale/main.swift:210-213 | a configured filter is obtained exactly when the library can create that filter, and it is the requested one |
| Effects.Install | Sources/abagnale/main.swift:206-264 | a switch case never leaves a filter in the slot whose creation was refused; "Normal" leaves the slot empty; each single-stage effect yields its fixed filter if created |
| Effects.Select | Sources/abagnale/main.swift:200-268 | after the slot is cleared, an unknown name leaves it empty, and any filter left in it could be created |
| Effects.SelectByName | Sources/abagnale/main.swift:206-264 | selecting an effect's own name runs that effect's case |
| Effects.SelectEmpty | Sources/abagnale/main.swift:202-267 | "Normal", any name outside the registry, and a refused creation of a single-stage filter all leave no active filter |
| Effects.SelectPreset | Sources/abagnale/main.swift:209-263 | a single-stage effect installs its fixed filter when creation succeeds and nothing when it is refused |
| Effects.SelectXRay | Sources/abagnale/main.swift:224-235 | "X-Ray" installs nothing without the invert stage; it installs the invert stage alone when that stage has no output; otherwise it installs colour controls (saturation 0.5, brightness 0.2), or nothing if they cannot be created; colour controls result exactly when both stages can be created and the invert stage has an output |
| Effects.ApplyFilter | Sources/abagnale/main.swift:361-368 | without a filter the frame passes unchanged; a filter's output replaces the frame; a filter that yields nothing lets the frame through |
| Effects.ApplyInputOrOutput | Sources/abagnale/main.swift:361-368 | the frame that goes on is either the camera frame or the active filter's output for it |
| Effects.NormalPassesThrough | Sources/abagnale/main.swift:207-208 | after "Normal" or an unknown name, every frame passes through unchanged |
| RunControl.Start | Sources/abagnale/main.swift:186-191 | afterwards the controller runs; from running it changes nothing; from stopped it sends `startRunning` exactly once; it keeps the flag consistent with the calls sent to the session |
| RunControl.Stop | Sources/abagnale/main.swift:193-198 | afterwards the controller is stopped; from stopped it changes nothing; from running it sends `stopRunning` exactly once; it keeps the flag consistent with the calls sent to the session |
| RunControl.InitialConsistent | Sources/abagnale/main.swift:153 | a fresh controller (flag false, no call sent to the session) is consistent |
| RunControl.StartStopIdempotent | Sources/abagnale/main.swift:186-198 | start twice equals start once, and stop twice equals stop once |
| RunControl.StartThenStop | Sources/abagnale/main.swift:186-198 | start then stop from a stopped controller returns the flag and the last word to the session to not running, with one `startRunning` and one `stopRunning` sent |
| RunControl.RunConsistent | Sources/abagnale/main.swift:186-198 | no sequence of start/stop calls ever sends `startRunning` twice without a `stopRunning` between, or lets the flag disagree with what the controller last told the session |
| RunControl.RunLastCallWins | Sources/abagnale/main.swift:186-198 | after any non-empty call sequence the controller runs exactly when the last call was start |
| RunControl.RunStartsBounded | Sources/abagnale/main.swift:186-198 | `startRunning` is sent no more often than start is called, and `stopRunning` no more often than stop is called |
| Controller.EffectsController.constructor | Sources/abagnale/main.swift:150-153 | a new controller is not running, has sent nothing to its session, and has no filter |
| Controller.EffectsController.Start | Sources/abagnale/main.swift:186-191 | the new run state is `RunControl.Start` of the old one; the filter slot is untouched |
| Controller.EffectsController.Stop | Sources/abagnale/main.swift:193-198 | the new run state is `RunControl.Stop` of the old one; the filter slot is untouched |
| Controller.EffectsController.SetEffect | Sources/abagnale/main.swift:200-279 | the slot afterwards is `Effects.Select` of the name, whatever it held before; a preview refresh is scheduled exactly for known names; the run state is untouched |
| Controller.EffectsController.SetupCamera | Sources/abagnale/main.swift:302-328 | with a camera whose input attaches, the default filter is Sepia 0.8, or none if it cannot be created; an early return leaves the slot as it was; the run state is untouched |
| Controller.EffectsController.CaptureOutput | Sources/abagnale/main.swift:351-368 | a sample without a pixel buffer presents nothing; otherwise the presented frame is the filter decision of `Effects.ApplyFilter` on the current slot |
| View.Toggle | Sources/abagnale/main.swift:105-113 | toggling negates the run flag and keeps it consistent with the calls sent to the session |
| View.ToggleTwice | Sources/abagnale/main.swift:105-113 | two toggles restore the run flag and the last word sent to the session |
| View.SelectedEffect | Sources/abagnale/main.swift:131-135 | a row of 0 or more selects exactly the registry entry at that row, and a negative row selects nothing |
| View.RowsAreKnown | Sources/abagnale/main.swift:131-135 | every table row reaches the switch case of its own name, never the unknown-name path |
| View.MainView.constructor | Sources/abagnale/main.swift:79 | the button starts titled "Stop Camera" |
| View.MainView.ToggleCamera | Sources/abagnale/main.swift:105-113 | the run flag is negated through stop or start; afterwards the title is "Start Camera" exactly when not running and "Stop Camera" exactly when running; the filter and the refresh count are untouched |
| View.MainView.NumberOfRows | Sources/abagnale/main.swift:119-121 | the row count equals the registry size, 11 |
| View.MainView.TableViewSelectionDidChange | Sources/abagnale/main.swift:131-137 | a row of 0 or more sets the effect named by that row (through `View.SelectedEffect`), with a refresh; a negative row changes nothing; the run state is untouched |

## Left out

- Window, view and table-cell construction in `AppDelegate` and `MainView` (main.swift:15-99, 123-129): UI glue with no logic. `applicationDidFinishLaunching` calling `start()` and `applicationWillTerminate` calling `stop()` are covered only as call sequences in `RunControl.Run`.
- Permission checking, the alert and the System Preferences link (main.swift:170-175, 281-300, 330-345): OS collaborators reached through async callbacks. The constructor therefore does not call `setupCamera`; `SetupCamera` is a separate method.
- The session preset and the input/output wiring of `setupCamera` (main.swift:304, 313-314, 321-323): device I/O. Only the two early returns and the default filter are modelled.
- `setPreviewLayer` (main.swift:177-184): preview-layer construction.
- What each CoreImage filter does to pixels: a foreign library, kept as the `render` oracle. Parameters left at CoreImage defaults are not represented.
- The filter object's input image, which `captureOutput` overwrites on the shared filter each frame (main.swift:362): `FilterSpec` is a value, so this aliasing is not represented.
- Rendering to a CGImage and the `DispatchQueue.main.async` hand-offs (main.swift:273-277, 371-378): rendering and thread hand-off. The refresh `setEffect` dispatches is counted by the ghost field `refreshes`, and `CaptureOutput` returns the frame it would present.
- The messages `print` writes: logging only.
- The unsynchronised read of `currentFilter` on the video queue: concurrency. The apply decision is modelled as one sequential step.
- View.MainView.TableViewSelectionDidChange: requires the selected row to be below the row count, because the Swift array index would trap there; the table never reports such a row.
- Effects.Parse: compares names code point by code point, while a Swift `String` switch matches canonically equivalent spellings (main.swift:206), so a name such as "Kaleidoscope" spelled with U+212A KELVIN SIGN reaches its case in the source but the unknown-name path in the model; Unicode normalisation is not modelled. The table only ever passes registry names, which are unaffected.
- Stops the `AVCaptureSession` makes by itself (an interruption, a runtime error) are not modelled: the ghost `session` records only the calls the controller sends, and the source never notices such stops, so the flag agrees with those calls, not necessarily with the device.
- `Package.swift`: a build manifest with no logic.
