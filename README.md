# Holographic cube: the sequential core, modelled and proved in Dafny

The application shows a 3D "holographic star": a cube whose four side panels (left, right,
top, bottom) swing open on hinges, a camera that glides to frame the open panel, and a lamp with
prismatic rays that can be switched on and off. Around it sit a control panel with a timed
"Sequence" animation and a five-step onboarding tour. This project models the logic behind
those behaviours. It does not model the drawing.

- `common.dfy`, module `Common`. The shared vocabulary: the four panels and their names,
  `Option`, three-component vectors and the absolute value on reals.
- `easing.dfy`, module `Easing`. The three.js linear interpolation step `lerp(x, y, t) =
  (1 - t) x + t y`. Also the cubic in/out curve `smoothEasing`, which the frame callback
  defines but never calls.
- `cube.dfy`, module `HolographicCube`. The cube component's state engine:
  - the hinge target of each panel;
  - the clamped per-frame panel step and its behaviour over whole runs of frames;
  - the camera framing chosen by the active panel, and the camera's fixed-rate approach;
  - the lamp switch.
  
  The refs and three.js fields the component writes are the fields of the class
  `CubeEngine`. The frame callback is `CubeEngine.Frame`, and each React effect is one method.
- `app.dfy`, module `App`. The application shell:
  - the single `activePanel` selector and the four 0/1 open flags derived from it;
  - the panel toggle, Close All, Reset, the lamp button, the speed slider and the
    auto-rotate switch;
  - the non-re-entrant `sequenceAnimation` script, where each delay expiring is one call of
    `SequenceTimerFired`;
  - how one render hands the state to the cube.
- `onboarding.dfy`, module `OnboardingOverlay`. The tour's step index, moved by Next, Back and
  Skip, and the completion callback, modelled as a count of its calls. Also the pure choices
  made from the index: the button label, the progress dots and the highlight box.

Angles and coordinates are real numbers. `Math.PI` is stood for by the constant `Pi`,
3.141592653589793, the shortest decimal that rounds to the double nearest to pi. `Math.exp(-2 |delta|)` in the panel step is an input `decay`. It is only known to lie in
(0, 1], and to be exactly 1 when the gap `delta` is 0. OrbitControls' own update of the
camera is an input to `Frame`: the position and look-at it leaves are `orbitPosition` and
`orbitTarget`. The cube's methods expect open inputs in [0, 1] and a speed of at least 0. The
application only ever passes the flags 0 and 1 and a slider speed from 1 to 20, and
`App.AppState.FeedPanels` proves it meets that demand.

The lamp is built by the setup effect only when `lampOn` is true at that moment
(`src/components/HolographicCube.tsx:278-622`). A cube mounted with the lamp off has no lamp
top, no point light and no rays, and the lamp effect then does nothing, however often the
lamp button is pressed, until the cube is mounted again. `CubeEngine.lampBuilt` records this,
and `HolographicCube.MountUnlitThenSwitchOn` shows it.

The code does not clamp the speed; only the lerp factor is capped, at 0.08. Any speed of at
least 0 is accepted. `HolographicCube.SliderSpeedsStayUnderCap` shows that the
cap never takes effect at the slider's speeds.

## Model

| member | source | states |
|---|---|---|
| Common.PanelNameInjective | src/App.tsx:36 | the four panel names 'left', 'right', 'top', 'bottom' are distinct, so a name identifies its panel |
| Easing.Lerp | src/components/HolographicCube.tsx:832-836 | the defining expression of `THREE.MathUtils.lerp`: (1 - t) x + t y; its properties are the lemmas below |
| Easing.SmoothEasing | src/components/HolographicCube.tsx:786-790 | the defining expression of `smoothEasing`: 4 t^3 below one half, 1 - (-2 t + 2)^3 / 2 from one half on; its properties are the lemmas below |
| Easing.LerpGap | src/components/HolographicCube.tsx:832-836 | one lerp step by factor t leaves (1 - t) of the gap to the target and covers t of it |
| Easing.LerpNoOvershoot | src/components/HolographicCube.tsx:832-836 | for t in [0, 1] the lerp result lies between the current value and the target, its distance to the target is exactly (1 - t) times the old one and never larger |
| Easing.LerpAtRest | src/components/HolographicCube.tsx:832-836 | a value already at its target stays there for any factor |
| Easing.SmoothEasingFixedPoints | src/components/HolographicCube.tsx:786-790 | smoothEasing maps 0 to 0, 1/2 to 1/2 and 1 to 1, and both branches give 1/2 at t = 1/2 |
| Easing.SmoothEasingSymmetric | src/components/HolographicCube.tsx:786-790 | on [0, 1], f(1 - t) = 1 - f(t): easing in mirrors easing out |
| Easing.SmoothEasingRange | src/components/HolographicCube.tsx:786-790 | on [0, 1] the curve stays within [0, 1] |
| Easing.SmoothEasingMonotone | src/components/HolographicCube.tsx:786-790 | on [0, 1] the curve is non-decreasing |
| HolographicCube.TargetAngleTable | src/components/HolographicCube.tsx:828-864 | each panel's target is its closed angle plus its hinge sign times open times pi/2; closed gives pi/2 (left, bottom) or -pi/2 (right, top), open gives pi or -pi, a quarter turn away |
| HolographicCube.TargetAngleInHinge | src/components/HolographicCube.tsx:828-864 | every open input in [0, 1] gives a target inside the panel's hinge range |
| HolographicCube.TargetAngle | src/components/HolographicCube.tsx:828-864 | the defining expression of each panel's target: pi/2 + open pi/2 (left, bottom), -pi/2 - open pi/2 (right, top) |
| HolographicCube.EasedSpeed | src/components/HolographicCube.tsx:831 | the defining expression of `easedSpeed`, with the exponential term as the input `decay` |
| HolographicCube.PanelLerpFactor | src/components/HolographicCube.tsx:835 | the defining expression `min(easedSpeed, 0.08)` |
| HolographicCube.PanelStep | src/components/HolographicCube.tsx:829-836 | the defining expression of one panel frame: a lerp toward the target by the clamped factor |
| HolographicCube.PanelLerpFactorBounds | src/components/HolographicCube.tsx:831-835 | for a speed of at least 0 the factor min(easedSpeed, 0.08) lies in [0, 0.08] |
| HolographicCube.PanelLerpFactorAtRest | src/components/HolographicCube.tsx:830-835 | with a zero gap the eased speed and the factor are both 0 |
| HolographicCube.SliderSpeedsStayUnderCap | src/components/HolographicCube.tsx:784-835 | for speeds up to 20 the eased speed is at most 0.03, so the factor equals the eased speed and the cap does not act |
| HolographicCube.PanelLerpFactorAntitone | src/components/HolographicCube.tsx:831-835 | a smaller exponential term (a larger gap) never gives a smaller factor |
| HolographicCube.PanelStepNoOvershoot | src/components/HolographicCube.tsx:829-836 | one panel step lands between the current and target angle; the new gap is (1 - factor) times the old, never larger; at rest the angle is unchanged |
| HolographicCube.PanelStepProgress | src/components/HolographicCube.tsx:829-836 | with a non-zero gap and a positive speed the step strictly shrinks the distance to the target |
| HolographicCube.PanelRunNoOvershoot | src/components/HolographicCube.tsx:827-836 | over any number of frames the panel stays between its start and its target and never moves away from the target |
| HolographicCube.LerpRunGap | src/components/HolographicCube.tsx:832-836 | after a run of lerp steps toward a fixed target, the signed gap is the first gap times the product of (1 - factor) |
| HolographicCube.RemainingBounds | src/components/HolographicCube.tsx:832-836 | with every factor in [k, 1], that product lies in [0, (1 - k)^n] |
| HolographicCube.LerpRunConverges | src/components/HolographicCube.tsx:832-836 | with every factor in [k, 1], after n steps the distance is at most (1 - k)^n times the first distance |
| HolographicCube.PanelRunIsLerpRun | src/components/HolographicCube.tsx:827-836 | a run of panel steps is the lerp run with the panel's own factors |
| HolographicCube.PanelFactorsInRange | src/components/HolographicCube.tsx:831-835 | while the exponential term stays at most emax, every frame's factor lies between the factor for emax and 1 |
| HolographicCube.PanelRunConverges | src/components/HolographicCube.tsx:827-836 | while the exponential term stays at most emax, the gap after n frames is the first gap times a share in [0, (1 - k)^n], k being the factor for emax, and that bound is at most 1: no crossing of the target, at least geometric decrease |
| HolographicCube.CameraStepContracts | src/components/HolographicCube.tsx:793-824 | each camera coordinate's gap shrinks by exactly 0.97 per frame, it moves by 0.03 of the gap (no jumps), it stays between the live value and the target, and it stays put at rest |
| HolographicCube.CameraStep | src/components/HolographicCube.tsx:793-798 | the defining expression of one camera coordinate's frame: a lerp by 0.03 |
| HolographicCube.CameraStepVec | src/components/HolographicCube.tsx:793-824 | the defining expression of the six camera lerps, three per point |
| HolographicCube.CameraGapAfter | src/components/HolographicCube.tsx:793-824 | after n camera steps toward a fixed target, with the controls leaving the camera in place between them, the gap is exactly 0.97^n times the first gap |
| HolographicCube.CameraTrackStaysInHull | src/components/HolographicCube.tsx:793-824 | retargeting every step continues from the live value: if the start and every target lie in an interval and the controls leave the camera in place between steps, the camera never leaves it |
| HolographicCube.CameraFraming | src/components/HolographicCube.tsx:931-959 | 'left', 'right', 'top', 'bottom' focus the camera at distance 6 along the panel's outward axis, looking at the point 2.25 out; null or any other value gives the free position (3, 3, 8) looking at the origin |
| HolographicCube.NoOtherPanelName | src/components/HolographicCube.tsx:955-958 | a value that is none of the four names names no panel, so it takes the default branch |
| HolographicCube.FramingAutoRotate | src/components/HolographicCube.tsx:938-958 | focusing any panel turns auto-rotation off; null or any other value restores the autoRotate property |
| HolographicCube.AutoRotateAfterFraming | src/components/HolographicCube.tsx:938-958 | the defining expression of the flag the switch leaves: false when focused, the property otherwise |
| HolographicCube.LampLookContracts | src/components/HolographicCube.tsx:962-982 | rays are visible and the light glows exactly when the lamp is on; the unlit lamp keeps a dim emissive glow (0.2) below the lit one (2.5) |
| HolographicCube.LampLookFor | src/components/HolographicCube.tsx:964-979 | the defining expression of what the lamp effect writes: 3, 2.5 and visible when on; 0, 0.2 and hidden when off |
| HolographicCube.StepPanelInHinge | src/components/HolographicCube.tsx:827-873 | a panel inside its hinge range, stepping toward a target for an open input in [0, 1], stays inside that range |
| HolographicCube.CubeEngine.constructor | src/components/HolographicCube.tsx:40-622 | the animation state takes the properties (the four open inputs and the speed); without a container nothing is built; with one, the panels start closed, the camera and its target are (3, 3, 8) and the origin, and auto-rotate follows the property; the lamp with its 12 visible rays and intensities 3 and 2.5 is built exactly when the container exists and `lampOn` is true, and otherwise there are no rays; the ray array is new |
| HolographicCube.CubeEngine.SyncAutoRotate | src/components/HolographicCube.tsx:921-925 | the controls' auto-rotate flag takes the property when the controls exist, and is otherwise untouched |
| HolographicCube.CubeEngine.SetAnimationState | src/components/HolographicCube.tsx:927-929 | the animation state takes the four open inputs and the speed, and the invariant holds |
| HolographicCube.CubeEngine.FrameActivePanel | src/components/HolographicCube.tsx:931-960 | the camera target and look-at become the framing of the active panel, and the live camera is not touched; auto-rotate is set as the framing dictates when the controls exist |
| HolographicCube.CubeEngine.ApplyLamp | src/components/HolographicCube.tsx:962-982 | when the lamp was built (its refs exist), the intensities become 3 and 2.5 (on) or 0 and 0.2 (off) and every ray's visibility becomes lampOn; when it was not, nothing changes |
| HolographicCube.CubeEngine.LampRoundTrip | src/components/HolographicCube.tsx:962-982 | on, off, on again gives a built lamp back its lit state (intensities 3 and 2.5, every ray shown), and leaves an unbuilt lamp as it was |
| HolographicCube.MountUnlitThenSwitchOn | src/components/HolographicCube.tsx:278 | a cube mounted while the lamp is off has no lamp and no rays, and switching the lamp on afterwards builds none and leaves both intensities as the mount left them |
| HolographicCube.CubeEngine.Frame | src/components/HolographicCube.tsx:783-873 | one frame: all six camera coordinates take one 0.03 step from where the controls left them, each panel takes one clamped step toward its target, and every panel stays inside its hinge range |
| HolographicCube.CubeEngine.StepCamera | src/components/HolographicCube.tsx:792-825 | the camera position and the controls' target each take one 0.03 lerp step toward their targets |
| HolographicCube.CubeEngine.StepPanels | src/components/HolographicCube.tsx:827-873 | each hinge angle becomes its clamped lerp step toward its target, and the hinge-range invariant is kept |
| App.OpenFlag | src/App.tsx:31-34 | a panel's open flag is 0 or 1, and it is 1 exactly when that panel is the active one |
| App.OpenFlagsExclusive | src/App.tsx:31-34 | the four flags sum to 0 when no panel is active and to 1 otherwise: at most one panel is open, and all are closed exactly when the selector is null |
| App.ActiveName | src/App.tsx:81 | the property handed to the cube is null for no panel and the panel's name otherwise, and names exactly the active panel |
| App.FlagsAgreeWithFraming | src/App.tsx:74-83 | the panel whose flag is 1 is the one the cube frames, with auto-rotation off; with no panel active the cube frames freely with the auto-rotate setting |
| App.FlagsDriveHingeTargets | src/App.tsx:75-78 | with the flags as open inputs, exactly the active panel targets its fully open angle and every other panel its closed angle |
| App.Toggled | src/App.tsx:36-38 | pressing the active panel's button clears the selection; pressing any other panel's button selects that panel |
| App.ToggledTwice | src/App.tsx:36-38 | pressing the same button twice gives back the selection if it was that panel, and null otherwise; in particular null returns to null |
| App.Selections | src/App.tsx:53-66 | the panels a script selects, in order, one per step |
| App.Choreography | src/App.tsx:53-67 | the defining table of the script: null 500 ms, left, right, top, bottom 800 ms each, null 500 ms |
| App.TotalDelay | src/App.tsx:56-67 | the defining sum of a script's delays |
| App.TotalDelayAppend | src/App.tsx:56-67 | the waiting time of a prefix of the script grows by each step's delay |
| App.ChoreographyFacts | src/App.tsx:53-67 | the script selects null, left, right, top, bottom, null in that order and waits 500 + 4 x 800 + 500 = 4200 ms |
| App.AppState.constructor | src/App.tsx:24-29 | first load: no panel active, auto-rotation on, speed 5, lamp lit, no sequence running |
| App.AppState.TogglePanel | src/App.tsx:36-38 | the selection becomes the toggled selection, and nothing else changes |
| App.AppState.CloseAll | src/App.tsx:40-42 | the selection becomes null and nothing else changes |
| App.AppState.Reset | src/App.tsx:44-48 | no panel active, auto-rotation on, speed 5; the lamp and a running sequence are left alone |
| App.AppState.ToggleLamp | src/App.tsx:100 | the lamp state is negated |
| App.AppState.ToggleLampTwice | src/App.tsx:100 | two presses of the lamp button restore the lamp state |
| App.AppState.SetAnimationSpeed | src/App.tsx:182-189 | the slider sets the speed to its whole value from 1 to 20 |
| App.AppState.SetAutoRotate | src/App.tsx:199-203 | the switch sets auto-rotation |
| App.AppState.StartSequence | src/App.tsx:50-54 | while a sequence runs the button does nothing; otherwise the sequence is marked running and the first selection (null) is made |
| App.AppState.SequenceTimerFired | src/App.tsx:56-68 | when a delay passes, the next step's selection is made; after the last delay the sequence ends and the selection stays |
| App.AppState.RunSequence | src/App.tsx:50-69 | a press on an idle app, with every delay let pass, visits null, left, right, top, bottom, null in order, waits 4200 ms, and ends with no sequence running and no panel active; a press during a sequence does nothing |
| App.AppState.RenderCube | src/App.tsx:73-84 | rendering the cube with the app state gives it the four flags and the speed as inputs, frames the active panel, turns auto-rotation on only when no panel is active and the switch is on, and lights a built lamp as the button says; an unbuilt lamp stays unlit |
| App.AppState.FeedCamera | src/App.tsx:79-81 | the auto-rotate and framing effects leave the camera targets of the active panel, and auto-rotation on exactly when no panel is active and the switch is on |
| App.AppState.FeedPanels | src/App.tsx:75-80 | the animation-state effect receives the four flags and the speed, and the cube's invariant holds |
| OnboardingOverlay.PrimaryLabel | src/components/OnboardingOverlay.tsx:178 | the label is "Next" or "Get Started", and "Get Started" exactly on the last step |
| OnboardingOverlay.DotClass | src/components/OnboardingOverlay.tsx:152-157 | dot i is active when i is the current step, done when before it, pending when after it |
| OnboardingOverlay.DotRowActiveCount | src/components/OnboardingOverlay.tsx:149-161 | a row of n dots holds one active dot when the current step is among them and none otherwise |
| OnboardingOverlay.ExactlyOneActive | src/components/OnboardingOverlay.tsx:152-157 | at every step of the tour exactly one dot is active |
| OnboardingOverlay.Highlight | src/components/OnboardingOverlay.tsx:194-226 | no box for null or the empty string; a 120 x 60 box at the top-right for lamp and certificate; a 320 x 400 box at the bottom-left for controls and settings |
| OnboardingOverlay.TourHighlights | src/components/OnboardingOverlay.tsx:18-49 | the welcome step draws no box, the controls and settings steps a bottom-left box, the lamp and certificate steps a top-right box |
| OnboardingOverlay.Steps | src/components/OnboardingOverlay.tsx:18-49 | the defining table of the five tour steps, their titles and highlights |
| OnboardingOverlay.Overlay.constructor | src/components/OnboardingOverlay.tsx:52 | the tour opens on the first step, and nothing has completed yet |
| OnboardingOverlay.Overlay.CurrentStepData | src/components/OnboardingOverlay.tsx:71 | the step shown is one of the tour's steps |
| OnboardingOverlay.Overlay.HandleNext | src/components/OnboardingOverlay.tsx:59-65 | before the last step Next advances by one without completing; on the last step it completes once and stays on that step; the step stays in [0, 4] |
| OnboardingOverlay.Overlay.HandleBack | src/components/OnboardingOverlay.tsx:165-167 | Back, offered only after the first step, goes back one step and stays in [0, 4] |
| OnboardingOverlay.Overlay.HandleSkip | src/components/OnboardingOverlay.tsx:67-69 | Skip completes once from any step and leaves the step unchanged |
| OnboardingOverlay.Overlay.NextThenBack | src/components/OnboardingOverlay.tsx:59-65 | before the last step, Next then Back returns to the same step without completing |

## Left out

- Rendering: building the three.js scene, its meshes, materials and GLSL shaders, and the draw call. These are library and GPU work with no sequential logic to check.
- The continuous decorations of the frame callback: the time uniforms from `performance.now`, the particle, lamp and tree spins, and the glow pulse. They are clock input and decoration.
- `requestAnimationFrame` scheduling, the resize handler and teardown. These are host I/O.
- OrbitControls damping and auto-rotation. They are library internals, and `Frame` takes their result as the inputs `orbitPosition` and `orbitTarget`.
- Floating point. Reals stand for doubles, so rounding is not modelled, and `Pi` stands for the double nearest to pi.
- `Math.exp` in the eased speed. It is a transcendental function, and it is replaced by the input `decay` in (0, 1], which is 1 at a zero gap.
- HolographicCube.PanelRunConverges: its geometric rate is stated under the assumption that the exponential term stays at most `emax` throughout the run. Near the target that term tends to 1, so the approach slows and the panel reaches its target only in the limit.
- HolographicCube.CameraGapAfter: the run repeats the 0.03 step alone, so it describes the program's frames only while `controls.update()` (`src/components/HolographicCube.tsx:771-773`) leaves the camera where the last step put it: auto-rotate off, no damping motion left over, no drag. With auto-rotate on, the default in the free state, the controls turn the free camera every frame and the 0.03 step pulls it back toward the target, so the gap is not exactly 0.97^n. One such frame is `CubeEngine.Frame` with its `orbitPosition` input.
- HolographicCube.CameraTrackStaysInHull: it rests on the same assumption; with auto-rotate on, the controls can move the camera out of the interval between two steps.
- Panel runs with a changing target. Runs are proved toward one fixed target (`PanelRunNoOvershoot`, `PanelRunConverges`). A retarget mid-run starts a new run from the live angle, which `StepPanelInHinge` covers frame by frame.
- `useKV` persistence across sessions, and the `?? true` / `?? 5` fallbacks for a missing stored value. The state is modelled as always present.
- React re-rendering. The stale closure over `isAnimating` in `sequenceAnimation` is not modelled; the sequencer's guard reads the current state.
- App.AppState.RenderCube: it runs all four cube effects on every render, where React re-runs only those whose dependencies changed (`src/components/HolographicCube.tsx:925`, `:929`, `:960`, `:982`). The end state is the same: each effect writes values computed only from its own dependencies, so re-running one whose inputs did not change rewrites the values it already wrote. The only field two effects share is the controls' auto-rotate flag; the framing effect writes it last, and it depends on `autoRotate` as the sync effect does, so it runs whenever the sync does.
- The first frame of the setup effect (`src/components/HolographicCube.tsx:904`). The setup effect calls `animate()` once before the sync, framing, animation-state and lamp effects run; the model leaves that frame to the caller as a `Frame` call right after construction, where the camera still steps toward (3, 3, 8) and the panels toward the targets of the properties the constructor stored.
- `setTimeout` and `await` as real time. Each delay passing is one call of `SequenceTimerFired`, and `RunSequence` sums the delays.
- App.AppState.RunSequence: it is stated for a sequence with no other input in between. A panel toggle during a running sequence is allowed by `TogglePanel`, and the next step of the script overwrites it.
- `activePanel` values other than the four names inside the application. The application only ever stores a panel or null, so `App` uses `Option<Panel>`. The cube still receives an arbitrary string and handles any other value as the default (`CameraFraming`).
- The certificate view (`showCertificate`) and its button (`src/App.tsx:73`, `src/App.tsx:108`). Showing the certificate unmounts the cube and hiding it mounts a new one, which is a fresh `CubeEngine` built with the current properties (so a lamp that is off then is not built). The certificate page itself is static and is not part of this model.
- The icons, descriptions and CSS class strings. Dot looks are the three values of `DotState`, and highlight insets are `Rem1_5` or `Auto`.
- The Framer Motion animations and the random sparkle positions of the overlay. They are decoration driven by `Math.random`.
- The window dimensions read by the overlay. They only place the sparkles.
