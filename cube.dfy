/** The state engine of the holographic cube component: the hinge-angle targets of the four
    panels, their clamped per-frame approach, the camera framing chosen by the active panel,
    the camera's fixed-rate approach, and the lamp on/off switch. The three.js scene objects
    the component writes to are represented by the fields of `CubeEngine`. */
module HolographicCube {
  import opened Common
  import opened Easing

  /** Stands for `Math.PI`: the shortest decimal that rounds to the double nearest to pi. */
  const Pi: real := 3.141592653589793

  // ---------------------------------------------------------------------------------------
  // Panel hinge targets

  /** The hinge-angle target of panel `p` for its `open` input (0 closed, 1 open): left and
      bottom turn from pi/2 towards pi, right and top from -pi/2 towards -pi. */
  function TargetAngle(p: Panel, open: real): real
  {
    match p
    case Left => Pi / 2.0 + (open * Pi / 2.0)
    case Right => -Pi / 2.0 - (open * Pi / 2.0)
    case Top => -Pi / 2.0 - (open * Pi / 2.0)
    case Bottom => Pi / 2.0 + (open * Pi / 2.0)
  }

  /** The angle at which each panel group is created, which is its closed angle. */
  function ClosedAngle(p: Panel): real
  {
    match p
    case Left => Pi / 2.0
    case Right => -Pi / 2.0
    case Top => -Pi / 2.0
    case Bottom => Pi / 2.0
  }

  /** The fully open angle of each panel. */
  function OpenAngle(p: Panel): real
  {
    match p
    case Left => Pi
    case Right => -Pi
    case Top => -Pi
    case Bottom => Pi
  }

  /** The direction in which a panel swings open: +1 for left and bottom, -1 for right and top. */
  function HingeSign(p: Panel): real
  {
    if p == Left || p == Bottom then 1.0 else -1.0
  }

  /** The angle lies in the panel's hinge range, between its closed and fully open angles. */
  predicate InHinge(p: Panel, angle: real)
  {
    Between(angle, ClosedAngle(p), OpenAngle(p))
  }

  /** The target is the closed angle plus or minus `open` quarter turns; open 0 gives the closed
      angle, open 1 the fully open one, a quarter turn away. */
  lemma TargetAngleTable(p: Panel, open: real)
    ensures TargetAngle(p, open) == ClosedAngle(p) + HingeSign(p) * open * Pi / 2.0
    ensures TargetAngle(p, 0.0) == ClosedAngle(p)
    ensures TargetAngle(p, 1.0) == OpenAngle(p)
    ensures OpenAngle(p) - ClosedAngle(p) == HingeSign(p) * Pi / 2.0
  {
  }

  /** Any open input in [0, 1] gives a target inside the hinge range. */
  lemma TargetAngleInHinge(p: Panel, open: real)
    requires 0.0 <= open <= 1.0
    ensures InHinge(p, TargetAngle(p, open))
  {
    assert 0.0 <= open * Pi / 2.0 <= Pi / 2.0;
  }

  // ---------------------------------------------------------------------------------------
  // Per-frame panel step

  /** The cap on the panel lerp factor. */
  const MaxPanelFactor: real := 0.08

  /** `Math.exp(-Math.abs(delta) * 2)` for the gap `delta`, abstracted: a value in (0, 1] that
      is exactly 1 when the gap is zero. */
  predicate ValidDecay(delta: real, decay: real)
  {
    0.0 < decay <= 1.0 && (delta == 0.0 ==> decay == 1.0)
  }

  /** `easedSpeed`: `animationSpeed / 100 * 0.15 * (1 - exp(-2 |delta|))`. */
  function EasedSpeed(animationSpeed: real, decay: real): real
  {
    animationSpeed / 100.0 * 0.15 * (1.0 - decay)
  }

  /** `Math.min(easedSpeed, 0.08)`. */
  function PanelLerpFactor(animationSpeed: real, decay: real): real
  {
    var eased := EasedSpeed(animationSpeed, decay);
    if eased < MaxPanelFactor then eased else MaxPanelFactor
  }

  /** The panel's new angle after one frame. */
  function PanelStep(current: real, target: real, animationSpeed: real, decay: real): real
  {
    Lerp(current, target, PanelLerpFactor(animationSpeed, decay))
  }

  /** For a non-negative speed the factor lies in [0, 0.08]. */
  lemma PanelLerpFactorBounds(animationSpeed: real, decay: real)
    requires animationSpeed >= 0.0 && decay <= 1.0
    ensures 0.0 <= PanelLerpFactor(animationSpeed, decay) <= MaxPanelFactor
  {
    MulNonneg(animationSpeed / 100.0 * 0.15, 1.0 - decay);
  }

  /** At rest the exponential term is 1, so the eased speed and the factor are 0. */
  lemma PanelLerpFactorAtRest(animationSpeed: real, delta: real, decay: real)
    requires delta == 0.0 && ValidDecay(delta, decay)
    ensures EasedSpeed(animationSpeed, decay) == 0.0
    ensures PanelLerpFactor(animationSpeed, decay) == 0.0
  {
  }

  /** Over the speed slider's range (at most 20) the eased speed never exceeds 0.03, so the
      0.08 cap never takes effect there. */
  lemma SliderSpeedsStayUnderCap(animationSpeed: real, decay: real)
    requires 0.0 <= animationSpeed <= 20.0 && 0.0 <= decay <= 1.0
    ensures EasedSpeed(animationSpeed, decay) <= 0.03
    ensures PanelLerpFactor(animationSpeed, decay) == EasedSpeed(animationSpeed, decay)
  {
    MulLeMul(animationSpeed / 100.0 * 0.15, 0.03, 1.0 - decay, 1.0);
  }

  lemma MulLeMul(a: real, b: real, c: real, d: real)
    requires 0.0 <= a <= b && 0.0 <= c <= d
    ensures a * c <= b * d
  {
    MulNonneg(b - a, c);
    MulNonneg(b, d - c);
  }

  /** One panel step never overshoots: the new angle lies between the live angle and the
      target, the gap to the target is the old gap times `1 - factor` and so never grows, and a
      panel at rest stays where it is. */
  lemma PanelStepNoOvershoot(current: real, target: real, animationSpeed: real, decay: real)
    requires animationSpeed >= 0.0 && 0.0 < decay <= 1.0
    ensures Between(PanelStep(current, target, animationSpeed, decay), current, target)
    ensures Abs(target - PanelStep(current, target, animationSpeed, decay))
         == (1.0 - PanelLerpFactor(animationSpeed, decay)) * Abs(target - current)
    ensures Abs(target - PanelStep(current, target, animationSpeed, decay)) <= Abs(target - current)
    ensures current == target ==> PanelStep(current, target, animationSpeed, decay) == current
  {
    PanelLerpFactorBounds(animationSpeed, decay);
    LerpNoOvershoot(current, target, PanelLerpFactor(animationSpeed, decay));
  }

  /** With a positive speed and a panel not yet at its target, the gap strictly shrinks. */
  lemma PanelStepProgress(current: real, target: real, animationSpeed: real, decay: real)
    requires animationSpeed > 0.0 && 0.0 < decay < 1.0 && current != target
    ensures Abs(target - PanelStep(current, target, animationSpeed, decay)) < Abs(target - current)
  {
    var f := PanelLerpFactor(animationSpeed, decay);
    MulPos(animationSpeed / 100.0 * 0.15, 1.0 - decay);
    PanelLerpFactorBounds(animationSpeed, decay);
    LerpNoOvershoot(current, target, f);
    MulPos(f, Abs(target - current));
  }

  lemma MulPos(a: real, b: real)
    requires a > 0.0 && b > 0.0
    ensures a * b > 0.0
  {
  }

  /** A panel's angle after one frame per entry of `decays` (the exponential term seen in
      each frame), with the target and speed held fixed. */
  function PanelRun(angle: real, target: real, animationSpeed: real, decays: seq<real>): real
    decreases |decays|
  {
    if |decays| == 0 then angle
    else PanelRun(PanelStep(angle, target, animationSpeed, decays[0]), target, animationSpeed, decays[1..])
  }

  /** Over any number of frames a panel never overshoots: it stays between where it started
      and its target, and its gap to the target never grows. */
  lemma {:induction false} PanelRunNoOvershoot(angle: real, target: real, animationSpeed: real, decays: seq<real>)
    requires animationSpeed >= 0.0
    requires forall i :: 0 <= i < |decays| ==> 0.0 < decays[i] <= 1.0
    ensures Between(PanelRun(angle, target, animationSpeed, decays), angle, target)
    ensures Abs(target - PanelRun(angle, target, animationSpeed, decays)) <= Abs(target - angle)
    decreases |decays|
  {
    if |decays| > 0 {
      var next := PanelStep(angle, target, animationSpeed, decays[0]);
      PanelLerpFactorBounds(animationSpeed, decays[0]);
      LerpNoOvershoot(angle, target, PanelLerpFactor(animationSpeed, decays[0]));
      PanelRunNoOvershoot(next, target, animationSpeed, decays[1..]);
    }
  }

  function Pow(b: real, n: nat): real
  {
    if n == 0 then 1.0 else b * Pow(b, n - 1)
  }

  lemma {:induction false} PowBounds(b: real, n: nat)
    requires 0.0 <= b <= 1.0
    ensures 0.0 <= Pow(b, n) <= 1.0
  {
    if n > 0 {
      PowBounds(b, n - 1);
      MulLeMul(b, 1.0, Pow(b, n - 1), 1.0);
      MulNonneg(b, Pow(b, n - 1));
    }
  }

  /** The factor is non-increasing in the exponential term: a frame whose term is at most
      `emax` moves at least as fast as one whose term is `emax`. */
  lemma PanelLerpFactorAntitone(animationSpeed: real, decay: real, emax: real)
    requires animationSpeed >= 0.0 && decay <= emax <= 1.0
    ensures PanelLerpFactor(animationSpeed, emax) <= PanelLerpFactor(animationSpeed, decay)
  {
    MulLeMul(animationSpeed / 100.0 * 0.15, animationSpeed / 100.0 * 0.15, 1.0 - emax, 1.0 - decay)
      by { MulNonneg(animationSpeed / 100.0, 0.15); }
  }

  /** A value after one lerp step per entry of `factors`, toward a fixed target. */
  function LerpRun(x: real, target: real, factors: seq<real>): real
    decreases |factors|
  {
    if |factors| == 0 then x else LerpRun(Lerp(x, target, factors[0]), target, factors[1..])
  }

  /** The product of `1 - f` over the factors of a run: the share of the gap that remains. */
  function Remaining(factors: seq<real>): real
    decreases |factors|
  {
    if |factors| == 0 then 1.0 else (1.0 - factors[0]) * Remaining(factors[1..])
  }

  /** The signed gap left after a lerp run is the first gap times the remaining share. */
  lemma {:induction false} LerpRunGap(x: real, target: real, factors: seq<real>)
    ensures target - LerpRun(x, target, factors) == Remaining(factors) * (target - x)
    decreases |factors|
  {
    if |factors| > 0 {
      var next := Lerp(x, target, factors[0]);
      LerpRunGap(next, target, factors[1..]);
      LerpGap(x, target, factors[0]);
      var r := Remaining(factors[1..]);
      assert r * ((1.0 - factors[0]) * (target - x)) == ((1.0 - factors[0]) * r) * (target - x);
    }
  }

  /** With every factor in [k, 1] the remaining share lies in [0, (1 - k)^n]. */
  lemma {:induction false} RemainingBounds(factors: seq<real>, k: real)
    requires 0.0 <= k <= 1.0
    requires forall i :: 0 <= i < |factors| ==> k <= factors[i] <= 1.0
    ensures 0.0 <= Remaining(factors) <= Pow(1.0 - k, |factors|)
    decreases |factors|
  {
    if |factors| > 0 {
      RemainingBounds(factors[1..], k);
      MulLeMul(1.0 - factors[0], 1.0 - k, Remaining(factors[1..]), Pow(1.0 - k, |factors| - 1));
      MulNonneg(1.0 - factors[0], Remaining(factors[1..]));
    }
  }

  /** Scaling by a non-negative factor scales the absolute value. */
  lemma AbsScale(c: real, g: real)
    requires c >= 0.0
    ensures Abs(c * g) == c * Abs(g)
  {
    if g < 0.0 {
      assert c * g == -(c * -g);
      MulNonneg(c, -g);
    } else {
      MulNonneg(c, g);
    }
  }

  /** Lerp steps whose factors are all at least `k` (and at most 1) shrink the gap to the
      target at least geometrically, by `1 - k` per step. */
  lemma LerpRunConverges(x: real, target: real, factors: seq<real>, k: real)
    requires 0.0 <= k <= 1.0
    requires forall i :: 0 <= i < |factors| ==> k <= factors[i] <= 1.0
    ensures Abs(target - LerpRun(x, target, factors)) <= Pow(1.0 - k, |factors|) * Abs(target - x)
  {
    LerpRunGap(x, target, factors);
    RemainingBounds(factors, k);
    AbsScale(Remaining(factors), target - x);
    MulLeMul(Remaining(factors), Pow(1.0 - k, |factors|), Abs(target - x), Abs(target - x));
  }

  /** The lerp factors a panel uses in the frames of a run. */
  function PanelFactors(animationSpeed: real, decays: seq<real>): seq<real>
  {
    seq(|decays|, i requires 0 <= i < |decays| => PanelLerpFactor(animationSpeed, decays[i]))
  }

  /** A panel run is the lerp run with the panel's factors. */
  lemma {:induction false} PanelRunIsLerpRun(angle: real, target: real, animationSpeed: real, decays: seq<real>)
    ensures PanelRun(angle, target, animationSpeed, decays) == LerpRun(angle, target, PanelFactors(animationSpeed, decays))
    decreases |decays|
  {
    if |decays| > 0 {
      var next := PanelStep(angle, target, animationSpeed, decays[0]);
      PanelRunIsLerpRun(next, target, animationSpeed, decays[1..]);
      assert PanelFactors(animationSpeed, decays)[1..] == PanelFactors(animationSpeed, decays[1..]);
    }
  }

  /** Every frame whose exponential term is at most `emax` uses a factor of at least the
      factor for `emax`, and never more than 1. */
  lemma PanelFactorsInRange(animationSpeed: real, decays: seq<real>, emax: real)
    requires animationSpeed >= 0.0 && emax <= 1.0
    requires forall i :: 0 <= i < |decays| ==> 0.0 < decays[i] <= emax
    ensures 0.0 <= PanelLerpFactor(animationSpeed, emax) <= 1.0
    ensures forall i :: 0 <= i < |decays| ==>
      PanelLerpFactor(animationSpeed, emax) <= PanelFactors(animationSpeed, decays)[i] <= 1.0
  {
    var fs := PanelFactors(animationSpeed, decays);
    PanelLerpFactorBounds(animationSpeed, emax);
    forall i | 0 <= i < |decays|
      ensures PanelLerpFactor(animationSpeed, emax) <= fs[i] <= 1.0
    {
      PanelLerpFactorAntitone(animationSpeed, decays[i], emax);
      PanelLerpFactorBounds(animationSpeed, decays[i]);
    }
  }

  /** While the exponential term stays at most `emax < 1` (the panel keeps some distance from
      its target), the gap shrinks at least geometrically: after n frames the signed gap is the
      first gap times the remaining share of the run's factors, and that share lies in
      `[0, (1 - k)^n]`, where `k` is the factor for `emax`; so the panel never crosses its
      target and its distance falls by at least `1 - k` per frame. */
  lemma PanelRunConverges(angle: real, target: real, animationSpeed: real, decays: seq<real>, emax: real)
    requires animationSpeed >= 0.0 && emax <= 1.0
    requires forall i :: 0 <= i < |decays| ==> 0.0 < decays[i] <= emax
    ensures target - PanelRun(angle, target, animationSpeed, decays)
         == Remaining(PanelFactors(animationSpeed, decays)) * (target - angle)
    ensures 0.0 <= Remaining(PanelFactors(animationSpeed, decays))
         <= Pow(1.0 - PanelLerpFactor(animationSpeed, emax), |decays|) <= 1.0
  {
    var fs := PanelFactors(animationSpeed, decays);
    PanelFactorsInRange(animationSpeed, decays, emax);
    PanelRunIsLerpRun(angle, target, animationSpeed, decays);
    LerpRunGap(angle, target, fs);
    RemainingBounds(fs, PanelLerpFactor(animationSpeed, emax));
    PowBounds(1.0 - PanelLerpFactor(animationSpeed, emax), |decays|);
  }

  // ---------------------------------------------------------------------------------------
  // Camera step

  /** The fixed camera lerp rate. */
  const CameraLerpSpeed: real := 0.03

  /** One frame of the camera approach on a single coordinate. */
  function CameraStep(live: real, target: real): real
  {
    Lerp(live, target, CameraLerpSpeed)
  }

  /** One frame of the camera approach on all three coordinates of a point. */
  function CameraStepVec(live: Vec3, target: Vec3): Vec3
  {
    Vec3(CameraStep(live.x, target.x), CameraStep(live.y, target.y), CameraStep(live.z, target.z))
  }

  /** Each frame shrinks the gap to the target by exactly the factor 0.97 and moves the
      coordinate by 0.03 of the gap, so the camera never jumps; at rest it stays put. */
  lemma CameraStepContracts(live: real, target: real)
    ensures target - CameraStep(live, target) == 0.97 * (target - live)
    ensures Abs(CameraStep(live, target) - live) == 0.03 * Abs(target - live)
    ensures Between(CameraStep(live, target), live, target)
    ensures live == target ==> CameraStep(live, target) == live
  {
    LerpGap(live, target, CameraLerpSpeed);
    LerpNoOvershoot(live, target, CameraLerpSpeed);
  }

  /** A coordinate after `n` camera steps toward a fixed target, with nothing moving the
      camera between the steps: the frames in which `controls.update()` leaves the camera
      where the last step put it (auto-rotate off, no damping left over, no drag). */
  function CameraAfter(live: real, target: real, n: nat): real
    decreases n
  {
    if n == 0 then live else CameraAfter(CameraStep(live, target), target, n - 1)
  }

  /** After `n` camera steps toward an unchanged target, with the controls leaving the camera
      in place between them, the gap is exactly `0.97^n` times the first gap: the camera
      converges geometrically and never overshoots. */
  lemma {:induction false} CameraGapAfter(live: real, target: real, n: nat)
    ensures target - CameraAfter(live, target, n) == Pow(0.97, n) * (target - live)
    decreases n
  {
    if n > 0 {
      var next := CameraStep(live, target);
      CameraGapAfter(next, target, n - 1);
      CameraStepContracts(live, target);
      GapScale(target - CameraAfter(live, target, n), Pow(0.97, n - 1), target - next, target - live, 0.97);
    }
  }

  /** Composing two scalings of a gap: `a == q * b` and `b == c * g` give `a == (c * q) * g`. */
  lemma GapScale(a: real, q: real, b: real, g: real, c: real)
    requires a == q * b && b == c * g
    ensures a == (c * q) * g
  {
  }

  /** The camera follows a changing target: each step goes from the live value toward that
      frame's target (`targets[i]`), with no reset of the motion when the target changes and
      with the controls leaving the camera in place between the steps. */
  function CameraTrack(live: real, targets: seq<real>): real
    decreases |targets|
  {
    if |targets| == 0 then live else CameraTrack(CameraStep(live, targets[0]), targets[1..])
  }

  /** When all targets stay within a bound interval and the camera starts inside it, it stays
      inside it through every retargeting: retargeting mid-flight never throws the camera out. */
  lemma {:induction false} CameraTrackStaysInHull(live: real, targets: seq<real>, lo: real, hi: real)
    requires lo <= live <= hi
    requires forall i :: 0 <= i < |targets| ==> lo <= targets[i] <= hi
    ensures lo <= CameraTrack(live, targets) <= hi
    decreases |targets|
  {
    if |targets| > 0 {
      CameraStepContracts(live, targets[0]);
      CameraTrackStaysInHull(CameraStep(live, targets[0]), targets[1..], lo, hi);
    }
  }

  // ---------------------------------------------------------------------------------------
  // Camera framing

  /** The camera target derived from the active panel, and whether a panel is focused. */
  datatype Framing = Framing(position: Vec3, lookAt: Vec3, focused: bool)

  /** The distance at which a focused camera sits from the centre. */
  const FramingDistance: real := 6.0

  /** The distance of a focused look-at point from the centre, just outside the panel face. */
  const FocusLookAtDistance: real := 2.25

  /** The camera position of the free orbit. */
  const DefaultCameraPosition: Vec3 := Vec3(3.0, 3.0, 8.0)

  /** The unit vector pointing out of a panel's face. */
  function OutwardAxis(p: Panel): Vec3
  {
    match p
    case Left => Vec3(-1.0, 0.0, 0.0)
    case Right => Vec3(1.0, 0.0, 0.0)
    case Top => Vec3(0.0, 1.0, 0.0)
    case Bottom => Vec3(0.0, -1.0, 0.0)
  }

  function Scale(k: real, v: Vec3): Vec3
  {
    Vec3(k * v.x, k * v.y, k * v.z)
  }

  /** The `switch (activePanel)` of the framing effect. A panel's name focuses the camera on
      that panel, at the framing distance along its outward axis, looking at a point 2.25 out;
      `null` or any other string gives the free orbit. */
  function CameraFraming(activePanel: Option<string>): (r: Framing)
    ensures r.focused <==> exists p :: activePanel == Some(PanelName(p))
    ensures forall p :: activePanel == Some(PanelName(p)) ==>
      r.position == Scale(FramingDistance, OutwardAxis(p)) && r.lookAt == Scale(FocusLookAtDistance, OutwardAxis(p))
    ensures !r.focused ==> r.position == DefaultCameraPosition && r.lookAt == Origin
  {
    if activePanel == Some("left") then
      assert activePanel == Some(PanelName(Left));
      Framing(Vec3(-FramingDistance, 0.0, 0.0), Vec3(-2.25, 0.0, 0.0), true)
    else if activePanel == Some("right") then
      assert activePanel == Some(PanelName(Right));
      Framing(Vec3(FramingDistance, 0.0, 0.0), Vec3(2.25, 0.0, 0.0), true)
    else if activePanel == Some("top") then
      assert activePanel == Some(PanelName(Top));
      Framing(Vec3(0.0, FramingDistance, 0.0), Vec3(0.0, 2.25, 0.0), true)
    else if activePanel == Some("bottom") then
      assert activePanel == Some(PanelName(Bottom));
      Framing(Vec3(0.0, -FramingDistance, 0.0), Vec3(0.0, -2.25, 0.0), true)
    else
      NoOtherPanelName(activePanel);
      Framing(DefaultCameraPosition, Origin, false)
  }

  /** A value other than the four panel names names no panel. */
  lemma NoOtherPanelName(activePanel: Option<string>)
    requires activePanel != Some("left") && activePanel != Some("right")
    requires activePanel != Some("top") && activePanel != Some("bottom")
    ensures !exists p :: activePanel == Some(PanelName(p))
  {
    forall p ensures activePanel != Some(PanelName(p)) {
      match p
      case Left =>
      case Right =>
      case Top =>
      case Bottom =>
    }
  }

  /** The OrbitControls auto-rotate flag the framing effect leaves: off while a panel is
      focused, the `autoRotate` property in the free orbit. */
  function AutoRotateAfterFraming(f: Framing, autoRotate: bool): bool
  {
    if f.focused then false else autoRotate
  }

  /** Focusing any panel turns auto-rotation off; `null` or any other value restores the
      property. */
  lemma FramingAutoRotate(activePanel: Option<string>, autoRotate: bool)
    ensures (exists p :: activePanel == Some(PanelName(p))) ==> !AutoRotateAfterFraming(CameraFraming(activePanel), autoRotate)
    ensures !(exists p :: activePanel == Some(PanelName(p))) ==>
      AutoRotateAfterFraming(CameraFraming(activePanel), autoRotate) == autoRotate
  {
  }

  // ---------------------------------------------------------------------------------------
  // Lamp

  /** What the lamp effect writes: the point light's intensity, the lamp top's emissive
      intensity and the visibility of every prismatic ray. */
  datatype LampLook = LampLook(glowIntensity: real, emissiveIntensity: real, raysVisible: bool)

  function LampLookFor(lampOn: bool): LampLook
  {
    if lampOn then LampLook(3.0, 2.5, true) else LampLook(0.0, 0.2, false)
  }

  /** The lit lamp glows and shows its rays; the unlit lamp casts no light, shows no rays and
      keeps a dim idle emissive glow, fainter than the lit one. */
  lemma LampLookContracts(lampOn: bool)
    ensures LampLookFor(lampOn).raysVisible == lampOn
    ensures LampLookFor(lampOn).glowIntensity > 0.0 <==> lampOn
    ensures 0.0 < LampLookFor(false).emissiveIntensity < LampLookFor(true).emissiveIntensity
  {
  }

  /** Number of prismatic rays the scene builds. */
  const RayCount: nat := 12

  // ---------------------------------------------------------------------------------------
  // The component's live state

  /** The refs and fields the component's effects and frame callback write. */
  class CubeEngine {
    /** The container element existed when the setup effect ran; otherwise that effect
        returned early and every scene ref stayed null. */
    const mounted: bool
    /** The lamp (its top, its point light and its rays) was built: the container existed and
        `lampOn` was true when the setup effect ran. Otherwise the lamp refs stayed null. */
    const lampBuilt: bool
    /** `visible` of each prismatic ray mesh (`prismaticRaysRef`); empty when the lamp was
        not built. */
    const rays: array<bool>

    // animationStateRef: the inputs the frame callback reads
    var leftOpen: real
    var rightOpen: real
    var topOpen: real
    var bottomOpen: real
    var animationSpeed: real

    // live hinge angles: rotation.y of the left and right groups, rotation.x of top and bottom
    var leftAngle: real
    var rightAngle: real
    var topAngle: real
    var bottomAngle: real

    // camera.position, controls.target and their targets
    var cameraPosition: Vec3
    var controlsTarget: Vec3
    var targetCameraPosition: Vec3
    var targetCameraTarget: Vec3
    var controlsAutoRotate: bool

    // lamp glow and lamp top material
    var glowIntensity: real
    var emissiveIntensity: real

    function OpenOf(p: Panel): real
      reads this`leftOpen, this`rightOpen, this`topOpen, this`bottomOpen
    {
      match p
      case Left => leftOpen
      case Right => rightOpen
      case Top => topOpen
      case Bottom => bottomOpen
    }

    function AngleOf(p: Panel): real
      reads this`leftAngle, this`rightAngle, this`topAngle, this`bottomAngle
    {
      match p
      case Left => leftAngle
      case Right => rightAngle
      case Top => topAngle
      case Bottom => bottomAngle
    }

    /** The open inputs are in [0, 1], the speed is non-negative, and every live hinge angle
        lies in its panel's hinge range. */
    ghost predicate Valid()
      reads this`leftOpen, this`rightOpen, this`topOpen, this`bottomOpen, this`animationSpeed
      reads this`leftAngle, this`rightAngle, this`topAngle, this`bottomAngle
    {
      && (forall p :: 0.0 <= OpenOf(p) <= 1.0)
      && animationSpeed >= 0.0
      && (forall p :: InHinge(p, AngleOf(p)))
    }

    /** The first render and the setup effect: the animation state holds the properties,
        the panels are created closed, the camera sits at (3, 3, 8) looking at the origin;
        only if the lamp is on at that moment, the lamp is lit with its twelve rays visible.
        Each mount of the component runs it anew with the current properties. */
    constructor (containerPresent: bool, leftOpen: real, rightOpen: real, topOpen: real, bottomOpen: real,
                 autoRotate: bool, animationSpeed: real, lampOn: bool)
      requires 0.0 <= leftOpen <= 1.0 && 0.0 <= rightOpen <= 1.0
      requires 0.0 <= topOpen <= 1.0 && 0.0 <= bottomOpen <= 1.0
      requires animationSpeed >= 0.0
      ensures Valid()
      ensures mounted == containerPresent
      ensures this.leftOpen == leftOpen && this.rightOpen == rightOpen
      ensures this.topOpen == topOpen && this.bottomOpen == bottomOpen
      ensures this.animationSpeed == animationSpeed
      ensures forall p :: AngleOf(p) == ClosedAngle(p)
      ensures cameraPosition == DefaultCameraPosition && controlsTarget == Origin
      ensures targetCameraPosition == DefaultCameraPosition && targetCameraTarget == Origin
      ensures controlsAutoRotate == (containerPresent && autoRotate)
      ensures lampBuilt == (containerPresent && lampOn)
      ensures fresh(rays)
      ensures rays.Length == (if lampBuilt then RayCount else 0)
      ensures forall i :: 0 <= i < rays.Length ==> rays[i]
      ensures lampBuilt ==> glowIntensity == 3.0 && emissiveIntensity == 2.5
    {
      mounted := containerPresent;
      lampBuilt := containerPresent && lampOn;
      rays := new bool[if containerPresent && lampOn then RayCount else 0](_ => true);
      this.leftOpen, this.rightOpen, this.topOpen, this.bottomOpen := leftOpen, rightOpen, topOpen, bottomOpen;
      this.animationSpeed := animationSpeed;
      leftAngle, rightAngle, topAngle, bottomAngle := Pi / 2.0, -Pi / 2.0, -Pi / 2.0, Pi / 2.0;
      cameraPosition, controlsTarget := DefaultCameraPosition, Origin;
      targetCameraPosition, targetCameraTarget := DefaultCameraPosition, Origin;
      controlsAutoRotate := containerPresent && autoRotate;
      if containerPresent && lampOn {
        glowIntensity, emissiveIntensity := 3.0, 2.5;
      }
    }

    /** The effect that copies the `autoRotate` property into the controls. */
    method SyncAutoRotate(autoRotate: bool)
      modifies this`controlsAutoRotate
      ensures controlsAutoRotate == if mounted then autoRotate else old(controlsAutoRotate)
    {
      if mounted {
        controlsAutoRotate := autoRotate;
      }
    }

    /** The effect that copies the panel inputs and speed into `animationStateRef`. */
    method SetAnimationState(leftOpen: real, rightOpen: real, topOpen: real, bottomOpen: real, animationSpeed: real)
      requires Valid()
      requires 0.0 <= leftOpen <= 1.0 && 0.0 <= rightOpen <= 1.0
      requires 0.0 <= topOpen <= 1.0 && 0.0 <= bottomOpen <= 1.0
      requires animationSpeed >= 0.0
      modifies this`leftOpen, this`rightOpen, this`topOpen, this`bottomOpen, this`animationSpeed
      ensures Valid()
      ensures this.leftOpen == leftOpen && this.rightOpen == rightOpen
      ensures this.topOpen == topOpen && this.bottomOpen == bottomOpen
      ensures this.animationSpeed == animationSpeed
    {
      this.leftOpen, this.rightOpen, this.topOpen, this.bottomOpen := leftOpen, rightOpen, topOpen, bottomOpen;
      this.animationSpeed := animationSpeed;
    }

    /** The effect run when `activePanel` or `autoRotate` changes: it retargets the camera
        (the live camera is left where it is) and sets the controls' auto-rotate flag. */
    method FrameActivePanel(activePanel: Option<string>, autoRotate: bool)
      modifies this`targetCameraPosition, this`targetCameraTarget, this`controlsAutoRotate
      ensures targetCameraPosition == CameraFraming(activePanel).position
      ensures targetCameraTarget == CameraFraming(activePanel).lookAt
      ensures controlsAutoRotate ==
        if mounted then AutoRotateAfterFraming(CameraFraming(activePanel), autoRotate) else old(controlsAutoRotate)
    {
      var framing := CameraFraming(activePanel);
      targetCameraPosition := framing.position;
      targetCameraTarget := framing.lookAt;
      if mounted {
        controlsAutoRotate := if framing.focused then false else autoRotate;
      }
    }

    /** The lamp effect: when the lamp refs exist (the lamp was built at mount) it sets both
        intensities and walks the rays setting each one's visibility, so the result depends
        on `lampOn` alone; when they do not, it does nothing. */
    method ApplyLamp(lampOn: bool)
      modifies this`glowIntensity, this`emissiveIntensity, rays
      ensures lampBuilt ==> glowIntensity == LampLookFor(lampOn).glowIntensity
      ensures lampBuilt ==> emissiveIntensity == LampLookFor(lampOn).emissiveIntensity
      ensures lampBuilt ==> forall i :: 0 <= i < rays.Length ==> rays[i] == LampLookFor(lampOn).raysVisible
      ensures !lampBuilt ==> glowIntensity == old(glowIntensity) && emissiveIntensity == old(emissiveIntensity)
      ensures !lampBuilt ==> rays[..] == old(rays[..])
    {
      if lampBuilt {
        var look := LampLookFor(lampOn);
        glowIntensity := look.glowIntensity;
        emissiveIntensity := look.emissiveIntensity;
        var i := 0;
        while i < rays.Length
          modifies rays
          invariant 0 <= i <= rays.Length
          invariant forall j :: 0 <= j < i ==> rays[j] == look.raysVisible
        {
          rays[i] := look.raysVisible;
          i := i + 1;
        }
      }
    }

    /** Lamp on, off and on again leaves a built lamp in the lit state: intensities 3 and
        2.5, all rays shown. A lamp that was not built stays as it was. */
    method LampRoundTrip()
      modifies this`glowIntensity, this`emissiveIntensity, rays
      ensures lampBuilt ==> glowIntensity == 3.0 && emissiveIntensity == 2.5
      ensures lampBuilt ==> forall i :: 0 <= i < rays.Length ==> rays[i]
      ensures !lampBuilt ==> glowIntensity == old(glowIntensity) && emissiveIntensity == old(emissiveIntensity)
      ensures !lampBuilt ==> rays[..] == old(rays[..])
    {
      ApplyLamp(true);
      ApplyLamp(false);
      ApplyLamp(true);
    }

    /** One call of the frame callback, after `controls.update()` has left the camera at
        `orbitPosition` with target `orbitTarget` (the OrbitControls library decides those):
        every camera and look-at coordinate takes one 0.03 lerp step toward its target, and
        every panel one clamped lerp step toward its hinge target, `decayLeft` ... `decayBottom`
        standing for that frame's exponential term of each panel. */
    method Frame(orbitPosition: Vec3, orbitTarget: Vec3,
                 decayLeft: real, decayRight: real, decayTop: real, decayBottom: real)
      requires mounted && Valid()
      requires ValidDecay(TargetAngle(Left, leftOpen) - leftAngle, decayLeft)
      requires ValidDecay(TargetAngle(Right, rightOpen) - rightAngle, decayRight)
      requires ValidDecay(TargetAngle(Top, topOpen) - topAngle, decayTop)
      requires ValidDecay(TargetAngle(Bottom, bottomOpen) - bottomAngle, decayBottom)
      modifies this`cameraPosition, this`controlsTarget
      modifies this`leftAngle, this`rightAngle, this`topAngle, this`bottomAngle
      ensures Valid()
      ensures cameraPosition == CameraStepVec(orbitPosition, targetCameraPosition)
      ensures controlsTarget == CameraStepVec(orbitTarget, targetCameraTarget)
      ensures leftAngle == PanelStep(old(leftAngle), TargetAngle(Left, leftOpen), animationSpeed, decayLeft)
      ensures rightAngle == PanelStep(old(rightAngle), TargetAngle(Right, rightOpen), animationSpeed, decayRight)
      ensures topAngle == PanelStep(old(topAngle), TargetAngle(Top, topOpen), animationSpeed, decayTop)
      ensures bottomAngle == PanelStep(old(bottomAngle), TargetAngle(Bottom, bottomOpen), animationSpeed, decayBottom)
    {
      StepCamera(orbitPosition, orbitTarget);
      StepPanels(decayLeft, decayRight, decayTop, decayBottom);
    }

    /** The camera half of a frame: position and look-at each take one 0.03 lerp step. */
    method StepCamera(orbitPosition: Vec3, orbitTarget: Vec3)
      modifies this`cameraPosition, this`controlsTarget
      ensures cameraPosition == CameraStepVec(orbitPosition, targetCameraPosition)
      ensures controlsTarget == CameraStepVec(orbitTarget, targetCameraTarget)
    {
      cameraPosition := CameraStepVec(orbitPosition, targetCameraPosition);
      controlsTarget := CameraStepVec(orbitTarget, targetCameraTarget);
    }

    /** The panel half of a frame: each hinge takes one clamped lerp step toward its target
        and stays inside its hinge range. */
    method StepPanels(decayLeft: real, decayRight: real, decayTop: real, decayBottom: real)
      requires Valid()
      requires ValidDecay(TargetAngle(Left, leftOpen) - leftAngle, decayLeft)
      requires ValidDecay(TargetAngle(Right, rightOpen) - rightAngle, decayRight)
      requires ValidDecay(TargetAngle(Top, topOpen) - topAngle, decayTop)
      requires ValidDecay(TargetAngle(Bottom, bottomOpen) - bottomAngle, decayBottom)
      modifies this`leftAngle, this`rightAngle, this`topAngle, this`bottomAngle
      ensures Valid()
      ensures leftAngle == PanelStep(old(leftAngle), TargetAngle(Left, leftOpen), animationSpeed, decayLeft)
      ensures rightAngle == PanelStep(old(rightAngle), TargetAngle(Right, rightOpen), animationSpeed, decayRight)
      ensures topAngle == PanelStep(old(topAngle), TargetAngle(Top, topOpen), animationSpeed, decayTop)
      ensures bottomAngle == PanelStep(old(bottomAngle), TargetAngle(Bottom, bottomOpen), animationSpeed, decayBottom)
    {
      assert InHinge(Left, AngleOf(Left)) && InHinge(Right, AngleOf(Right));
      assert InHinge(Top, AngleOf(Top)) && InHinge(Bottom, AngleOf(Bottom));
      assert 0.0 <= OpenOf(Left) <= 1.0 && 0.0 <= OpenOf(Right) <= 1.0;
      assert 0.0 <= OpenOf(Top) <= 1.0 && 0.0 <= OpenOf(Bottom) <= 1.0;
      StepPanelInHinge(Left, leftAngle, leftOpen, animationSpeed, decayLeft);
      StepPanelInHinge(Right, rightAngle, rightOpen, animationSpeed, decayRight);
      StepPanelInHinge(Top, topAngle, topOpen, animationSpeed, decayTop);
      StepPanelInHinge(Bottom, bottomAngle, bottomOpen, animationSpeed, decayBottom);
      leftAngle := PanelStep(leftAngle, TargetAngle(Left, leftOpen), animationSpeed, decayLeft);
      rightAngle := PanelStep(rightAngle, TargetAngle(Right, rightOpen), animationSpeed, decayRight);
      topAngle := PanelStep(topAngle, TargetAngle(Top, topOpen), animationSpeed, decayTop);
      bottomAngle := PanelStep(bottomAngle, TargetAngle(Bottom, bottomOpen), animationSpeed, decayBottom);
      assert forall p :: InHinge(p, AngleOf(p)) by {
        forall p ensures InHinge(p, AngleOf(p)) {
          match p
          case Left =>
          case Right =>
          case Top =>
          case Bottom =>
        }
      }
    }
  }

  /** A cube mounted while the lamp is off has no lamp: switching the lamp on afterwards
      leaves both intensities as the mount left them and shows no ray, until the component
      is mounted anew. */
  method MountUnlitThenSwitchOn() returns (cube: CubeEngine, glowAtMount: real, emissiveAtMount: real)
    ensures cube.mounted && !cube.lampBuilt
    ensures cube.rays.Length == 0
    ensures cube.glowIntensity == glowAtMount && cube.emissiveIntensity == emissiveAtMount
  {
    cube := new CubeEngine(true, 0.0, 0.0, 0.0, 0.0, true, 5.0, false);
    glowAtMount, emissiveAtMount := cube.glowIntensity, cube.emissiveIntensity;
    cube.ApplyLamp(true);
  }

  /** A panel inside its hinge range, stepping toward a target for an open input in [0, 1],
      stays inside its hinge range: it never swings past fully open or fully closed. */
  lemma StepPanelInHinge(p: Panel, angle: real, open: real, animationSpeed: real, decay: real)
    requires InHinge(p, angle) && 0.0 <= open <= 1.0 && animationSpeed >= 0.0
    requires ValidDecay(TargetAngle(p, open) - angle, decay)
    ensures InHinge(p, PanelStep(angle, TargetAngle(p, open), animationSpeed, decay))
  {
    TargetAngleInHinge(p, open);
    PanelStepNoOvershoot(angle, TargetAngle(p, open), animationSpeed, decay);
  }
}
