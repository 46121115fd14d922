/** The application shell: the single `activePanel` selector and the four open flags derived
    from it, the panel buttons, Close All, Reset, the lamp button, the speed slider and the
    auto-rotate switch, and the timed `sequenceAnimation` script that walks the panels. */
module App {
  import opened Common
  import opened HolographicCube

  // ---------------------------------------------------------------------------------------
  // Derived open flags

  /** The open flag the application passes for panel `p`: 1 exactly when `p` is the active
      panel, 0 otherwise. */
  function OpenFlag(activePanel: Option<Panel>, p: Panel): (f: int)
    ensures f == 0 || f == 1
    ensures f == 1 <==> activePanel == Some(p)
  {
    if activePanel == Some(p) then 1 else 0
  }

  /** The four flags add up to at most one: no two panels are ever open at once, and all four
      are closed exactly when no panel is active. */
  lemma OpenFlagsExclusive(activePanel: Option<Panel>)
    ensures OpenFlag(activePanel, Left) + OpenFlag(activePanel, Right)
          + OpenFlag(activePanel, Top) + OpenFlag(activePanel, Bottom)
         == if activePanel == None then 0 else 1
    ensures forall p, q :: OpenFlag(activePanel, p) == 1 && OpenFlag(activePanel, q) == 1 ==> p == q
    ensures (forall p :: OpenFlag(activePanel, p) == 0) <==> activePanel == None
  {
    match activePanel
    case None =>
    case Some(active) =>
      assert OpenFlag(activePanel, active) == 1;
      match active
      case Left =>
      case Right =>
      case Top =>
      case Bottom =>
  }

  /** The string the application hands to the cube as its `activePanel` property. */
  function ActiveName(activePanel: Option<Panel>): (s: Option<string>)
    ensures s == None <==> activePanel == None
    ensures forall p :: s == Some(PanelName(p)) <==> activePanel == Some(p)
  {
    match activePanel
    case None => None
    case Some(p) =>
      assert forall q :: PanelName(q) == PanelName(p) <==> q == p by {
        forall q ensures PanelName(q) == PanelName(p) <==> q == p {
          PanelNameInjective(q, p);
        }
      }
      Some(PanelName(p))
  }

  /** The flags and the framing agree: the panel whose flag is 1 is the one the camera frames,
      and with every flag 0 the camera orbits freely with the `autoRotate` setting. */
  lemma FlagsAgreeWithFraming(activePanel: Option<Panel>, autoRotate: bool)
    ensures forall p :: OpenFlag(activePanel, p) == 1 ==>
      CameraFraming(ActiveName(activePanel)).focused
      && CameraFraming(ActiveName(activePanel)).position == Scale(FramingDistance, OutwardAxis(p))
      && !AutoRotateAfterFraming(CameraFraming(ActiveName(activePanel)), autoRotate)
    ensures activePanel == None ==>
      CameraFraming(ActiveName(activePanel)) == Framing(DefaultCameraPosition, Origin, false)
      && AutoRotateAfterFraming(CameraFraming(ActiveName(activePanel)), autoRotate) == autoRotate
  {
    forall p | OpenFlag(activePanel, p) == 1
      ensures CameraFraming(ActiveName(activePanel)).focused
    {
      assert ActiveName(activePanel) == Some(PanelName(p));
    }
  }

  /** With the flags as the cube's open inputs, exactly the active panel swings to its fully
      open angle and every other panel is held at its closed angle. */
  lemma FlagsDriveHingeTargets(activePanel: Option<Panel>, p: Panel)
    ensures TargetAngle(p, OpenFlag(activePanel, p) as real)
         == if activePanel == Some(p) then OpenAngle(p) else ClosedAngle(p)
  {
    TargetAngleTable(p, 0.0);
    TargetAngleTable(p, 1.0);
  }

  // ---------------------------------------------------------------------------------------
  // The toggle updater

  /** The updater `togglePanel(p)` passes to `setActivePanel`: the active panel closes when
      its button is pressed again, any other button makes that panel the active one. */
  function Toggled(current: Option<Panel>, p: Panel): (r: Option<Panel>)
    ensures r == None <==> current == Some(p)
    ensures r != None ==> r == Some(p)
  {
    if current == Some(p) then None else Some(p)
  }

  /** Pressing the same button twice restores the active panel if it was that panel, and
      otherwise leaves no panel active; in particular it returns to `null` from `null`. */
  lemma ToggledTwice(current: Option<Panel>, p: Panel)
    ensures Toggled(Toggled(current, p), p) == if current == Some(p) then current else None
    ensures Toggled(Toggled(None, p), p) == None
  {
  }

  // ---------------------------------------------------------------------------------------
  // The sequence choreography

  /** One step of `sequenceAnimation`: the panel it selects and the delay awaited after it. */
  datatype Step = Step(select: Option<Panel>, delayMs: nat)

  /** The script: close, then left, right, top and bottom in turn, then close again; 500 ms
      after the closings and 800 ms after each panel. */
  const Choreography: seq<Step> := [
    Step(None, 500),
    Step(Some(Left), 800),
    Step(Some(Right), 800),
    Step(Some(Top), 800),
    Step(Some(Bottom), 800),
    Step(None, 500)
  ]

  /** The panels the steps select, in order. */
  function Selections(steps: seq<Step>): (r: seq<Option<Panel>>)
    ensures |r| == |steps|
    ensures forall i :: 0 <= i < |steps| ==> r[i] == steps[i].select
    decreases |steps|
  {
    if |steps| == 0 then [] else [steps[0].select] + Selections(steps[1..])
  }

  /** The time the steps wait in all. */
  function TotalDelay(steps: seq<Step>): nat
    decreases |steps|
  {
    if |steps| == 0 then 0 else steps[0].delayMs + TotalDelay(steps[1..])
  }

  /** The delays of a prefix and the one after it add up. */
  lemma {:induction false} TotalDelayAppend(steps: seq<Step>, i: nat)
    requires i < |steps|
    ensures TotalDelay(steps[..i + 1]) == TotalDelay(steps[..i]) + steps[i].delayMs
    decreases i
  {
    if i > 0 {
      TotalDelayAppend(steps[1..], i - 1);
      assert steps[..i + 1][1..] == steps[1..][..i];
      assert steps[..i][1..] == steps[1..][..i - 1];
    }
  }

  /** The script visits no panel, then left, right, top and bottom, then no panel, and waits
      4200 ms in all. */
  lemma ChoreographyFacts()
    ensures Selections(Choreography) == [None, Some(Left), Some(Right), Some(Top), Some(Bottom), None]
    ensures TotalDelay(Choreography) == 4200
  {
    assert TotalDelay(Choreography[5..]) == 500;
    assert TotalDelay(Choreography[4..]) == 1300;
    assert TotalDelay(Choreography[3..]) == 2100;
    assert TotalDelay(Choreography[2..]) == 2900;
    assert TotalDelay(Choreography[1..]) == 3700;
  }

  // ---------------------------------------------------------------------------------------
  // The application state

  /** The speed slider's range and the default speed. */
  const MinSpeed: int := 1
  const MaxSpeed: int := 20
  const DefaultSpeed: int := 5

  /** The state hooks of the application. */
  class AppState {
    var activePanel: Option<Panel>
    var autoRotate: bool
    var animationSpeed: int
    var isAnimating: bool
    var lampOn: bool
    /** While a sequence runs: the index of the step whose selection was made last, whose
        delay is now being awaited. */
    var cursor: nat

    /** The cursor names a step of the script and rests at 0 while no sequence runs; the speed
        lies in the slider's range. */
    ghost predicate Valid()
      reads this`cursor, this`isAnimating, this`animationSpeed
    {
      && cursor < |Choreography|
      && (!isAnimating ==> cursor == 0)
      && MinSpeed <= animationSpeed <= MaxSpeed
    }

    /** First load: no panel open, auto-rotation on, speed 5, the lamp lit, no sequence. */
    constructor ()
      ensures Valid()
      ensures activePanel == None && autoRotate && animationSpeed == DefaultSpeed
      ensures !isAnimating && lampOn
    {
      activePanel, autoRotate, animationSpeed := None, true, DefaultSpeed;
      isAnimating, lampOn, cursor := false, true, 0;
    }

    /** A panel button. */
    method TogglePanel(p: Panel)
      modifies this`activePanel
      ensures activePanel == Toggled(old(activePanel), p)
    {
      activePanel := Toggled(activePanel, p);
    }

    /** Close All: clears the selection and nothing else. */
    method CloseAll()
      modifies this`activePanel
      ensures activePanel == None
    {
      activePanel := None;
    }

    /** Reset: closes every panel, turns auto-rotation back on and restores the default speed;
        the lamp and a running sequence are left alone. */
    method Reset()
      requires Valid()
      modifies this`activePanel, this`autoRotate, this`animationSpeed
      ensures Valid()
      ensures activePanel == None && autoRotate && animationSpeed == DefaultSpeed
    {
      CloseAll();
      autoRotate := true;
      animationSpeed := DefaultSpeed;
    }

    /** The lamp button. */
    method ToggleLamp()
      modifies this`lampOn
      ensures lampOn == !old(lampOn)
    {
      lampOn := !lampOn;
    }

    /** Two presses of the lamp button restore the lamp. */
    method ToggleLampTwice()
      modifies this`lampOn
      ensures lampOn == old(lampOn)
    {
      ToggleLamp();
      ToggleLamp();
    }

    /** The speed slider, which only produces whole values from 1 to 20. */
    method SetAnimationSpeed(value: int)
      requires Valid() && MinSpeed <= value <= MaxSpeed
      modifies this`animationSpeed
      ensures Valid() && animationSpeed == value
    {
      animationSpeed := value;
    }

    /** The auto-rotate switch. */
    method SetAutoRotate(value: bool)
      modifies this`autoRotate
      ensures autoRotate == value
    {
      autoRotate := value;
    }

    /** The Sequence button: ignored while a sequence runs; otherwise marks the sequence as
        running and makes the script's first selection, whose delay then starts. */
    method StartSequence()
      requires Valid()
      modifies this`isAnimating, this`activePanel, this`cursor
      ensures Valid() && isAnimating
      ensures old(isAnimating) ==> activePanel == old(activePanel) && cursor == old(cursor)
      ensures !old(isAnimating) ==> activePanel == Choreography[0].select && cursor == 0
    {
      if isAnimating {
        return;
      }
      isAnimating := true;
      cursor := 0;
      activePanel := Choreography[cursor].select;
    }

    /** The delay of the current step has passed: the next step's selection is made, or after
        the last step the sequence ends. */
    method SequenceTimerFired()
      requires Valid() && isAnimating
      modifies this`isAnimating, this`activePanel, this`cursor
      ensures Valid()
      ensures old(cursor) + 1 < |Choreography| ==>
        isAnimating && cursor == old(cursor) + 1 && activePanel == Choreography[cursor].select
      ensures old(cursor) + 1 == |Choreography| ==>
        !isAnimating && cursor == 0 && activePanel == old(activePanel)
    {
      if cursor + 1 < |Choreography| {
        cursor := cursor + 1;
        activePanel := Choreography[cursor].select;
      } else {
        isAnimating := false;
        cursor := 0;
      }
    }

    /** One press of the Sequence button on an idle application, with every delay allowed to
        pass and no other input in between: the selections made, in order, and the time
        waited. A press while a sequence runs does nothing. */
    method RunSequence() returns (visited: seq<Option<Panel>>, elapsedMs: nat)
      requires Valid()
      modifies this`isAnimating, this`activePanel, this`cursor
      ensures Valid() && isAnimating == old(isAnimating)
      ensures old(isAnimating) ==> visited == [] && elapsedMs == 0
      ensures old(isAnimating) ==> activePanel == old(activePanel) && cursor == old(cursor)
      ensures !old(isAnimating) ==> visited == Selections(Choreography) && elapsedMs == TotalDelay(Choreography)
      ensures !old(isAnimating) ==> activePanel == None
    {
      if isAnimating {
        visited, elapsedMs := [], 0;
        return;
      }
      StartSequence();
      visited, elapsedMs := [activePanel], 0;
      while isAnimating
        invariant Valid()
        invariant isAnimating ==> |visited| == cursor + 1
        invariant isAnimating ==> visited == Selections(Choreography[..cursor + 1])
        invariant isAnimating ==> elapsedMs == TotalDelay(Choreography[..cursor])
        invariant isAnimating ==> activePanel == Choreography[cursor].select
        invariant !isAnimating ==> visited == Selections(Choreography) && elapsedMs == TotalDelay(Choreography)
        invariant !isAnimating ==> activePanel == Choreography[|Choreography| - 1].select
        decreases isAnimating, |Choreography| - cursor
      {
        var step := cursor;
        TotalDelayAppend(Choreography, step);
        SequenceTimerFired();
        elapsedMs := elapsedMs + Choreography[step].delayMs;
        if isAnimating {
          visited := visited + [activePanel];
          assert Choreography[..cursor + 1] == Choreography[..cursor] + [Choreography[cursor]];
          SelectionsAppend(Choreography[..cursor], Choreography[cursor]);
        } else {
          assert Choreography[..step + 1] == Choreography;
        }
      }
    }

    /** The cube element rendered with the current state as its properties, and the cube's
        effects run on them: the auto-rotate sync, then the framing switch, then the
        animation-state copy, then the lamp. The component declares the animation-state copy
        second, but it writes fields no other effect touches, so the outcome is the same.
        Afterwards the open inputs are the four flags, the camera frames the active panel,
        auto-rotation is on only when no panel is active and the switch is on, and the lamp
        follows the lamp button. */
    method RenderCube(cube: CubeEngine)
      requires Valid() && cube.Valid()
      modifies cube`leftOpen, cube`rightOpen, cube`topOpen, cube`bottomOpen, cube`animationSpeed
      modifies cube`targetCameraPosition, cube`targetCameraTarget, cube`controlsAutoRotate
      modifies cube`glowIntensity, cube`emissiveIntensity, cube.rays
      ensures cube.Valid()
      ensures forall p :: cube.OpenOf(p) == OpenFlag(activePanel, p) as real
      ensures cube.animationSpeed == animationSpeed as real
      ensures cube.targetCameraPosition == CameraFraming(ActiveName(activePanel)).position
      ensures cube.targetCameraTarget == CameraFraming(ActiveName(activePanel)).lookAt
      ensures cube.mounted ==> cube.controlsAutoRotate == (activePanel == None && autoRotate)
      ensures cube.lampBuilt ==> cube.glowIntensity == LampLookFor(lampOn).glowIntensity
      ensures cube.lampBuilt ==> cube.emissiveIntensity == LampLookFor(lampOn).emissiveIntensity
      ensures cube.lampBuilt ==> forall i :: 0 <= i < cube.rays.Length ==> cube.rays[i] == lampOn
      ensures !cube.lampBuilt ==> cube.rays[..] == old(cube.rays[..])
    {
      FeedCamera(cube);
      FeedPanels(cube);
      cube.ApplyLamp(lampOn);
    }

    /** The effects that read `autoRotate` and `activePanel`: the auto-rotate sync, then the
        framing switch. */
    method FeedCamera(cube: CubeEngine)
      modifies cube`targetCameraPosition, cube`targetCameraTarget, cube`controlsAutoRotate
      ensures cube.targetCameraPosition == CameraFraming(ActiveName(activePanel)).position
      ensures cube.targetCameraTarget == CameraFraming(ActiveName(activePanel)).lookAt
      ensures cube.mounted ==> cube.controlsAutoRotate == (activePanel == None && autoRotate)
    {
      cube.SyncAutoRotate(autoRotate);
      cube.FrameActivePanel(ActiveName(activePanel), autoRotate);
      FlagsAgreeWithFraming(activePanel, autoRotate);
      if activePanel != None {
        assert OpenFlag(activePanel, activePanel.value) == 1;
      }
    }

    /** The effect that copies the four flags and the speed into the cube's animation state. */
    method FeedPanels(cube: CubeEngine)
      requires Valid() && cube.Valid()
      modifies cube`leftOpen, cube`rightOpen, cube`topOpen, cube`bottomOpen, cube`animationSpeed
      ensures cube.Valid()
      ensures forall p :: cube.OpenOf(p) == OpenFlag(activePanel, p) as real
      ensures cube.animationSpeed == animationSpeed as real
    {
      cube.SetAnimationState(OpenFlag(activePanel, Left) as real, OpenFlag(activePanel, Right) as real,
                             OpenFlag(activePanel, Top) as real, OpenFlag(activePanel, Bottom) as real,
                             animationSpeed as real);
      assert forall p :: cube.OpenOf(p) == OpenFlag(activePanel, p) as real by {
        forall p ensures cube.OpenOf(p) == OpenFlag(activePanel, p) as real {
          match p
          case Left =>
          case Right =>
          case Top =>
          case Bottom =>
        }
      }
    }
  }

  /** The selections of a script extended by one step. */
  lemma {:induction false} SelectionsAppend(steps: seq<Step>, s: Step)
    ensures Selections(steps + [s]) == Selections(steps) + [s.select]
  {
  }
}
