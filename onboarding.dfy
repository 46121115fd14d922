/** The onboarding overlay: a step index over a fixed five-step tour, moved by Next, Back and
    Skip, with a completion callback, and the pure choices derived from the index: the primary
    button's label, the state of each progress dot and where the highlight box is drawn. */
module OnboardingOverlay {
  import opened Common

  /** A tour step: its title and the name of the interface region it highlights, if any. */
  datatype TourStep = TourStep(title: string, highlight: Option<string>)

  /** The five steps of the tour. */
  const Steps: seq<TourStep> := [
    TourStep("Welcome to Holographic Star", None),
    TourStep("Control the Panels", Some("controls")),
    TourStep("Customize the Experience", Some("settings")),
    TourStep("Toggle the Lamp", Some("lamp")),
    TourStep("View the Certificate", Some("certificate"))
  ]

  /** The index of the last step. */
  const LastStep: nat := |Steps| - 1

  // ---------------------------------------------------------------------------------------
  // Primary button label

  /** The label of the primary button: "Next" while a later step exists, "Get Started" on the
      last step. */
  function PrimaryLabel(currentStep: nat): (s: string)
    ensures s == "Next" || s == "Get Started"
    ensures currentStep < |Steps| ==> (s == "Get Started" <==> currentStep == LastStep)
  {
    if currentStep < |Steps| - 1 then "Next" else "Get Started"
  }

  // ---------------------------------------------------------------------------------------
  // Progress dots

  /** The three looks of a progress dot: the wide current dot, a half-lit dot for a step already
      seen, and a muted dot for a step still ahead. */
  datatype DotState = Active | Done | Pending

  /** The look of dot `index` when the tour is at `currentStep`. */
  function DotClass(index: nat, currentStep: nat): (d: DotState)
    ensures d == Active <==> index == currentStep
    ensures d == Done <==> index < currentStep
    ensures d == Pending <==> index > currentStep
  {
    if index == currentStep then Active else if index < currentStep then Done else Pending
  }

  /** The first `n` dots of the row. */
  function DotRow(n: nat, currentStep: nat): seq<DotState>
  {
    seq(n, i requires 0 <= i < n => DotClass(i, currentStep))
  }

  /** The whole row, one dot per step. */
  function Dots(currentStep: nat): seq<DotState>
  {
    DotRow(|Steps|, currentStep)
  }

  /** The number of active dots in a row. */
  function CountActive(ds: seq<DotState>): nat
    decreases |ds|
  {
    if |ds| == 0 then 0 else CountActive(ds[..|ds| - 1]) + (if ds[|ds| - 1] == Active then 1 else 0)
  }

  /** A row of `n` dots holds one active dot if the current step is among them, none otherwise. */
  lemma {:induction false} DotRowActiveCount(n: nat, currentStep: nat)
    ensures CountActive(DotRow(n, currentStep)) == if currentStep < n then 1 else 0
  {
    if n > 0 {
      DotRowActiveCount(n - 1, currentStep);
      assert DotRow(n, currentStep)[..n - 1] == DotRow(n - 1, currentStep);
    }
  }

  /** At every step of the tour exactly one dot is active; the dots before it are done and the
      ones after it pending. */
  lemma ExactlyOneActive(currentStep: nat)
    requires currentStep < |Steps|
    ensures CountActive(Dots(currentStep)) == 1
    ensures forall i :: 0 <= i < |Steps| && i != currentStep ==> Dots(currentStep)[i] != Active
  {
    DotRowActiveCount(|Steps|, currentStep);
  }

  // ---------------------------------------------------------------------------------------
  // Highlight box

  /** A CSS inset of the highlight box: `1.5rem` from that edge of the screen, or `auto`. */
  datatype Inset = Rem1_5 | Auto

  /** The position and size of the highlight box, in pixels. */
  datatype HighlightBox = HighlightBox(left: Inset, right: Inset, top: Inset, bottom: Inset,
                                       widthPx: nat, heightPx: nat)

  /** The box is pinned to the top-right corner. */
  predicate AnchoredTopRight(b: HighlightBox)
  {
    b.top == Rem1_5 && b.right == Rem1_5 && b.left == Auto && b.bottom == Auto
  }

  /** The box is pinned to the bottom-left corner. */
  predicate AnchoredBottomLeft(b: HighlightBox)
  {
    b.bottom == Rem1_5 && b.left == Rem1_5 && b.top == Auto && b.right == Auto
  }

  /** The highlight box drawn for a step's `highlight` value: none for `null` or the empty
      string; a small box at the top-right for the lamp and the certificate buttons; a large box
      at the bottom-left for the panel controls and the settings card. */
  function Highlight(highlight: Option<string>): (r: Option<HighlightBox>)
    ensures r == None <==> highlight == None || highlight == Some("")
    ensures highlight == Some("lamp") || highlight == Some("certificate") ==>
      r.Some? && AnchoredTopRight(r.value) && r.value.widthPx == 120 && r.value.heightPx == 60
    ensures highlight == Some("controls") || highlight == Some("settings") ==>
      r.Some? && AnchoredBottomLeft(r.value) && r.value.widthPx == 320 && r.value.heightPx == 400
  {
    match highlight
    case None => None
    case Some(h) =>
      if h == "" then None
      else
        var corner := h == "lamp" || h == "certificate";
        var left := if h == "controls" then Rem1_5 else if h == "lamp" then Auto
                    else if h == "certificate" then Auto else Rem1_5;
        var right := if corner then Rem1_5 else Auto;
        var top := if corner then Rem1_5 else Auto;
        var bottom := if h == "controls" || h == "settings" then Rem1_5 else Auto;
        Some(HighlightBox(left, right, top, bottom, if corner then 120 else 320, if corner then 60 else 400))
  }

  /** Over the tour: the welcome step draws no box, the two control steps a box at the
      bottom-left and the lamp and certificate steps a box at the top-right. */
  lemma TourHighlights()
    ensures Highlight(Steps[0].highlight) == None
    ensures forall i :: 1 <= i <= 2 ==> Highlight(Steps[i].highlight).Some? && AnchoredBottomLeft(Highlight(Steps[i].highlight).value)
    ensures forall i :: 3 <= i <= 4 ==> Highlight(Steps[i].highlight).Some? && AnchoredTopRight(Highlight(Steps[i].highlight).value)
  {
    assert Steps[1].highlight == Some("controls") && Steps[2].highlight == Some("settings");
    assert Steps[3].highlight == Some("lamp") && Steps[4].highlight == Some("certificate");
  }

  // ---------------------------------------------------------------------------------------
  // The step machine

  /** The overlay's state: the `currentStep` hook, and how often `onComplete` has been called. */
  class Overlay {
    var currentStep: nat
    var completions: nat

    /** The step index names a step of the tour. */
    ghost predicate Valid()
      reads this`currentStep
    {
      currentStep < |Steps|
    }

    /** The overlay opens on the first step. */
    constructor ()
      ensures Valid() && currentStep == 0 && completions == 0
    {
      currentStep, completions := 0, 0;
    }

    /** The step shown. */
    function CurrentStepData(): (s: TourStep)
      requires Valid()
      reads this`currentStep
      ensures s in Steps
    {
      Steps[currentStep]
    }

    /** Next: moves to the following step, or on the last step completes the tour. */
    method HandleNext()
      requires Valid()
      modifies this`currentStep, this`completions
      ensures Valid()
      ensures old(currentStep) < LastStep ==> currentStep == old(currentStep) + 1 && completions == old(completions)
      ensures old(currentStep) == LastStep ==> currentStep == old(currentStep) && completions == old(completions) + 1
    {
      if currentStep < |Steps| - 1 {
        currentStep := currentStep + 1;
      } else {
        completions := completions + 1;
      }
    }

    /** Back, which is offered only after the first step: moves to the previous step. */
    method HandleBack()
      requires Valid() && currentStep > 0
      modifies this`currentStep
      ensures Valid()
      ensures currentStep == old(currentStep) - 1
    {
      currentStep := currentStep - 1;
    }

    /** Skip, from any step: completes the tour and leaves the step where it is. */
    method HandleSkip()
      modifies this`completions
      ensures completions == old(completions) + 1
    {
      completions := completions + 1;
    }

    /** Back after Next, from any step before the last, returns to that step. */
    method NextThenBack()
      requires Valid() && currentStep < LastStep
      modifies this`currentStep, this`completions
      ensures Valid() && currentStep == old(currentStep) && completions == old(completions)
    {
      HandleNext();
      HandleBack();
    }
  }
}
