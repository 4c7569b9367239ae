// The onboarding tour: a sequence of steps shown one at a time in a popover
// next to a highlighted page element, with Back/Next buttons.

module OnboardingTourView {
  import opened Optional

  /** Space between the target element and the popover. */
  const PopoverOffset: real := 12.0
  /** Padding of the highlight around the target element. */
  const HighlightPadding: real := 8.0

  datatype Placement = Top | Bottom | Left | Right

  datatype TourStep = TourStep(selector: string, title: string, content: string, position: Option<Placement>)

  /**
   * The target's bounding client rectangle. Its bottom and right edges are
   * derived, as they are for a rectangle of non-negative size.
   */
  datatype Rect = Rect(top: real, left: real, width: real, height: real) {
    function Bottom(): real { top + height }
    function Right(): real { left + width }
  }

  /** The highlight's style: not yet computed, hidden, or a fixed box. */
  datatype HighlightStyle = HighlightUnset | HighlightHidden | HighlightBox(top: real, left: real, width: real, height: real)

  /** The popover's style: not yet computed, centred on the screen, or anchored at a point. */
  datatype PopoverStyle = PopoverUnset | PopoverCentered | PopoverAt(top: real, left: real, transform: string)

  /** `step.position || 'bottom'`. */
  function PlacementOf(position: Option<Placement>): Placement {
    if position.Some? then position.value else Bottom
  }

  /** The highlight box: the target grown by the padding on every side. */
  function Grown(rect: Rect): HighlightStyle {
    HighlightBox(rect.top - HighlightPadding, rect.left - HighlightPadding,
                 rect.width + HighlightPadding * 2.0, rect.height + HighlightPadding * 2.0)
  }

  /** The popover anchor for a placement, as the `switch` in `calculatePosition` sets it. */
  function Placed(rect: Rect, position: Option<Placement>): PopoverStyle {
    match PlacementOf(position)
    case Top => PopoverAt(rect.top - PopoverOffset, rect.left + rect.width / 2.0, "translate(-50%, -100%)")
    case Left => PopoverAt(rect.top + rect.height / 2.0, rect.left - PopoverOffset, "translate(-100%, -50%)")
    case Right => PopoverAt(rect.top + rect.height / 2.0, rect.Right() + PopoverOffset, "translate(0, -50%)")
    case Bottom => PopoverAt(rect.Bottom() + PopoverOffset, rect.left + rect.width / 2.0, "translate(-50%, 0)")
  }

  /** Each edge of the highlight lies exactly the padding outside the same edge of the target. */
  lemma HighlightSurrounds(rect: Rect)
    ensures var h := Grown(rect);
      h.HighlightBox? &&
      rect.top - h.top == 8.0 && rect.left - h.left == 8.0 &&
      (h.top + h.height) - rect.Bottom() == 8.0 && (h.left + h.width) - rect.Right() == 8.0
  {
  }

  /** A step without a placement is placed below its target. */
  lemma PlacedDefault(rect: Rect)
    ensures Placed(rect, None) == Placed(rect, Some(Bottom))
  {
  }

  /**
   * The popover's anchor is the offset away from the target's edge on the
   * requested side, and halfway along that edge.
   */
  lemma PlacedBeside(rect: Rect, position: Option<Placement>)
    ensures var p := Placed(rect, position);
      p.PopoverAt? &&
      match PlacementOf(position)
      case Top => rect.top - p.top == 12.0 && p.left - rect.left == rect.Right() - p.left
      case Bottom => p.top - rect.Bottom() == 12.0 && p.left - rect.left == rect.Right() - p.left
      case Left => rect.left - p.left == 12.0 && p.top - rect.top == rect.Bottom() - p.top
      case Right => p.left - rect.Right() == 12.0 && p.top - rect.top == rect.Bottom() - p.top
  {
  }

  /** `handleNext`'s decision: the next step, or `onClose` on the last step (the step is then kept). */
  function Next(current: int, n: nat): (r: (int, bool))
    ensures r.1 <==> current >= n - 1
  {
    if current < n - 1 then (current + 1, false) else (current, true)
  }

  /** `handlePrev`'s decision: the previous step, none before the first. */
  function Prev(current: int): int {
    if current > 0 then current - 1 else current
  }

  /** One press of a tour button. */
  datatype Press = NextPress | BackPress

  /** The step reached from step 0 after the given presses. */
  function Walk(n: nat, presses: seq<Press>): int
    decreases |presses|
  {
    if presses == [] then 0
    else
      var current := Walk(n, presses[..|presses| - 1]);
      match presses[|presses| - 1]
      case NextPress => Next(current, n).0
      case BackPress => Prev(current)
  }

  /** `handleNext` keeps the step within the tour. */
  lemma NextInRange(current: int, n: nat)
    requires 0 <= current < n
    ensures 0 <= Next(current, n).0 < n
    ensures Next(current, n).1 <==> current == n - 1
  {
  }

  /** `handlePrev` keeps the step within the tour. */
  lemma PrevInRange(current: int, n: nat)
    requires 0 <= current < n
    ensures 0 <= Prev(current) < n
    ensures Prev(current) == current <==> current == 0
  {
  }

  /** Starting at step 0 of a non-empty tour, any presses keep the step within the tour. */
  lemma {:induction false} WalkInRange(n: nat, presses: seq<Press>)
    requires n >= 1
    ensures 0 <= Walk(n, presses) < n
    decreases |presses|
  {
    if presses != [] {
      var init := presses[..|presses| - 1];
      WalkInRange(n, init);
      NextInRange(Walk(n, init), n);
      PrevInRange(Walk(n, init), n);
    }
  }

  /** Pressing Next k times from the start reaches step k, for every step of the tour. */
  lemma {:induction false} WalkForward(n: nat, k: nat)
    requires k < n
    ensures Walk(n, seq(k, _ => NextPress)) == k
  {
    if k > 0 {
      var ps := seq(k, _ => NextPress);
      assert ps[..k - 1] == seq(k - 1, _ => NextPress);
      WalkForward(n, k - 1);
    }
  }

  /** What the dialog shows: title, text, the "i / n" counter, the Back button, the main button's label. */
  datatype Dialog = Dialog(title: string, content: string, counter: (int, int), backShown: bool, mainLabel: string)

  /** `isFirstStep`. */
  predicate IsFirstStep(current: int) {
    current == 0
  }

  /** `isLastStep`. */
  predicate IsLastStep(current: int, n: nat) {
    current == n - 1
  }

  /** The rendered tour: nothing when closed or when there is no step at `current`. */
  function Render(steps: seq<TourStep>, current: int, isOpen: bool): (r: Option<Dialog>)
    ensures r.None? <==> !isOpen || !(0 <= current < |steps|)
    ensures r.Some? ==> r.value.title == steps[current].title && r.value.content == steps[current].content
    ensures r.Some? ==> r.value.counter == (current + 1, |steps|)
  {
    if !isOpen || !(0 <= current < |steps|) then None
    else
      var s := steps[current];
      Some(Dialog(s.title, s.content, (current + 1, |steps|), !IsFirstStep(current),
                  if IsLastStep(current, |steps|) then "Finish" else "Next"))
  }

  /** Back is shown exactly off the first step, and "Finish" exactly on the last. */
  lemma RenderButtons(steps: seq<TourStep>, current: int)
    requires 0 <= current < |steps|
    ensures var d := Render(steps, current, true).value;
      (d.backShown <==> current != 0) &&
      (d.mainLabel == "Finish" <==> current == |steps| - 1) &&
      (d.mainLabel == "Next" <==> current < |steps| - 1)
  {
  }

  /** An empty tour renders nothing. */
  lemma RenderEmpty(current: int, isOpen: bool)
    ensures Render([], current, isOpen).None?
  {
  }

  /** Wherever the presses lead, an open non-empty tour still renders a dialog. */
  lemma WalkRenders(steps: seq<TourStep>, presses: seq<Press>)
    requires |steps| >= 1
    ensures Render(steps, Walk(|steps|, presses), true).Some?
  {
    WalkInRange(|steps|, presses);
  }

  /** The tour's state: the current step, the number of `onClose` calls, and the two styles. */
  class Tour {
    const steps: seq<TourStep>
    var currentStep: int
    var closeRequests: nat
    var highlight: HighlightStyle
    var popover: PopoverStyle

    /** The step always indexes the tour, or is 0. */
    predicate Valid()
      reads this
    {
      0 <= currentStep && (currentStep == 0 || currentStep < |steps|)
    }

    constructor(steps: seq<TourStep>)
      ensures this.steps == steps
      ensures currentStep == 0 && closeRequests == 0
      ensures highlight == HighlightUnset && popover == PopoverUnset
      ensures Valid()
    {
      this.steps := steps;
      currentStep := 0;
      closeRequests := 0;
      highlight := HighlightUnset;
      popover := PopoverUnset;
    }

    /** The Next/Finish button. */
    method HandleNext()
      requires Valid()
      modifies this
      ensures Valid()
      ensures currentStep == Next(old(currentStep), |steps|).0
      ensures closeRequests == old(closeRequests) + if Next(old(currentStep), |steps|).1 then 1 else 0
      ensures highlight == old(highlight) && popover == old(popover)
    {
      if currentStep < |steps| - 1 {
        currentStep := currentStep + 1;
      } else {
        closeRequests := closeRequests + 1;
      }
    }

    /** The Back button. */
    method HandlePrev()
      requires Valid()
      modifies this
      ensures Valid()
      ensures currentStep == Prev(old(currentStep))
      ensures closeRequests == old(closeRequests) && highlight == old(highlight) && popover == old(popover)
    {
      if currentStep > 0 {
        currentStep := currentStep - 1;
      }
    }

    /**
     * `calculatePosition`, given the target's rectangle when the step's
     * selector finds an element: nothing changes when the tour is closed or
     * has no current step; without a target the highlight is hidden and the
     * popover centred; otherwise the highlight surrounds the target and the
     * popover is placed beside it.
     */
    method CalculatePosition(isOpen: bool, target: Option<Rect>)
      modifies this
      ensures !isOpen || !(0 <= currentStep < |steps|) ==> highlight == old(highlight) && popover == old(popover)
      ensures isOpen && 0 <= currentStep < |steps| && target.None? ==> highlight == HighlightHidden && popover == PopoverCentered
      ensures isOpen && 0 <= currentStep < |steps| && target.Some? ==>
        highlight == Grown(target.value) && popover == Placed(target.value, steps[currentStep].position)
      ensures currentStep == old(currentStep) && closeRequests == old(closeRequests)
    {
      if !isOpen || !(0 <= currentStep < |steps|) {
        return;
      }
      if target.None? {
        highlight := HighlightHidden;
        popover := PopoverCentered;
        return;
      }
      var rect := target.value;
      highlight := HighlightBox(rect.top - HighlightPadding, rect.left - HighlightPadding,
                                rect.width + HighlightPadding * 2.0, rect.height + HighlightPadding * 2.0);
      var placement := PlacementOf(steps[currentStep].position);
      var top, left, transform;
      match placement {
        case Top =>
          top, left, transform := rect.top - PopoverOffset, rect.left + rect.width / 2.0, "translate(-50%, -100%)";
        case Left =>
          top, left, transform := rect.top + rect.height / 2.0, rect.left - PopoverOffset, "translate(-100%, -50%)";
        case Right =>
          top, left, transform := rect.top + rect.height / 2.0, rect.Right() + PopoverOffset, "translate(0, -50%)";
        case Bottom =>
          top, left, transform := rect.Bottom() + PopoverOffset, rect.left + rect.width / 2.0, "translate(-50%, 0)";
      }
      popover := PopoverAt(top, left, transform);
    }
  }
}
