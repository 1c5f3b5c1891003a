/**
 * The "How to Link WhatsApp" sheet (apps/aira-web/components/whatsapp/how-to-link-dialog.tsx):
 * three instruction steps walked through with Next and Back buttons, a click on the card,
 * a horizontal swipe or a click on a progress dot. Next on the last step asks the parent to
 * close the sheet and schedules a reset to the first step.
 *
 * The closing request to the parent (`onOpenChange(false)`) is the value `HandleNext`
 * returns. The reset timer is a count of scheduled resets that fire one at a time.
 */
module HowToLinkDialog {
  import opened Strings

  datatype Step = Step(title: string, description: string)

  /** The three steps, in order. */
  const Steps: seq<Step> := [
    Step("Open WhatsApp Settings", "Go to Settings > Linked Devices on your phone"),
    Step("Tap \"Link a Device\"", "Select the option to link a new device"),
    Step("Use Phone Number", "Choose \"Link with phone number instead\" and enter the code")
  ]

  const LastStep := |Steps| - 1

  /** How far a drag must travel horizontally, in pixels, to count as a swipe. */
  const SwipeThreshold: real := 50.0

  // ---------------------------------------------------------------------------
  // Transitions on the step index

  /** What `handleNext` does at a step: move on, or close the sheet. */
  datatype NextEffect = MoveTo(step: nat) | CloseAndReset

  /** `handleNext` at `step`: the following step while there is one; on the last step, closing. */
  function NextStep(step: nat): (e: NextEffect)
    requires step < |Steps|
    ensures e.MoveTo? <==> step < LastStep
    ensures e.MoveTo? ==> e.step == step + 1 && e.step < |Steps|
  {
    if step < |Steps| - 1 then MoveTo(step + 1) else CloseAndReset
  }

  /** `handlePrev` at `step`: the step before, or the same step on the first one. */
  function PrevStep(step: nat): (r: nat)
    requires step < |Steps|
    ensures r < |Steps|
    ensures step > 0 ==> r == step - 1
    ensures step == 0 ==> r == step
  {
    if step > 0 then step - 1 else step
  }

  /** Next then Back returns to the step one started from, on every step that is not the last. */
  lemma NextThenPrev(step: nat)
    requires step < LastStep
    ensures NextStep(step).MoveTo? && PrevStep(NextStep(step).step) == step
  {
  }

  /** Back then Next returns to the step one started from, on every step that is not the first. */
  lemma PrevThenNext(step: nat)
    requires 0 < step < |Steps|
    ensures NextStep(PrevStep(step)) == MoveTo(step)
  {
  }

  /** From any step, pressing Next `LastStep - step` times reaches the last step, and once more closes. */
  function NextPresses(step: nat, n: nat): (r: NextEffect)
    requires step < |Steps|
    ensures step + n < LastStep ==> r == MoveTo(step + n + 1)
    ensures step + n >= LastStep ==> r == CloseAndReset
    decreases n
  {
    match NextStep(step)
    case CloseAndReset => CloseAndReset
    case MoveTo(s) => if n == 0 then MoveTo(s) else NextPresses(s, n - 1)
  }

  /** What a drag that ends with a horizontal offset does. */
  datatype Swipe = SwipeNext | SwipePrev | NoSwipe

  /** `onDragEnd`: left past the threshold is Next, right past it is Back, anything else nothing. */
  function SwipeOf(offsetX: real): (w: Swipe)
    ensures w == SwipeNext <==> offsetX < -SwipeThreshold
    ensures w == SwipePrev <==> offsetX > SwipeThreshold
    ensures w == NoSwipe <==> -SwipeThreshold <= offsetX <= SwipeThreshold
  {
    if offsetX < -SwipeThreshold then SwipeNext
    else if offsetX > SwipeThreshold then SwipePrev
    else NoSwipe
  }

  // ---------------------------------------------------------------------------
  // The view

  datatype DialogView = DialogView(
    caption: string,
    title: string,
    description: string,
    activeDots: seq<bool>,
    backDisabled: bool,
    primaryLabel: string)

  /** The rendered sheet at a step. */
  function ViewAt(step: nat): (v: DialogView)
    requires step < |Steps|
    ensures v.caption == "Step " + [DigitChar(step + 1)] + " of 3"
    ensures v.title == Steps[step].title && v.description == Steps[step].description
    ensures |v.activeDots| == |Steps|
    ensures forall i :: 0 <= i < |v.activeDots| ==> (v.activeDots[i] <==> i == step)
    ensures v.backDisabled <==> step == 0
    ensures v.primaryLabel == (if step == LastStep then "Finish" else "Next")
  {
    NatToStringLength(step + 1);
    NatToStringLength(|Steps|);
    DialogView(
      "Step " + NatToString(step + 1) + " of " + NatToString(|Steps|),
      Steps[step].title,
      Steps[step].description,
      seq(|Steps|, i => i == step),
      step == 0,
      if step == |Steps| - 1 then "Finish" else "Next")
  }

  /** The back button is disabled exactly where pressing it would change nothing. */
  lemma BackDisabledWhereIdle(step: nat)
    requires step < |Steps|
    ensures ViewAt(step).backDisabled <==> PrevStep(step) == step
  {
  }

  // ---------------------------------------------------------------------------
  // The component's state

  class Dialog {
    /** `currentStep`. */
    var currentStep: nat
    /** Resets scheduled by `setTimeout` and not yet run. */
    var pendingResets: nat

    ghost predicate Valid()
      reads this
    {
      currentStep < |Steps|
    }

    /** Mounting: the first step, nothing scheduled. */
    constructor ()
      ensures Valid() && currentStep == 0 && pendingResets == 0
    {
      currentStep := 0;
      pendingResets := 0;
    }

    /** `handleNext`, from the Next button or a click on the card; answers whether it asked to close. */
    method HandleNext() returns (closeRequested: bool)
      requires Valid()
      modifies this
      ensures Valid()
      ensures closeRequested <==> old(currentStep) == LastStep
      ensures !closeRequested ==> currentStep == old(currentStep) + 1 && pendingResets == old(pendingResets)
      ensures closeRequested ==> currentStep == old(currentStep) && pendingResets == old(pendingResets) + 1
      ensures NextStep(old(currentStep)) == if closeRequested then CloseAndReset else MoveTo(currentStep)
    {
      if currentStep < |Steps| - 1 {
        currentStep := currentStep + 1;
        closeRequested := false;
      } else {
        closeRequested := true;
        pendingResets := pendingResets + 1;
      }
    }

    /** `handlePrev`, from the Back button. */
    method HandlePrev()
      requires Valid()
      modifies this
      ensures Valid()
      ensures currentStep == PrevStep(old(currentStep)) && pendingResets == old(pendingResets)
    {
      if currentStep > 0 {
        currentStep := currentStep - 1;
      }
    }

    /** `onDragEnd` with the drag's horizontal offset. */
    method OnDragEnd(offsetX: real) returns (closeRequested: bool)
      requires Valid()
      modifies this
      ensures Valid()
      ensures SwipeOf(offsetX) == SwipeNext ==> NextStep(old(currentStep)) == if closeRequested then CloseAndReset else MoveTo(currentStep)
      ensures SwipeOf(offsetX) == SwipePrev ==> currentStep == PrevStep(old(currentStep)) && !closeRequested
      ensures SwipeOf(offsetX) == NoSwipe ==> currentStep == old(currentStep) && !closeRequested
      ensures SwipeOf(offsetX) != SwipeNext ==> pendingResets == old(pendingResets)
      ensures closeRequested ==> SwipeOf(offsetX) == SwipeNext && old(currentStep) == LastStep
      ensures closeRequested ==> currentStep == old(currentStep) && pendingResets == old(pendingResets) + 1
      ensures !closeRequested ==> pendingResets == old(pendingResets)
    {
      closeRequested := false;
      if offsetX < -SwipeThreshold {
        closeRequested := HandleNext();
      } else if offsetX > SwipeThreshold {
        HandlePrev();
      }
    }

    /** A click on progress dot `index`: that step, without the card's click handler running. */
    method SelectDot(index: nat)
      requires Valid() && index < |Steps|
      modifies this
      ensures Valid() && currentStep == index && pendingResets == old(pendingResets)
    {
      currentStep := index;
    }

    /** A scheduled reset runs, 300 ms after the close that scheduled it: back to the first step. */
    method FireReset()
      requires Valid() && pendingResets > 0
      modifies this
      ensures Valid() && currentStep == 0 && pendingResets == old(pendingResets) - 1
    {
      currentStep := 0;
      pendingResets := pendingResets - 1;
    }
  }
}
