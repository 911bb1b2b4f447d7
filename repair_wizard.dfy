/** The augmented-reality repair overlay (components/ARRepairMode.tsx): a
    four-step script whose index `step` is advanced by the action button, a
    scan timer the step-0 branch of the action handler would schedule, and a
    close button.

    As coded, the action button is disabled at step 0 and nothing else
    schedules the scan timer, so the overlay never leaves step 0 except by
    being closed (`StuckAtScan`). The evidently intended flow, with the scan
    scheduled when the overlay opens, runs through all four steps
    (`ScheduledScanCompletes`). */
module RepairWizard {

  /** One entry of the script (ARRepairMode.tsx:11-32). `delay` is never read. */
  datatype StepInfo = StepInfo(text: string, action: string, delay: nat)

  const Steps: seq<StepInfo> := [
    StepInfo("Scan the pipe assembly under the sink.", "Scanning...", 2000),
    StepInfo("Issue Detected: P-Trap compression nut loose.", "Tap to fix", 0),
    StepInfo("Use a channel-lock plier. Rotate clockwise 1/4 turn.", "Simulate Turn", 0),
    StepInfo("Leak resolved! Great job.", "Finish", 0)
  ]

  /** The overlay's state: the step index, whether the 2-second scan timer is
      scheduled, and whether `onClose` has been called (the overlay is then
      unmounted). */
  datatype Wizard = Wizard(step: int, pendingScan: bool, closed: bool)

  /** The state the overlay mounts with (ARRepairMode.tsx:9). */
  const Mounted: Wizard := Wizard(0, false, false)

  /** What can happen to the overlay. */
  datatype Input = Press | ScanTimer | CloseButton

  /** Every reachable state has a valid index into the script, and a
      scheduled scan only at step 0. */
  predicate Valid(w: Wizard) {
    0 <= w.step < |Steps| && (w.pendingScan ==> w.step == 0)
  }

  /** The action button's `disabled` attribute (ARRepairMode.tsx:106). */
  predicate ActionDisabled(w: Wizard) {
    w.step == 0
  }

  /** `handleAction` (ARRepairMode.tsx:34-45). */
  function HandleAction(w: Wizard): Wizard
    requires Valid(w)
  {
    if w.step < |Steps| - 1 then
      if w.step == 0 then w.(pendingScan := true) else w.(step := w.step + 1)
    else
      w.(closed := true)
  }

  /** One input. Once closed the overlay is unmounted and nothing changes it. */
  function Next(w: Wizard, e: Input): Wizard
    requires Valid(w)
  {
    if w.closed then w
    else
      match e
      case Press => if ActionDisabled(w) then w else HandleAction(w)
      case ScanTimer => if w.pendingScan then w.(step := w.step + 1, pendingScan := false) else w
      case CloseButton => w.(closed := true)
  }

  function RunInputs(w: Wizard, es: seq<Input>): Wizard
    requires Valid(w)
    decreases |es|
  {
    if es == [] then w
    else
      NextPreservesValid(w, es[0]);
      RunInputs(Next(w, es[0]), es[1..])
  }

  lemma NextPreservesValid(w: Wizard, e: Input)
    requires Valid(w)
    ensures Valid(Next(w, e))
  {
  }

  /** The action at steps 1 and 2 raises the step by exactly one. */
  lemma ActionAdvances(w: Wizard)
    requires Valid(w) && !w.closed && 1 <= w.step <= 2
    ensures Next(w, Press) == w.(step := w.step + 1)
  {
  }

  /** The action at the last step calls `onClose` and leaves the step alone. */
  lemma ActionAtLastStepCloses(w: Wizard)
    requires Valid(w) && !w.closed && w.step == |Steps| - 1
    ensures Next(w, Press).closed && Next(w, Press).step == w.step
  {
  }

  /** At step 0 a press does nothing, although `handleAction` there would
      only have scheduled the scan, not advanced. */
  lemma PressAtScanIgnored(w: Wizard)
    requires Valid(w) && w.step == 0
    ensures Next(w, Press) == w
    ensures HandleAction(w) == w.(pendingScan := true)
  {
  }

  /** The close button closes the overlay from any step, leaving the step alone. */
  lemma CloseFromAnyStep(w: Wizard)
    requires Valid(w)
    ensures Next(w, CloseButton).closed && Next(w, CloseButton).step == w.step
  {
  }

  /** Over any inputs the step stays a valid index and never decreases, and
      rises by at most one per input. */
  lemma {:induction false} StepMonotone(w: Wizard, es: seq<Input>)
    requires Valid(w)
    ensures Valid(RunInputs(w, es))
    ensures w.step <= RunInputs(w, es).step <= w.step + |es|
    decreases |es|
  {
    if es != [] {
      NextPreservesValid(w, es[0]);
      StepMonotone(Next(w, es[0]), es[1..]);
    }
  }

  /** As written: from the mounted state, no sequence of inputs moves the
      overlay past step 0. */
  lemma {:induction false} StuckAtScan(w: Wizard, es: seq<Input>)
    requires w.step == 0 && !w.pendingScan
    ensures RunInputs(w, es).step == 0
    decreases |es|
  {
    if es != [] {
      StuckAtScan(Next(w, es[0]), es[1..]);
    }
  }

  /** The concrete run that shows it: waiting for the scan and then pressing
      three times leaves the overlay open at step 0. */
  lemma StuckAtScanExample()
    ensures RunInputs(Mounted, [ScanTimer, Press, Press, Press]) == Mounted
  {
    StuckAtScan(Mounted, [ScanTimer, Press, Press, Press]);
  }

  /** The evidently intended mount: the scan is scheduled as the overlay opens. */
  const MountedWithScan: Wizard := Wizard(0, true, false)

  /** With the scan scheduled, the timer and three presses walk the overlay
      through every step to the end, and it closes at step 3. */
  lemma ScheduledScanCompletes()
    ensures Valid(MountedWithScan)
    ensures RunInputs(MountedWithScan, [ScanTimer]).step == 1
    ensures RunInputs(MountedWithScan, [ScanTimer, Press]).step == 2
    ensures RunInputs(MountedWithScan, [ScanTimer, Press, Press]).step == 3
    ensures RunInputs(MountedWithScan, [ScanTimer, Press, Press, Press]) == Wizard(3, false, true)
  {
  }

  /** What the overlay shows (ARRepairMode.tsx:78, 94-95, 98-113). */
  datatype Screen = Screen(
    heading: string,
    text: string,
    actionLabel: string,
    tightenHere: bool,
    completionIcon: bool,
    actionEnabled: bool)

  function Render(w: Wizard): Screen
    requires Valid(w)
  {
    var info := Steps[w.step];
    Screen(
      if w.step == 0 then "Analyzing Plumbing..." else "AI Assistant",
      info.text,
      info.action,
      w.step >= 2,
      w.step == |Steps| - 1,
      !ActionDisabled(w))
  }

  /** The "Tighten Here" arrow shows from step 2 on, the completion icon only
      at the last step, the scanning heading and the disabled button only at
      step 0, and the text and label come from the current script entry. */
  lemma RenderShows(w: Wizard)
    requires Valid(w)
    ensures Render(w).tightenHere <==> w.step >= 2
    ensures Render(w).completionIcon <==> w.step == 3
    ensures Render(w).heading == "Analyzing Plumbing..." <==> w.step == 0
    ensures Render(w).actionEnabled <==> w.step != 0
    ensures Render(w).text == Steps[w.step].text && Render(w).actionLabel == Steps[w.step].action
  {
  }

  /** The overlay as a component whose `step` state is updated in place. */
  class ARRepairMode {
    var step: int
    var pendingScan: bool
    var closed: bool

    function State(): Wizard
      reads this
    {
      Wizard(step, pendingScan, closed)
    }

    constructor ()
      ensures State() == Mounted
    {
      step, pendingScan, closed := 0, false, false;
    }

    /** A click on the action button. */
    method Action()
      requires Valid(State())
      modifies this
      ensures Valid(State())
      ensures State() == Next(old(State()), Press)
    {
      if closed || step == 0 {
        return;
      }
      if step < |Steps| - 1 {
        step := step + 1;
      } else {
        closed := true;
      }
    }

    /** The 2-second scan timer firing: the functional update `s => s + 1`. */
    method ScanTimerFires()
      requires Valid(State())
      modifies this
      ensures Valid(State())
      ensures State() == Next(old(State()), ScanTimer)
    {
      if !closed && pendingScan {
        step := step + 1;
        pendingScan := false;
      }
    }

    /** The close button: `onClose` from any step. */
    method Close()
      requires Valid(State())
      modifies this
      ensures Valid(State())
      ensures State() == Next(old(State()), CloseButton)
    {
      if !closed {
        closed := true;
      }
    }
  }
}
