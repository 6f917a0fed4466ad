/** The web UI's progress state machine: the workflow state the page is in, the
    outputs it shows, and the sidebar's per-phase status. Each button and each
    finished run is an event, allowed only in the state whose page shows it. */
module App {
  import opened Wrappers

  const Idle: string := "idle"
  const RunningPhase1: string := "running_phase1"
  const AtCheckpoint: string := "checkpoint"
  const RunningPhase2: string := "running_phase2"
  const Complete: string := "complete"

  const Pending: string := "pending"
  const Running: string := "running"
  const Done: string := "complete"

  /** The sidebar icons: paused, hourglass, check mark. */
  const PausedIcon: string := "\U{23F8}\U{FE0F}"
  const HourglassIcon: string := "\U{23F3}"
  const CheckIcon: string := "\U{2705}"

  const StoppedText: string := "Workflow stopped at Phase 1 per user request."

  /** `get_phase_status`: phase 1 is pending only when idle and running only in its
      own run; any other phase number means phase 2, which is pending until it
      starts. Unrecognised states count as complete. */
  function PhaseStatus(state: string, phaseNum: int): (r: (string, string))
    ensures phaseNum == 1 ==>
      && (r.0 == Pending <==> state == Idle)
      && (r.0 == Running <==> state == RunningPhase1)
      && (r.0 == Done <==> state != Idle && state != RunningPhase1)
    ensures phaseNum != 1 ==>
      && (r.0 == Pending <==> state == Idle || state == RunningPhase1 || state == AtCheckpoint)
      && (r.0 == Running <==> state == RunningPhase2)
      && (r.0 == Done <==> state != Idle && state != RunningPhase1 && state != AtCheckpoint && state != RunningPhase2)
    ensures r.1 == (if r.0 == Pending then PausedIcon else if r.0 == Running then HourglassIcon else CheckIcon)
  {
    if phaseNum == 1 then
      if state == Idle then (Pending, PausedIcon)
      else if state == RunningPhase1 then (Running, HourglassIcon)
      else (Done, CheckIcon)
    else
      if state == Idle || state == RunningPhase1 || state == AtCheckpoint then (Pending, PausedIcon)
      else if state == RunningPhase2 then (Running, HourglassIcon)
      else (Done, CheckIcon)
  }

  /** How far a status is along: pending, running, complete. */
  function Rank(status: string): nat {
    if status == Pending then 0 else if status == Running then 1 else 2
  }

  /** The sidebar never shows phase 2 ahead of phase 1, and phase 2 is under way only
      once phase 1 is complete. */
  lemma PhasesInOrder(state: string, phaseNum: int)
    requires phaseNum != 1
    ensures Rank(PhaseStatus(state, phaseNum).0) <= Rank(PhaseStatus(state, 1).0)
    ensures PhaseStatus(state, phaseNum).0 != Pending ==> PhaseStatus(state, 1).0 == Done
  {
  }

  /** The page's fields agree with its state: no Phase 1 output before the
      checkpoint and one from then on, a Phase 2 output once complete, and a stored
      decision while Phase 2 runs. */
  predicate Consistent(state: string, phase1: Option<string>, phase2: Option<string>, decision: Option<string>) {
    && (state == Idle || state == RunningPhase1 || state == AtCheckpoint || state == RunningPhase2 || state == Complete)
    && ((state == Idle || state == RunningPhase1) ==> phase1.None?)
    && ((state == AtCheckpoint || state == RunningPhase2 || state == Complete) ==> phase1.Some?)
    && (state == Complete ==> phase2.Some?)
    && (state == RunningPhase2 ==> decision.Some?)
  }

  /** In a consistent page the sidebar's phase 1 tick means there is a Phase 1 output
      to show, and phase 2's tick a Phase 2 output. */
  lemma SidebarMatchesOutputs(state: string, phase1: Option<string>, phase2: Option<string>, decision: Option<string>)
    requires Consistent(state, phase1, phase2, decision)
    ensures PhaseStatus(state, 1).0 == Done <==> phase1.Some?
    ensures PhaseStatus(state, 2).0 == Done ==> phase2.Some?
  {
  }

  class UiSession {
    var workflowState: string
    var phase1Output: Option<string>
    var phase2Output: Option<string>
    var error: Option<string>
    /** Not set until a Phase 2 choice is made, and not cleared by a reset. */
    var userDecision: Option<string>

    predicate Valid()
      reads this
    {
      Consistent(workflowState, phase1Output, phase2Output, userDecision)
    }

    constructor()
      ensures Valid() && workflowState == Idle
      ensures phase1Output == None && phase2Output == None && error == None && userDecision == None
    {
      workflowState := Idle;
      phase1Output := None;
      phase2Output := None;
      error := None;
      userDecision := None;
    }

    /** The reset button: back to idle with the outputs and the error cleared; the
        stored decision stays. */
    method Reset()
      requires Valid()
      modifies this
      ensures Valid() && workflowState == Idle
      ensures phase1Output == None && phase2Output == None && error == None
      ensures userDecision == old(userDecision)
    {
      workflowState := Idle;
      phase1Output := None;
      phase2Output := None;
      error := None;
    }

    /** The start button on the idle page. */
    method Start()
      requires Valid() && workflowState == Idle
      modifies this
      ensures Valid() && workflowState == RunningPhase1
      ensures phase1Output == old(phase1Output) && phase2Output == old(phase2Output)
      ensures error == old(error) && userDecision == old(userDecision)
    {
      workflowState := RunningPhase1;
    }

    /** The Phase 1 run finishing: its output and the checkpoint, or the error and
        back to idle. */
    method Phase1Done(outcome: Result<string, string>)
      requires Valid() && workflowState == RunningPhase1
      modifies this
      ensures Valid() && phase2Output == old(phase2Output) && userDecision == old(userDecision)
      ensures outcome.Ok? ==>
        workflowState == AtCheckpoint && phase1Output == Some(outcome.value) && error == old(error)
      ensures outcome.Err? ==>
        workflowState == Idle && error == Some(outcome.error) && phase1Output == old(phase1Output)
    {
      match outcome
      case Ok(output) =>
        phase1Output := Some(output);
        workflowState := AtCheckpoint;
      case Err(e) =>
        error := Some(e);
        workflowState := Idle;
    }

    /** The proceed button at the checkpoint. */
    method Proceed()
      requires Valid() && workflowState == AtCheckpoint
      modifies this
      ensures Valid() && workflowState == RunningPhase2 && userDecision == Some("proceed")
      ensures phase1Output == old(phase1Output) && phase2Output == old(phase2Output) && error == old(error)
    {
      userDecision := Some("proceed");
      workflowState := RunningPhase2;
    }

    /** The stop button at the checkpoint: complete, with the fixed stop text as the
        Phase 2 output and no Phase 2 run. */
    method StopHere()
      requires Valid() && workflowState == AtCheckpoint
      modifies this
      ensures Valid() && workflowState == Complete && phase2Output == Some(StoppedText)
      ensures phase1Output == old(phase1Output) && error == old(error) && userDecision == old(userDecision)
    {
      workflowState := Complete;
      phase2Output := Some(StoppedText);
    }

    /** The guidance button, shown only once some guidance is typed: the guidance
        itself becomes the decision. */
    method ProceedWithGuidance(guidance: string)
      requires Valid() && workflowState == AtCheckpoint && guidance != ""
      modifies this
      ensures Valid() && workflowState == RunningPhase2 && userDecision == Some(guidance)
      ensures phase1Output == old(phase1Output) && phase2Output == old(phase2Output) && error == old(error)
    {
      userDecision := Some(guidance);
      workflowState := RunningPhase2;
    }

    /** What Phase 2 is resumed with: the stored decision, "proceed" when there is none. */
    function Phase2Input(): (r: string)
      reads this
      ensures userDecision.Some? ==> r == userDecision.value
      ensures userDecision.None? ==> r == "proceed"
    {
      userDecision.GetOr("proceed")
    }

    /** The Phase 2 run finishing: its output and complete, or the error and back to
        the checkpoint. */
    method Phase2Done(outcome: Result<string, string>)
      requires Valid() && workflowState == RunningPhase2
      modifies this
      ensures Valid() && phase1Output == old(phase1Output) && userDecision == old(userDecision)
      ensures outcome.Ok? ==>
        workflowState == Complete && phase2Output == Some(outcome.value) && error == old(error)
      ensures outcome.Err? ==>
        workflowState == AtCheckpoint && error == Some(outcome.error) && phase2Output == old(phase2Output)
    {
      match outcome
      case Ok(output) =>
        phase2Output := Some(output);
        workflowState := Complete;
      case Err(e) =>
        error := Some(e);
        workflowState := AtCheckpoint;
    }
  }

  /** While Phase 2 runs on a consistent page, it is resumed with the choice made at
      the checkpoint; the "proceed" default is never used. */
  lemma Phase2UsesChoice(state: string, phase1: Option<string>, phase2: Option<string>, decision: Option<string>)
    requires Consistent(state, phase1, phase2, decision) && state == RunningPhase2
    ensures decision.GetOr("proceed") == decision.value
  {
  }

  /** A full run with the proceed button: start, Phase 1, proceed, Phase 2. */
  method ProceedRun(phase1: string, phase2: string) returns (status1: string, status2: string, input: string)
    ensures status1 == Done && status2 == Done && input == "proceed"
  {
    var ui := new UiSession();
    ui.Start();
    ui.Phase1Done(Ok(phase1));
    ui.Proceed();
    input := ui.Phase2Input();
    ui.Phase2Done(Ok(phase2));
    status1 := PhaseStatus(ui.workflowState, 1).0;
    status2 := PhaseStatus(ui.workflowState, 2).0;
  }
}
