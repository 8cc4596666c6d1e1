/**
 From a verified plan on, forward or back, nothing can stop a transaction: every promotion
 is accepted, announced or not, and the journal ends with the outcome of its direction.
 */
module AdmissionFinish {
  import opened Common
  import opened AdmissionTypes
  import opened AdmissionValidator
  import opened AdmissionCommands
  import opened AdmissionJournal
  import opened AdmissionInvariant
  import opened AdmissionIntents
  import opened AdmissionPhases
  import opened AdmissionRetire
  import opened AdmissionSteps

  /** The promotion due in a phase. */
  function Due(phase: Phase): Option<OperationKind> {
    match phase
    case ForwardVerified => Some(PromoteWorkers)
    case WorkersPromoted => Some(PromoteMarker)
    case MarkerPromoted => Some(PromoteControl)
    case RollbackVerified => Some(PromoteRollbackWorkers)
    case RollbackWorkersPromoted => Some(PromoteRollbackMarker)
    case RollbackMarkerPromoted => Some(PromoteRollbackControl)
    case _ => None
  }

  function PromotionsLeft(phase: Phase): nat {
    match phase
    case ForwardVerified => 3
    case RollbackVerified => 3
    case WorkersPromoted => 2
    case RollbackWorkersPromoted => 2
    case MarkerPromoted => 1
    case RollbackMarkerPromoted => 1
    case _ => 0
  }

  predicate AllPromoted(phase: Phase) {
    phase.ControlPromoted? || phase.RollbackControlPromoted?
  }

  lemma TakesKeeps(d: Document, c: Command, n: Document)
    requires Inv(d) && Takes(d, c, n)
    ensures Inv(n)
  {
    hide Inv;
    hide Update;
    hide Valid;
    UpdateKeeps(d, c);
  }

  lemma {:induction false} PlayedInv(d: Document, commands: seq<Command>)
    requires Inv(d) && Played(d, commands).Some?
    ensures Inv(Played(d, commands).value)
    decreases |commands|
  {
    hide Inv;
    hide Update;
    hide Valid;
    if commands != [] {
      UpdateKeeps(d, commands[0]);
      PlayedInv(Update(d, commands[0]).document, commands[1..]);
    }
  }

  /** A promotion is due, pending or not, and is accepted. */
  lemma PromotesNext(d: Document) returns (c: Command)
    requires Inv(d) && Due(d.phase).Some?
    ensures Takes(d, c, Promoted(d, IntentTarget(Due(d.phase).value))) && c.OfPhase?
  {
    hide Inv;
    hide Valid;
    hide SuccessGate;
    hide SetPhase;
    var kind := Due(d.phase).value;
    InvFacts(d);
    PromotionValid(d, kind);
    if d.operation.Some? {
      c := Completion(d.operation.value);
      PromotionCompletes(d);
    } else {
      c := OfPhase(CmdTransition(IntentTarget(kind), None));
      PromotionSetsPhase(d, kind);
    }
  }

  lemma {:induction false} PromotesAll(d: Document) returns (commands: seq<Command>, n: Document)
    requires Inv(d) && (Due(d.phase).Some? || AllPromoted(d.phase))
    ensures Inv(n) && Played(d, commands) == Some(n) && AllPromoted(n.phase)
    ensures n == d.(phase := n.phase, promotion := n.promotion, operation := n.operation)
    ensures n.phase.ControlPromoted? <==> d.phase in FORWARD_MILESTONES
    ensures |commands| == PromotionsLeft(d.phase) && forall i :: 0 <= i < |commands| ==> commands[i].OfPhase?
    decreases PromotionsLeft(d.phase)
  {
    hide Inv;
    hide Valid;
    hide Update;
    if AllPromoted(d.phase) {
      commands, n := [], d;
    } else {
      var c := PromotesNext(d);
      var m := Promoted(d, IntentTarget(Due(d.phase).value));
      TakesKeeps(d, c, m);
      var rest;
      rest, n := PromotesAll(m);
      commands := [c] + rest;
      assert commands[1..] == rest;
    }
  }

  /** The outcome each direction ends with when none is named. */
  function OutcomeOf(phase: Phase): Outcome {
    if phase in FORWARD_MILESTONES then Succeeded else RolledBack
  }

  lemma Retires(d: Document) returns (n: Document)
    requires Inv(d) && AllPromoted(d.phase)
    ensures n == d.(retiringOutcome := Some(OutcomeOf(d.phase)), phase := Retiring)
    ensures Takes(d, OfPhase(CmdTransition(Retiring, None)), n)
  {
    hide Inv;
    hide Valid;
    hide SetPhase;
    hide AllVerified;
    InvFacts(d);
    if d.phase.ControlPromoted? {
      RollbackFromSuccess(d);
    } else {
      SuccessFromRollback(d);
    }
    n := d.(retiringOutcome := Some(OutcomeOf(d.phase)), phase := Retiring);
  }

  /**
   Every journal from a verified plan on can be finished: a forward with success, a rollback
   as rolled back.
   */
  lemma VerifiedCanFinish(j: Journal) returns (submissions: seq<Submission>)
    requires Inv(j.document) && (Due(j.document.phase).Some? || AllPromoted(j.document.phase))
    ensures var n := Run(j, submissions).document;
            n.phase.Done? && n.outcome == Some(OutcomeOf(j.document.phase)) && n.retirements == []
    ensures forall i :: 0 <= i < |submissions| ==> WellShaped(submissions[i].command)
  {
    hide Inv;
    hide Valid;
    hide Update;
    hide Played;
    var d := j.document;
    var commands, m := PromotesAll(d);
    var retire := OfPhase(CmdTransition(Retiring, None));
    var n := Retires(m);
    PlayedMore(d, commands, m, retire, n);
    TakesKeeps(m, retire, n);
    var first := Submissions(j.revision, commands + [retire]);
    PlayedRuns(j, commands + [retire]);
    hide Run;
    var last := RetiringCanFinish(Run(j, first));
    RunThen(j, first, last);
    submissions := first + last;
  }
}
