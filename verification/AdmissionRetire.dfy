/**
 The end of a promoted transaction: live vision jobs are driven to their removal, queued
 retirements are completed one by one, each exactly the one named, and so every retiring
 journal can be finished with the outcome it recorded.
 */
module AdmissionRetire {
  import opened Common
  import opened AdmissionTypes
  import opened AdmissionValidator
  import opened AdmissionContext
  import opened AdmissionCommands
  import opened AdmissionJournal
  import opened AdmissionInvariant
  import opened AdmissionIntents
  import opened AdmissionWriteOnce

  /** Completing a retirement takes out exactly the one with that id. */
  lemma RetirementUpdates(d: Document, i: nat)
    requires d.phase.Retiring? && RetirementsOk(d.retirements) && i < |d.retirements|
    ensures CompleteRetirement(d, d.retirements[i].id)
            == Written(d.(retirements := Without(d.retirements, d.retirements[i])))
    ensures forall r :: r in d.retirements ==>
            (r in Without(d.retirements, d.retirements[i]) <==> r.id != d.retirements[i].id)
  {
    hide Sole;
    hide Without;
    var all, id := d.retirements, d.retirements[i].id;
    assert forall j :: 0 <= j < i ==> DistinctRetirements(all[j], all[i]);
    assert forall j :: i < j < |all| ==> DistinctRetirements(all[i], all[j]);
    SoleIs(all, (r: Retirement) => r.id == id, i);
    assert forall j :: 0 <= j < |all| && all[j].id == id ==> j == i;
  }

  lemma FewerRetirementsOk(retirements: seq<Retirement>, r: Retirement)
    requires RetirementsOk(retirements)
    ensures RetirementsOk(Without(retirements, r))
  {
    var rest := Without(retirements, r);
    forall i | 0 <= i < |rest|
      ensures IdentityOk(rest[i].identity)
    {
      assert rest[i] in retirements;
    }
    forall i, j | 0 <= i < j < |rest|
      ensures DistinctRetirements(rest[i], rest[j])
    {
      var i', j' := WithoutIsSublist(retirements, r, i, j);
      assert DistinctRetirements(retirements[i'], retirements[j']);
    }
  }

  lemma RetirementStep(d: Document)
    requires Inv(d) && d.phase.Retiring? && d.retirements != []
    ensures var c := OfResource(CmdCompleteRetirement(d.retirements[0].id));
            && Update(d, c) == Written(d.(retirements := Without(d.retirements, d.retirements[0])))
            && Valid(d.(retirements := Without(d.retirements, d.retirements[0])))
            && |Without(d.retirements, d.retirements[0])| < |d.retirements|
  {
    hide CompleteRetirement;
    hide Without;
    hide Inv;
    hide Valid;
    hide UpdatePhase;
    hide UpdateOperation;
    hide UpdatePlan;
    hide UpdateVision;
    hide UpdatePipeline;
    InvParts(d);
    InvSecrets(d);
    RetirementUpdates(d, 0);
    FewerRetirementsOk(d.retirements, d.retirements[0]);
    hide RetirementsOk;
    hide VisionJobsOk;
    hide SecretRefsOk;
    RetiringChangeValid(d, d.(retirements := Without(d.retirements, d.retirements[0])));
  }

  lemma InvParts(d: Document)
    requires Inv(d)
    ensures Valid(d) && RetirementsOk(d.retirements) && VisionJobsOk(d.visionJobs)
    ensures d.phase.Retiring? ==> d.operation.None?
  {
    hide RetirementsOk;
    hide VisionJobsOk;
    hide AuthoritiesOk;
    hide PreparedSecretsOk;
  }

  /** No other rule looks at the retirements, the vision jobs or a secret that is gone. */
  lemma RetiringChangeValid(d: Document, n: Document)
    requires Valid(d) && d.operation.None?
    requires n == d.(retirements := n.retirements, visionJobs := n.visionJobs, preparedSecrets := n.preparedSecrets)
    requires RetirementsOk(n.retirements) && VisionJobsOk(n.visionJobs)
    requires SecretRefsOk(n.preparedSecrets) && forall ref :: ref in n.preparedSecrets ==> ref in d.preparedSecrets
    ensures Valid(n)
  {
    hide RetirementsOk;
    hide RegisteredOk;
    hide BaselineOk;
    hide FailedForwardOk;
    hide ForwardOk;
    hide RollbackOk;
    hide VisionJobsOk;
    hide AuthoritiesOk;
    hide AuthorityStatesOk;
    hide PreparedSecretsOk;
    hide SecretRefsOk;
    assert SameContext(d, n);
    AuthoritiesTransfer(d, n);
    PreparedSecretsTransfer(d, n);
    StatesSame(d, n);
  }

  lemma StatesSame(d: Document, n: Document)
    requires SameContext(d, n) && n.authorities == d.authorities && n.phase == d.phase && n.outcome == d.outcome
    ensures AuthorityStatesOk(n) == AuthorityStatesOk(d)
  {
    hide IsRollbackAuthority;
    forall a
      ensures IsRollbackAuthority(n, a) == IsRollbackAuthority(d, a)
    {
      RollbackAuthorityTransfers(d, n, a);
    }
  }

  lemma FinishRetiring(d: Document)
    requires Inv(d) && d.phase.Retiring? && d.retirements == [] && AllJobsRemoved(d.visionJobs)
    ensures var c := OfPhase(CmdTransition(Done, d.retiringOutcome));
            && Update(d, c) == Written(d.(outcome := d.retiringOutcome, phase := Done))
            && Valid(d.(outcome := d.retiringOutcome, phase := Done))
  {
    hide Inv;
    hide Valid;
    RetiringFacts(d);
    InvParts(d);
    FinishRetiringValid(d);
    hide CleanGate;
    hide SuccessGate;
    hide AllJobsRemoved;
  }

  lemma RetiringFacts(d: Document)
    requires Inv(d) && d.phase.Retiring?
    ensures d.operation.None? && CleanGate(d.registered) && d.outcome.None? && d.abort.None?
    ensures d.retiringOutcome.Some? && d.retiringOutcome != Some(Aborted)
    ensures d.promotion == Promotion(true, true, true)
  {
    hide AuthoritiesOk;
    hide AuthorityStatesOk;
    hide PreparedSecretsOk;
    hide CleanGate;
    hide SuccessGate;
    hide AbortAuthoritiesOk;
  }

  lemma FinishRetiringValid(d: Document)
    requires Valid(d) && d.phase.Retiring? && d.operation.None? && d.outcome.None? && d.abort.None?
    requires d.retiringOutcome.Some? && d.retiringOutcome != Some(Aborted)
    ensures Valid(d.(outcome := d.retiringOutcome, phase := Done))
  {
    hide AuthorityStatesOk;
    hide AuthoritiesOk;
    hide PreparedSecretsOk;
    hide RegisteredOk;
    hide BaselineOk;
    hide FailedForwardOk;
    hide ForwardOk;
    hide RollbackOk;
    hide VisionJobsOk;
    hide RetirementsOk;
    hide AllVerified;
    hide RuntimeRedisOk;
    hide TransactionIdOk;
    hide SecretRefsOk;
    var n := d.(outcome := d.retiringOutcome, phase := Done);
    assert SameContext(d, n);
    AuthoritiesTransfer(d, n);
    assert SecretRefsOk(n.preparedSecrets) by { SecretsDistinct(d); }
    PreparedSecretsTransfer(d, n);
    FinishedStates(d, n);
  }

  lemma FinishedStates(d: Document, n: Document)
    requires d.phase.Retiring? && d.outcome.None? && d.retiringOutcome != Some(Aborted) && AuthorityStatesOk(d)
    requires n == d.(outcome := d.retiringOutcome, phase := Done)
    ensures AuthorityStatesOk(n)
  {
    hide IsRollbackAuthority;
    assert SameContext(d, n);
    forall a
      ensures IsRollbackAuthority(n, a) == IsRollbackAuthority(d, a)
    {
      RollbackAuthorityTransfers(d, n, a);
    }
  }

  // ----- live vision jobs -----

  /** The stages the vision jobs still have before them. */
  function StagesLeft(jobs: seq<VisionJob>): nat {
    if jobs == [] then 0 else (3 - VisionRank(jobs[0].state)) + StagesLeft(jobs[1..])
  }

  lemma {:induction false} StagesAfterUpdate(jobs: seq<VisionJob>, i: nat, job: VisionJob)
    requires i < |jobs|
    ensures StagesLeft(jobs[i := job]) + VisionRank(job.state) == StagesLeft(jobs) + VisionRank(jobs[i].state)
  {
    if i == 0 {
      assert jobs[0 := job][1..] == jobs[1..];
    } else {
      assert jobs[i := job][1..] == jobs[1..][i - 1 := job];
      StagesAfterUpdate(jobs[1..], i - 1, job);
    }
  }

  /** The shape of a docker service id. */
  predicate ServiceIdOk(id: string) {
    12 <= |id| <= 64 && forall i :: 0 <= i < |id| ==> IsDigit(id[i]) || 'a' <= id[i] <= 'z'
  }

  const SPARE_IDS: seq<string> := ["aaaaaaaaaaaa", "bbbbbbbbbbbb", "cccccccccccc", "dddddddddddd", "eeeeeeeeeeee"]

  predicate IsFree(jobs: seq<VisionJob>, id: string) {
    forall i :: 0 <= i < |jobs| ==> jobs[i].dockerServiceId != Some(id)
  }

  /** There are four modes, so four jobs at most. */
  lemma NotFiveJobs(jobs: seq<VisionJob>)
    requires VisionJobsOk(jobs)
    ensures |jobs| <= 4
  {
    if |jobs| > 4 {
      assert forall i, j :: 0 <= i < j < 5 ==> DistinctVisionJobs(jobs[i], jobs[j]);
      var a, b, c, d, e := jobs[0].mode, jobs[1].mode, jobs[2].mode, jobs[3].mode, jobs[4].mode;
      assert false;
    }
  }

  lemma {:induction false} OneIsFree(jobs: seq<VisionJob>, ids: set<string>) returns (id: string)
    requires |jobs| < |ids|
    ensures id in ids && IsFree(jobs, id)
    decreases |jobs|
  {
    if jobs == [] {
      assert ids != {};
      id :| id in ids;
    } else {
      var rest := jobs[1..];
      var others := if jobs[0].dockerServiceId.Some? then ids - {jobs[0].dockerServiceId.value} else ids;
      id := OneIsFree(rest, others);
      assert forall i :: 0 < i < |jobs| ==> jobs[i] == rest[i - 1];
    }
  }

  lemma UnusedService(jobs: seq<VisionJob>) returns (id: string)
    requires VisionJobsOk(jobs)
    ensures ServiceIdOk(id) && IsFree(jobs, id)
  {
    NotFiveJobs(jobs);
    hide VisionJobsOk;
    var a, b, c, d, e := SPARE_IDS[0], SPARE_IDS[1], SPARE_IDS[2], SPARE_IDS[3], SPARE_IDS[4];
    assert forall i, j :: 0 <= i < j < 5 ==> SPARE_IDS[i][0] != SPARE_IDS[j][0];
    assert |{a, b, c, d, e}| == 5 by { hide IsFree; hide ServiceIdOk; }
    id := OneIsFree(jobs, {a, b, c, d, e});
  }

  function NextStage(job: VisionJob, id: string): VisionJob {
    match job.state
    case VisionPlanned => job.(state := VisionCreated, dockerServiceId := Some(id))
    case VisionCreated => job.(state := VisionTerminal, exitCode := Some(0))
    case VisionTerminal => job.(state := VisionRemoved)
    case VisionRemoved => job
  }

  function StageCommand(job: VisionJob, id: string): VisionCommand {
    match job.state
    case VisionPlanned => CmdRecordVisionService(job.mode, id)
    case VisionCreated => CmdRecordVisionTerminal(job.mode, 0)
    case _ => CmdCompleteVisionRemoval(job.mode)
  }

  function SecretsAfter(d: Document, job: VisionJob): seq<SecretRef> {
    if job.state.VisionTerminal? then DropSecret(d.preparedSecrets, job.databaseSecret) else d.preparedSecrets
  }

  lemma StageUpdates(d: Document, i: nat, id: string)
    requires VisionJobsOk(d.visionJobs) && i < |d.visionJobs| && !d.visionJobs[i].state.VisionRemoved?
    ensures UpdateVision(d, StageCommand(d.visionJobs[i], id))
            == Written(d.(visionJobs := d.visionJobs[i := NextStage(d.visionJobs[i], id)],
                          preparedSecrets := SecretsAfter(d, d.visionJobs[i])))
  {
    hide Sole;
    hide DropSecret;
    var jobs, mode := d.visionJobs, d.visionJobs[i].mode;
    assert forall j :: 0 <= j < i ==> DistinctVisionJobs(jobs[j], jobs[i]);
    assert forall j :: i < j < |jobs| ==> DistinctVisionJobs(jobs[i], jobs[j]);
    SoleIs(jobs, (j: VisionJob) => j.mode == mode, i);
    assert VisionJobOk(jobs[i]);
  }

  lemma StageJobsOk(jobs: seq<VisionJob>, i: nat, id: string)
    requires VisionJobsOk(jobs) && i < |jobs|
    requires IsFree(jobs, id)
    ensures VisionJobsOk(jobs[i := NextStage(jobs[i], id)])
  {
    var next := jobs[i := NextStage(jobs[i], id)];
    assert VisionJobOk(jobs[i]);
    forall a, b | 0 <= a < b < |next|
      ensures DistinctVisionJobs(next[a], next[b])
    {
      assert DistinctVisionJobs(jobs[a], jobs[b]);
    }
  }

  function Staged(d: Document, i: nat, id: string): Document
    requires i < |d.visionJobs|
  {
    d.(visionJobs := d.visionJobs[i := NextStage(d.visionJobs[i], id)],
       preparedSecrets := SecretsAfter(d, d.visionJobs[i]))
  }

  lemma StageValid(d: Document, i: nat, id: string)
    requires Inv(d) && d.phase.Retiring? && i < |d.visionJobs|
    requires VisionJobsOk(Staged(d, i, id).visionJobs)
    ensures Valid(Staged(d, i, id))
  {
    InvParts(d);
    InvSecrets(d);
    hide Inv;
    hide Valid;
    hide VisionJobsOk;
    hide RetirementsOk;
    var job := d.visionJobs[i];
    if job.databaseSecret.Some? {
      WithoutKeepsDistinct(d.preparedSecrets, job.databaseSecret.value);
    }
    hide SecretRefsOk;
    hide NextStage;
    RetiringChangeValid(d, Staged(d, i, id));
  }

  /** Not about the pipeline, and a service id that is recorded has the shape of one. */
  predicate WellShaped(c: Command) {
    && !c.OfPipeline?
    && (c.OfVision? && c.visionCommand.CmdRecordVisionService? ==> ServiceIdOk(c.visionCommand.serviceId))
  }

  /** A live vision job can be driven one stage on, whatever its state. */
  lemma StageStep(d: Document, i: nat) returns (c: Command)
    requires Inv(d) && d.phase.Retiring? && i < |d.visionJobs| && !d.visionJobs[i].state.VisionRemoved?
    ensures WellShaped(c) && Update(d, c).Written? && Valid(Update(d, c).document)
    ensures var n := Update(d, c).document;
            && n.phase.Retiring? && n.retirements == d.retirements && n.retiringOutcome == d.retiringOutcome
            && StagesLeft(n.visionJobs) < StagesLeft(d.visionJobs)
  {
    hide Inv;
    hide Valid;
    hide UpdateVision;
    hide UpdatePhase;
    hide UpdateOperation;
    hide UpdateResource;
    hide UpdatePlan;
    hide UpdatePipeline;
    InvParts(d);
    var jobs := d.visionJobs;
    var id := UnusedService(jobs);
    hide VisionJobsOk;
    hide RetirementsOk;
    hide StagesLeft;
    StageUpdates(d, i, id);
    StageJobsOk(jobs, i, id);
    StagesAfterUpdate(jobs, i, NextStage(jobs[i], id));
    StageValid(d, i, id);
    hide SecretsAfter;
    c := OfVision(StageCommand(jobs[i], id));
    assert WellShaped(c);
    hide StageCommand;
  }

  // ----- the end -----

  /**
   Every retiring journal can be finished with the outcome it recorded: a submission for each
   stage and retirement left and one more.
   */
  lemma {:induction false} RetiringCanFinish(j: Journal) returns (submissions: seq<Submission>)
    requires Inv(j.document) && j.document.phase.Retiring?
    ensures var n := Run(j, submissions).document;
            n.phase.Done? && n.outcome == j.document.retiringOutcome && n.retirements == []
    ensures |submissions| <= StagesLeft(j.document.visionJobs) + |j.document.retirements| + 1
    ensures forall i :: 0 <= i < |submissions| ==> WellShaped(submissions[i].command)
    decreases StagesLeft(j.document.visionJobs) + |j.document.retirements|
  {
    hide Inv;
    hide Valid;
    hide Update;
    hide StagesLeft;
    var d := j.document;
    if i :| 0 <= i < |d.visionJobs| && !d.visionJobs[i].state.VisionRemoved? {
      var c := StageStep(d, i);
      submissions := ThenFinish(j, Submission(j.revision, c));
    } else if d.retirements != [] {
      RetirementStep(d);
      submissions := ThenFinish(j, Submission(j.revision, OfResource(CmdCompleteRetirement(d.retirements[0].id))));
    } else {
      FinishRetiring(d);
      submissions := [Submission(j.revision, OfPhase(CmdTransition(Done, d.retiringOutcome)))];
      assert submissions[1..] == [];
    }
  }

  /** A step that keeps retiring and leaves less to do, then the rest. */
  lemma {:induction false} ThenFinish(j: Journal, s: Submission) returns (submissions: seq<Submission>)
    requires Inv(j.document) && s.revision == j.revision && WellShaped(s.command)
    requires Update(j.document, s.command).Written? && Valid(Update(j.document, s.command).document)
    requires var d, n := j.document, Update(j.document, s.command).document;
             && n.phase.Retiring? && n.retiringOutcome == d.retiringOutcome
             && StagesLeft(n.visionJobs) + |n.retirements| < StagesLeft(d.visionJobs) + |d.retirements|
    ensures var n := Run(j, submissions).document;
            n.phase.Done? && n.outcome == j.document.retiringOutcome && n.retirements == []
    ensures |submissions| <= StagesLeft(j.document.visionJobs) + |j.document.retirements| + 1
    ensures forall i :: 0 <= i < |submissions| ==> WellShaped(submissions[i].command)
    decreases StagesLeft(j.document.visionJobs) + |j.document.retirements|, 0
  {
    hide Inv;
    hide Valid;
    hide Update;
    hide StagesLeft;
    hide WellShaped;
    AfterKeeps(j, s);
    var rest := RetiringCanFinish(After(j, s));
    submissions := [s] + rest;
    assert submissions[1..] == rest;
  }
}
