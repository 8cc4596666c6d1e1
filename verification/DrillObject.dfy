/**
 The drill helper as an object over a directory object. A call sets the phase to failed
 before it does anything else, so that an interrupted call leaves a failed helper.
 `live` and the entries of `checks` stand for the deadline, cancellation and remote checks.
 */
module DrillObject {
  import opened Common
  import opened DrillRecords
  import opened DrillHelpers
  import opened DrillSafety
  import opened DrillWorlds

  class Directory {
    var files: map<FileName, Slot>

    constructor ()
      ensures files == map[]
    {
      files := map[];
    }
  }

  /** One clock reading for each record. */
  datatype Clock = Clock(utc: int, mono: int)

  lemma Operates(h: Helper)
    requires HelperOk(h) && h.active.Some?
    ensures h.operation.Some?
  {
    hide FileOk;
  }

  lemma StageIgnoresActivity(h: Helper, w: Write, clock: Clock)
    requires h.operation.Some?
    ensures StageEntry(h.(active := None), w, clock.utc, clock.mono) == StageEntry(h, w, clock.utc, clock.mono)
  {
  }

  /** One whole write, by a helper whose directory holds exactly its own files. */
  lemma WriteKeeps(h: Helper, id: HelperId, directory: map<FileName, Slot>, clock: Clock)
    requires HelperOk(h) && Owns(directory, id, h) && DirectoryIs(directory, h.records)
    requires h.active.Some? && h.active.value.staged.None? && h.active.value.remaining != [] && h.operation.Some?
    ensures var a := h.active.value;
            var e := StageEntry(h, a.remaining[0], clock.utc, clock.mono);
            var n := WithActive(h.(records := h.records + [e]),
                                Activity(a.remaining[1..], None, false, false, a.target));
            && e.name !in directory
            && HelperOk(n) && Owns(directory[e.name := Slot(Some(id), Some(e.file))], id, n)
  {
    hide FileOk;
    hide DataOk;
    hide CountsOk;
    hide StageEntry;
    var a := h.active.value;
    var e := StageEntry(h, a.remaining[0], clock.utc, clock.mono);
    var staged := WithActive(h, a.(staged := Some(e), checked := false, created := false));
    StageKeeps(h, clock.utc, clock.mono);
    KeepKeeps(staged);
    forall i | 0 <= i < |h.records|
      ensures h.records[i].name != e.name
    {
      StagedIsNew(staged, i);
    }
  }

  class AckDrill {
    const id: HelperId
    const identity: Identity
    const nonce: string
    const directory: Directory
    var phase: Phase
    var records: seq<Entry>
    var operation: Option<Uuid>
    var manager: Option<Uuid>
    var video: Option<string>
    var receiptSha: string
    var aborts: nat
    var recoveries: nat

    /** This helper as a value, between calls. */
    ghost function Idle(): Helper
      reads this
    {
      Helper(identity, nonce, phase, records, operation, manager, video, receiptSha, None, aborts, recoveries)
    }

    /** This helper as a value, inside a call that is to end in `target`. */
    ghost function Busy(target: Phase): Helper
      reads this
      requires |records| <= Written(target) <= 13
    {
      Working(Idle(), SCRIPT[|records|..Written(target)], target)
    }

    ghost predicate Valid()
      reads this, directory
    {
      HelperOk(Idle()) && Owns(directory.files, id, Idle())
    }

    ghost predicate Underway(target: Phase)
      reads this, directory
    {
      phase.Failed? && |records| <= Written(target) <= 13 && HelperOk(Busy(target))
          && Owns(directory.files, id, Busy(target))
    }

    constructor (id: HelperId, identity: Identity, nonce: string, directory: Directory)
      requires TargetOk(identity) && NonceOk(nonce)
      ensures this.directory == directory && this.id == id
      ensures Valid() && phase == New && records == []
    {
      this.id, this.identity, this.nonce, this.directory := id, identity, nonce, directory;
      phase, records, operation, manager, video, receiptSha := New, [], None, None, None, "";
      aborts, recoveries := 0, 0;
    }

    /** Checks the whole directory, creates the next file exclusively and fills it. */
    method WriteNext(w: Write, clock: Clock, ghost target: Phase) returns (ok: bool)
      requires Underway(target) && |records| < Written(target) && w == SCRIPT[|records|]
      modifies this`records, directory
      ensures Underway(target)
      ensures ok <==> DirectoryIs(old(directory.files), old(records))
      ensures ok ==> |records| == |old(records)| + 1 && records[..|old(records)|] == old(records)
      ensures ok ==> DirectoryIs(directory.files, records)
      ensures !ok ==> records == old(records) && directory.files == old(directory.files)
    {
      hide HelperOk;
      hide Owns;
      hide StageEntry;
      hide DirectoryIs;
      ghost var before := Busy(target);
      Operates(before);
      var entry := Staged(w, clock);
      assert entry == StageEntry(before, w, clock.utc, clock.mono) by { StageIgnoresActivity(before, w, clock); }
      if !DirectoryIs(directory.files, records) { return false; }
      WriteKeeps(before, id, directory.files, clock);
      FilledDirectory(directory.files, records, entry, id);
      directory.files := directory.files[entry.name := Slot(Some(id), Some(entry.file))];
      records := records + [entry];
      assert before.active.value.remaining[1..] == SCRIPT[|records|..Written(target)];
      return true;
    }

    function Staged(w: Write, clock: Clock): Entry
      reads this
      requires operation.Some?
    {
      StageEntry(Helper(identity, nonce, phase, records, operation, manager, video, receiptSha, None, aborts,
                        recoveries),
                 w, clock.utc, clock.mono)
    }

    /** The writes of one call in order, each after its checks. */
    method WriteAll(writes: seq<Write>, clocks: seq<Clock>, checks: seq<bool>, ghost target: Phase) returns (ok: bool)
      requires Underway(target) && |records| + |writes| == Written(target)
      requires forall i :: 0 <= i < |writes| ==> writes[i] == SCRIPT[|records| + i]
      requires |clocks| == |writes| == |checks|
      modifies this`records, directory
      ensures Underway(target) && old(records) <= records
      ensures ok ==> |records| == Written(target)
      ensures writes != [] ==>
                (ok <==> DirectoryIs(old(directory.files), old(records)) && forall i :: 0 <= i < |checks| ==> checks[i])
    {
      hide HelperOk;
      hide Owns;
      hide DirectoryIs;
      hide Working;
      for i := 0 to |writes|
        invariant Underway(target)
        invariant |records| == |old(records)| + i && old(records) <= records
        invariant forall k :: 0 <= k < i ==> checks[k]
        invariant i == 0 ==> directory.files == old(directory.files) && records == old(records)
        invariant i > 0 ==> DirectoryIs(old(directory.files), old(records)) && DirectoryIs(directory.files, records)
      {
        if !checks[i] { return false; }
        var written := WriteNext(writes[i], clocks[i], target);
        if !written { return false; }
      }
      return true;
    }

    /** The whole call: it takes its phase only at the end. */
    method Perform(writes: seq<Write>, clocks: seq<Clock>, checks: seq<bool>, last: bool, target: Phase)
      returns (ok: bool)
      requires Underway(target) && |records| + |writes| == Written(target)
      requires forall i :: 0 <= i < |writes| ==> writes[i] == SCRIPT[|records| + i]
      requires |clocks| == |writes| == |checks| && writes != []
      modifies this`phase, this`records, this`aborts, directory
      ensures Valid() && old(records) <= records
      ensures ok ==> phase == target && |records| == Written(target)
      ensures ok <==> DirectoryIs(old(directory.files), old(records)) && last && forall i :: 0 <= i < |checks| ==>
                        checks[i]
      ensures !ok ==> phase.Failed?
    {
      hide HelperOk;
      hide Owns;
      hide DirectoryIs;
      ok := WriteAll(writes, clocks, checks, target);
      ghost var busy := Busy(target);
      StopKeeps(directory.files, id, busy);
      if !ok || !last { return false; }
      ReturnKeeps(busy);
      ReturnOwns(directory.files, id, busy);
      phase := target;
      if target.Aborted? {
        aborts := aborts + 1;
      }
    }

    method Prepare(operation: Uuid, live: bool, clock: Clock) returns (ok: bool)
      requires Valid()
      modifies this, directory
      ensures Valid() && old(records) <= records
      ensures ok <==> old(phase).New? && live && DirectoryIs(old(directory.files), old(records))
      ensures ok ==> phase.Prepared? && this.operation == Some(operation)
      ensures !ok ==> phase.Failed? || (Idle() == old(Idle()) && directory.files == old(directory.files))
    {
      if !phase.New? || !live { return false; }
      Enter(Call.Prepare(operation), Prepared);
      this.operation := Some(operation);
      phase := Failed;
      ok := Perform([WriteEvent(StartEvent)], [clock], [true], true, Prepared);
    }

    method RecordPostAttempt(live: bool, clock: Clock) returns (ok: bool)
      requires Valid()
      modifies this, directory
      ensures Valid() && old(records) <= records
      ensures ok <==> old(phase).Prepared? && live && DirectoryIs(old(directory.files), old(records))
      ensures ok ==> phase.Posted?
      ensures !ok ==> phase.Failed? || (Idle() == old(Idle()) && directory.files == old(directory.files))
    {
      if !phase.Prepared? || !live { return false; }
      Enter(PostAttempt, Posted);
      phase := Failed;
      ok := Perform([WriteEvent(UploadPostAttempt)], [clock], [true], true, Posted);
    }

    method RecordSubmitted(managerTask: ManagerId, live: bool, clock: Clock) returns (ok: bool)
      requires Valid()
      modifies this, directory
      ensures Valid() && old(records) <= records
      ensures ok <==>
                && old(phase).Posted? && managerTask.Canonical? && live
                && DirectoryIs(old(directory.files), old(records))
      ensures ok ==> phase.Submitted? && manager == Some(managerTask.id)
      ensures !ok ==> phase.Failed? || (Idle() == old(Idle()) && directory.files == old(directory.files))
    {
      if !phase.Posted? || !managerTask.Canonical? || !live { return false; }
      Enter(Call.RecordSubmitted(managerTask), Submitted);
      phase := Failed;
      manager := Some(managerTask.id);
      ok := Perform([WriteEvent(SubmittedCommitted)], [clock], [true], true, Submitted);
    }

    /** The first time it ends in the injected abort, the second time in the verified recovery of the same video. */
    method BeforeReceipt(managerTask: Uuid, videoId: string, clocks: seq<Clock>, checks: seq<bool>, live: bool)
      returns (ok: bool)
      requires Valid()
      requires |clocks| == |checks| == if phase.Recovering? then 2 else 6
      modifies this, directory
      ensures Valid() && old(records) <= records
      ensures ok <==>
                && old(manager) == Some(managerTask) && AnyVideoId(videoId)
                && (old(phase).Submitted? || (old(phase).Recovering? && old(video) == Some(videoId) && live))
                && DirectoryIs(old(directory.files), old(records)) && forall i :: 0 <= i < |checks| ==> checks[i]
      ensures ok ==> video == Some(videoId) && phase == if old(phase).Submitted? then Aborted else Verified
      ensures !ok ==> phase.Failed? || (Idle() == old(Idle()) && directory.files == old(directory.files))
    {
      if manager != Some(managerTask) || !(phase.Submitted? || phase.Recovering?) { return false; }
      var recovery := phase.Recovering?;
      if recovery && video != Some(videoId) { return false; }
      Enter(Call.BeforeReceipt(managerTask, videoId), if recovery then Verified else Aborted);
      phase := Failed;
      if !AnyVideoId(videoId) { return false; }
      video := Some(videoId);
      ok := Perform(if recovery then SECOND_RECEIPT else FIRST_RECEIPT, clocks, checks, !recovery || live,
                    if recovery then Verified else Aborted);
    }

    method LoadForResume(loaded: bool, clock: Clock) returns (ok: bool)
      requires Valid()
      modifies this, directory
      ensures Valid() && old(records) <= records
      ensures ok <==> old(phase).ResumePending? && loaded && DirectoryIs(old(directory.files), old(records))
      ensures ok ==> phase.Recovering?
      ensures !ok ==> phase.Failed? || (Idle() == old(Idle()) && directory.files == old(directory.files))
    {
      if !phase.ResumePending? { return false; }
      Enter(Call.LoadForResume, Recovering);
      phase := Failed;
      var checks := [loaded];
      assert loaded <==> checks[0];
      ok := Perform([WriteEvent(FreshSubmittedResume)], [clock], checks, true, Recovering);
    }

    method RecordSucceeded(receipt: string, clock: Clock) returns (ok: bool)
      requires Valid()
      modifies this, directory
      ensures Valid() && old(records) <= records
      ensures ok <==> old(phase).Verified? && DirectoryIs(old(directory.files), old(records))
      ensures ok ==> phase.Finished? && |records| == 13 && receiptSha == receipt
      ensures !ok ==> phase.Failed? || (Idle() == old(Idle()) && directory.files == old(directory.files))
    {
      if !phase.Verified? { return false; }
      Enter(Call.RecordSucceeded(receipt), Finished);
      phase := Failed;
      receiptSha := receipt;
      ok := Perform([WriteEvent(MarkSucceeded)], [clock], [true], true, Finished);
    }

    /** Only the abort this helper issued itself opens the recovery, and only once. */
    method AuthenticateAbort(issuer: HelperId, live: bool) returns (ok: bool)
      requires Valid()
      modifies this
      ensures Valid() && records == old(records)
      ensures ok <==> old(phase).Aborted? && issuer == id && DirectoryIs(directory.files, records) && live
      ensures ok ==> phase.ResumePending? && recoveries == old(recoveries) + 1 == 1
      ensures !ok ==> phase.Failed? || Idle() == old(Idle())
    {
      hide FileOk;
      hide DirectoryIs;
      if phase.Aborted? { AbortedHasToken(Idle()); }
      if !phase.Aborted? || issuer != id || !HasName(records, Consumed) { return false; }
      phase := Failed;
      if !DirectoryIs(directory.files, records) || !live { return false; }
      recoveries := recoveries + 1;
      phase := ResumePending;
      return true;
    }

    /** Entering a call: the helper with the call's facts recorded is ready for all its writes. */
    lemma Enter(call: Call, target: Phase)
      requires Valid()
      ensures var n := Called(Idle(), id, directory.files, call);
              HelperOk(n) && Owns(directory.files, id, n)
    {
      CallKeeps(Idle(), id, directory.files, call);
      hide FileOk;
      CallShape(Idle(), id, directory.files, call);
      hide Called;
    }
  }

  lemma StopKeeps(directory: map<FileName, Slot>, id: HelperId, h: Helper)
    requires HelperOk(h) && Owns(directory, id, h)
    ensures HelperOk(Stopped(h)) && Owns(directory, id, Stopped(h))
  {
    hide FileOk;
    hide TargetOk;
    hide NonceOk;
    hide AnyVideoId;
  }

  lemma ReturnOwns(directory: map<FileName, Slot>, id: HelperId, h: Helper)
    requires Owns(directory, id, h) && h.active.Some?
    ensures Owns(directory, id, Returned(h, h.active.value.target))
  {
  }

  lemma AbortedHasToken(h: Helper)
    requires HelperOk(h) && h.active.None? && h.phase.Aborted?
    ensures HasName(h.records, Consumed)
  {
    hide FileOk;
    NumberSkipsToken(h);
  }
}
