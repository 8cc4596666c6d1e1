/**
 Drill safety over every interleaving: what a helper has written is always a front part of
 one fixed script of thirteen files, and at most one helper ever writes at all.
 */
module DrillSafety {
  import opened Common
  import opened DrillRecords
  import opened DrillHelpers

  /** The thirteen files of a complete drill, in order. */
  const SCRIPT: seq<Write> := [
    WriteEvent(StartEvent), WriteEvent(UploadPostAttempt), WriteEvent(SubmittedCommitted),
    WriteEvent(CompletedGet1), WriteEvent(ProcessedUnlisted1), WriteEvent(FreshSubmittedEmpty), WriteToken,
    WriteEvent(TokenConsumed), WriteEvent(PreReceiptAbort), WriteEvent(FreshSubmittedResume),
    WriteEvent(CompletedGet2), WriteEvent(ProcessedUnlisted2), WriteEvent(MarkSucceeded)
  ]

  /** The number of the record at a position: the events count from 1 and the token is skipped. */
  function NumberAt(i: nat): nat {
    if i < 6 then i + 1 else i
  }

  function NameAt(i: nat): FileName {
    if i == 6 then Consumed else Numbered(NumberAt(i))
  }

  /** How many files lie behind a helper in a phase. */
  function Written(phase: Phase): nat {
    match phase
    case New => 0
    case Prepared => 1
    case Posted => 2
    case Submitted => 3
    case Aborted => 9
    case ResumePending => 9
    case Recovering => 10
    case Verified => 12
    case Finished => 13
    case Failed => 0
  }

  /** How many files a call that ends in a phase starts with. */
  function Before(target: Phase): nat {
    match target
    case Posted => 1
    case Submitted => 2
    case Aborted => 3
    case Recovering => 9
    case Verified => 10
    case Finished => 12
    case _ => 0
  }

  // ----- one helper -----

  /** The file a drill with these facts writes at a position, up to the clock readings in it. */
  predicate FileOk(id: Identity, nonce: string, operation: Option<Uuid>, manager: Option<Uuid>, video: Option<string>,
                   receiptSha: string, i: nat, file: File)
    requires i < 13
  {
    && operation.Some?
    && match SCRIPT[i]
       case WriteToken => file == OfToken(Token(id, operation.value, manager, video, nonce))
       case WriteEvent(e) =>
         file.OfRecord?
         && file.record == MakeRecord(id, NumberAt(i), e, file.record.utc, file.record.mono, operation.value,
                                      if i >= 2 then manager else None, if i >= 3 then video else None, receiptSha)
  }

  predicate Fits(h: Helper, i: nat, file: File)
    requires i < 13
  {
    FileOk(h.identity, h.nonce, h.operation, h.manager, h.video, h.receiptSha, i, file)
  }

  predicate RecordsOk(h: Helper) {
    && |h.records| <= 13
    && (forall i :: 0 <= i < |h.records| ==> h.records[i].name == NameAt(i) && Fits(h, i, h.records[i].file))
  }

  predicate Heading(h: Helper, phase: Phase) {
    h.active.Some? && h.active.value.target == phase
  }

  predicate DataOk(h: Helper) {
    && TargetOk(h.identity) && NonceOk(h.nonce)
    && (h.active.Some? || |h.records| >= 1 ==> h.operation.Some?)
    && (|h.records| <= 1 ==> h.manager.None?)
    && (|h.records| >= 3 || Heading(h, Submitted) ==> h.manager.Some?)
    && (|h.records| <= 2 ==> h.video.None?)
    && (|h.records| >= 4 || Heading(h, Aborted) ==> h.video.Some?)
    && (h.video.Some? ==> AnyVideoId(h.video.value))
  }

  /** An idle helper has written what its phase says; a working one has the rest of its target's files ahead. */
  predicate ProgressOk(h: Helper) {
    match h.active
    case None => h.phase.Failed? || |h.records| == Written(h.phase)
    case Some(a) =>
      && h.phase.Failed? && a.target !in {Failed, New, ResumePending}
      && Before(a.target) <= |h.records| <= Written(a.target)
      && a.remaining == SCRIPT[|h.records|..Written(a.target)]
      && (a.created ==> a.checked) && (a.checked ==> a.staged.Some?)
      && (a.staged.Some? ==> a.remaining != [])
  }

  predicate StagedOk(h: Helper) {
    h.active.Some? && h.active.value.staged.Some? ==>
      && |h.records| < 13
      && h.active.value.staged.value.name == NameAt(|h.records|)
      && Fits(h, |h.records|, h.active.value.staged.value.file)
  }

  predicate CountsOk(h: Helper) {
    && h.aborts <= 1 && h.recoveries <= 1
    && (|h.records| < 9 || Heading(h, Aborted) ==> h.aborts == 0)
    && (|h.records| < 9 || Heading(h, Aborted) || h.phase.Aborted? ==> h.recoveries == 0)
    && (h.phase.Aborted? || Recovers(h) ==> h.aborts == 1)
    && (Recovers(h) ==> h.recoveries == 1)
  }

  /** The helper is past its authenticated abort and has not failed. */
  predicate Recovers(h: Helper) {
    var at := if h.active.Some? then h.active.value.target else h.phase;
    at in {ResumePending, Recovering, Verified, Finished}
  }

  predicate HelperOk(h: Helper) {
    RecordsOk(h) && DataOk(h) && ProgressOk(h) && StagedOk(h) && CountsOk(h)
  }

  /** A fact learned later leaves the earlier files as they were. */
  lemma FitsLater(h: Helper, n: Helper, i: nat, file: File)
    requires i < 13 && Fits(h, i, file)
    requires n.identity == h.identity && n.nonce == h.nonce && n.operation == h.operation
    requires i >= 2 ==> n.manager == h.manager
    requires i >= 3 ==> n.video == h.video
    requires i >= 12 ==> n.receiptSha == h.receiptSha
    ensures Fits(n, i, file)
  {
  }

  lemma CallShape(h: Helper, id: HelperId, directory: map<FileName, Slot>, call: Call)
    requires h.active.None? && ProgressOk(h)
    ensures var n := Called(h, id, directory, call);
            && n.records == h.records && n.identity == h.identity && n.nonce == h.nonce
            && (|h.records| >= 1 ==> n.operation == h.operation)
            && (|h.records| >= 3 ==> n.manager == h.manager)
            && (|h.records| >= 4 ==> n.video == h.video)
            && (|h.records| >= 13 ==> n.receiptSha == h.receiptSha)
            && ProgressOk(n)
            && (n.active.Some? ==> n.active.value.staged.None?)
  {
    hide TargetOk;
    hide NonceOk;
    hide AnyVideoId;
    hide DirectoryIs;
    hide HasName;
  }

  lemma CallData(h: Helper, id: HelperId, directory: map<FileName, Slot>, call: Call)
    requires h.active.None? && ProgressOk(h) && DataOk(h) && CountsOk(h)
    ensures DataOk(Called(h, id, directory, call)) && CountsOk(Called(h, id, directory, call))
  {
    hide TargetOk;
    hide NonceOk;
    hide AnyVideoId;
    hide DirectoryIs;
    hide HasName;
  }

  lemma CallKeeps(h: Helper, id: HelperId, directory: map<FileName, Slot>, call: Call)
    requires HelperOk(h) && h.active.None?
    ensures HelperOk(Called(h, id, directory, call))
    ensures Called(h, id, directory, call).records == h.records
  {
    hide Called;
    hide DataOk;
    hide ProgressOk;
    hide CountsOk;
    hide Fits;
    var n := Called(h, id, directory, call);
    CallShape(h, id, directory, call);
    CallData(h, id, directory, call);
    forall i | 0 <= i < |h.records|
      ensures Fits(n, i, n.records[i].file)
    {
      FitsLater(h, n, i, h.records[i].file);
    }
  }

  /** The token file is skipped in the numbering. */
  lemma NumberSkipsToken(h: Helper)
    requires RecordsOk(h)
    ensures HasName(h.records, Consumed) <==> |h.records| > 6
    ensures |h.records| != 6 ==> NextNumber(h.records) == NumberAt(|h.records|)
  {
    hide Fits;
    if |h.records| > 6 {
      assert h.records[6].name == Consumed;
    }
  }

  lemma StagedFits(h: Helper, utc: int, mono: int)
    requires RecordsOk(h) && DataOk(h) && ProgressOk(h) && h.active.Some? && h.active.value.remaining != []
    ensures h.operation.Some?
    ensures StageEntry(h, SCRIPT[|h.records|], utc, mono).name == NameAt(|h.records|)
    ensures Fits(h, |h.records|, StageEntry(h, SCRIPT[|h.records|], utc, mono).file)
  {
    hide TargetOk;
    hide NonceOk;
    hide AnyVideoId;
    hide HasName;
    hide RecordsOk;
    NumberSkipsToken(h);
  }

  lemma StageKeeps(h: Helper, utc: int, mono: int)
    requires HelperOk(h) && h.active.Some? && h.active.value.staged.None? && h.active.value.remaining != []
    ensures var a := h.active.value;
            HelperOk(WithActive(h, a.(staged := Some(StageEntry(h, a.remaining[0], utc, mono)), checked := false,
                                      created := false)))
  {
    hide TargetOk;
    hide NonceOk;
    hide AnyVideoId;
    hide FileOk;
    hide StageEntry;
    assert h.active.value.remaining[0] == SCRIPT[|h.records|];
    StagedFits(h, utc, mono);
  }

  lemma KeepKeeps(h: Helper)
    requires HelperOk(h) && h.active.Some? && h.active.value.staged.Some?
    ensures var a := h.active.value;
            HelperOk(WithActive(h.(records := h.records + [a.staged.value]),
                                Activity(a.remaining[1..], None, false, false, a.target)))
  {
    hide TargetOk;
    hide NonceOk;
    hide AnyVideoId;
    hide FileOk;
    var a := h.active.value;
    assert a.remaining[1..] == SCRIPT[|h.records| + 1..Written(a.target)];
  }

  lemma ReturnKeeps(h: Helper)
    requires HelperOk(h) && h.active.Some? && h.active.value.remaining == []
    ensures HelperOk(Returned(h, h.active.value.target))
  {
    hide TargetOk;
    hide NonceOk;
    hide AnyVideoId;
    hide FileOk;
  }
}
