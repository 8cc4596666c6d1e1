/**
 Drill helpers at work on one directory. A helper's call sets its phase to failed, writes
 its files one at a time and only then takes the next phase. A write looks at the whole
 directory, then creates its file exclusively, then fills it; any helper may act between
 these, and a call may stop at any point.
 */
module DrillHelpers {
  import opened Common
  import opened DrillRecords

  type HelperId = nat

  datatype Phase =
    | New | Prepared | Posted | Submitted | Aborted
    | ResumePending | Recovering | Verified | Finished | Failed

  datatype FileName = Numbered(number: int) | Consumed

  datatype File = OfRecord(record: Record) | OfToken(token: Token)

  datatype Entry = Entry(name: FileName, file: File)

  /** A file to write: an event record or the token. */
  datatype Write = WriteEvent(event: Event) | WriteToken

  /** A call in progress: what it still has to write, the entry in hand, and the phase it ends in. */
  datatype Activity = Activity(remaining: seq<Write>, staged: Option<Entry>, checked: bool, created: bool,
                               target: Phase)

  datatype Helper = Helper(
    identity: Identity, nonce: string, phase: Phase, records: seq<Entry>,
    operation: Option<Uuid>, manager: Option<Uuid>, video: Option<string>, receiptSha: string,
    active: Option<Activity>, aborts: nat, recoveries: nat)

  /** A name in the directory: who created it, if a helper did, and what it holds once filled. */
  datatype Slot = Slot(owner: Option<HelperId>, content: Option<File>)

  datatype World = World(directory: map<FileName, Slot>, helpers: map<HelperId, Helper>)

  // ----- calls -----

  datatype ManagerId = Canonical(id: Uuid) | OtherText

  datatype Call =
    | Prepare(operation: Uuid)
    | PostAttempt
    | RecordSubmitted(manager: ManagerId)
    | BeforeReceipt(managerTask: Uuid, video: string)
    | Authenticate(issuer: HelperId)
    | LoadForResume
    | RecordSucceeded(receiptSha: string)

  function Working(h: Helper, writes: seq<Write>, target: Phase): Helper {
    h.(phase := Failed, active := Some(Activity(writes, None, false, false, target)))
  }

  const FIRST_RECEIPT: seq<Write> := [
    WriteEvent(CompletedGet1), WriteEvent(ProcessedUnlisted1), WriteEvent(FreshSubmittedEmpty), WriteToken,
    WriteEvent(TokenConsumed), WriteEvent(PreReceiptAbort)
  ]
  const SECOND_RECEIPT: seq<Write> := [WriteEvent(CompletedGet2), WriteEvent(ProcessedUnlisted2)]

  function HasName(records: seq<Entry>, name: FileName): bool {
    exists i :: 0 <= i < |records| && records[i].name == name
  }

  /** The directory holds this helper's files, filled as it filled them, and nothing else. */
  predicate DirectoryIs(directory: map<FileName, Slot>, records: seq<Entry>) {
    && (forall name :: name in directory ==> HasName(records, name))
    && (forall i :: 0 <= i < |records| ==>
          records[i].name in directory && directory[records[i].name].content == Some(records[i].file))
  }

  /** A call on an idle helper. A refused call leaves the helper as it is. */
  function Called(h: Helper, id: HelperId, directory: map<FileName, Slot>, call: Call): Helper
    requires h.active.None?
  {
    match call
    case Prepare(operation) =>
      if h.phase.New? then Working(h.(operation := Some(operation)), [WriteEvent(StartEvent)], Prepared) else h
    case PostAttempt =>
      if h.phase.Prepared? then Working(h, [WriteEvent(UploadPostAttempt)], Posted) else h
    case RecordSubmitted(manager) =>
      if h.phase.Posted? && manager.Canonical?
      then Working(h.(manager := Some(manager.id)), [WriteEvent(SubmittedCommitted)], Submitted)
      else h
    case BeforeReceipt(managerTask, video) =>
      if h.manager != Some(managerTask)
          || !(h.phase.Submitted? || (h.phase.Recovering? && h.video == Some(video))) then h
      else if !AnyVideoId(video) then h.(phase := Failed)
      else if h.phase.Recovering? then Working(h.(video := Some(video)), SECOND_RECEIPT, Verified)
      else Working(h.(video := Some(video)), FIRST_RECEIPT, Aborted)
    case Authenticate(issuer) =>
      if !h.phase.Aborted? || issuer != id || !HasName(h.records, Consumed) then h
      else if DirectoryIs(directory, h.records) then h.(phase := ResumePending, recoveries := h.recoveries + 1)
      else h.(phase := Failed)
    case LoadForResume =>
      if h.phase.ResumePending? then Working(h, [WriteEvent(FreshSubmittedResume)], Recovering) else h
    case RecordSucceeded(receiptSha) =>
      if h.phase.Verified? then Working(h.(receiptSha := receiptSha), [WriteEvent(MarkSucceeded)], Finished) else h
  }

  // ----- writing -----

  /** The number of the next record: the token file is not counted. */
  function NextNumber(records: seq<Entry>): int {
    |records| - (if HasName(records, Consumed) then 1 else 0) + 1
  }

  function StageEntry(h: Helper, w: Write, utc: int, mono: int): Entry
    requires h.operation.Some?
  {
    match w
    case WriteToken => Entry(Consumed, OfToken(Token(h.identity, h.operation.value, h.manager, h.video, h.nonce)))
    case WriteEvent(e) =>
      var number := NextNumber(h.records);
      Entry(Numbered(number),
            OfRecord(MakeRecord(h.identity, number, e, utc, mono, h.operation.value, h.manager, h.video, h.receiptSha)))
  }

  datatype Move =
    | Stage(utc: int, mono: int)
    | Check
    | Create
    | Keep
    | Return
    | Stop

  function Stopped(h: Helper): Helper {
    h.(active := None)
  }

  function WithActive(h: Helper, a: Activity): Helper {
    h.(active := Some(a))
  }

  function Returned(h: Helper, target: Phase): Helper {
    h.(phase := target, active := None, aborts := h.aborts + (if target.Aborted? then 1 else 0))
  }

  /** One move of a call in progress. */
  function Moved(w: World, id: HelperId, h: Helper, a: Activity, move: Move): World {
    match move
    case Stage(utc, mono) =>
      if a.remaining == [] || a.staged.Some? || h.operation.None? then w
      else Put(w, id, WithActive(h, a.(staged := Some(StageEntry(h, a.remaining[0], utc, mono)), checked := false,
                                       created := false)))
    case Check =>
      if a.staged.None? || a.checked then w
      else if DirectoryIs(w.directory, h.records) then Put(w, id, WithActive(h, a.(checked := true)))
      else Put(w, id, Stopped(h))
    case Create =>
      if a.staged.None? || !a.checked || a.created then w
      else if a.staged.value.name in w.directory then Put(w, id, Stopped(h))
      else Put(w.(directory := w.directory[a.staged.value.name := Slot(Some(id), None)]), id,
               WithActive(h, a.(created := true)))
    case Keep =>
      if a.staged.None? || !a.created || a.remaining == [] then w
      else
        var e := a.staged.value;
        Put(w.(directory := w.directory[e.name := Slot(Some(id), Some(e.file))]), id,
            WithActive(h.(records := h.records + [e]), Activity(a.remaining[1..], None, false, false, a.target)))
    case Return =>
      if a.remaining == [] && a.staged.None? then Put(w, id, Returned(h, a.target)) else w
    case Stop => Put(w, id, Stopped(h))
  }

  function Put(w: World, id: HelperId, h: Helper): World {
    w.(helpers := w.helpers[id := h])
  }

  datatype Step =
    | Calling(id: HelperId, call: Call)
    | Moving(id: HelperId, move: Move)

  function Next(w: World, step: Step): World {
    if step.id !in w.helpers then w
    else
      var h := w.helpers[step.id];
      match step
      case Calling(id, call) => if h.active.Some? then w else Put(w, id, Called(h, id, w.directory, call))
      case Moving(id, move) => if h.active.None? then w else Moved(w, id, h, h.active.value, move)
  }

  function Run(w: World, steps: seq<Step>): World
    decreases |steps|
  {
    if steps == [] then w else Run(Next(w, steps[0]), steps[1..])
  }

  /** Fresh helpers, any number of them, over a directory that may already hold other files. */
  predicate Initial(w: World) {
    && (forall name :: name in w.directory ==> w.directory[name].owner.None?)
    && (forall id :: id in w.helpers ==> Fresh(w.helpers[id]))
  }

  predicate Fresh(h: Helper) {
    && TargetOk(h.identity) && NonceOk(h.nonce)
    && h.phase.New? && h.records == [] && h.operation.None? && h.manager.None? && h.video.None?
    && h.active.None? && h.aborts == 0 && h.recoveries == 0
  }
}
