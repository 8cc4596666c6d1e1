/**
 The drill and the evidence check agree. The files of a finished drill, collected by name
 from its directory, are accepted exactly when the drill was armed, its three ids have the
 shape evidence asks for, and the clocks it read advance inside its window.
 */
module DrillAgreement {
  import opened Common
  import opened DrillRecords
  import opened DrillHelpers
  import opened DrillSafety
  import opened DrillWorlds

  predicate HoldsRecord(directory: map<FileName, Slot>, number: int) {
    && Numbered(number) in directory && directory[Numbered(number)].content.Some?
    && directory[Numbered(number)].content.value.OfRecord?
  }

  /** All thirteen files are there and filled. */
  predicate Complete(directory: map<FileName, Slot>) {
    && (forall k :: 1 <= k <= 12 ==> HoldsRecord(directory, k))
    && Consumed in directory && directory[Consumed].content.Some? && directory[Consumed].content.value.OfToken?
  }

  /** What an operator collects. */
  function Collect(directory: map<FileName, Slot>): Journal
    requires Complete(directory)
  {
    Journal(seq(12, i requires 0 <= i < 12 => assert HoldsRecord(directory, i + 1);
                                              directory[Numbered(i + 1)].content.value.record),
            [directory[Consumed].content.value.token])
  }

  /** The record of the i-th event, as the drill makes it. */
  predicate MadeBy(h: Helper, i: nat, row: Record)
    requires i < 12 && h.operation.Some?
  {
    row == MakeRecord(h.identity, i + 1, EVENTS[i], row.utc, row.mono, h.operation.value,
                      if i >= 2 then h.manager else None, if i >= 3 then h.video else None, h.receiptSha)
  }

  lemma FinishedRecord(directory: map<FileName, Slot>, id: HelperId, h: Helper, i: nat)
    requires HelperOk(h) && Owns(directory, id, h) && h.phase.Finished? && i < 12
    ensures HoldsRecord(directory, i + 1) && h.operation.Some?
    ensures MadeBy(h, i, directory[Numbered(i + 1)].content.value.record)
  {
    hide TargetOk;
    hide NonceOk;
    hide AnyVideoId;
    hide MakeRecord;
    var at := if i < 6 then i else i + 1;
    ScriptIsEvents(i);
    assert h.records[at].name == Numbered(i + 1) && Fits(h, at, h.records[at].file);
  }

  lemma FinishedToken(directory: map<FileName, Slot>, id: HelperId, h: Helper)
    requires HelperOk(h) && Owns(directory, id, h) && h.phase.Finished?
    ensures Consumed in directory && h.operation.Some? && h.manager.Some? && h.video.Some?
    ensures directory[Consumed].content
            == Some(OfToken(Token(h.identity, h.operation.value, h.manager, h.video, h.nonce)))
  {
    hide TargetOk;
    hide NonceOk;
    hide AnyVideoId;
    hide MakeRecord;
    assert h.records[6].name == Consumed && Fits(h, 6, h.records[6].file);
  }

  /** A record the drill made passes the check of its row. */
  lemma MadeRowOk(h: Helper, first: Record, i: nat, row: Record)
    requires i < 12 && h.operation.Some? && h.manager.Some? && h.video.Some? && h.identity.privacy == "unlisted"
    requires MadeBy(h, 0, first) && MadeBy(h, i, row)
    ensures RowOk(first, h.manager.value, h.video.value, i, row)
  {
    assert h.identity.(privacy := "unlisted") == h.identity;
  }

  /** What a drill needs beyond finishing for its journal to count. */
  predicate Evident(h: Helper, j: Journal) {
    && h.identity.arming.Some?
    && h.operation.Some? && h.operation.value != 0
    && h.manager.Some? && h.manager.value != 0
    && h.video.Some? && PlatformVideoId(h.video.value)
    && ClocksOk(j.events, h.identity.startedAt, h.identity.expiresAt)
  }

  lemma Agreement(directory: map<FileName, Slot>, id: HelperId, h: Helper)
    requires HelperOk(h) && Owns(directory, id, h) && h.phase.Finished?
    ensures Complete(directory)
    ensures Accepts(Collect(directory)) <==> Evident(h, Collect(directory))
    ensures Collect(directory).events[11].receiptSha == Is(h.receiptSha)
  {
    hide RowOk;
    hide ClocksOk;
    hide PlatformVideoId;
    hide Owns;
    hide MakeRecord;
    FinishedToken(directory, id, h);
    forall k | 1 <= k <= 12
      ensures HoldsRecord(directory, k)
    {
      FinishedRecord(directory, id, h, k - 1);
    }
    var j := Collect(directory);
    var manager, video := h.manager.value, h.video.value;
    forall i | 0 <= i < 12
      ensures MadeBy(h, i, j.events[i]) && RowOk(j.events[0], manager, video, i, j.events[i])
    {
      FinishedRecord(directory, id, h, 0);
      FinishedRecord(directory, id, h, i);
      MadeRowOk(h, j.events[0], i, j.events[i]);
    }
    FirstRows(h, j);
  }

  lemma FirstRows(h: Helper, j: Journal)
    requires |j.events| == 12 && h.operation.Some? && h.manager.Some? && h.video.Some?
    requires forall i :: 0 <= i < 12 ==> MadeBy(h, i, j.events[i])
    ensures j.events[0].identity == h.identity && j.events[0].operation == h.operation.value
    ensures j.events[2].manager == h.manager && j.events[3].video == h.video
    ensures j.events[11].receiptSha == Is(h.receiptSha)
  {
    assert MadeBy(h, 0, j.events[0]) && MadeBy(h, 2, j.events[2]) && MadeBy(h, 3, j.events[3]);
    assert MadeBy(h, 11, j.events[11]);
  }

  /** The agreement over every run of any helpers. */
  lemma ProducerAgreesWithChecker(start: World, steps: seq<Step>, id: HelperId)
    requires Initial(start) && id in Run(start, steps).helpers && Run(start, steps).helpers[id].phase.Finished?
    ensures var w := Run(start, steps);
            && Complete(w.directory)
            && (Accepts(Collect(w.directory)) <==> Evident(w.helpers[id], Collect(w.directory)))
            && Collect(w.directory).events[11].receiptSha == Is(w.helpers[id].receiptSha)
  {
    hide Run;
    hide HelperOk;
    hide Owns;
    hide Accepts;
    hide Evident;
    InitialSound(start);
    RunKeeps(start, steps);
    Agreement(Run(start, steps).directory, id, Run(start, steps).helpers[id]);
  }
}
