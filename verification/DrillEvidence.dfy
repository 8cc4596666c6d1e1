/**
 What an accepted journal proves: the check takes exactly the journals that some evident
 drill could have left, told apart only by what the check does not look at.
 */
module DrillEvidence {
  import opened Common
  import opened DrillRecords
  import opened DrillHelpers
  import opened DrillSafety
  import opened DrillWorlds
  import opened DrillAgreement
  import opened DrillProgress

  /** Two records that agree in every field evidence is drawn from. */
  predicate Alike(a: Record, b: Record) {
    && a.identity == b.identity && a.sequence == b.sequence && a.event == b.event
    && a.utc == b.utc && a.mono == b.mono
    && a.operation == b.operation && a.manager == b.manager && a.video == b.video
    && (IsCompletedGet(a.event) ==> a.managerStatus == b.managerStatus)
    && (IsProcessed(a.event) ==> a.uploadStatus == b.uploadStatus)
    && (IsFreshSubmitted(a.event) ==>
          && a.status == b.status && a.requestAttempted == b.requestAttempted && a.receiptEmpty == b.receiptEmpty
          && a.platformVideoId == b.platformVideoId && a.completedAt == b.completedAt)
  }

  predicate AlikeJournals(a: Journal, b: Journal) {
    && |a.events| == |b.events| && a.consumed == b.consumed
    && forall i :: 0 <= i < |a.events| ==> Alike(a.events[i], b.events[i])
  }

  /** A drill that ran to its end, alone in its directory, with the ids and clocks evidence needs. */
  ghost predicate EvidentDrill(identity: Identity, nonce: string, steps: seq<Step>) {
    && TargetOk(identity) && NonceOk(nonce)
    && var n := Run(Alone(0, FreshHelper(identity, nonce)), steps);
    && 0 in n.helpers && n.helpers[0].phase.Finished? && Complete(n.directory)
    && Evident(n.helpers[0], Collect(n.directory))
  }

  /** The journal is alike to the one such a drill left. */
  ghost predicate LeftBy(j: Journal, identity: Identity, nonce: string, steps: seq<Step>) {
    && EvidentDrill(identity, nonce, steps)
    && AlikeJournals(j, Collect(Run(Alone(0, FreshHelper(identity, nonce)), steps).directory))
  }

  // ----- the check sees no more than that -----

  lemma AlikeRows(first: Record, other: Record, manager: Uuid, video: string, i: nat, row: Record, copy: Record)
    requires i < 12 && Alike(first, other) && Alike(row, copy) && RowOk(other, manager, video, i, copy)
    ensures RowOk(first, manager, video, i, row)
  {
  }

  lemma AlikeClocks(a: seq<Record>, b: seq<Record>, startedAt: int, expiresAt: int)
    requires |a| == |b| && ClocksOk(b, startedAt, expiresAt)
    requires forall i :: 0 <= i < |a| ==> Alike(a[i], b[i])
    ensures ClocksOk(a, startedAt, expiresAt)
  {
    assert forall i :: 0 <= i < |a| ==> a[i].utc == b[i].utc && a[i].mono == b[i].mono;
    hide Alike;
  }

  lemma AlikeAccepted(j: Journal, copy: Journal)
    requires AlikeJournals(j, copy) && Accepts(copy)
    ensures Accepts(j)
  {
    hide RowOk;
    hide TargetOk;
    var first, other := j.events[0], copy.events[0];
    AlikeClocks(j.events, copy.events, other.identity.startedAt, other.identity.expiresAt);
    hide ClocksOk;
    var manager, video := copy.events[2].manager.value, copy.events[3].video.value;
    forall i | 0 <= i < 12
      ensures RowOk(first, manager, video, i, j.events[i])
    {
      AlikeRows(first, other, manager, video, i, j.events[i], copy.events[i]);
    }
    assert Alike(j.events[2], copy.events[2]) && Alike(j.events[3], copy.events[3]);
    hide Alike;
    hide PlatformVideoId;
    hide NonceOk;
  }

  // ----- and demands no less -----

  function ReadingOf(r: Record): Reading {
    Reading(r.utc, r.mono)
  }

  /** The readings a drill must get for each of its thirteen files; the token has none of its own. */
  function ReadingsOf(events: seq<Record>): (clocks: seq<Reading>)
    requires |events| == 12
    ensures |clocks| == 13
    ensures forall i :: 0 <= i < 12 ==> clocks[Place(i)] == ReadingOf(events[i])
  {
    seq(13, k requires 0 <= k < 13 =>
          if k < 6 then ReadingOf(events[k]) else if k == 6 then Reading(0, 0) else ReadingOf(events[k - 1]))
  }

  lemma MadeAlike(h: Helper, first: Record, i: nat, row: Record, made: Record)
    requires i < 12 && h.operation.Some? && h.manager.Some? && h.video.Some? && MadeBy(h, i, made)
    requires h.identity == first.identity && first.identity.privacy == "unlisted"
    requires h.operation.value == first.operation && RowOk(first, h.manager.value, h.video.value, i, row)
    requires made.utc == row.utc && made.mono == row.mono
    ensures Alike(row, made)
  {
    assert h.identity.(privacy := "unlisted") == h.identity;
  }

  /** A finished drill with the journal's own ids, nonce and readings. */
  predicate Retraces(j: Journal, n: World) {
    && Accepts(j) && Standing(n, 0, ReadingsOf(j.events))
    && var h := n.helpers[0];
    && h.phase.Finished? && h.identity == j.events[0].identity && h.nonce == j.consumed[0].nonce
    && h.operation == Some(j.events[0].operation)
    && h.manager == j.events[2].manager && h.video == j.events[3].video
  }

  lemma AcceptedRow(j: Journal, i: nat)
    requires Accepts(j) && i < 12
    ensures j.events[2].manager.Some? && j.events[3].video.Some? && j.events[0].identity.privacy == "unlisted"
    ensures RowOk(j.events[0], j.events[2].manager.value, j.events[3].video.value, i, j.events[i])
  {
    hide RowOk;
    hide ClocksOk;
    hide TokenOk;
    hide PlatformVideoId;
  }

  lemma CollectedRow(j: Journal, n: World, i: nat)
    requires Retraces(j, n) && Complete(n.directory) && i < 12
    ensures Alike(j.events[i], Collect(n.directory).events[i])
  {
    hide RowOk;
    hide MadeBy;
    hide Alike;
    hide Standing;
    hide HelperOk;
    hide Owns;
    AcceptedRow(j, i);
    hide Accepts;
    var clocks := ReadingsOf(j.events);
    StandingOwns(n, 0, clocks);
    var h := n.helpers[0];
    FinishedRecord(n.directory, 0, h, i);
    CollectedReading(n, 0, clocks, i);
    MadeAlike(h, j.events[0], i, j.events[i], Collect(n.directory).events[i]);
  }

  /** It leaves a journal alike to the one it retraces. */
  lemma CollectedAlike(j: Journal, n: World)
    requires Retraces(j, n)
    ensures Complete(n.directory) && AlikeJournals(j, Collect(n.directory))
  {
    hide Alike;
    TokenIs(j);
    StandingOwns(n, 0, ReadingsOf(j.events));
    hide HelperOk;
    hide Owns;
    Agreement(n.directory, 0, n.helpers[0]);
    FinishedToken(n.directory, 0, n.helpers[0]);
    forall i | 0 <= i < 12
      ensures Alike(j.events[i], Collect(n.directory).events[i])
    {
      CollectedRow(j, n, i);
    }
    hide Standing;
    hide RowOk;
    hide ClocksOk;
    hide Complete;
  }

  lemma TokenIs(j: Journal)
    requires Accepts(j)
    ensures var first, token := j.events[0], j.consumed[0];
            j.consumed == [Token(first.identity, first.operation, j.events[2].manager, j.events[3].video, token.nonce)]
  {
    hide RowOk;
    hide ClocksOk;
  }

  lemma AcceptedHasDrill(j: Journal) returns (steps: seq<Step>)
    requires Accepts(j)
    ensures LeftBy(j, j.events[0].identity, j.consumed[0].nonce, steps)
  {
    hide Run;
    hide RowOk;
    hide ClocksOk;
    hide NonceOk;
    hide TargetOk;
    hide Standing;
    hide Complete;
    hide Collect;
    var first, nonce := j.events[0], j.consumed[0].nonce;
    var manager, video := j.events[2].manager.value, j.events[3].video.value;
    ShortVideoId(video);
    hide PlatformVideoId;
    hide AnyVideoId;
    steps := DrillCanFinish(first.identity, nonce, 0, first.operation, manager, video, "", ReadingsOf(j.events));
    var n := Run(Alone(0, FreshHelper(first.identity, nonce)), steps);
    StandingOwns(n, 0, ReadingsOf(j.events));
    CollectedAlike(j, n);
    var collected := Collect(n.directory);
    forall i | 0 <= i < 12
      ensures Alike(collected.events[i], j.events[i])
    {
      assert Alike(j.events[i], collected.events[i]);
    }
    hide Alike;
    AlikeClocks(collected.events, j.events, first.identity.startedAt, first.identity.expiresAt);
  }

  /** The check accepts a journal exactly when some evident drill leaves one that is alike. */
  lemma EvidenceMeansDrill(j: Journal)
    ensures Accepts(j) <==> exists identity, nonce, steps :: LeftBy(j, identity, nonce, steps)
  {
    hide Accepts;
    hide Run;
    if Accepts(j) {
      var steps := AcceptedHasDrill(j);
    }
    forall identity, nonce, steps | LeftBy(j, identity, nonce, steps)
      ensures Accepts(j)
    {
      var start := Alone(0, FreshHelper(identity, nonce));
      ProducerAgreesWithChecker(start, steps, 0);
      AlikeAccepted(j, Collect(Run(start, steps).directory));
    }
  }
}
