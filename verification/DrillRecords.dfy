/**
 The journal of the pre-receipt acknowledgement drill: its twelve events, the record a
 drill writes for each of them, and the check that decides whether a collected journal
 proves a recovery. UUIDs are numbers with 0 for the nil UUID; digests and names that
 are only compared stand together as `details`.
 */
module DrillRecords {
  import opened Common

  datatype Event =
    | StartEvent
    | UploadPostAttempt
    | SubmittedCommitted
    | CompletedGet1
    | ProcessedUnlisted1
    | FreshSubmittedEmpty
    | TokenConsumed
    | PreReceiptAbort
    | FreshSubmittedResume
    | CompletedGet2
    | ProcessedUnlisted2
    | MarkSucceeded

  const EVENTS: seq<Event> := [
    StartEvent, UploadPostAttempt, SubmittedCommitted, CompletedGet1, ProcessedUnlisted1, FreshSubmittedEmpty,
    TokenConsumed, PreReceiptAbort, FreshSubmittedResume, CompletedGet2, ProcessedUnlisted2, MarkSucceeded
  ]

  type Uuid = nat

  datatype Arming = Arming(
    channel: Uuid, account: Uuid, dispatchKey: Uuid, attestation: Uuid, auditWindow: Uuid, details: string)

  datatype Identity = Identity(
    drill: Uuid, productionTask: Uuid, job: Uuid, node: Uuid, artifact: Uuid, registration: Uuid,
    leaseEpoch: int, startedAt: int, expiresAt: int, privacy: string, details: string, arming: Option<Arming>)

  /** An optional key of a JSON object. */
  datatype Json<+T> = Absent | Null | Is(value: T)

  datatype Record = Record(
    identity: Identity, sequence: int, event: Event, utc: int, mono: int,
    operation: Uuid, manager: Option<Uuid>, video: Option<string>,
    status: Json<string>, requestAttempted: Json<bool>, receiptEmpty: Json<bool>,
    platformVideoId: Json<string>, completedAt: Json<int>,
    uploadStatus: Json<string>, managerStatus: Json<string>, receiptSha: Json<string>)

  datatype Token = Token(identity: Identity, operation: Uuid, manager: Option<Uuid>, video: Option<string>,
                         nonce: string)

  datatype Journal = Journal(events: seq<Record>, consumed: seq<Token>)

  // ----- shapes -----

  predicate NonceOk(nonce: string) {
    |nonce| == 64 && forall i :: 0 <= i < 64 ==> IsHexDigit(nonce[i])
  }

  predicate IsWord(c: char) {
    'A' <= c <= 'Z' || 'a' <= c <= 'z' || '0' <= c <= '9' || c == '_' || c == '-'
  }

  /** What the drill lets into its journal as a video id. */
  predicate AnyVideoId(v: string) {
    1 <= |v| <= 128 && forall i :: 0 <= i < |v| ==> IsWord(v[i]) || v[i] == '/' || v[i] == '?' || v[i] == '.'
  }

  /** What counts as a platform video id in evidence. */
  predicate PlatformVideoId(v: string) {
    |v| == 11 && forall i :: 0 <= i < 11 ==> IsWord(v[i])
  }

  /** What the configuration of a drill guarantees of its identity. */
  predicate TargetOk(id: Identity) {
    && id.drill != 0 && id.productionTask != 0 && id.job != 0 && id.node != 0 && id.artifact != 0
        && id.registration != 0
    && id.leaseEpoch > 0 && id.privacy == "unlisted"
    && (id.arming.Some? ==> ArmingOk(id.arming.value))
  }

  predicate ArmingOk(a: Arming) {
    a.channel != 0 && a.account != 0 && a.dispatchKey != 0 && a.attestation != 0 && a.auditWindow != 0
  }

  // ----- what a drill writes -----

  function Base(id: Identity, sequence: int, event: Event, utc: int, mono: int,
                operation: Uuid, manager: Option<Uuid>, video: Option<string>): Record
  {
    Record(id, sequence, event, utc, mono, operation, manager, video,
           Absent, Absent, Absent, Absent, Absent, Absent, Absent, Absent)
  }

  predicate IsFreshSubmitted(e: Event) {
    e.FreshSubmittedEmpty? || e.FreshSubmittedResume?
  }

  predicate IsProcessed(e: Event) {
    e.ProcessedUnlisted1? || e.ProcessedUnlisted2?
  }

  predicate IsCompletedGet(e: Event) {
    e.CompletedGet1? || e.CompletedGet2?
  }

  function MakeRecord(id: Identity, sequence: int, event: Event, utc: int, mono: int,
                      operation: Uuid, manager: Option<Uuid>, video: Option<string>, receiptSha: string): Record
  {
    var base := Base(id, sequence, event, utc, mono, operation, manager, video);
    if IsFreshSubmitted(event) then
      base.(status := Is("submitted"), requestAttempted := Is(true), receiptEmpty := Is(true),
            platformVideoId := Null, completedAt := Null)
    else if IsProcessed(event) then base.(identity := id.(privacy := "unlisted"), uploadStatus := Is("processed"))
    else if IsCompletedGet(event) then base.(managerStatus := Is("completed"))
    else if event.MarkSucceeded? then base.(receiptSha := Is(receiptSha))
    else base
  }

  // ----- what the evidence check asks -----

  /** The identity a journal must carry to count as evidence. */
  predicate IdentityProves(id: Identity) {
    TargetOk(id) && id.arming.Some?
  }

  predicate EventDetailsOk(row: Record) {
    && (IsCompletedGet(row.event) ==> row.managerStatus == Is("completed"))
    && (IsProcessed(row.event) ==> row.uploadStatus == Is("processed"))
    && (IsFreshSubmitted(row.event) ==>
          && row.status == Is("submitted") && row.requestAttempted == Is(true) && row.receiptEmpty == Is(true)
          && row.platformVideoId == Null && row.completedAt == Null)
  }

  /** One row against the first, the two ids found in it and the row before. */
  predicate RowOk(first: Record, manager: Uuid, video: string, i: nat, row: Record)
    requires i < 12
  {
    && row.identity == first.identity
    && row.sequence == i + 1 && row.event == EVENTS[i]
    && row.operation == first.operation
    && row.manager == (if i >= 2 then Some(manager) else None)
    && row.video == (if i >= 3 then Some(video) else None)
    && EventDetailsOk(row)
  }

  predicate TokenOk(first: Record, manager: Uuid, video: string, token: Token) {
    && token.identity == first.identity && token.operation == first.operation
    && token.manager == Some(manager) && token.video == Some(video) && NonceOk(token.nonce)
  }

  predicate ClocksOk(events: seq<Record>, startedAt: int, expiresAt: int) {
    && (forall i :: 0 <= i < |events| ==> startedAt <= events[i].utc < expiresAt)
    && (forall i, j :: 0 <= i < j < |events| ==> events[i].mono < events[j].mono && events[i].utc <= events[j].utc)
  }

  /** A journal that proves the recovery. */
  predicate Accepts(j: Journal) {
    && |j.events| == 12
    && var first := j.events[0];
       && IdentityProves(first.identity)
       && first.operation != 0
       && j.events[2].manager.Some? && j.events[2].manager.value != 0
       && j.events[3].video.Some? && PlatformVideoId(j.events[3].video.value)
       && var manager, video := j.events[2].manager.value, j.events[3].video.value;
          && (forall i :: 0 <= i < 12 ==> RowOk(first, manager, video, i, j.events[i]))
          && ClocksOk(j.events, first.identity.startedAt, first.identity.expiresAt)
          && |j.consumed| == 1 && TokenOk(first, manager, video, j.consumed[0])
  }

  /** The clocks of a longer list: those of its front, and the last reading against the one before. */
  lemma ClocksNext(events: seq<Record>, i: nat, startedAt: int, expiresAt: int)
    requires i < |events|
    ensures ClocksOk(events[..i + 1], startedAt, expiresAt) <==>
            && ClocksOk(events[..i], startedAt, expiresAt)
            && (if i == 0 then startedAt <= events[0].utc
                else events[i - 1].utc <= events[i].utc && events[i - 1].mono < events[i].mono)
            && events[i].utc < expiresAt
    ensures ClocksOk(events, startedAt, expiresAt) ==> ClocksOk(events[..i + 1], startedAt, expiresAt)
  {
    var some, more := events[..i], events[..i + 1];
    assert forall k :: 0 <= k < i ==> some[k] == more[k] == events[k];
    assert more[i] == events[i];
  }

  /** The check as it runs, one pass with the previous clock readings. */
  method CheckJournal(j: Journal) returns (ok: bool)
    ensures ok <==> Accepts(j)
  {
    hide RowOk;
    hide TokenOk;
    hide IdentityProves;
    hide PlatformVideoId;
    assert ClocksOk([], 0, 0);
    if |j.events| != 12 { return false; }
    var first := j.events[0];
    if !IdentityProves(first.identity) || first.operation == 0 { return false; }
    if j.events[2].manager.None? || j.events[2].manager.value == 0 { return false; }
    if j.events[3].video.None? || !PlatformVideoId(j.events[3].video.value) { return false; }
    var manager, video := j.events[2].manager.value, j.events[3].video.value;
    var previousMono: Option<int>, previousUtc := None, first.identity.startedAt;
    for i := 0 to 12
      invariant previousMono == if i == 0 then None else Some(j.events[i - 1].mono)
      invariant previousUtc == if i == 0 then first.identity.startedAt else j.events[i - 1].utc
      invariant forall k :: 0 <= k < i ==> RowOk(first, manager, video, k, j.events[k])
      invariant ClocksOk(j.events[..i], first.identity.startedAt, first.identity.expiresAt)
    {
      var row := j.events[i];
      ClocksNext(j.events, i, first.identity.startedAt, first.identity.expiresAt);
      if !RowOk(first, manager, video, i, row) { return false; }
      if (previousMono.Some? && row.mono <= previousMono.value)
         || row.utc < previousUtc || row.utc >= first.identity.expiresAt
      {
        return false;
      }
      previousMono, previousUtc := Some(row.mono), row.utc;
    }
    assert j.events[..12] == j.events;
    return |j.consumed| == 1 && TokenOk(first, manager, video, j.consumed[0]);
  }
}
