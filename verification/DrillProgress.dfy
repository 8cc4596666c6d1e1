/**
 A drill can be finished: a fresh helper on an empty directory, called in order, writes all
 thirteen files with whatever clock readings it gets, and with proper ids and clocks the
 collected journal is accepted.
 */
module DrillProgress {
  import opened Common
  import opened DrillRecords
  import opened DrillHelpers
  import opened DrillSafety
  import opened DrillWorlds
  import opened DrillAgreement

  datatype Reading = Reading(utc: int, mono: int)

  lemma {:induction false} RunAppend(w: World, steps: seq<Step>, step: Step)
    ensures Run(w, steps + [step]) == Next(Run(w, steps), step)
    decreases |steps|
  {
    hide Next;
    if steps == [] {
      assert [step][1..] == [];
      assert steps + [step] == [step];
    } else {
      assert (steps + [step])[1..] == steps[1..] + [step];
      RunAppend(Next(w, steps[0]), steps[1..], step);
    }
  }

  lemma {:induction false} RunConcat(w: World, a: seq<Step>, b: seq<Step>)
    ensures Run(w, a + b) == Run(Run(w, a), b)
    decreases |a|
  {
    hide Next;
    if a == [] {
      assert a + b == b;
    } else {
      assert (a + b)[1..] == a[1..] + b;
      RunConcat(Next(w, a[0]), a[1..], b);
    }
  }

  /** The helper in the middle of a call, between two files, alone in its directory. */
  predicate Between(w: World, id: HelperId) {
    && id in w.helpers && w.helpers[id].active.Some? && w.helpers[id].active.value.staged.None?
    && w.helpers[id].operation.Some?
    && DirectoryIs(w.directory, w.helpers[id].records)
  }

  function AfterWrite(h: Helper, e: Entry): Helper
    requires h.active.Some? && h.active.value.remaining != []
  {
    var a := h.active.value;
    WithActive(h.(records := h.records + [e]), Activity(a.remaining[1..], None, false, false, a.target))
  }

  lemma NewName(h: Helper, directory: map<FileName, Slot>, utc: int, mono: int)
    requires HelperOk(h) && h.active.Some? && h.active.value.staged.None? && h.active.value.remaining != []
    requires h.operation.Some?
    requires DirectoryIs(directory, h.records)
    ensures StageEntry(h, h.active.value.remaining[0], utc, mono).name !in directory
  {
    hide FileOk;
    hide DataOk;
    hide CountsOk;
    hide StageEntry;
    var a := h.active.value;
    var e := StageEntry(h, a.remaining[0], utc, mono);
    var staged := WithActive(h, a.(staged := Some(e), checked := false, created := false));
    StageKeeps(h, utc, mono);
    forall i | 0 <= i < |h.records|
      ensures h.records[i].name != e.name
    {
      StagedIsNew(staged, i);
    }
  }

  /** One file: staged, checked, created and filled. */
  lemma WriteOne(w: World, id: HelperId, utc: int, mono: int) returns (steps: seq<Step>)
    requires Sound(w) && Between(w, id) && w.helpers[id].active.value.remaining != []
    ensures var h := w.helpers[id];
            var e := StageEntry(h, h.active.value.remaining[0], utc, mono);
            && Run(w, steps) == World(w.directory[e.name := Slot(Some(id), Some(e.file))],
                                      w.helpers[id := AfterWrite(h, e)])
            && Between(Run(w, steps), id)
  {
    hide HelperOk;
    hide Owns;
    hide StageEntry;
    var h := w.helpers[id];
    var a := h.active.value;
    var e := StageEntry(h, a.remaining[0], utc, mono);
    NewName(h, w.directory, utc, mono);
    var one, two, three, four := Moving(id, Stage(utc, mono)), Moving(id, Check), Moving(id, Create), Moving(id, Keep);
    var w1 := Next(w, one);
    assert w1 == Put(w, id, WithActive(h, Activity(a.remaining, Some(e), false, false, a.target)));
    var w2 := Next(w1, two);
    assert w2 == Put(w, id, WithActive(h, Activity(a.remaining, Some(e), true, false, a.target)));
    var w3 := Next(w2, three);
    var w4 := Next(w3, four);
    Unrolled(w, one, two, three, four);
    steps := [one, two, three, four];
    FilledDirectory(w.directory, h.records, e, id);
    assert w4 == World(w.directory[e.name := Slot(Some(id), Some(e.file))], w.helpers[id := AfterWrite(h, e)]);
  }

  lemma Unrolled(w: World, one: Step, two: Step, three: Step, four: Step)
    ensures Run(w, [one, two, three, four]) == Next(Next(Next(Next(w, one), two), three), four)
  {
    hide Next;
    RunAppend(w, [], one);
    RunAppend(w, [one], two);
    RunAppend(w, [one, two], three);
    RunAppend(w, [one, two, three], four);
    assert [] + [one] == [one] && [one] + [two] == [one, two] && [one, two] + [three] == [one, two, three];
    assert [one, two, three] + [four] == [one, two, three, four];
  }

  // ----- whole calls -----

  /** Each record carries the reading meant for its place. */
  predicate ReadingsOk(records: seq<Entry>, clocks: seq<Reading>) {
    && |records| <= |clocks|
    && forall i :: 0 <= i < |records| && records[i].file.OfRecord? ==>
         records[i].file.record.utc == clocks[i].utc && records[i].file.record.mono == clocks[i].mono
  }

  predicate SameFacts(h: Helper, n: Helper) {
    && n.identity == h.identity && n.nonce == h.nonce && n.operation == h.operation
    && n.manager == h.manager && n.video == h.video && n.receiptSha == h.receiptSha
  }

  lemma StagedReading(h: Helper, w: Write, utc: int, mono: int)
    requires h.operation.Some?
    ensures var f := StageEntry(h, w, utc, mono).file; f.OfRecord? ==> f.record.utc == utc && f.record.mono == mono
  {
    hide NextNumber;
  }

  lemma {:induction false} WriteRest(w: World, id: HelperId, clocks: seq<Reading>) returns (steps: seq<Step>)
    requires Sound(w) && Between(w, id)
    requires ReadingsOk(w.helpers[id].records, clocks)
    requires |w.helpers[id].records| + |w.helpers[id].active.value.remaining| <= |clocks|
    ensures var n := Run(w, steps);
            && Sound(n) && Between(n, id) && SameFacts(w.helpers[id], n.helpers[id])
            && n.helpers[id].active == Some(Activity([], None, false, false, w.helpers[id].active.value.target))
            && ReadingsOk(n.helpers[id].records, clocks)
    decreases |w.helpers[id].active.value.remaining|
  {
    hide HelperOk;
    hide Owns;
    hide OneOwner;
    hide StageEntry;
    hide DirectoryIs;
    var h := w.helpers[id];
    var a := h.active.value;
    if a.remaining == [] {
      steps := [];
      NotChecked(w, id);
    } else {
      var k := |h.records|;
      var e := StageEntry(h, a.remaining[0], clocks[k].utc, clocks[k].mono);
      StagedReading(h, a.remaining[0], clocks[k].utc, clocks[k].mono);
      var first := WriteOne(w, id, clocks[k].utc, clocks[k].mono);
      RunKeeps(w, first);
      var n := Run(w, first);
      assert n.helpers[id] == AfterWrite(h, e);
      var rest := WriteRest(n, id, clocks);
      RunConcat(w, first, rest);
      steps := first + rest;
    }
  }

  lemma NotChecked(w: World, id: HelperId)
    requires Sound(w) && Between(w, id)
    ensures !w.helpers[id].active.value.checked && !w.helpers[id].active.value.created
  {
    hide FileOk;
    hide Owns;
  }

  /** The helper between two calls, alone in its directory. */
  predicate Standing(w: World, id: HelperId, clocks: seq<Reading>) {
    && Sound(w) && id in w.helpers && w.helpers[id].active.None?
    && DirectoryIs(w.directory, w.helpers[id].records) && ReadingsOk(w.helpers[id].records, clocks)
  }

  lemma CallGoal(h: Helper)
    requires HelperOk(h) && h.active.Some?
    ensures h.operation.Some? && |h.records| + |h.active.value.remaining| <= 13
  {
    hide FileOk;
  }

  /** A call that is taken up can run to its end. */
  lemma CallFinishes(w: World, id: HelperId, call: Call, clocks: seq<Reading>) returns (steps: seq<Step>)
    requires |clocks| == 13 && Standing(w, id, clocks)
    requires Called(w.helpers[id], id, w.directory, call).active.Some?
    requires Called(w.helpers[id], id, w.directory, call).active.value.staged.None?
    ensures var n := Run(w, steps);
            var c := Called(w.helpers[id], id, w.directory, call);
            && Standing(n, id, clocks) && SameFacts(c, n.helpers[id]) && n.helpers[id].phase == c.active.value.target
  {
    hide HelperOk;
    hide Owns;
    hide OneOwner;
    hide DirectoryIs;
    var h := w.helpers[id];
    CallKeeps(h, id, w.directory, call);
    var c := Called(h, id, w.directory, call);
    hide Called;
    var w1 := Next(w, Calling(id, call));
    assert w1 == Put(w, id, c);
    StepKeeps(w, Calling(id, call));
    CallGoal(c);
    var rest := WriteRest(w1, id, clocks);
    var w2 := Run(w1, rest);
    var last := Moving(id, Return);
    StepKeeps(w2, last);
    RunAppend(w, [], Calling(id, call));
    assert [] + [Calling(id, call)] == [Calling(id, call)];
    RunConcat(w, [Calling(id, call)], rest);
    RunAppend(w, [Calling(id, call)] + rest, last);
    steps := [Calling(id, call)] + rest + [last];
  }

  // ----- the whole drill -----

  function FreshHelper(identity: Identity, nonce: string): Helper {
    Helper(identity, nonce, New, [], None, None, None, "", None, 0, 0)
  }

  function Alone(id: HelperId, h: Helper): World {
    World(map[], map[id := h])
  }

  /** The drill up to its injected abort. */
  lemma DrillAborts(w: World, id: HelperId, operation: Uuid, manager: Uuid, video: string, clocks: seq<Reading>)
    returns (steps: seq<Step>)
    requires |clocks| == 13 && Standing(w, id, clocks) && w.helpers[id].phase.New? && AnyVideoId(video)
    ensures var n := Run(w, steps);
            && Standing(n, id, clocks) && n.helpers[id].phase.Aborted?
            && n.helpers[id].identity == w.helpers[id].identity && n.helpers[id].nonce == w.helpers[id].nonce
            && n.helpers[id].operation == Some(operation)
            && n.helpers[id].manager == Some(manager) && n.helpers[id].video == Some(video)
  {
    hide Run;
    hide Standing;
    hide AnyVideoId;
    StandingIdle(w, id, clocks);
    var a := CallFinishes(w, id, Prepare(operation), clocks);
    var w1 := Run(w, a);
    StandingIdle(w1, id, clocks);
    var b := CallFinishes(w1, id, PostAttempt, clocks);
    var w2 := Run(w1, b);
    StandingIdle(w2, id, clocks);
    var c := CallFinishes(w2, id, RecordSubmitted(Canonical(manager)), clocks);
    var w3 := Run(w2, c);
    StandingIdle(w3, id, clocks);
    var d := CallFinishes(w3, id, BeforeReceipt(manager, video), clocks);
    RunConcat(w, a, b);
    RunConcat(w, a + b, c);
    RunConcat(w, a + b + c, d);
    steps := a + b + c + d;
  }

  lemma StandingIdle(w: World, id: HelperId, clocks: seq<Reading>)
    requires Standing(w, id, clocks)
    ensures id in w.helpers && w.helpers[id].active.None?
  {
  }

  lemma AbortAuthentic(w: World, id: HelperId, clocks: seq<Reading>)
    requires Standing(w, id, clocks) && w.helpers[id].phase.Aborted?
    ensures var n := Run(w, [Calling(id, Authenticate(id))]);
            && Standing(n, id, clocks) && n.helpers[id].phase.ResumePending? && SameFacts(w.helpers[id], n.helpers[id])
  {
    hide FileOk;
    hide DirectoryIs;
    hide Owns;
    hide OneOwner;
    NumberSkipsToken(w.helpers[id]);
    hide HasName;
    StepKeeps(w, Calling(id, Authenticate(id)));
    hide HelperOk;
    RunAppend(w, [], Calling(id, Authenticate(id)));
    assert [] + [Calling(id, Authenticate(id))] == [Calling(id, Authenticate(id))];
  }

  /** The recovery after it. */
  lemma DrillRecovers(w: World, id: HelperId, receipt: string, clocks: seq<Reading>) returns (steps: seq<Step>)
    requires |clocks| == 13 && Standing(w, id, clocks) && w.helpers[id].phase.Aborted?
    requires w.helpers[id].manager.Some? && w.helpers[id].video.Some? && AnyVideoId(w.helpers[id].video.value)
    ensures var n := Run(w, steps);
            && Standing(n, id, clocks) && n.helpers[id].phase.Finished?
            && n.helpers[id].identity == w.helpers[id].identity && n.helpers[id].nonce == w.helpers[id].nonce
            && n.helpers[id].operation == w.helpers[id].operation && n.helpers[id].receiptSha == receipt
            && n.helpers[id].manager == w.helpers[id].manager && n.helpers[id].video == w.helpers[id].video
  {
    hide Run;
    hide Standing;
    hide AnyVideoId;
    StandingIdle(w, id, clocks);
    var manager, video := w.helpers[id].manager.value, w.helpers[id].video.value;
    var a := [Calling(id, Authenticate(id))];
    AbortAuthentic(w, id, clocks);
    var w1 := Run(w, a);
    StandingIdle(w1, id, clocks);
    var b := CallFinishes(w1, id, LoadForResume, clocks);
    var w2 := Run(w1, b);
    StandingIdle(w2, id, clocks);
    var c := CallFinishes(w2, id, BeforeReceipt(manager, video), clocks);
    var w3 := Run(w2, c);
    StandingIdle(w3, id, clocks);
    var d := CallFinishes(w3, id, RecordSucceeded(receipt), clocks);
    RunConcat(w, a, b);
    RunConcat(w, a + b, c);
    RunConcat(w, a + b + c, d);
    steps := a + b + c + d;
  }

  /** A fresh helper on an empty directory can be driven to the end. */
  lemma DrillCanFinish(identity: Identity, nonce: string, id: HelperId, operation: Uuid, manager: Uuid, video: string,
                       receipt: string, clocks: seq<Reading>) returns (steps: seq<Step>)
    requires TargetOk(identity) && NonceOk(nonce) && AnyVideoId(video) && |clocks| == 13
    ensures var n := Run(Alone(id, FreshHelper(identity, nonce)), steps);
            && Standing(n, id, clocks) && n.helpers[id].phase.Finished?
            && n.helpers[id].identity == identity && n.helpers[id].nonce == nonce
            && n.helpers[id].receiptSha == receipt && n.helpers[id].operation == Some(operation)
            && n.helpers[id].manager == Some(manager) && n.helpers[id].video == Some(video)
  {
    hide Run;
    hide AnyVideoId;
    var w := Alone(id, FreshHelper(identity, nonce));
    InitialSound(w);
    hide Sound;
    hide TargetOk;
    hide NonceOk;
    var a := DrillAborts(w, id, operation, manager, video, clocks);
    var b := DrillRecovers(Run(w, a), id, receipt, clocks);
    RunConcat(w, a, b);
    steps := a + b;
  }

  /** The place of the i-th event among the thirteen files. */
  function Place(i: nat): nat {
    if i < 6 then i else i + 1
  }

  /** The readings meant for the twelve records advance inside the window. */
  predicate WindowOk(clocks: seq<Reading>, startedAt: int, expiresAt: int)
    requires |clocks| == 13
  {
    && (forall i :: 0 <= i < 12 ==> startedAt <= clocks[Place(i)].utc < expiresAt)
    && (forall i, j :: 0 <= i < j < 12 ==>
        clocks[Place(i)].mono < clocks[Place(j)].mono && clocks[Place(i)].utc <= clocks[Place(j)].utc)
  }

  lemma CollectedReading(w: World, id: HelperId, clocks: seq<Reading>, i: nat)
    requires |clocks| == 13 && Standing(w, id, clocks) && w.helpers[id].phase.Finished? && Complete(w.directory)
    requires i < 12
    ensures Collect(w.directory).events[i].utc == clocks[Place(i)].utc
    ensures Collect(w.directory).events[i].mono == clocks[Place(i)].mono
  {
    hide FileOk;
    hide TargetOk;
    hide OneOwner;
    var h := w.helpers[id];
    ScriptIsEvents(i);
    assert h.records[Place(i)].name == Numbered(i + 1);
    assert HoldsRecord(w.directory, i + 1);
    assert w.directory[Numbered(i + 1)].content == Some(h.records[Place(i)].file);
  }

  lemma WindowClocks(w: World, id: HelperId, clocks: seq<Reading>, startedAt: int, expiresAt: int)
    requires |clocks| == 13 && Standing(w, id, clocks) && w.helpers[id].phase.Finished? && Complete(w.directory)
    requires WindowOk(clocks, startedAt, expiresAt)
    ensures ClocksOk(Collect(w.directory).events, startedAt, expiresAt)
  {
    var events := Collect(w.directory).events;
    forall i | 0 <= i < 12
      ensures events[i].utc == clocks[Place(i)].utc && events[i].mono == clocks[Place(i)].mono
    {
      CollectedReading(w, id, clocks, i);
    }
    hide Collect;
    hide Standing;
    hide Place;
  }

  lemma ShortVideoId(video: string)
    requires PlatformVideoId(video)
    ensures AnyVideoId(video)
  {
  }

  lemma StandingOwns(w: World, id: HelperId, clocks: seq<Reading>)
    requires Standing(w, id, clocks)
    ensures id in w.helpers && HelperOk(w.helpers[id]) && Owns(w.directory, id, w.helpers[id])
  {
    hide HelperOk;
    hide Owns;
    hide DirectoryIs;
  }

  /**
   Armed, with proper ids and clocks, the whole drill yields a journal the check accepts, which
   ends in its receipt.
   */
  lemma EvidenceIsAttainable(identity: Identity, nonce: string, id: HelperId, operation: Uuid, manager: Uuid,
                             video: string,
                             receipt: string, clocks: seq<Reading>) returns (steps: seq<Step>)
    requires IdentityProves(identity) && NonceOk(nonce) && operation != 0 && manager != 0 && PlatformVideoId(video)
    requires |clocks| == 13 && WindowOk(clocks, identity.startedAt, identity.expiresAt)
    ensures var n := Run(Alone(id, FreshHelper(identity, nonce)), steps);
            && Complete(n.directory) && Accepts(Collect(n.directory))
            && Collect(n.directory).events[11].receiptSha == Is(receipt)
  {
    hide Run;
    hide NonceOk;
    hide Standing;
    ShortVideoId(video);
    steps := DrillCanFinish(identity, nonce, id, operation, manager, video, receipt, clocks);
    var n := Run(Alone(id, FreshHelper(identity, nonce)), steps);
    StandingOwns(n, id, clocks);
    hide HelperOk;
    hide Owns;
    hide Accepts;
    Agreement(n.directory, id, n.helpers[id]);
    WindowClocks(n, id, clocks, identity.startedAt, identity.expiresAt);
    hide Collect;
    hide ClocksOk;
    hide PlatformVideoId;
  }

  /** The same with the nil UUID as operation or Manager id: the drill finishes and the check refuses its journal. */
  lemma NilIdIsNoEvidence(identity: Identity, nonce: string, id: HelperId, operation: Uuid, manager: Uuid,
                          video: string,
                          receipt: string, clocks: seq<Reading>) returns (steps: seq<Step>)
    requires IdentityProves(identity) && NonceOk(nonce) && (operation == 0 || manager == 0) && PlatformVideoId(video)
    requires |clocks| == 13 && WindowOk(clocks, identity.startedAt, identity.expiresAt)
    ensures var n := Run(Alone(id, FreshHelper(identity, nonce)), steps);
            id in n.helpers && n.helpers[id].phase.Finished? && Complete(n.directory) && !Accepts(Collect(n.directory))
  {
    hide Run;
    hide NonceOk;
    ShortVideoId(video);
    steps := DrillCanFinish(identity, nonce, id, operation, manager, video, receipt, clocks);
    var n := Run(Alone(id, FreshHelper(identity, nonce)), steps);
    StandingOwns(n, id, clocks);
    hide HelperOk;
    hide Owns;
    hide Accepts;
    Agreement(n.directory, id, n.helpers[id]);
    hide Collect;
    hide ClocksOk;
    hide PlatformVideoId;
  }

  function Ticks(n: nat): seq<Reading> {
    if n == 0 then [] else Ticks(n - 1) + [Reading(n, n)]
  }

  lemma {:induction false} TicksAre(n: nat)
    ensures |Ticks(n)| == n && forall i :: 0 <= i < n ==> Ticks(n)[i] == Reading(i + 1, i + 1)
  {
    if n > 0 {
      TicksAre(n - 1);
    }
  }

  const SOME_IDENTITY: Identity := Identity(1, 2, 3, 4, 5, 6, 1, 0, 100, "unlisted", "",
                                            Some(Arming(1, 2, 3, 4, 5, "")))

  /** Such a drill exists: armed, in its window, with an ordinary operation and the nil Manager id. */
  lemma FinishedIsNotAlwaysEvidence() returns (steps: seq<Step>, nonce: string)
    ensures var n := Run(Alone(0, FreshHelper(SOME_IDENTITY, nonce)), steps);
            0 in n.helpers && n.helpers[0].phase.Finished? && Complete(n.directory) && !Accepts(Collect(n.directory))
  {
    nonce := seq(64, i => '0');
    TicksAre(13);
    hide Ticks;
    steps := NilIdIsNoEvidence(SOME_IDENTITY, nonce, 0, 1, 0, "aaaaaaaaaaa", "", Ticks(13));
  }
}
