/**
 Any number of helpers on one directory: the first file is the one every helper must
 create first, so whoever created it owns every file that was ever created.
 */
module DrillWorlds {
  import opened Common
  import opened DrillRecords
  import opened DrillHelpers
  import opened DrillSafety

  predicate Owns(directory: map<FileName, Slot>, id: HelperId, h: Helper) {
    && (forall i :: 0 <= i < |h.records| ==>
          h.records[i].name in directory && directory[h.records[i].name] == Slot(Some(id), Some(h.records[i].file)))
    && (h.active.Some? && h.active.value.created && h.active.value.staged.Some? ==>
          h.active.value.staged.value.name in directory
          && directory[h.active.value.staged.value.name].owner == Some(id))
  }

  predicate OneOwner(directory: map<FileName, Slot>) {
    forall name :: name in directory && directory[name].owner.Some? ==>
      Numbered(1) in directory && directory[Numbered(1)].owner == directory[name].owner
  }

  predicate Sound(w: World) {
    && OneOwner(w.directory)
    && forall id :: id in w.helpers ==> HelperOk(w.helpers[id]) && Owns(w.directory, id, w.helpers[id])
  }

  lemma MoveKeepsHelper(w: World, id: HelperId, move: Move)
    requires id in w.helpers && HelperOk(w.helpers[id]) && w.helpers[id].active.Some?
    ensures var n := Moved(w, id, w.helpers[id], w.helpers[id].active.value, move);
            id in n.helpers && HelperOk(n.helpers[id])
  {
    hide FileOk;
    hide TargetOk;
    hide NonceOk;
    hide AnyVideoId;
    hide StageEntry;
    var h := w.helpers[id];
    var a := h.active.value;
    match move {
      case Stage(utc, mono) => if a.remaining != [] && a.staged.None? { StageKeeps(h, utc, mono); }
      case Keep => if a.staged.Some? { KeepKeeps(h); }
      case Return => if a.remaining == [] { ReturnKeeps(h); }
      case _ =>
    }
  }

  /** A staged entry is under none of the names the helper has already written. */
  lemma StagedIsNew(h: Helper, i: nat)
    requires HelperOk(h) && h.active.Some? && h.active.value.staged.Some? && i < |h.records|
    ensures h.records[i].name != h.active.value.staged.value.name
  {
    hide FileOk;
    hide DataOk;
  }

  /** A directory that is a helper's own stays so with its next file. */
  lemma FilledDirectory(directory: map<FileName, Slot>, records: seq<Entry>, e: Entry, id: HelperId)
    requires DirectoryIs(directory, records) && e.name !in directory
    ensures DirectoryIs(directory[e.name := Slot(Some(id), Some(e.file))], records + [e])
  {
    var more := records + [e];
    assert more[|records|] == e;
    assert forall i :: 0 <= i < |records| ==> more[i] == records[i] && more[i].name != e.name;
    forall name | name in directory[e.name := Slot(Some(id), Some(e.file))]
      ensures HasName(more, name)
    {
      if name != e.name {
        assert HasName(records, name);
        var i :| 0 <= i < |records| && records[i].name == name;
        assert more[i].name == name;
      }
    }
  }

  /** What a directory goes through in one move of helper `id`: nothing, a new name, or the filling of its own. */
  predicate DirectoryStep(before: map<FileName, Slot>, after: map<FileName, Slot>, id: HelperId, name: FileName) {
    || after == before
    || (name !in before && after == before[name := Slot(Some(id), None)])
    || (name in before && before[name].owner == Some(id)
        && name in after && after[name].owner == Some(id) && after == before[name := after[name]])
  }

  lemma OthersKeep(w: World, n: World, id: HelperId, name: FileName, other: HelperId)
    requires Sound(w) && other in w.helpers && other != id
    requires DirectoryStep(w.directory, n.directory, id, name)
    ensures Owns(n.directory, other, w.helpers[other])
  {
    hide HelperOk;
    hide OneOwner;
  }

  lemma MoveIsDirectoryStep(w: World, id: HelperId, move: Move)
    requires Sound(w) && id in w.helpers && w.helpers[id].active.Some?
    ensures var n := Moved(w, id, w.helpers[id], w.helpers[id].active.value, move);
            var staged := w.helpers[id].active.value.staged;
            DirectoryStep(w.directory, n.directory, id, if staged.Some? then staged.value.name else Consumed)
  {
    hide OneOwner;
    hide HelperOk;
    hide StageEntry;
    hide DirectoryIs;
  }

  lemma StagedIsFirstOrFollows(h: Helper)
    requires HelperOk(h) && h.active.Some? && h.active.value.staged.Some?
    ensures forall i :: 0 <= i < |h.records| ==> h.records[i].name != h.active.value.staged.value.name
    ensures if h.records == [] then h.active.value.staged.value.name == Numbered(1)
            else h.records[0].name == Numbered(1)
  {
    forall i | 0 <= i < |h.records|
      ensures h.records[i].name != h.active.value.staged.value.name
    {
      StagedIsNew(h, i);
    }
    hide FileOk;
    hide DataOk;
    hide CountsOk;
  }

  lemma MoveKeepsOneOwner(w: World, id: HelperId, move: Move)
    requires Sound(w) && id in w.helpers && w.helpers[id].active.Some?
    ensures OneOwner(Moved(w, id, w.helpers[id], w.helpers[id].active.value, move).directory)
  {
    if w.helpers[id].active.value.staged.Some? {
      StagedIsFirstOrFollows(w.helpers[id]);
    }
    hide HelperOk;
    hide StageEntry;
    hide DirectoryIs;
  }

  lemma MoveOwns(w: World, id: HelperId, move: Move)
    requires id in w.helpers && w.helpers[id].active.Some? && Owns(w.directory, id, w.helpers[id])
    requires var h := w.helpers[id];
             h.active.value.staged.Some? ==>
               forall i :: 0 <= i < |h.records| ==> h.records[i].name != h.active.value.staged.value.name
    ensures var n := Moved(w, id, w.helpers[id], w.helpers[id].active.value, move);
            id in n.helpers && Owns(n.directory, id, n.helpers[id])
  {
    hide StageEntry;
    hide DirectoryIs;
  }

  lemma MoveKeepsOwner(w: World, id: HelperId, move: Move)
    requires Sound(w) && id in w.helpers && w.helpers[id].active.Some?
    ensures var n := Moved(w, id, w.helpers[id], w.helpers[id].active.value, move);
            OneOwner(n.directory) && id in n.helpers && Owns(n.directory, id, n.helpers[id])
  {
    hide HelperOk;
    hide OneOwner;
    hide Owns;
    hide Moved;
    if w.helpers[id].active.value.staged.Some? {
      StagedIsFirstOrFollows(w.helpers[id]);
    }
    MoveKeepsOneOwner(w, id, move);
    MoveOwns(w, id, move);
  }

  lemma StepKeeps(w: World, step: Step)
    requires Sound(w)
    ensures Sound(Next(w, step))
  {
    hide HelperOk;
    hide Owns;
    hide OneOwner;
    hide Moved;
    hide Called;
    if step.id in w.helpers {
      var h := w.helpers[step.id];
      match step {
        case Calling(id, call) =>
          if h.active.None? {
            CallKeeps(h, id, w.directory, call);
            CallOwns(w, id, call);
          }
        case Moving(id, move) =>
          if h.active.Some? {
            var n := Moved(w, id, h, h.active.value, move);
            MoveKeepsHelper(w, id, move);
            MoveKeepsOwner(w, id, move);
            MoveIsDirectoryStep(w, id, move);
            MoveFrame(w, id, move);
            forall other | other in w.helpers && other != id
              ensures Owns(n.directory, other, n.helpers[other])
            {
              OthersKeep(w, n, id, if h.active.value.staged.Some? then h.active.value.staged.value.name else Consumed,
                         other);
            }
          }
      }
    }
  }

  lemma MoveFrame(w: World, id: HelperId, move: Move)
    requires id in w.helpers && w.helpers[id].active.Some?
    ensures var n := Moved(w, id, w.helpers[id], w.helpers[id].active.value, move);
            n.helpers.Keys == w.helpers.Keys && forall other :: other in w.helpers && other != id ==>
                n.helpers[other] == w.helpers[other]
  {
  }

  lemma CallOwns(w: World, id: HelperId, call: Call)
    requires Sound(w) && id in w.helpers && w.helpers[id].active.None?
    ensures Owns(w.directory, id, Called(w.helpers[id], id, w.directory, call))
  {
    hide OneOwner;
    hide FileOk;
    CallShape(w.helpers[id], id, w.directory, call);
    hide Called;
  }

  lemma {:induction false} RunKeeps(w: World, steps: seq<Step>)
    requires Sound(w)
    ensures Sound(Run(w, steps))
    decreases |steps|
  {
    hide Sound;
    hide Next;
    if steps != [] {
      StepKeeps(w, steps[0]);
      RunKeeps(Next(w, steps[0]), steps[1..]);
    }
  }

  lemma InitialSound(w: World)
    requires Initial(w)
    ensures Sound(w)
  {
    hide FileOk;
    hide TargetOk;
    hide NonceOk;
  }

  /** What a helper has written, read as writes. */
  predicate WritesScript(h: Helper) {
    && |h.records| <= |SCRIPT|
    && forall i :: 0 <= i < |h.records| ==>
         && h.records[i].name == NameAt(i)
         && match SCRIPT[i]
            case WriteToken => h.records[i].file.OfToken?
            case WriteEvent(e) =>
              h.records[i].file.OfRecord? && h.records[i].file.record.event == e
                  && h.records[i].file.record.sequence == NumberAt(i)
  }

  lemma HelperWritesScript(h: Helper)
    requires HelperOk(h)
    ensures WritesScript(h) && h.aborts <= 1 && h.recoveries <= 1
    ensures h.phase.Finished? ==> h.aborts == h.recoveries == 1
  {
    hide TargetOk;
    hide NonceOk;
    hide AnyVideoId;
    forall i | 0 <= i < |h.records|
      ensures match SCRIPT[i]
              case WriteToken => h.records[i].file.OfToken?
              case WriteEvent(e) =>
                h.records[i].file.OfRecord? && h.records[i].file.record.event == e
                    && h.records[i].file.record.sequence == NumberAt(i)
    {
      assert Fits(h, i, h.records[i].file);
    }
  }

  /**
   Drill safety. Over every run of any helpers on any directory: each helper's files are a
   front part of the script, numbered without a gap around the token; it issued at most one
   abort and began at most one recovery, and exactly one of each when it finished; and no two
   helpers ever wrote a file.
   */
  lemma DrillIsSafe(start: World, steps: seq<Step>)
    requires Initial(start)
    ensures var w := Run(start, steps);
            && (forall id :: id in w.helpers ==>
                  && WritesScript(w.helpers[id]) && w.helpers[id].aborts <= 1 && w.helpers[id].recoveries <= 1
                  && (w.helpers[id].phase.Finished? ==> w.helpers[id].aborts == w.helpers[id].recoveries == 1))
            && (forall a, b :: a in w.directory && b in w.directory
                               && w.directory[a].owner.Some? && w.directory[b].owner.Some? ==>
                  w.directory[a].owner == w.directory[b].owner)
            && (forall i, j ::
                  (i in w.helpers && j in w.helpers && w.helpers[i].records != [] && w.helpers[j].records != []) ==>
                    i == j)
  {
    hide Run;
    hide WritesScript;
    InitialSound(start);
    RunKeeps(start, steps);
    var w := Run(start, steps);
    forall id | id in w.helpers
      ensures WritesScript(w.helpers[id]) && w.helpers[id].aborts <= 1 && w.helpers[id].recoveries <= 1
      ensures w.helpers[id].phase.Finished? ==> w.helpers[id].aborts == w.helpers[id].recoveries == 1
    {
      HelperWritesScript(w.helpers[id]);
    }
    hide HelperOk;
    forall i, j | i in w.helpers && j in w.helpers && w.helpers[i].records != [] && w.helpers[j].records != []
      ensures i == j
    {
      assert w.directory[w.helpers[i].records[0].name].owner == Some(i);
      assert w.directory[w.helpers[j].records[0].name].owner == Some(j);
    }
  }

  /** The script names every event once and the token once, so no helper writes any of them twice. */
  lemma ScriptIsDistinct(i: nat, j: nat)
    requires i < j < |SCRIPT|
    ensures SCRIPT[i] != SCRIPT[j] && NameAt(i) != NameAt(j)
  {
  }

  /** The events of the script, without the token, are the twelve events of the evidence. */
  lemma ScriptIsEvents(i: nat)
    requires i < 12
    ensures SCRIPT[if i < 6 then i else i + 1] == WriteEvent(EVENTS[i])
    ensures NumberAt(if i < 6 then i else i + 1) == i + 1
  {
  }

  /** A failed helper stays as it is for the rest of the run. */
  lemma {:induction false} FailedIsAbsorbing(w: World, id: HelperId, steps: seq<Step>)
    requires id in w.helpers && w.helpers[id].phase.Failed? && w.helpers[id].active.None?
    ensures id in Run(w, steps).helpers && Run(w, steps).helpers[id] == w.helpers[id]
    decreases |steps|
  {
    hide StageEntry;
    hide DirectoryIs;
    if steps != [] {
      FailedIsAbsorbing(Next(w, steps[0]), id, steps[1..]);
    }
  }

  predicate NothingWritten(w: World) {
    forall id :: id in w.helpers ==>
      w.helpers[id].records == [] && (w.helpers[id].active.Some? ==>
                                      !w.helpers[id].active.value.checked && !w.helpers[id].active.value.created)
  }

  /** A directory that already holds a file is never written to. */
  lemma {:induction false} UsedDirectoryIsLeftAlone(w: World, steps: seq<Step>)
    requires w.directory != map[] && NothingWritten(w)
    ensures Run(w, steps).directory == w.directory && NothingWritten(Run(w, steps))
    decreases |steps|
  {
    hide StageEntry;
    if steps != [] {
      UsedStep(w, steps[0]);
      UsedDirectoryIsLeftAlone(Next(w, steps[0]), steps[1..]);
    }
  }

  lemma UsedStep(w: World, step: Step)
    requires w.directory != map[] && NothingWritten(w)
    ensures Next(w, step).directory == w.directory && NothingWritten(Next(w, step))
  {
    hide StageEntry;
    var name :| name in w.directory;
  }
}
