/**
 The crontab of a control host: two framed blocks between foreign lines. The extractor
 takes the blocks out and returns the rest; recovery moves the marker block to the end.
 */
module ControlCrontab {
  import opened Common

  // ----- byte-string search as the program uses it -----

  predicate Occurs(s: string, b: string, i: nat) {
    i + |b| <= |s| && s[i..i + |b|] == b
  }

  /** The first occurrence at or after `from`; None when there is none. */
  function Find(s: string, b: string, from: nat): (r: Option<nat>)
    requires from <= |s|
    ensures r.Some? ==> from <= r.value && Occurs(s, b, r.value)
    ensures forall i :: from <= i && (r.Some? ==> i < r.value) ==> !Occurs(s, b, i)
    decreases |s| - from
  {
    if Occurs(s, b, from) then Some(from)
    else if from == |s| then None
    else Find(s, b, from + 1)
  }

  /** Occurrences counted from the left without overlap. */
  function Count(s: string, b: string): nat
    requires b != ""
    decreases |s|
  {
    var at := Find(s, b, 0);
    if at.None? then 0 else 1 + Count(s[at.value + |b|..], b)
  }

  function Cut(s: string, i: nat, n: nat): string
    requires i + n <= |s|
  {
    s[..i] + s[i + n..]
  }

  /** The text without its first occurrence of `b`. */
  function RemoveFirst(s: string, b: string): string {
    var at := Find(s, b, 0);
    if at.None? then s else Cut(s, at.value, |b|)
  }

  predicate Contains(s: string, token: string) {
    Find(s, token, 0).Some?
  }

  // ----- the two blocks -----

  /** A framed block: a begin line and an end line with the same title, and command lines between them. */
  datatype Block = Block(title: string, lines: string) {
    function Text(): (t: string)
      ensures t != ""
    {
      "# BEGIN " + title + "\n" + lines + "# END " + title + "\n"
    }
  }

  const MARKER_TITLE := "VIDEOPROCESS WORKER " + "REDIS MARKER CONTROL"
  const STAGING_TITLE := "VIDEOPROCESS " + "STAGING JANITOR"

  predicate PathChar(c: char) {
    'A' <= c <= 'Z' || 'a' <= c <= 'z' || '0' <= c <= '9' || c == '_' || c == '.' || c == '/' || c == '-'
  }

  predicate RootOk(root: string) {
    |root| > 1 && root[0] == '/' && forall i :: 0 <= i < |root| ==> PathChar(root[i])
  }

  const MARKER_SCRIPT := "worker-redis-marker-control.sh"
  const STAGING_SCRIPT := "vp-staging-object-" + "janitor-run.sh"

  function Join(parts: seq<string>): string {
    if parts == [] then "" else parts[0] + Join(parts[1..])
  }

  function MarkerCommand(root: string): seq<string> {
    ["VP_WORKER_REDIS_MARKER_CONFIG_FILE=", root, "/state/worker-redis-marker-control", "/control.conf ",
     "VP_WORKER_REDIS_MARKER_STATE_DIR=", root, "/state/worker-redis-marker-control", "/status ",
     "VP_WORKER_REDIS_MARKER_LOCK_DIR=", root, "/state/worker-redis-marker-control", "/locks ",
     root, "/bin/", MARKER_SCRIPT]
  }

  function MarkerLines(root: string): seq<string> {
    ["* * * * * "] + MarkerCommand(root) + [" readiness >> ", root, "/logs/worker-redis-marker-",
                                            "readiness.log 2>&1\n"]
    + ["*/5 * * * * "] + MarkerCommand(root) + [" janitor >> ", root, "/logs/worker-redis-marker-",
                                                "janitor.log 2>&1\n"]
  }

  function StagingLines(root: string): seq<string> {
    ["*/5 * * * * ", "VP_STAGING_JANITOR_CONFIG_FILE=", root, "/state/vp-worker-admission/",
     "staging-object-janitor.conf ",
     root, "/bin/", STAGING_SCRIPT, " >> ", root, "/logs/vp-staging-object-", "janitor.log 2>&1\n"]
  }

  function Marker(root: string): Block {
    Block(MARKER_TITLE, Join(MarkerLines(root)))
  }

  function Staging(root: string): Block {
    Block(STAGING_TITLE, Join(StagingLines(root)))
  }

  const TOKENS: seq<string> := [STAGING_TITLE, MARKER_TITLE, STAGING_SCRIPT, MARKER_SCRIPT]

  const MAX_BYTES := 1_048_576

  // ----- the extractor -----

  /** One block taken out; None unless it occurs once and at the start of a line. */
  function TakeOut(s: string, block: string): Option<string>
    requires block != ""
  {
    var at := Find(s, block, 0);
    if at.None? || Count(s, block) != 1 || (at.value > 0 && s[at.value - 1] != '\n') then None
    else Some(Cut(s, at.value, |block|))
  }

  predicate FramedText(cron: string) {
    0 < |cron| <= MAX_BYTES && cron[|cron| - 1] == '\n'
  }

  predicate Clean(foreign: string) {
    forall i :: 0 <= i < |TOKENS| ==> !Contains(foreign, TOKENS[i])
  }

  /** The foreign part of a crontab; None when the extractor refuses it. */
  function Foreign(cron: string, root: string): Option<string> {
    if !FramedText(cron) then None
    else
      var rest := TakeOut(cron, Marker(root).Text());
      if rest.None? then None
      else
        var foreign := TakeOut(rest.value, Staging(root).Text());
        if foreign.None? || !Clean(foreign.value) then None else foreign
  }

  /** What recovery rebuilds: the same crontab with the marker block moved to its end. */
  function MarkerLast(cron: string, root: string): string {
    RemoveFirst(cron, Marker(root).Text()) + Marker(root).Text()
  }

  method ExtractForeign(cron: string, root: string) returns (r: Option<string>)
    ensures r == Foreign(cron, root)
  {
    hide Marker;
    hide Staging;
    hide TakeOut;
    hide Contains;
    if !FramedText(cron) { return None; }
    var foreign := cron;
    var blocks := [Marker(root).Text(), Staging(root).Text()];
    for k := 0 to 2
      invariant k == 0 ==> foreign == cron
      invariant k == 1 ==> TakeOut(cron, Marker(root).Text()) == Some(foreign)
      invariant k == 2 ==> TakeOut(cron, Marker(root).Text()).Some?
                           && TakeOut(TakeOut(cron, Marker(root).Text()).value, Staging(root).Text()) == Some(foreign)
    {
      var rest := TakeOut(foreign, blocks[k]);
      if rest.None? { return None; }
      foreign := rest.value;
    }
    for k := 0 to |TOKENS|
      invariant forall j :: 0 <= j < k ==> !Contains(foreign, TOKENS[j])
    {
      if Contains(foreign, TOKENS[k]) { return None; }
    }
    return Some(foreign);
  }

  // ----- blocks cannot overlap -----

  predicate HashFree(s: string) {
    forall i :: 0 <= i < |s| ==> s[i] != '#'
  }

  lemma RootHashFree(root: string)
    requires RootOk(root)
    ensures HashFree(root)
  {
  }

  lemma TitlesHashFree()
    ensures HashFree(MARKER_TITLE) && HashFree(STAGING_TITLE)
  {
    assert HashFree("VIDEOPROCESS WORKER ") && HashFree("REDIS MARKER CONTROL") && HashFree("VIDEOPROCESS ");
  }

  lemma ConfigHashFree()
    ensures HashFree("VP_WORKER_REDIS_MARKER_CONFIG_FILE=") && HashFree("/control.conf ")
    ensures HashFree("/state/worker-redis-marker-control")
  {
  }

  lemma StatusHashFree()
    ensures HashFree("VP_WORKER_REDIS_MARKER_STATE_DIR=") && HashFree("/status ")
    ensures HashFree("VP_WORKER_REDIS_MARKER_LOCK_DIR=") && HashFree("/locks ")
  {
  }

  lemma ScriptHashFree()
    ensures HashFree("/bin/") && HashFree(MARKER_SCRIPT) && HashFree(STAGING_SCRIPT)
  {
  }

  lemma LogHashFree()
    ensures HashFree("* * * * * ") && HashFree(" readiness >> ") && HashFree("readiness.log 2>&1\n")
    ensures HashFree("*/5 * * * * ") && HashFree(" janitor >> ") && HashFree("janitor.log 2>&1\n")
    ensures HashFree("/logs/worker-redis-marker-")
  {
  }

  lemma StagingHashFree()
    ensures HashFree("VP_STAGING_JANITOR_CONFIG_FILE=") && HashFree("/state/vp-worker-admission/")
    ensures HashFree("staging-object-janitor.conf ") && HashFree(" >> ") && HashFree("/logs/vp-staging-object-")
  {
  }

  predicate AllHashFree(parts: seq<string>) {
    forall k :: 0 <= k < |parts| ==> HashFree(parts[k])
  }

  lemma {:induction false} JoinHashFree(parts: seq<string>)
    requires AllHashFree(parts)
    ensures HashFree(Join(parts))
  {
    if parts != [] {
      JoinHashFree(parts[1..]);
    }
  }

  lemma CommandHashFree(root: string)
    requires HashFree(root)
    ensures AllHashFree(MarkerCommand(root))
  {
    ConfigHashFree();
    StatusHashFree();
    ScriptHashFree();
    hide HashFree;
  }

  lemma LinesHashFree(root: string)
    requires RootOk(root)
    ensures AllHashFree(MarkerLines(root)) && AllHashFree(StagingLines(root))
  {
    RootHashFree(root);
    CommandHashFree(root);
    LogHashFree();
    StagingHashFree();
    ScriptHashFree();
    hide HashFree;
    hide MarkerCommand;
  }

  ghost predicate BlockOk(b: Block) {
    HashFree(b.title) && HashFree(b.lines)
  }

  lemma BlocksOk(root: string)
    requires RootOk(root)
    ensures BlockOk(Marker(root)) && BlockOk(Staging(root))
  {
    TitlesHashFree();
    LinesHashFree(root);
    JoinHashFree(MarkerLines(root));
    JoinHashFree(StagingLines(root));
    hide MarkerLines;
    hide StagingLines;
    hide Join;
    hide HashFree;
  }

  /** Where the end line of a block begins. */
  function EndAt(b: Block): nat {
    9 + |b.title| + |b.lines|
  }

  lemma HashOnlyAtFrames(b: Block, i: nat)
    requires BlockOk(b) && 0 < i < |b.Text()|
    ensures i == EndAt(b) ==> i + 2 < |b.Text()| && b.Text()[i + 2] == 'E'
    ensures i != EndAt(b) ==> b.Text()[i] != '#'
  {
    var t := b.Text();
    if 8 <= i < 8 + |b.title| {
      assert t[i] == b.title[i - 8];
    } else if 9 + |b.title| <= i < EndAt(b) {
      assert t[i] == b.lines[i - 9 - |b.title|];
    } else if EndAt(b) + 6 <= i < EndAt(b) + 6 + |b.title| {
      assert t[i] == b.title[i - EndAt(b) - 6];
    }
  }

  lemma CharOf(s: string, b: string, i: nat, k: nat)
    requires Occurs(s, b, i) && k < |b|
    ensures s[i + k] == b[k]
  {
    assert s[i + k] == s[i..i + |b|][k];
  }

  /** No block begins inside another one, nor inside a copy of itself. */
  lemma NoOverlap(s: string, x: Block, y: Block, i: nat, j: nat)
    requires BlockOk(x) && Occurs(s, x.Text(), i) && i < j < i + |x.Text()|
    ensures !Occurs(s, y.Text(), j)
  {
    var d := j - i;
    assert Occurs(s, y.Text(), j) ==>
        s[j] == s[j..j + |y.Text()|][0] == '#' && s[j + 2] == s[j..j + |y.Text()|][2] == 'B';
    assert s[j] == s[i..i + |x.Text()|][d];
    HashOnlyAtFrames(x, d);
    if d == EndAt(x) {
      assert s[j + 2] == s[i..i + |x.Text()|][d + 2];
    }
  }

  /** The two blocks differ in the first word of their titles. */
  lemma BlocksDiffer(s: string, root: string, i: nat)
    requires Occurs(s, Staging(root).Text(), i)
    ensures !Occurs(s, Marker(root).Text(), i)
  {
    var m, g := Marker(root).Text(), Staging(root).Text();
    hide Join;
    assert MARKER_TITLE[13] == 'W' && STAGING_TITLE[13] == 'S';
    assert m[21] == 'W' && g[21] == 'S';
    CharOf(s, g, i, 21);
    if Occurs(s, m, i) {
      CharOf(s, m, i, 21);
    }
  }

  // ----- moving the marker block -----

  /** A block beside a cut-out stretch leaves its title behind. */
  lemma TitleSurvives(s: string, b: Block, p: nat, q: nat, n: nat)
    requires Occurs(s, b.Text(), p) && q + n <= |s| && (p + |b.Text()| <= q || q + n <= p)
    ensures Occurs(Cut(s, q, n), b.title, (if p < q then p else p - n) + 8)
  {
    var rest := Cut(s, q, n);
    var at := if p < q then p else p - n;
    var t := b.Text();
    forall k | 0 <= k < |b.title|
      ensures rest[at + 8 + k] == b.title[k]
    {
      CharOf(s, t, p, 8 + k);
      assert t[8 + k] == b.title[k];
    }
  }

  /** Where the staging block is and only foreign text remains, there is no marker block. */
  lemma NoMarkerLeft(rest: string, root: string, q: nat, p: nat)
    requires RootOk(root) && Occurs(rest, Staging(root).Text(), q)
    requires Clean(Cut(rest, q, |Staging(root).Text()|))
    ensures !Occurs(rest, Marker(root).Text(), p)
  {
    hide Marker;
    hide Staging;
    var m, g := Marker(root), Staging(root);
    BlocksOk(root);
    MarkerTitle(root);
    if p == q {
      BlocksDiffer(rest, root, q);
    } else if q < p < q + |g.Text()| {
      NoOverlap(rest, g, m, q, p);
    } else if Occurs(rest, m.Text(), p) {
      if q < p + |m.Text()| && p < q {
        NoOverlap(rest, m, g, p, q);
      } else {
        TitleSurvives(rest, m, p, q, |g.Text()|);
      }
    }
  }

  lemma MarkerTitle(root: string)
    ensures Marker(root).title == TOKENS[1] == MARKER_TITLE
  {
    hide Join;
  }

  /** A block put into a text. */
  function Insert(rest: string, block: string, p: nat): string
    requires p <= |rest|
  {
    rest[..p] + block + rest[p..]
  }

  lemma InsertedText(rest: string, t: string, p: nat)
    requires p <= |rest|
    ensures Occurs(Insert(rest, t, p), t, p) && Cut(Insert(rest, t, p), p, |t|) == rest
  {
    var s := Insert(rest, t, p);
    assert s[p..p + |t|] == t;
    assert s[..p] == rest[..p] && s[p + |t|..] == rest[p..];
    assert rest[..p] + rest[p..] == rest;
  }

  /** An occurrence beside an inserted stretch was there before. */
  lemma OccursBeside(rest: string, t: string, p: nat, j: nat)
    requires p <= |rest| && Occurs(Insert(rest, t, p), t, j) && (j + |t| <= p || p + |t| <= j)
    ensures Occurs(rest, t, if j < p then j else j - |t|)
  {
    var s, at := Insert(rest, t, p), if j < p then j else j - |t|;
    forall k | 0 <= k < |t|
      ensures rest[at + k] == t[k]
    {
      CharOf(s, t, j, k);
      InsertedChar(rest, t, p, j + k);
    }
    assert rest[at..at + |t|] == t;
  }

  lemma InsertedChar(rest: string, t: string, p: nat, m: nat)
    requires p <= |rest| && m < |rest| + |t|
    ensures |Insert(rest, t, p)| == |rest| + |t|
    ensures m < p ==> Insert(rest, t, p)[m] == rest[m]
    ensures p + |t| <= m ==> Insert(rest, t, p)[m] == rest[m - |t|]
  {
  }

  lemma InsertedAtEnd(rest: string, t: string)
    ensures Insert(rest, t, |rest|) == rest + t
  {
  }

  lemma OnlyAt(s: string, t: string, p: nat)
    requires t != "" && Occurs(s, t, p) && forall j :: j != p ==> !Occurs(s, t, j)
    ensures Find(s, t, 0) == Some(p) && Count(s, t) == 1
  {
    var rest := s[p + |t|..];
    forall k: nat | Occurs(rest, t, k)
      ensures false
    {
      assert s[p + |t| + k..p + |t| + k + |t|] == rest[k..k + |t|];
      assert Occurs(s, t, p + |t| + k);
    }
    assert Find(rest, t, 0).None?;
  }

  /** Put anywhere into a text without it, a block is found once, where it was put. */
  lemma FoundWhereInserted(rest: string, b: Block, p: nat)
    requires BlockOk(b) && p <= |rest| && forall j :: !Occurs(rest, b.Text(), j)
    ensures var s, t := Insert(rest, b.Text(), p), b.Text();
            Find(s, t, 0) == Some(p) && Count(s, t) == 1 && Cut(s, p, |t|) == rest
  {
    var s, t := Insert(rest, b.Text(), p), b.Text();
    InsertedText(rest, t, p);
    hide Insert;
    hide Count;
    hide Find;
    forall j: nat | j != p
      ensures !Occurs(s, t, j)
    {
      if Occurs(s, t, j) {
        if j < p < j + |t| {
          NoOverlap(s, b, b, j, p);
        } else if p < j < p + |t| {
          NoOverlap(s, b, b, p, j);
        } else {
          OccursBeside(rest, t, p, j);
        }
      }
    }
    OnlyAt(s, t, p);
  }

  /** Put after a text without it, a block is found once, at the end. */
  lemma FoundAtEnd(rest: string, b: Block)
    requires BlockOk(b) && forall p :: !Occurs(rest, b.Text(), p)
    ensures Find(rest + b.Text(), b.Text(), 0) == Some(|rest|)
    ensures Count(rest + b.Text(), b.Text()) == 1
    ensures Cut(rest + b.Text(), |rest|, |b.Text()|) == rest
  {
    hide Find;
    hide Count;
    hide Occurs;
    hide Insert;
    hide Cut;
    hide BlockOk;
    InsertedAtEnd(rest, b.Text());
    FoundWhereInserted(rest, b, |rest|);
  }

  // ----- what the extractor accepts -----

  /** `cron` is `rest` with the block put in at the start of a line. */
  predicate Inserted(cron: string, rest: string, block: string, p: nat) {
    p <= |rest| && (p == 0 || rest[p - 1] == '\n') && cron == Insert(rest, block, p)
  }

  /** Foreign text: both blocks put into `foreign`, the staging block first. */
  predicate Framed(cron: string, foreign: string, root: string, rest: string, p: nat, q: nat) {
    Inserted(cron, rest, Marker(root).Text(), p) && Inserted(rest, foreign, Staging(root).Text(), q)
  }

  lemma TakenOut(s: string, block: string)
    requires block != "" && TakeOut(s, block).Some?
    ensures var at := Find(s, block, 0); at.Some? && Inserted(s, TakeOut(s, block).value, block, at.value)
    ensures Occurs(s, block, Find(s, block, 0).value)
    ensures TakeOut(s, block).value == Cut(s, Find(s, block, 0).value, |block|)
  {
    var at := Find(s, block, 0).value;
    var rest := TakeOut(s, block).value;
    assert rest[..at] == s[..at] && rest[at..] == s[at + |block|..];
    assert s == s[..at] + s[at..at + |block|] + s[at + |block|..];
  }

  lemma PutIn(rest: string, b: Block, p: nat, s: string)
    requires BlockOk(b) && Inserted(s, rest, b.Text(), p) && forall j :: !Occurs(rest, b.Text(), j)
    ensures TakeOut(s, b.Text()) == Some(rest)
  {
    FoundWhereInserted(rest, b, p);
    hide Find;
    hide Count;
    assert p > 0 ==> s[p - 1] == rest[p - 1];
  }

  lemma BlockHasTitle(s: string, b: Block, p: nat)
    requires Occurs(s, b.Text(), p)
    ensures Occurs(s, b.title, p + 8)
  {
    TitleSurvives(s, b, p, |s|, 0);
    assert Cut(s, |s|, 0) == s;
  }

  /** Clean text holds neither block. */
  lemma CleanHasNoBlock(foreign: string, b: Block, k: nat, j: nat)
    requires Clean(foreign) && k < |TOKENS| && b.title == TOKENS[k]
    ensures !Occurs(foreign, b.Text(), j)
  {
    assert !Contains(foreign, TOKENS[k]);
    if Occurs(foreign, b.Text(), j) {
      BlockHasTitle(foreign, b, j);
    }
  }

  lemma StagingTitle(root: string)
    ensures Staging(root).title == TOKENS[0] == STAGING_TITLE
  {
    hide Join;
  }

  lemma FramedIsTaken(cron: string, foreign: string, root: string, rest: string, p: nat, q: nat)
    requires RootOk(root) && Clean(foreign) && Framed(cron, foreign, root, rest, p, q)
    ensures TakeOut(cron, Marker(root).Text()) == Some(rest) && TakeOut(rest, Staging(root).Text()) == Some(foreign)
  {
    BlocksOk(root);
    StagingTitle(root);
    hide Marker;
    hide Staging;
    hide TakeOut;
    var m, g := Marker(root), Staging(root);
    forall j
      ensures !Occurs(foreign, g.Text(), j)
    {
      CleanHasNoBlock(foreign, g, 0, j);
    }
    PutIn(foreign, g, q, rest);
    InsertedText(foreign, g.Text(), q);
    forall j
      ensures !Occurs(rest, m.Text(), j)
    {
      NoMarkerLeft(rest, root, q, j);
    }
    PutIn(rest, m, p, cron);
  }

  /** The text nowhere speaks of either block, by its title or by its script. */
  ghost predicate Unrelated(foreign: string) {
    forall i :: 0 <= i < |foreign| ==>
      && !Occurs(foreign, STAGING_TITLE, i) && !Occurs(foreign, STAGING_SCRIPT, i)
      && !Occurs(foreign, MARKER_TITLE, i) && !Occurs(foreign, MARKER_SCRIPT, i)
  }

  lemma FoundWithin(s: string, token: string)
    requires token != ""
    ensures Contains(s, token) <==> exists i :: 0 <= i < |s| && Occurs(s, token, i)
  {
    var at := Find(s, token, 0);
    if at.Some? {
      assert Occurs(s, token, at.value);
    }
  }

  lemma CleanMeans(foreign: string)
    ensures Clean(foreign) <==> Unrelated(foreign)
  {
    assert TOKENS[0] == STAGING_TITLE && TOKENS[1] == MARKER_TITLE;
    assert TOKENS[2] == STAGING_SCRIPT && TOKENS[3] == MARKER_SCRIPT;
    forall k | 0 <= k < |TOKENS|
      ensures Contains(foreign, TOKENS[k]) <==> exists i :: 0 <= i < |foreign| && Occurs(foreign, TOKENS[k], i)
    {
      FoundWithin(foreign, TOKENS[k]);
    }
    hide Contains;
    hide Occurs;
  }

  lemma ForeignIsFramed(cron: string, root: string, foreign: string) returns (rest: string, p: nat, q: nat)
    requires Foreign(cron, root) == Some(foreign)
    ensures FramedText(cron) && Clean(foreign) && Framed(cron, foreign, root, rest, p, q)
  {
    hide Marker;
    hide Staging;
    hide TakeOut;
    hide Clean;
    var m, g := Marker(root).Text(), Staging(root).Text();
    rest := TakeOut(cron, m).value;
    TakenOut(cron, m);
    TakenOut(rest, g);
    p, q := Find(cron, m, 0).value, Find(rest, g, 0).value;
    hide Find;
  }

  lemma FramedIsForeign(cron: string, foreign: string, root: string, rest: string, p: nat, q: nat)
    requires RootOk(root) && FramedText(cron) && Clean(foreign) && Framed(cron, foreign, root, rest, p, q)
    ensures Foreign(cron, root) == Some(foreign)
  {
    hide Clean;
    FramedIsTaken(cron, foreign, root, rest, p, q);
    hide Framed;
    hide TakeOut;
    hide Marker;
    hide Staging;
  }

  /**
   The extractor takes exactly the crontabs of at most a mebibyte, ending in a line break, that
   arise from an unrelated text by putting in the staging block and then the marker block, each
   at the start of a line, and it returns that text.
   */
  lemma ForeignMeans(cron: string, root: string, foreign: string)
    requires RootOk(root)
    ensures Foreign(cron, root) == Some(foreign) <==>
            && 0 < |cron| <= 1024 * 1024 && cron[|cron| - 1] == '\n'
            && Unrelated(foreign) && exists rest, p, q :: Framed(cron, foreign, root, rest, p, q)
  {
    CleanMeans(foreign);
    hide Unrelated;
    hide Clean;
    hide Framed;
    hide Foreign;
    if Foreign(cron, root) == Some(foreign) {
      var rest, p, q := ForeignIsFramed(cron, root, foreign);
    }
    if FramedText(cron) && Clean(foreign) {
      forall rest, p, q | Framed(cron, foreign, root, rest, p, q)
        ensures Foreign(cron, root) == Some(foreign)
      {
        FramedIsForeign(cron, foreign, root, rest, p, q);
      }
    }
  }

  /** The text before a block taken out of a crontab ends a line, and so does the text after it. */
  lemma RestIsFramed(cron: string, block: string)
    requires block != "" && FramedText(cron) && TakeOut(cron, block).Some? && TakeOut(cron, block).value != ""
    ensures FramedText(TakeOut(cron, block).value)
    ensures |TakeOut(cron, block).value| + |block| == |cron|
  {
    var at := Find(cron, block, 0).value;
    var rest := TakeOut(cron, block).value;
    if at + |block| == |cron| {
      assert rest == cron[..at];
    } else {
      assert rest[|rest| - 1] == cron[|cron| - 1];
    }
  }

  /** Moving the marker block to the end of an accepted crontab gives an accepted crontab with the same foreign text. */
  lemma MovingKeepsForeign(cron: string, root: string)
    requires RootOk(root) && Foreign(cron, root).Some?
    ensures |MarkerLast(cron, root)| == |cron|
    ensures Foreign(MarkerLast(cron, root), root) == Foreign(cron, root)
  {
    hide Marker;
    hide Staging;
    hide Clean;
    hide Occurs;
    hide Count;
    var m, g := Marker(root).Text(), Staging(root).Text();
    var rest := TakeOut(cron, m).value;
    var at := Find(rest, g, 0).value;
    BlocksOk(root);
    forall p
      ensures !Occurs(rest, m, p)
    {
      NoMarkerLeft(rest, root, at, p);
    }
    FoundAtEnd(rest, Marker(root));
    assert rest != "" by { NonEmptyRest(rest, g, at); }
    RestIsFramed(cron, m);
    assert MarkerLast(cron, root) == rest + m;
    assert m[|m| - 1] == '\n';
  }

  lemma NonEmptyRest(s: string, b: string, i: nat)
    requires Occurs(s, b, i) && b != ""
    ensures s != ""
  {
  }

  /** Moving twice is moving once. */
  lemma MovingIsIdempotent(cron: string, root: string)
    requires RootOk(root) && Foreign(cron, root).Some?
    ensures MarkerLast(MarkerLast(cron, root), root) == MarkerLast(cron, root)
  {
    hide Marker;
    hide Staging;
    hide Clean;
    hide Occurs;
    hide Count;
    var m, g := Marker(root).Text(), Staging(root).Text();
    var rest := TakeOut(cron, m).value;
    var at := Find(rest, g, 0).value;
    BlocksOk(root);
    forall p
      ensures !Occurs(rest, m, p)
    {
      NoMarkerLeft(rest, root, at, p);
    }
    FoundAtEnd(rest, Marker(root));
    assert MarkerLast(cron, root) == rest + m;
  }
}
