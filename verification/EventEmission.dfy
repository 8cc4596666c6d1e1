/**
 Worker events and task acknowledgement. A delivery prepares its event in the database,
 sends it through a script that appends to the stream once per emission, marks it emitted
 and then acknowledges its task. Reconcilers send prepared emissions of their own lease too,
 and the orchestrator marks what it reads from the stream. Replies and commits may be lost,
 a process may stop anywhere, and a lease may lapse or be superseded at any time.
 */
module EventEmission {
  import opened Common

  type ProcId = nat
  type EmissionId = nat
  type AttestationId = nat
  type MessageId = nat
  type Service = nat

  /** A registration: each new one of a service takes the next epoch. */
  datatype Lease = Lease(service: Service, epoch: nat)

  /** The latest epoch of a service, and whether its lease has neither lapsed nor been revoked. */
  datatype LeaseState = LeaseState(epoch: nat, active: bool)

  /** Whether the node is still claimed: by a running job, suspended by a channel or schedule, or over. */
  datatype Standing = Standing | Suspended | Ended

  /** What an attestation recorded: the lease it was made under and the state of its node's claim. */
  datatype Claim = Claim(lease: Lease, standing: Standing)

  datatype EventType = NodeCompleted | NodeFailed

  datatype Event = Event(kind: EventType, details: string)

  datatype RowState = Prepared | Emitted(message: MessageId) | Resolved(message: MessageId)

  /** An emission row: one for each task attestation, under the lease that prepared it. */
  datatype Row = Row(attestation: AttestationId, lease: Lease, event: Event, state: RowState)

  datatype StreamEntry = StreamEntry(emission: EmissionId, event: Event)

  datatype Role = Delivery(attestation: AttestationId) | Reconciler

  datatype Pc =
    | Running                                      // nothing prepared by this process
    | Sending(emission: EmissionId)                // between attempts
    | Loaded(emission: EmissionId, event: Event)   // in a transaction that locks the row
    | Appended(emission: EmissionId, message: MessageId)
    | Marked(emission: EmissionId, message: MessageId)
    | Sent(emission: EmissionId, message: MessageId)
    | Acknowledged(emission: EmissionId, message: MessageId)

  /** A process with its lease, and the event a delivery has prepared. */
  datatype Proc = Proc(role: Role, lease: Lease, pc: Pc, event: Option<Event>)

  /** Message ids are stream positions: the script lets the stream choose a new id. */
  datatype State = State(
    rows: map<EmissionId, Row>,
    stream: seq<StreamEntry>,
    keys: map<EmissionId, MessageId>,
    procs: map<ProcId, Proc>,
    acked: set<AttestationId>,
    leases: map<Service, LeaseState>,
    claims: map<AttestationId, Claim>)

  datatype Step =
    | Start(id: ProcId, role: Role, lease: Lease)
    | Prepare(id: ProcId, event: Event, newId: EmissionId, reported: bool)
    | Pick(id: ProcId, emission: EmissionId)
    | Load(id: ProcId)
    | Append(id: ProcId, reported: bool)
    | Mark(id: ProcId)
    | Commit(id: ProcId, reported: bool)
    | Rollback(id: ProcId)
    | GiveUp(id: ProcId)
    | Acknowledge(id: ProcId)
    | Die(id: ProcId)
    | Observe(message: MessageId)                         // the orchestrator reads an entry
    | ResolveRow(emission: EmissionId, accepted: bool)    // and acknowledges it, and the task where it was accepted
    | Register(service: Service)
    | Lapse(service: Service)
    | SetClaim(attestation: AttestationId, standing: Standing)

  /** Steps of the database and the orchestrator rather than of a worker process. */
  predicate OfWorld(step: Step) {
    step.Observe? || step.ResolveRow? || step.Register? || step.Lapse? || step.SetClaim?
  }

  /** The lease is the latest of its service and still active. */
  predicate Current(s: State, lease: Lease) {
    lease.service in s.leases && s.leases[lease.service] == LeaseState(lease.epoch, true)
  }

  /** What every function of the database demands of a worker: its lease is current and its claim on the node stands. */
  predicate MayAct(s: State, lease: Lease, a: AttestationId) {
    Current(s, lease) && a in s.claims && s.claims[a] == Claim(lease, Standing)
  }

  function At(s: State, id: ProcId, pc: Pc): State
    requires id in s.procs
  {
    s.(procs := s.procs[id := s.procs[id].(pc := pc)])
  }

  predicate LocksRow(p: Proc, e: EmissionId) {
    match p.pc
    case Loaded(x, _) => x == e
    case Appended(x, _) => x == e
    case Marked(x, _) => x == e
    case _ => false
  }

  predicate RowFree(s: State, e: EmissionId) {
    forall p :: p in s.procs ==> !LocksRow(s.procs[p], e)
  }

  function RowOf(s: State, a: AttestationId): set<EmissionId> {
    set e | e in s.rows && s.rows[e].attestation == a
  }

  function Committed(s: State, id: ProcId, e: EmissionId, event: Event): State
    requires id in s.procs
  {
    s.(procs := s.procs[id := s.procs[id].(pc := Sending(e), event := Some(event))])
  }

  /** Insert unless the attestation has its row; then demand the very same event. */
  function PrepareRow(s: State, id: ProcId, a: AttestationId, event: Event, newId: EmissionId, reported: bool): State
    requires id in s.procs
  {
    var lease := s.procs[id].lease;
    if !MayAct(s, lease, a) || a in s.acked then s
    else if RowOf(s, a) == {} then
      if newId in s.rows then s
      else
        var n := s.(rows := s.rows[newId := Row(a, lease, event, Prepared)]);
        if reported then Committed(n, id, newId, event) else n
    else if newId in RowOf(s, a) && s.rows[newId].event == event && s.rows[newId].lease == lease && reported
    then Committed(s, id, newId, event)
    else s
  }

  /** The script: an emission that has a key is answered from it, any other is appended and keyed in one step. */
  function AppendOnce(s: State, e: EmissionId, event: Event): (r: (State, MessageId)) {
    if e in s.keys then (s, s.keys[e])
    else (s.(stream := s.stream + [StreamEntry(e, event)], keys := s.keys[e := |s.stream|]), |s.stream|)
  }

  function MarkEmitted(s: State, e: EmissionId, message: MessageId): State
    requires e in s.rows
  {
    s.(rows := s.rows[e := s.rows[e].(state := Emitted(message))])
  }

  /** A prepared row that nobody has locked, of a process that may act on it. */
  predicate MayLoad(s: State, p: Proc, e: EmissionId) {
    && e in s.rows && s.rows[e].state.Prepared? && RowFree(s, e)
    && s.rows[e].lease == p.lease && MayAct(s, p.lease, s.rows[e].attestation) && s.rows[e].attestation !in s.acked
  }

  /** Whether some transaction works under the lease, which holds off its replacement. */
  predicate LeaseShared(s: State, lease: Lease) {
    exists p :: p in s.procs && s.procs[p].lease == lease
        && (s.procs[p].pc.Loaded? || s.procs[p].pc.Appended? || s.procs[p].pc.Marked?)
  }

  predicate ClaimFree(s: State, a: AttestationId) {
    forall e :: e in s.rows && s.rows[e].attestation == a ==> RowFree(s, e)
  }

  /** An attestation belongs to the lease it was first made under. */
  function Attest(s: State, a: AttestationId, lease: Lease): Option<State> {
    if !Current(s, lease) then None
    else if a !in s.claims then Some(s.(claims := s.claims[a := Claim(lease, Standing)]))
    else if s.claims[a] == Claim(lease, Standing) then Some(s)
    else None
  }

  function StartProc(s: State, id: ProcId, role: Role, lease: Lease): State {
    if id in s.procs then s
    else
      var started := s.procs[id := Proc(role, lease, Running, None)];
      if role.Reconciler? then s.(procs := started)
      else
        var n := Attest(s, role.attestation, lease);
        if n.None? then s else n.value.(procs := started)
  }

  /** The orchestrator marks a prepared row with the message it has read; the lease need only have existed. */
  function ObserveEntry(s: State, m: MessageId): State {
    if m >= |s.stream| then s
    else
      var e := s.stream[m].emission;
      if e in s.rows && s.rows[e].state.Prepared? && RowFree(s, e) then MarkEmitted(s, e, m) else s
  }

  function Resolve(s: State, e: EmissionId, accepted: bool): State {
    if e in s.rows && s.rows[e].state.Emitted? && RowFree(s, e) then
      s.(rows := s.rows[e := s.rows[e].(state := Resolved(s.rows[e].state.message))],
         acked := if accepted then s.acked + {s.rows[e].attestation} else s.acked)
    else s
  }

  function WorldNext(s: State, step: Step): State
    requires OfWorld(step)
  {
    match step
    case Observe(m) => ObserveEntry(s, m)
    case ResolveRow(e, accepted) => Resolve(s, e, accepted)
    case Register(service) =>
      if service !in s.leases then s.(leases := s.leases[service := LeaseState(1, true)])
      else if LeaseShared(s, Lease(service, s.leases[service].epoch)) then s
      else s.(leases := s.leases[service := LeaseState(s.leases[service].epoch + 1, true)])
    case Lapse(service) =>
      if service in s.leases then s.(leases := s.leases[service := s.leases[service].(active := false)]) else s
    case SetClaim(a, standing) =>
      if a in s.claims && !s.claims[a].standing.Ended? && ClaimFree(s, a)
      then s.(claims := s.claims[a := s.claims[a].(standing := standing)])
      else s
  }

  function ProcNext(s: State, p: Proc, step: Step): State
    requires !OfWorld(step) && step.id in s.procs && p == s.procs[step.id]
  {
    match step
    case Start(id, role, lease) => s
    case Prepare(id, event, newId, reported) =>
      if p.role.Delivery? && p.pc.Running? then PrepareRow(s, id, p.role.attestation, event, newId, reported) else s
    case Pick(id, e) =>
      if p.role.Reconciler? && p.pc.Running? && MayLoad(s, p, e) then At(s, id, Sending(e)) else s
    case Load(id) =>
      if p.pc.Sending? && MayLoad(s, p, p.pc.emission)
      then At(s, id, Loaded(p.pc.emission, s.rows[p.pc.emission].event))
      else s
    case Append(id, reported) =>
      if !p.pc.Loaded? then s
      else
        var (n, message) := AppendOnce(s, p.pc.emission, p.pc.event);
        At(n, id, if reported then Appended(p.pc.emission, message) else Sending(p.pc.emission))
    case Mark(id) =>
      if p.pc.Appended? && p.pc.emission in s.rows && MayAct(s, p.lease, s.rows[p.pc.emission].attestation)
      then At(s, id, Marked(p.pc.emission, p.pc.message))
      else s
    case Commit(id, reported) =>
      if p.pc.Marked? && p.pc.emission in s.rows
      then At(MarkEmitted(s, p.pc.emission, p.pc.message), id,
              if reported then Sent(p.pc.emission, p.pc.message) else Sending(p.pc.emission))
      else s
    case Rollback(id) =>
      if p.pc.Loaded? || p.pc.Appended? || p.pc.Marked? then At(s, id, Sending(p.pc.emission)) else s
    case GiveUp(id) =>
      if p.pc.Sending? then At(s, id, Running) else s
    case Acknowledge(id) =>
      if p.role.Delivery? && p.pc.Sent? && MayAct(s, p.lease, p.role.attestation)
      then At(s, id, Acknowledged(p.pc.emission, p.pc.message)).(acked := s.acked + {p.role.attestation})
      else s
    case Die(id) => s.(procs := s.procs - {id})
  }

  function Next(s: State, step: Step): State {
    if OfWorld(step) then WorldNext(s, step)
    else if step.Start? then StartProc(s, step.id, step.role, step.lease)
    else if step.id !in s.procs then s
    else ProcNext(s, s.procs[step.id], step)
  }

  function Run(s: State, steps: seq<Step>): State
    decreases |steps|
  {
    if steps == [] then s else Run(Next(s, steps[0]), steps[1..])
  }

  const EMPTY: State := State(map[], [], map[], map[], {}, map[], map[])

  // ----- the invariant -----

  /** The keys and the stream agree, both ways. */
  predicate Keyed(s: State) {
    && (forall e :: e in s.keys ==> s.keys[e] < |s.stream| && s.stream[s.keys[e]].emission == e)
    && (forall i :: 0 <= i < |s.stream| ==> s.stream[i].emission in s.keys && s.keys[s.stream[i].emission] == i)
  }

  predicate RowsOk(s: State) {
    && (forall i :: 0 <= i < |s.stream| ==>
        s.stream[i].emission in s.rows && s.stream[i].event == s.rows[s.stream[i].emission].event)
    && (forall e :: e in s.rows && !s.rows[e].state.Prepared? ==> e in s.keys && s.keys[e] == s.rows[e].state.message)
    && (forall e, f :: e in s.rows && f in s.rows && s.rows[e].attestation == s.rows[f].attestation ==> e == f)
  }

  predicate ProcOk(s: State, p: Proc) {
    match p.pc
    case Running => true
    case Sending(e) => OwnRow(s, p, e)
    case Loaded(e, event) =>
      e in s.rows && s.rows[e].event == event && s.rows[e].state.Prepared? && OwnRow(s, p, e)
    case Appended(e, m) => e in s.keys && s.keys[e] == m && e in s.rows && s.rows[e].state.Prepared? && OwnRow(s, p, e)
    case Marked(e, m) => e in s.keys && s.keys[e] == m && e in s.rows && s.rows[e].state.Prepared? && OwnRow(s, p, e)
    case Sent(e, m) => e in s.keys && s.keys[e] == m && e in s.rows && !s.rows[e].state.Prepared? && OwnRow(s, p, e)
    case Acknowledged(e, m) =>
      && e in s.keys && s.keys[e] == m && OwnRow(s, p, e)
      && (p.role.Delivery? ==> p.role.attestation in s.acked)
  }

  /** A delivery sends its own attestation's emission, with the event it prepared. */
  predicate OwnRow(s: State, p: Proc, e: EmissionId) {
    p.role.Delivery? ==> e in s.rows && s.rows[e].attestation == p.role.attestation && p.event == Some(s.rows[e].event)
  }

  ghost predicate ProcsOk(s: State) {
    && (forall p :: p in s.procs ==> ProcOk(s, s.procs[p]))
    && (forall p, q, e :: p in s.procs && q in s.procs && LocksRow(s.procs[p], e) && LocksRow(s.procs[q], e) ==> p == q)
  }

  predicate AckedOk(s: State) {
    forall a :: a in s.acked ==> exists e :: e in s.rows && s.rows[e].attestation == a && !s.rows[e].state.Prepared?
  }

  predicate Issued(s: State, lease: Lease) {
    lease.service in s.leases && lease.epoch <= s.leases[lease.service].epoch
  }

  /** A row was prepared under its attestation's lease, and every lease was issued. */
  predicate LeasesOk(s: State) {
    && (forall a :: a in s.claims ==> Issued(s, s.claims[a].lease))
    && (forall e :: e in s.rows ==>
        s.rows[e].attestation in s.claims && s.claims[s.rows[e].attestation].lease == s.rows[e].lease)
  }

  ghost predicate Sound(s: State) {
    Keyed(s) && RowsOk(s) && ProcsOk(s) && AckedOk(s) && LeasesOk(s)
  }

  // ----- every step keeps it -----

  /** Preparing touches the rows and the process that prepares, which it may bring to sending. */
  lemma PrepareMoves(s: State, step: Step)
    requires step.Prepare? && step.id in s.procs && s.procs[step.id].role.Delivery?
    ensures var n := PrepareRow(s, step.id, s.procs[step.id].role.attestation, step.event, step.newId, step.reported);
            && n == s.(rows := n.rows, procs := n.procs)
            && step.id in n.procs && n.procs == s.procs[step.id := n.procs[step.id]]
            && (n.procs[step.id] == s.procs[step.id] || n.procs[step.id].pc.Sending?)
  {
    hide MayAct;
    hide RowOf;
    assert s.procs[step.id := s.procs[step.id]] == s.procs;
  }

  /** Keys and stream grow by nothing, or by the event a process has loaded. */
  lemma StreamMoves(s: State, step: Step)
    ensures var n := Next(s, step);
            || (n.stream == s.stream && n.keys == s.keys)
            || (&& step.Append? && step.id in s.procs && s.procs[step.id].pc.Loaded?
                && var e := s.procs[step.id].pc.emission;
                && e !in s.keys && n.keys == s.keys[e := |s.stream|]
                && n.stream == s.stream + [StreamEntry(e, s.procs[step.id].pc.event)])
  {
    hide PrepareRow;
    hide MayLoad;
    hide MayAct;
    hide RowFree;
    hide RowOf;
    hide ClaimFree;
    hide LeaseShared;
    if step.Prepare? && step.id in s.procs && s.procs[step.id].role.Delivery? {
      PrepareMoves(s, step);
    }
  }

  /** The row a delivery inserts. */
  predicate Inserts(s: State, step: Step, rows: map<EmissionId, Row>) {
    && step.Prepare? && step.id in s.procs && s.procs[step.id].role.Delivery? && step.newId !in s.rows
    && var p := s.procs[step.id];
    && RowOf(s, p.role.attestation) == {} && MayAct(s, p.lease, p.role.attestation) && p.role.attestation !in s.acked
    && rows == s.rows[step.newId := Row(p.role.attestation, p.lease, step.event, Prepared)]
  }

  predicate Marks(s: State, step: Step, e: EmissionId, m: MessageId) {
    || (step.Commit? && step.id in s.procs && s.procs[step.id].pc == Marked(e, m))
    || (step == Observe(m) && m < |s.stream| && s.stream[m].emission == e && e in s.rows && s.rows[e].state.Prepared?
        && RowFree(s, e))
  }

  predicate Resolves(s: State, step: Step, e: EmissionId) {
    step.ResolveRow? && step.emission == e && e in s.rows && s.rows[e].state.Emitted? && RowFree(s, e)
  }

  lemma PrepareInserts(s: State, step: Step)
    requires step.Prepare? && step.id in s.procs && s.procs[step.id].role.Delivery?
    ensures var rows := PrepareRow(s, step.id, s.procs[step.id].role.attestation, step.event, step.newId,
                                   step.reported).rows;
            rows == s.rows || Inserts(s, step, rows)
  {
    hide MayAct;
    hide RowOf;
  }

  /** One row is inserted, marked or resolved, or none. */
  ghost predicate RowMoved(s: State, step: Step, rows: map<EmissionId, Row>) {
    || rows == s.rows
    || Inserts(s, step, rows)
    || (exists e, m :: Marks(s, step, e, m) && e in s.rows && rows == s.rows[e := s.rows[e].(state := Emitted(m))])
    || (exists e :: Resolves(s, step, e) && rows == s.rows[e := s.rows[e].(state := Resolved(s.rows[e].state.message))])
  }

  lemma RowsMove(s: State, step: Step)
    ensures RowMoved(s, step, Next(s, step).rows)
  {
    hide PrepareRow;
    hide RowFree;
    hide MayAct;
    hide MayLoad;
    hide ClaimFree;
    hide LeaseShared;
    match step {
      case Prepare(id, event, newId, reported) =>
        if id in s.procs && s.procs[id].role.Delivery? {
          PrepareInserts(s, step);
        }
      case Commit(id, reported) =>
        if id in s.procs && s.procs[id].pc.Marked? {
          assert Marks(s, step, s.procs[id].pc.emission, s.procs[id].pc.message);
        }
      case Observe(m) =>
        if m < |s.stream| && Next(s, step) != s {
          assert Marks(s, step, s.stream[m].emission, m);
        }
      case ResolveRow(e, accepted) =>
        if Next(s, step) != s {
          assert Resolves(s, step, e);
        }
      case _ =>
    }
  }

  lemma KeysKept(s: State, step: Step)
    requires Keyed(s)
    ensures Keyed(Next(s, step))
  {
    hide Next;
    StreamMoves(s, step);
  }

  /** Rows keep their attestation, lease and event, keys their message, and a row that left `prepared` stays so. */
  lemma Grows(s: State, step: Step)
    ensures var n := Next(s, step);
            && (forall e :: e in s.rows ==>
                  && e in n.rows && n.rows[e].attestation == s.rows[e].attestation && n.rows[e].lease == s.rows[e].lease
                  && n.rows[e].event == s.rows[e].event)
            && (forall e :: e in s.keys ==> e in n.keys && n.keys[e] == s.keys[e])
            && s.stream <= n.stream
            && (forall e :: e in s.rows && !s.rows[e].state.Prepared? ==> !n.rows[e].state.Prepared?)
  {
    hide Next;
    hide RowFree;
    hide RowOf;
    StreamMoves(s, step);
    RowsMove(s, step);
  }

  lemma AckedGrows(s: State, step: Step)
    ensures s.acked <= Next(s, step).acked
  {
    hide PrepareRow;
    hide MayLoad;
    hide MayAct;
    hide RowFree;
    hide ClaimFree;
    hide LeaseShared;
    if step.Prepare? && step.id in s.procs && s.procs[step.id].role.Delivery? {
      PrepareMoves(s, step);
    }
  }

  lemma StreamRowsKept(s: State, step: Step)
    requires Sound(s)
    ensures var n := Next(s, step);
            forall i :: 0 <= i < |n.stream| ==>
                n.stream[i].emission in n.rows && n.stream[i].event == n.rows[n.stream[i].emission].event
  {
    hide AckedOk;
    hide Keyed;
    hide LeasesOk;
    hide Next;
    Grows(s, step);
    if step.Append? && step.id in s.procs {
      assert ProcOk(s, s.procs[step.id]);
    }
    StreamMoves(s, step);
  }

  /** A row out of `prepared` was out of it before with the same message, or is marked now. */
  lemma RowCame(s: State, step: Step, e: EmissionId)
    requires e in Next(s, step).rows && !Next(s, step).rows[e].state.Prepared?
    ensures e in s.rows
    ensures || (!s.rows[e].state.Prepared? && s.rows[e].state.message == Next(s, step).rows[e].state.message)
            || Marks(s, step, e, Next(s, step).rows[e].state.message)
  {
    hide Next;
    hide RowFree;
    hide RowOf;
    RowsMove(s, step);
  }

  lemma MarksTheKey(s: State, step: Step, e: EmissionId, m: MessageId)
    requires Sound(s) && Marks(s, step, e, m)
    ensures e in s.keys && s.keys[e] == m
  {
    hide AckedOk;
    hide LeasesOk;
    hide RowFree;
    if step.Commit? {
      assert ProcOk(s, s.procs[step.id]);
    }
  }

  lemma EmittedRowsKept(s: State, step: Step)
    requires Sound(s)
    ensures var n := Next(s, step);
            forall e :: e in n.rows && !n.rows[e].state.Prepared? ==>
                e in n.keys && n.keys[e] == n.rows[e].state.message
  {
    hide AckedOk;
    hide LeasesOk;
    hide ProcsOk;
    hide Keyed;
    hide Marks;
    hide Next;
    var n := Next(s, step);
    StreamMoves(s, step);
    forall e | e in n.rows && !n.rows[e].state.Prepared?
      ensures e in n.keys && n.keys[e] == n.rows[e].state.message
    {
      RowCame(s, step, e);
      if Marks(s, step, e, n.rows[e].state.message) {
        MarksTheKey(s, step, e, n.rows[e].state.message);
      }
    }
  }

  lemma AttestationsKept(s: State, step: Step)
    requires RowsOk(s)
    ensures var n := Next(s, step);
            forall e, f :: e in n.rows && f in n.rows && n.rows[e].attestation == n.rows[f].attestation ==> e == f
  {
    hide RowFree;
    hide Next;
    RowsMove(s, step);
    if step.Prepare? && step.id in s.procs && s.procs[step.id].role.Delivery? {
      assert forall e :: e in s.rows && s.rows[e].attestation == s.procs[step.id].role.attestation ==>
          e in RowOf(s, s.procs[step.id].role.attestation);
    }
  }

  // ----- leases and claims -----

  /** No step of a process but its start touches leases and claims. */
  lemma ProcsLeaveLeases(s: State, step: Step)
    requires !OfWorld(step) && !step.Start?
    ensures Next(s, step).leases == s.leases && Next(s, step).claims == s.claims
  {
    hide PrepareRow;
    hide RowFree;
    hide RowOf;
    hide MayLoad;
    hide MayAct;
    if step.Prepare? && step.id in s.procs && s.procs[step.id].role.Delivery? {
      PrepareMoves(s, step);
    }
  }

  /** Epochs only rise, a lapsed lease is never active again, and an attestation keeps its lease. */
  lemma LeasesMove(s: State, step: Step)
    ensures var n := Next(s, step);
            && (forall lease :: Issued(s, lease) ==> Issued(n, lease) && (Current(n, lease) ==> Current(s, lease)))
            && (forall a :: a in s.claims ==>
                  && a in n.claims && n.claims[a].lease == s.claims[a].lease
                  && (s.claims[a].standing.Ended? ==> n.claims[a].standing.Ended?))
            && (forall a :: a in n.claims && a !in s.claims ==>
                Current(s, n.claims[a].lease) && Current(n, n.claims[a].lease))
  {
    hide ProcNext;
    hide RowFree;
    hide LeaseShared;
    hide ClaimFree;
    if !OfWorld(step) && !step.Start? {
      ProcsLeaveLeases(s, step);
    }
  }

  lemma LeasesKept(s: State, step: Step)
    requires LeasesOk(s)
    ensures LeasesOk(Next(s, step))
  {
    hide Next;
    RowsMove(s, step);
    LeasesMove(s, step);
    var n := Next(s, step);
    forall a | a in n.claims
      ensures Issued(n, n.claims[a].lease)
    {
      if a in s.claims {
        assert Issued(s, s.claims[a].lease);
      }
    }
    forall e | e in n.rows
      ensures n.rows[e].attestation in n.claims && n.claims[n.rows[e].attestation].lease == n.rows[e].lease
    {
      RowOrigin(s, step, e);
    }
    hide Issued;
    hide RowMoved;
  }

  /** A row was there before with the same attestation and lease, or is inserted under its attestation's lease. */
  lemma RowOrigin(s: State, step: Step, e: EmissionId)
    requires e in Next(s, step).rows
    ensures var r := Next(s, step).rows[e];
            if e in s.rows then s.rows[e].attestation == r.attestation && s.rows[e].lease == r.lease
            else r.attestation in s.claims && s.claims[r.attestation].lease == r.lease
  {
    hide Next;
    hide RowFree;
    hide RowOf;
    RowsMove(s, step);
  }

  /** A step of one process leaves the others and the rows they have locked alone. */
  lemma OthersStand(s: State, step: Step, p: ProcId)
    requires Sound(s) && p in s.procs && (OfWorld(step) || step.id != p)
    ensures var n := Next(s, step);
            && p in n.procs && n.procs[p] == s.procs[p]
            && (forall e :: e in s.rows && LocksRow(s.procs[p], e) ==> e in n.rows && n.rows[e] == s.rows[e])
  {
    hide AckedOk;
    hide RowsOk;
    hide Keyed;
    hide LeasesOk;
    RowsMove(s, step);
    ProcsMove(s, step, p);
    hide Next;
    if step.Commit? && step.id in s.procs {
      assert forall e :: LocksRow(s.procs[p], e) ==> !LocksRow(s.procs[step.id], e);
    }
  }

  lemma ProcsMove(s: State, step: Step, p: ProcId)
    requires OfWorld(step) || step.id != p
    ensures p in Next(s, step).procs <==> p in s.procs
    ensures p in s.procs ==> Next(s, step).procs[p] == s.procs[p]
  {
    hide PrepareRow;
    hide RowFree;
    hide RowOf;
    hide MayLoad;
    hide MayAct;
    hide LeaseShared;
    hide ClaimFree;
    if step.Prepare? && step.id in s.procs && s.procs[step.id].role.Delivery? {
      PrepareMoves(s, step);
    }
  }

  lemma OtherKept(s: State, step: Step, p: ProcId)
    requires Sound(s) && p in s.procs && (OfWorld(step) || step.id != p)
    ensures p in Next(s, step).procs && ProcOk(Next(s, step), Next(s, step).procs[p])
  {
    hide AckedOk;
    hide Keyed;
    hide RowsOk;
    hide Next;
    OthersStand(s, step, p);
    AckedGrows(s, step);
    Grows(s, step);
    assert ProcOk(s, s.procs[p]);
  }

  predicate Transmits(step: Step) {
    step.Append? || step.Mark? || step.Commit? || step.Acknowledge?
  }

  lemma AppenderKept(s: State, step: Step)
    requires Sound(s) && step.Append? && step.id in Next(s, step).procs
    ensures ProcOk(Next(s, step), Next(s, step).procs[step.id])
  {
    hide LeasesOk;
    hide AckedOk;
    if step.id in s.procs {
      assert ProcOk(s, s.procs[step.id]);
    }
    hide ProcsOk;
    hide RowsOk;
  }

  lemma SenderKept(s: State, step: Step)
    requires Sound(s) && Transmits(step) && step.id in Next(s, step).procs
    ensures ProcOk(Next(s, step), Next(s, step).procs[step.id])
  {
    hide PrepareRow;
    hide MayLoad;
    hide MayAct;
    hide RowFree;
    hide LeasesOk;
    hide AckedOk;
    if step.Append? {
      AppenderKept(s, step);
      hide Next;
    } else if step.id in s.procs {
      assert ProcOk(s, s.procs[step.id]);
      hide AppendOnce;
    }
    hide ProcsOk;
    hide RowsOk;
    hide Keyed;
  }

  lemma StarterKept(s: State, step: Step)
    requires Sound(s) && !Transmits(step) && !OfWorld(step) && step.id in Next(s, step).procs
    ensures ProcOk(Next(s, step), Next(s, step).procs[step.id])
  {
    hide AckedOk;
    hide RowFree;
    if step.id in s.procs {
      assert ProcOk(s, s.procs[step.id]);
    }
    hide ProcsOk;
    hide RowsOk;
  }

  /** A process comes to lock a row only by loading it while it is free. */
  lemma LockComes(s: State, step: Step, e: EmissionId)
    requires !OfWorld(step) && step.id in Next(s, step).procs && LocksRow(Next(s, step).procs[step.id], e)
    ensures step.id in s.procs
    ensures LocksRow(s.procs[step.id], e)
            || (step.Load? && s.procs[step.id].pc == Sending(e) && MayLoad(s, s.procs[step.id], e))
  {
    hide PrepareRow;
    hide RowFree;
    hide MayAct;
    if step.Prepare? && step.id in s.procs && s.procs[step.id].role.Delivery? {
      PrepareMoves(s, step);
    }
  }

  lemma LocksKept(s: State, step: Step)
    requires Sound(s)
    ensures var n := Next(s, step);
            forall p, q, e :: p in n.procs && q in n.procs && LocksRow(n.procs[p], e) && LocksRow(n.procs[q], e) ==>
                p == q
  {
    hide AckedOk;
    hide RowsOk;
    hide Keyed;
    hide LeasesOk;
    hide Next;
    hide MayAct;
    var n := Next(s, step);
    forall p, q, e | p in n.procs && q in n.procs && LocksRow(n.procs[p], e) && LocksRow(n.procs[q], e)
      ensures p == q
    {
      if OfWorld(step) || step.id != p {
        ProcsMove(s, step, p);
      } else {
        LockComes(s, step, e);
      }
      if OfWorld(step) || step.id != q {
        ProcsMove(s, step, q);
      } else {
        LockComes(s, step, e);
      }
    }
  }

  lemma AckedMoves(s: State, step: Step, a: AttestationId)
    requires Sound(s) && a in Next(s, step).acked && a !in s.acked
    ensures exists e :: e in s.rows && s.rows[e].attestation == a && !s.rows[e].state.Prepared?
  {
    hide AckedOk;
    hide Keyed;
    hide RowsOk;
    hide LeasesOk;
    hide MayLoad;
    hide MayAct;
    hide RowFree;
    hide RowOf;
    hide ClaimFree;
    hide LeaseShared;
    if step.Acknowledge? && step.id in s.procs {
      assert ProcOk(s, s.procs[step.id]);
    }
  }

  lemma AckedKept(s: State, step: Step)
    requires Sound(s)
    ensures AckedOk(Next(s, step))
  {
    var n := Next(s, step);
    hide Next;
    Grows(s, step);
    forall a | a in n.acked
      ensures exists e :: e in n.rows && n.rows[e].attestation == a && !n.rows[e].state.Prepared?
    {
      if a !in s.acked {
        AckedMoves(s, step, a);
      }
      var e :| e in s.rows && s.rows[e].attestation == a && !s.rows[e].state.Prepared?;
      assert e in n.rows;
    }
  }

  lemma StepKeeps(s: State, step: Step)
    requires Sound(s)
    ensures Sound(Next(s, step))
  {
    KeysKept(s, step);
    StreamRowsKept(s, step);
    EmittedRowsKept(s, step);
    AttestationsKept(s, step);
    LocksKept(s, step);
    AckedKept(s, step);
    LeasesKept(s, step);
    forall p | p in Next(s, step).procs
      ensures ProcOk(Next(s, step), Next(s, step).procs[p])
    {
      if !OfWorld(step) && step.id == p {
        if Transmits(step) {
          SenderKept(s, step);
        } else {
          StarterKept(s, step);
        }
      } else {
        ProcsMove(s, step, p);
        OtherKept(s, step, p);
      }
    }
    hide Next;
    hide Keyed;
    hide AckedOk;
    hide ProcOk;
  }

  lemma {:induction false} RunKeeps(s: State, steps: seq<Step>)
    requires Sound(s)
    ensures Sound(Run(s, steps))
    decreases |steps|
  {
    hide Sound;
    hide Next;
    if steps != [] {
      StepKeeps(s, steps[0]);
      RunKeeps(Next(s, steps[0]), steps[1..]);
    }
  }

  /** What a process learned from the script. */
  predicate Sees(p: Proc, e: EmissionId, m: MessageId) {
    p.pc == Appended(e, m) || p.pc == Marked(e, m) || p.pc == Sent(e, m) || p.pc == Acknowledged(e, m)
  }

  /**
   Exactly-once append. In every run the stream holds at most one entry per emission and at
   most one per task attestation, so never both a completion and a failure of one delivery;
   all processes see the same message id; an emitted row names that entry, which carries the
   row's event; a delivery that has sent finds its own event there; a delivery that has acknowledged
   has its task acknowledged; and an acknowledged task has its event in the stream.
   */
  lemma ExactlyOnce(steps: seq<Step>)
    ensures var s := Run(EMPTY, steps);
            && (forall i, j :: 0 <= i < j < |s.stream| ==> s.stream[i].emission != s.stream[j].emission)
            && (forall i, j :: 0 <= i < j < |s.stream| ==>
                  && s.stream[i].emission in s.rows && s.stream[j].emission in s.rows
                  && s.rows[s.stream[i].emission].attestation != s.rows[s.stream[j].emission].attestation)
            && (forall p, q, e, m, k ::
                  (p in s.procs && q in s.procs && Sees(s.procs[p], e, m) && Sees(s.procs[q], e, k)) ==> m == k)
            && (forall e :: e in s.rows && !s.rows[e].state.Prepared? ==> InStream(s, e, s.rows[e].state.message))
            && (forall p :: p in s.procs && HasSent(s.procs[p]) ==>
                  && s.procs[p].pc.message < |s.stream|
                      && s.stream[s.procs[p].pc.message].emission == s.procs[p].pc.emission
                  && (s.procs[p].role.Delivery? ==> s.procs[p].event == Some(s.stream[s.procs[p].pc.message].event)))
            && (forall p :: p in s.procs && s.procs[p].role.Delivery? && s.procs[p].pc.Acknowledged? ==>
                  s.procs[p].role.attestation in s.acked)
            && (forall a :: a in s.acked ==>
                  exists e :: e in s.rows && s.rows[e].attestation == a && !s.rows[e].state.Prepared?
                              && InStream(s, e, s.rows[e].state.message))
  {
    hide Run;
    assert Sound(EMPTY);
    RunKeeps(EMPTY, steps);
    var s := Run(EMPTY, steps);
    hide Next;
    SeenOnce(s);
    forall p | p in s.procs && HasSent(s.procs[p])
      ensures && s.procs[p].pc.message < |s.stream|
      ensures s.stream[s.procs[p].pc.message].emission == s.procs[p].pc.emission
              && (s.procs[p].role.Delivery? ==> s.procs[p].event == Some(s.stream[s.procs[p].pc.message].event))
    {
      SentIsInStream(s, p);
    }
    forall p | p in s.procs && s.procs[p].role.Delivery? && s.procs[p].pc.Acknowledged?
      ensures s.procs[p].role.attestation in s.acked
    {
      assert ProcOk(s, s.procs[p]);
    }
    forall e | e in s.rows && !s.rows[e].state.Prepared?
      ensures InStream(s, e, s.rows[e].state.message)
    {
      assert e in s.keys;
    }
  }

  predicate HasSent(p: Proc) {
    p.pc.Sent? || p.pc.Acknowledged?
  }

  lemma SentIsInStream(s: State, p: ProcId)
    requires Sound(s) && p in s.procs && HasSent(s.procs[p])
    ensures var q := s.procs[p];
            && q.pc.message < |s.stream| && s.stream[q.pc.message].emission == q.pc.emission
            && (q.role.Delivery? ==> q.event == Some(s.stream[q.pc.message].event))
  {
    hide AckedOk;
    assert ProcOk(s, s.procs[p]);
    hide ProcsOk;
  }

  predicate InStream(s: State, e: EmissionId, m: MessageId) {
    e in s.rows && m < |s.stream| && s.stream[m] == StreamEntry(e, s.rows[e].event)
  }

  lemma SeenOnce(s: State)
    requires Sound(s)
    ensures forall p, q, e, m, k :: p in s.procs && q in s.procs && Sees(s.procs[p], e, m) && Sees(s.procs[q], e, k) ==>
            m == k
  {
    hide AckedOk;
    hide RowsOk;
    hide Keyed;
    forall p, e, m | p in s.procs && Sees(s.procs[p], e, m)
      ensures e in s.keys && s.keys[e] == m
    {
      assert ProcOk(s, s.procs[p]);
    }
  }
}
