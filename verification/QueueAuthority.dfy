/**
 Which channel a queue item acts for. The answer comes from the tables the item's
 payload points into, by the kind of the item.
 */
module QueueAuthority {
  import opened Common

  type Id = string

  datatype Kind =
    | PlanTask | ExecuteTask | ObserveJob | PublishTask
    | PromotePublication | ReconcilePublication | CollectMetrics
    | AccountHealth
    | AgentTick | LearningRecompute | IngestDiscovery
    | SendAlert
    | CleanupExpired
    | UnknownKind

  /** An id field of a payload. */
  datatype Field = Missing | Malformed | Uuid(id: Id)

  datatype Payload = Payload(task: Field, publication: Field, account: Field, channel: Field)

  datatype Tables = Tables(
    taskChannel: map<Id, Id>, publicationTask: map<Id, Id>, accountChannel: map<Id, Id>, channels: set<Id>)

  datatype Resolution = Invalid | NoChannel | Channel(id: Id)

  function Lookup(m: map<Id, Id>, field: Field): Resolution {
    if field.Uuid? && field.id in m then Channel(m[field.id]) else Invalid
  }

  function KnownChannel(t: Tables, field: Field): Resolution {
    if field.Uuid? && field.id in t.channels then Channel(field.id) else Invalid
  }

  /** The channel of the item; `stored` is the channel column of the item itself. */
  function Resolve(t: Tables, kind: Kind, p: Payload, stored: Option<Id>): Resolution {
    match kind
    case PlanTask => Lookup(t.taskChannel, p.task)
    case ExecuteTask => Lookup(t.taskChannel, p.task)
    case ObserveJob => Lookup(t.taskChannel, p.task)
    case PublishTask => Lookup(t.taskChannel, p.task)
    case PromotePublication => PublicationChannel(t, p)
    case ReconcilePublication => PublicationChannel(t, p)
    case CollectMetrics => PublicationChannel(t, p)
    case AccountHealth => Lookup(t.accountChannel, p.account)
    case AgentTick => KnownChannel(t, p.channel)
    case LearningRecompute => KnownChannel(t, p.channel)
    case IngestDiscovery => KnownChannel(t, p.channel)
    case SendAlert =>
      if !p.channel.Missing? then KnownChannel(t, p.channel)
      else if stored.None? then NoChannel
      else KnownChannel(t, Uuid(stored.value))
    case CleanupExpired => NoChannel
    case UnknownKind => Invalid
  }

  function PublicationChannel(t: Tables, p: Payload): Resolution {
    if p.publication.Uuid? && p.publication.id in t.publicationTask
    then Lookup(t.taskChannel, Uuid(t.publicationTask[p.publication.id]))
    else Invalid
  }

  predicate RequiresOpenIntake(kind: Kind) {
    kind.AgentTick? || kind.IngestDiscovery?
  }

  // ----- what a resolution means -----

  /** The item's own payload leads to this channel, through the table of its kind. */
  predicate LeadsTo(t: Tables, kind: Kind, p: Payload, stored: Option<Id>, c: Id) {
    if kind in {PlanTask, ExecuteTask, ObserveJob, PublishTask} then
      exists task :: task in t.taskChannel && p.task == Uuid(task) && t.taskChannel[task] == c
    else if kind in {PromotePublication, ReconcilePublication, CollectMetrics} then
      exists x :: x in t.publicationTask && p.publication == Uuid(x)
                  && t.publicationTask[x] in t.taskChannel && t.taskChannel[t.publicationTask[x]] == c
    else if kind.AccountHealth? then
      exists account :: account in t.accountChannel && p.account == Uuid(account) && t.accountChannel[account] == c
    else if kind in {AgentTick, LearningRecompute, IngestDiscovery} then p.channel == Uuid(c) && c in t.channels
    else kind.SendAlert? && c in t.channels && (p.channel == Uuid(c) || (p.channel.Missing? && stored == Some(c)))
  }

  /** The resolved channel is the only one the payload leads to, and only alerts and cleanups may have none. */
  lemma ResolutionMeans(t: Tables, kind: Kind, p: Payload, stored: Option<Id>)
    ensures forall c :: Resolve(t, kind, p, stored) == Channel(c) <==> LeadsTo(t, kind, p, stored, c)
    ensures Resolve(t, kind, p, stored).NoChannel? <==>
            kind.CleanupExpired? || (kind.SendAlert? && p.channel.Missing? && stored.None?)
  {
  }
}
