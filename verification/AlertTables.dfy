/** Rows of the alert tables (backend/src/alerts.rs), reduced to the columns that some
    statement of the delivery queue or of the evaluation transaction reads back. */
module AlertTables {
  import opened Wrappers

  // Every identifier and lease token is a version 4 UUID; only equality and the text order matter.
  type Uuid = nat
  type ChannelId = nat
  type RuleId = nat
  type InstanceId = nat
  type Time = int

  const DELIVERY_LEASE_SECONDS: Time := 180
  const DELIVERY_RETRY_DELAYS: seq<Time> := [60, 300, 900, 3600]
  const OFFLINE_RECOVERY_STABILITY_SECONDS: Time := 60

  datatype Kind = Firing | Acknowledged | Resolved | WebhookTest

  datatype Status = Pending | Processing | Succeeded | Failed | Suppressed

  datatype Phase = Open | Acked | Closed

  /** One row of alert_deliveries. `recorded` lists the attempt_number column of the row's
      alert_delivery_attempts in insertion order: those rows live and die with the delivery. */
  datatype Delivery = Delivery(
    event: Option<Uuid>,
    channel: ChannelId,
    kind: Kind,
    status: Status,
    attempts: nat,
    cycle: nat,
    retries: nat,
    nextAt: Option<Time>,
    leaseUntil: Option<Time>,
    token: Option<Uuid>,
    created: Time,
    recorded: seq<nat>)

  datatype Channel = Channel(enabled: bool, deleted: bool, email: bool, cooldown: Option<Time>)

  /** One row of alert_events together with its alert_event_channels. */
  datatype Event = Event(
    rule: RuleId,
    instance: InstanceId,
    phase: Phase,
    suppressed: bool,
    channels: set<ChannelId>,
    firstObserved: Time,
    firedAt: Time,
    lastObserved: Time,
    matchCount: nat,
    resolvedAt: Option<Time>)

  /** One row of alert_evaluation_states. Observed values are opaque: only equality is used. */
  datatype Evaluation = Evaluation(
    version: nat,
    pendingSince: Option<Time>,
    recoverySince: Option<Time>,
    lastObserved: Option<Time>,
    lastValue: Option<int>,
    lastSample: Option<Time>,
    matchCount: nat)

  datatype Rule = Rule(enabled: bool, version: nat, offlineMetric: bool, duration: Time, channels: set<ChannelId>)

  type Deliveries = map<Uuid, Delivery>
  type Pair = (RuleId, InstanceId)

  datatype Db = Db(
    deliveries: Deliveries,
    channels: map<ChannelId, Channel>,
    events: map<Uuid, Event>,
    evaluations: map<Pair, Evaluation>,
    rules: map<RuleId, Rule>)

  /** COALESCE(x, 0) */
  function OrZero(t: Option<Time>): Time {
    if t.Some? then t.value else 0
  }

  function Max(a: Time, b: Time): Time {
    if a < b then b else a
  }

  predicate InFlight(d: Delivery) {
    d.status.Pending? || d.status.Processing?
  }

  function KindRank(k: Kind): nat {
    match k
    case Firing => 1
    case Acknowledged => 2
    case Resolved => 3
    case WebhookTest => 4
  }

  /** The lifecycle order ROW(created_at, rank, id). */
  predicate Precedes(i: Uuid, a: Delivery, j: Uuid, b: Delivery) {
    a.created < b.created
    || (a.created == b.created && KindRank(a.kind) < KindRank(b.kind))
    || (a.created == b.created && KindRank(a.kind) == KindRank(b.kind) && i < j)
  }

  /** The claim order (COALESCE(next_attempt_at, created_at), created_at, id). */
  predicate ClaimedBefore(i: Uuid, a: Delivery, j: Uuid, b: Delivery) {
    var ra := if a.nextAt.Some? then a.nextAt.value else a.created;
    var rb := if b.nextAt.Some? then b.nextAt.value else b.created;
    ra < rb || (ra == rb && (a.created < b.created || (a.created == b.created && i < j)))
  }

  function RetryDelayAfter(cycle: nat): (delay: Option<Time>)
    ensures delay.Some? <==> 1 <= cycle <= 4
    ensures cycle == 1 ==> delay == Some(60)
    ensures cycle == 2 ==> delay == Some(5 * 60)
    ensures cycle == 3 ==> delay == Some(15 * 60)
    ensures cycle == 4 ==> delay == Some(60 * 60)
  {
    if 1 <= cycle < 5 then Some(DELIVERY_RETRY_DELAYS[cycle - 1]) else None
  }

  /** What sending one notification produced; "transient" is smtp_timeout or smtp_transient*. */
  datatype Outcome = Delivered | TransientSmtp | OtherError

  function CooldownDelay(email: bool, outcome: Outcome, cycle: nat): (delay: Option<Time>)
    ensures delay.Some? <==> email && outcome.TransientSmtp?
    ensures delay.Some? ==> RetryDelayAfter(cycle) == delay || (RetryDelayAfter(cycle).None? && delay == Some(60 * 60))
  {
    if !email || !outcome.TransientSmtp? then None
    else if RetryDelayAfter(cycle).Some? then RetryDelayAfter(cycle)
    else Some(DELIVERY_RETRY_DELAYS[|DELIVERY_RETRY_DELAYS| - 1])
  }

  predicate LifecycleHasAdvanced(kind: Kind, phase: Option<Phase>) {
    || (kind.Firing? && (phase == Some(Acked) || phase == Some(Closed)))
    || (kind.Acknowledged? && phase == Some(Closed))
  }

  predicate ChannelUsable(channels: map<ChannelId, Channel>, c: ChannelId) {
    c in channels && channels[c].enabled && !channels[c].deleted
  }

  function PhaseOf(events: map<Uuid, Event>, e: Option<Uuid>): Option<Phase> {
    if e.Some? && e.value in events then Some(events[e.value].phase) else None
  }
}
