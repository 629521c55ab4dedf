/** Every statement and transaction of the delivery queue (backend/src/alerts.rs) as a function
    from the tables before it to the tables after it. */
module AlertTransactions {
  import opened Wrappers
  import opened AlertTables
  import opened AlertEvaluation

  // ----- claim_delivery

  predicate Due(d: Delivery, now: Time) {
    || (d.status.Pending? && OrZero(d.nextAt) <= now)
    || (d.status.Processing? && OrZero(d.leaseUntil) <= now)
  }

  predicate ChannelCool(db: Db, c: ChannelId, now: Time) {
    c in db.channels && OrZero(db.channels[c].cooldown) <= now
  }

  /** No other delivery of the channel holds an unexpired lease. */
  predicate ChannelFree(ds: Deliveries, i: Uuid, now: Time)
    requires i in ds
  {
    forall j | j in ds && j != i && ds[j].channel == ds[i].channel && ds[j].status.Processing? ::
      OrZero(ds[j].leaseUntil) <= now
  }

  /** No delivery of the same event and channel that precedes this one is still in flight. */
  predicate FirstInLine(ds: Deliveries, i: Uuid)
    requires i in ds
  {
    ds[i].event.Some? ==>
      forall j | j in ds && j != i && ds[j].event == ds[i].event && ds[j].channel == ds[i].channel && InFlight(ds[j]) ::
        !Precedes(j, ds[j], i, ds[i])
  }

  predicate IsCandidate(db: Db, i: Uuid, now: Time) {
    && i in db.deliveries
    && Due(db.deliveries[i], now)
    && ChannelCool(db, db.deliveries[i].channel, now)
    && ChannelFree(db.deliveries, i, now)
    && FirstInLine(db.deliveries, i)
  }

  function ClaimedRow(d: Delivery, token: Uuid, now: Time): Delivery {
    d.(status := Processing, leaseUntil := Some(now + DELIVERY_LEASE_SECONDS), token := Some(token))
  }

  function Put(db: Db, i: Uuid, d: Delivery): Db {
    db.(deliveries := db.deliveries[i := d])
  }

  function Claim(db: Db, i: Uuid, token: Uuid, now: Time): Db
    requires i in db.deliveries
  {
    Put(db, i, ClaimedRow(db.deliveries[i], token, now))
  }

  // ----- what the holder of a claimed copy may do

  /** status='processing' AND lease_token = the copy's token */
  predicate Holds(db: Db, i: Uuid, copy: Delivery) {
    && copy.token.Some?
    && i in db.deliveries
    && db.deliveries[i].status.Processing?
    && db.deliveries[i].token == copy.token
  }

  predicate MayStart(db: Db, i: Uuid, copy: Delivery, now: Time) {
    Holds(db, i, copy) && db.deliveries[i].leaseUntil.Some? && db.deliveries[i].leaseUntil.value > now
  }

  function StartedRow(d: Delivery): Delivery {
    d.(attempts := d.attempts + 1, cycle := d.cycle + 1)
  }

  function Start(db: Db, i: Uuid, copy: Delivery, now: Time): Db {
    if MayStart(db, i, copy, now) then Put(db, i, StartedRow(db.deliveries[i])) else db
  }

  function Settled(d: Delivery, status: Status): Delivery {
    d.(status := status, nextAt := None, leaseUntil := None, token := None)
  }

  function Requeued(d: Delivery, at: Time): Delivery {
    d.(status := Pending, nextAt := Some(at), leaseUntil := None, token := None)
  }

  function Release(db: Db, i: Uuid, copy: Delivery, retryAt: Time): Db {
    if Holds(db, i, copy) then Put(db, i, Requeued(db.deliveries[i], retryAt)) else db
  }

  /** current_delivery_suppression, where `silenced` is the answer of the maintenance and
      offline-node queries. */
  predicate SuppressNow(db: Db, copy: Delivery, silenced: bool) {
    && copy.kind.Firing?
    && PhaseOf(db.events, copy.event).Some?
    && (PhaseOf(db.events, copy.event) == Some(Closed) || silenced)
  }

  function FlagSuppressed(events: map<Uuid, Event>, e: Option<Uuid>, flag: bool): map<Uuid, Event> {
    if e.Some? && e.value in events && !events[e.value].phase.Closed?
    then events[e.value := events[e.value].(suppressed := flag)]
    else events
  }

  function MarkSuppressed(db: Db, i: Uuid, copy: Delivery): Db {
    if Holds(db, i, copy)
    then Put(db, i, Settled(db.deliveries[i], Suppressed)).(events := FlagSuppressed(db.events, copy.event, true))
    else db
  }

  function PushedBack(ds: Deliveries, c: ChannelId, resumeAt: Time): Deliveries {
    map i | i in ds ::
      if ds[i].channel == c && ds[i].status.Pending?
      then ds[i].(nextAt := Some(if ds[i].nextAt.Some? then Max(ds[i].nextAt.value, resumeAt) else resumeAt))
      else ds[i]
  }

  function CoolDown(db: Db, c: ChannelId, resumeAt: Time): Db
    requires c in db.channels
  {
    var cooldown := if db.channels[c].cooldown.Some? then Max(db.channels[c].cooldown.value, resumeAt) else resumeAt;
    db.(channels := db.channels[c := db.channels[c].(cooldown := Some(cooldown))],
        deliveries := PushedBack(db.deliveries, c, resumeAt))
  }

  function CooldownAfter(db: Db, copy: Delivery, outcome: Outcome): Option<Time> {
    if copy.channel in db.channels && !db.channels[copy.channel].deleted
    then CooldownDelay(db.channels[copy.channel].email, outcome, copy.cycle)
    else None
  }

  function FinishedRow(db: Db, d: Delivery, copy: Delivery, outcome: Outcome, now: Time): Delivery {
    var logged := d.(recorded := d.recorded + [copy.attempts]);
    if outcome.Delivered? then Settled(logged, Succeeded)
    else if copy.kind.Firing? && PhaseOf(db.events, copy.event) == Some(Closed) then Settled(logged, Suppressed)
    else if !ChannelUsable(db.channels, copy.channel) then Settled(logged, Failed)
    else if RetryDelayAfter(copy.cycle).Some? then Requeued(logged, now + RetryDelayAfter(copy.cycle).value)
    else Settled(logged, Failed)
  }

  function Finish(db: Db, i: Uuid, copy: Delivery, outcome: Outcome, now: Time): Db {
    if !Holds(db, i, copy) then db
    else
      var row := FinishedRow(db, db.deliveries[i], copy, outcome, now);
      var delay := CooldownAfter(db, copy, outcome);
      Put(if delay.Some? then CoolDown(db, copy.channel, now + delay.value) else db, i, row)
  }

  // ----- reset_failed_delivery_tx

  datatype RetryAnswer = Reset | NotFound | NotFailed | Advanced | ChannelGone | ChannelOff

  function RetryVerdict(db: Db, i: Uuid): RetryAnswer {
    if i !in db.deliveries then NotFound
    else
      var d := db.deliveries[i];
      if !d.status.Failed? then NotFailed
      else if d.event.Some? && LifecycleHasAdvanced(d.kind, PhaseOf(db.events, d.event)) then Advanced
      else if d.channel !in db.channels || db.channels[d.channel].deleted then ChannelGone
      else if !db.channels[d.channel].enabled then ChannelOff
      else Reset
  }

  function ResetRow(d: Delivery, now: Time): Delivery {
    Requeued(d, now).(cycle := 0, retries := d.retries + 1)
  }

  function ResetFailed(db: Db, i: Uuid, now: Time): Db {
    if RetryVerdict(db, i).Reset? then Put(db, i, ResetRow(db.deliveries[i], now)) else db
  }

  // ----- enqueueing, lifecycle of events

  function NewDelivery(event: Option<Uuid>, c: ChannelId, kind: Kind, suppressed: bool, now: Time): Delivery {
    Delivery(event, c, kind, if suppressed then Suppressed else Pending, 0, 0, 0,
             if suppressed then None else Some(now), None, None, now, [])
  }

  predicate AlreadyRecorded(ds: Deliveries, e: Uuid, c: ChannelId, kind: Kind) {
    exists j | j in ds :: ds[j].event == Some(e) && ds[j].channel == c && ds[j].kind == kind
  }

  /** The partial unique index (event_id, channel_id, kind) WHERE status <> 'suppressed'. */
  predicate Deliverable(ds: Deliveries, e: Uuid, c: ChannelId, kind: Kind) {
    exists j | j in ds :: ds[j].event == Some(e) && ds[j].channel == c && ds[j].kind == kind && !ds[j].status.Suppressed?
  }

  /** Whether enqueue_event_lifecycle_tx adds a row for channel c: a suppressed first report is
      recorded once, a deliverable row is added unless one is there already. */
  predicate Inserts(db: Db, e: Uuid, c: ChannelId, kind: Kind, suppressed: bool) {
    && e in db.events
    && c in db.events[e].channels
    && ChannelUsable(db.channels, c)
    && !(kind.Firing? && suppressed && AlreadyRecorded(db.deliveries, e, c, kind))
    && (suppressed || !Deliverable(db.deliveries, e, c, kind))
  }

  /** `ids` names the row each channel would get. */
  function NewRows(db: Db, e: Uuid, kind: Kind, suppressed: bool, ids: map<Uuid, ChannelId>, now: Time): Deliveries {
    map i | i in ids && Inserts(db, e, ids[i], kind, suppressed) :: NewDelivery(Some(e), ids[i], kind, suppressed, now)
  }

  function Enqueue(db: Db, e: Uuid, kind: Kind, suppressed: bool, ids: map<Uuid, ChannelId>, now: Time): Db {
    db.(deliveries := db.deliveries + NewRows(db, e, kind, suppressed, ids, now))
  }

  function SilencePending(ds: Deliveries, e: Uuid): Deliveries {
    map i | i in ds ::
      if ds[i].event == Some(e) && ds[i].kind.Firing? && ds[i].status.Pending? then Settled(ds[i], Suppressed) else ds[i]
  }

  function ResolveEvent(db: Db, e: Uuid, ids: map<Uuid, ChannelId>, now: Time, recoveredAt: Option<Time>): Db {
    if e !in db.events || db.events[e].phase.Closed? then db
    else
      var last := if recoveredAt.Some? then recoveredAt.value else db.events[e].lastObserved;
      var event := db.events[e].(phase := Closed, resolvedAt := Some(now), lastObserved := last, suppressed := false);
      Enqueue(db.(events := db.events[e := event], deliveries := SilencePending(db.deliveries, e)),
              e, Resolved, false, ids, now)
  }

  function AcknowledgeEvent(db: Db, e: Uuid, ids: map<Uuid, ChannelId>, now: Time): Db {
    if e !in db.events || !db.events[e].phase.Open? then db
    else Enqueue(db.(events := db.events[e := db.events[e].(phase := Acked)]), e, Acknowledged, false, ids, now)
  }

  /** resolve_rule_events_tx and resolve_instance, one event at a time, with the deletion of the
      evaluation row that their callers perform in the same transaction. */
  function ResolveOutright(db: Db, e: Uuid, ids: map<Uuid, ChannelId>, now: Time): Db {
    if e !in db.events then db
    else
      var resolved := ResolveEvent(db, e, ids, now, None);
      resolved.(evaluations := resolved.evaluations - {(db.events[e].rule, db.events[e].instance)})
  }

  // ----- process_rule_observation

  predicate IsActive(db: Db, e: Uuid, p: Pair) {
    e in db.events && (db.events[e].rule, db.events[e].instance) == p && !db.events[e].phase.Closed?
  }

  ghost function ActiveEvent(db: Db, p: Pair): (r: Option<Uuid>)
    ensures r.Some? ==> IsActive(db, r.value, p)
    ensures r.None? ==> forall e :: !IsActive(db, e, p)
  {
    if exists e :: IsActive(db, e, p) then
      var e :| IsActive(db, e, p);
      Some(e)
    else None
  }

  function OpenEvent(db: Db, p: Pair, rule: Rule, o: Observation, suppressed: bool, firstObserved: Time, count: nat): Event {
    Event(p.0, p.1, Open, suppressed, (set c | c in rule.channels && c in db.channels && !db.channels[c].deleted),
          firstObserved, o.observedAt, o.observedAt, count, None)
  }

  function RepeatedEvent(event: Event, o: Observation, suppressed: bool): Event {
    event.(lastObserved := o.observedAt, matchCount := event.matchCount + 1, suppressed := suppressed)
  }

  /** The tables after an observation is judged against evaluation row `ev0` and the active event, if any. */
  function Judge(db: Db, p: Pair, rule: Rule, ev0: Evaluation, active: Option<Uuid>, o: Observation, suppressed: bool,
                 eventId: Uuid, ids: map<Uuid, ChannelId>): Db
    requires active.Some? ==> active.value in db.events
  {
    var (ev, verdict) := Evaluate(ev0, active.Some?, rule, o);
    var db1 := db.(evaluations := db.evaluations[p := ev]);
    match verdict
    case Stale => db1
    case Waiting => db1
    case Quiet(recovered) =>
      if recovered && active.Some? then ResolveEvent(db1, active.value, ids, o.observedAt, Some(o.observedAt)) else db1
    case Continue =>
      var e := active.value;
      Enqueue(db1.(events := db1.events[e := RepeatedEvent(db1.events[e], o, suppressed)]),
              e, Firing, suppressed, ids, o.observedAt)
    case Fire(first, count) =>
      Enqueue(db1.(events := db1.events[eventId := OpenEvent(db1, p, rule, o, suppressed, first, count)]),
              eventId, Firing, suppressed, ids, o.observedAt)
  }

  /** The tables after one observation of (rule, instance) p; `eventId` and `ids` name the rows it may add. */
  ghost function Observe(db: Db, p: Pair, version: nat, eligible: bool, o: Observation, suppressed: bool,
                         eventId: Uuid, ids: map<Uuid, ChannelId>): Db {
    if p.0 !in db.rules || !db.rules[p.0].enabled || db.rules[p.0].version != version then db
    else if !eligible then db.(evaluations := db.evaluations - {p})
    else Judge(db, p, db.rules[p.0], Upserted(db.evaluations, p, version), ActiveEvent(db, p), o, suppressed, eventId, ids)
  }

  // ----- channel administration and retention

  function FailPending(ds: Deliveries, c: ChannelId): Deliveries {
    map i | i in ds :: if ds[i].channel == c && ds[i].status.Pending? then Settled(ds[i], Failed) else ds[i]
  }

  function UpdateChannel(db: Db, c: ChannelId, enabled: bool): Db {
    if c !in db.channels || db.channels[c].deleted then db
    else
      db.(channels := db.channels[c := db.channels[c].(enabled := enabled)],
          deliveries := if enabled then db.deliveries else FailPending(db.deliveries, c))
  }

  function DeleteChannel(db: Db, c: ChannelId): Db {
    if c !in db.channels || db.channels[c].deleted then db
    else
      db.(channels := db.channels[c := db.channels[c].(enabled := false, deleted := true)],
          rules := map r | r in db.rules :: db.rules[r].(channels := db.rules[r].channels - {c}),
          deliveries := FailPending(db.deliveries, c))
  }

  function TestChannel(db: Db, c: ChannelId, i: Uuid, now: Time): Db {
    if ChannelUsable(db.channels, c)
    then Put(db, i, NewDelivery(None, c, WebhookTest, false, now))
    else db
  }

  predicate Expired(event: Event, cutoff: Time) {
    event.phase.Closed? && event.resolvedAt.Some? && event.resolvedAt.value < cutoff
  }

  predicate Retained(db: Db, d: Delivery, cutoff: Time) {
    if d.event.Some? then d.event.value in db.events && !Expired(db.events[d.event.value], cutoff)
    else d.created >= cutoff || InFlight(d)
  }

  /** cleanup_old_alerts, with the cascade from events to their deliveries. */
  function Cleanup(db: Db, cutoff: Time): Db {
    db.(events := map e | e in db.events && !Expired(db.events[e], cutoff) :: db.events[e],
        deliveries := map i | i in db.deliveries && Retained(db, db.deliveries[i], cutoff) :: db.deliveries[i])
  }
}
