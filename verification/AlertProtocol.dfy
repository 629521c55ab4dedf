/** The delivery queue as a state machine: the alert tables shared by any number of
    notification_delivery_worker loops, administrators and observers. Every step is one statement
    or one transaction; a worker may vanish before any of its steps. */
module AlertProtocol {
  import opened Wrappers
  import opened AlertTables
  import opened AlertEvaluation
  import opened AlertTransactions

  type WorkerId = nat

  /** Where a worker is in its loop body, with the row copy RETURNING * gave it. */
  datatype Worker =
    | Idle
    | Claimed(id: Uuid, row: Delivery)    // before current_delivery_suppression
    | Silencing(id: Uuid, row: Delivery)  // before mark_delivery_suppressed
    | Yielding(id: Uuid, row: Delivery)   // before release_delivery_claim
    | Cleared(id: Uuid, row: Delivery)    // before start_delivery_attempt
    | Sending(id: Uuid, row: Delivery)    // before finish_delivery_attempt

  /** `issued` collects every UUID drawn so far; `clock` is the largest timestamp used so far. */
  datatype State = State(db: Db, workers: map<WorkerId, Worker>, issued: set<Uuid>, clock: Time)

  datatype Recheck = Silenced | Audible | ReadFailed

  datatype Action =
    | ObserveRule(p: Pair, version: nat, eligible: bool, o: Observation, suppressed: bool, eventId: Uuid, ids: map<Uuid, ChannelId>)
    | Acknowledge(event: Uuid, ids: map<Uuid, ChannelId>, now: Time)
    | Resolve(event: Uuid, ids: map<Uuid, ChannelId>, now: Time)
    | RefreshSuppression(event: Uuid, flag: bool, now: Time)
    | ForgetEvaluation(p: Pair, now: Time)
    | ChangeRules(rules: map<RuleId, Rule>, now: Time)
    | CreateChannel(channel: ChannelId, enabled: bool, email: bool, now: Time)
    | SetChannel(channel: ChannelId, enabled: bool, now: Time)
    | RemoveChannel(channel: ChannelId, now: Time)
    | SendTest(channel: ChannelId, id: Uuid, now: Time)
    | RetryFailed(id: Uuid, now: Time)
    | Retain(cutoff: Time, now: Time)
    | TakeClaim(w: WorkerId, id: Uuid, token: Uuid, now: Time)
    | RecheckSuppression(w: WorkerId, answer: Recheck, now: Time)
    | SuppressClaim(w: WorkerId, now: Time)
    | ReleaseClaim(w: WorkerId, now: Time)
    | StartAttempt(w: WorkerId, now: Time)
    | FinishAttempt(w: WorkerId, outcome: Outcome, now: Time)
    | Crash(w: WorkerId, now: Time)

  function TimeOf(a: Action): Time {
    match a
    case ObserveRule(_, _, _, o, _, _, _) => o.observedAt
    case _ => a.now
  }

  function Drawn(a: Action): set<Uuid> {
    match a
    case ObserveRule(_, _, _, _, _, eventId, ids) => ids.Keys + {eventId}
    case Acknowledge(_, ids, _) => ids.Keys
    case Resolve(_, ids, _) => ids.Keys
    case SendTest(_, id, _) => {id}
    case TakeClaim(_, _, token, _) => {token}
    case _ => {}
  }

  /** Exactly one fresh row id for every channel. */
  ghost predicate NamesChannels(db: Db, ids: map<Uuid, ChannelId>) {
    && (forall c | c in db.channels :: exists i | i in ids :: ids[i] == c)
    && (forall i, j | i in ids && j in ids && ids[i] == ids[j] :: i == j)
  }

  /** UUIDs are never drawn twice, and a channel id is created once. */
  ghost predicate FreshIds(s: State, a: Action) {
    && Drawn(a) !! s.issued
    && (a.ObserveRule? ==> NamesChannels(s.db, a.ids) && a.eventId !in a.ids)
    && (a.Acknowledge? ==> NamesChannels(s.db, a.ids))
    && (a.Resolve? ==> NamesChannels(s.db, a.ids))
    && (a.CreateChannel? ==> a.channel !in s.db.channels)
  }

  /** The step is stamped no earlier than every step before it. */
  predicate InTime(s: State, a: Action) {
    s.clock <= TimeOf(a)
  }

  ghost predicate Legal(s: State, a: Action) {
    FreshIds(s, a) && InTime(s, a)
  }

  function Pc(s: State, w: WorkerId): Worker {
    if w in s.workers then s.workers[w] else Idle
  }

  function Move(s: State, w: WorkerId, pc: Worker): State {
    s.(workers := s.workers[w := pc])
  }

  function Advance(s: State, a: Action): State {
    s.(clock := Max(s.clock, TimeOf(a)), issued := s.issued + Drawn(a))
  }

  function StepClaim(s: State, w: WorkerId, i: Uuid, token: Uuid, now: Time): State {
    if Pc(s, w).Idle? && IsCandidate(s.db, i, now)
    then Move(s.(db := Claim(s.db, i, token, now)), w, Claimed(i, ClaimedRow(s.db.deliveries[i], token, now)))
    else s
  }

  function StepRecheck(s: State, w: WorkerId, answer: Recheck): State {
    var pc := Pc(s, w);
    if !pc.Claimed? then s
    else if answer.ReadFailed? then Move(s, w, Yielding(pc.id, pc.row))
    else if SuppressNow(s.db, pc.row, answer.Silenced?) then Move(s, w, Silencing(pc.id, pc.row))
    else Move(s, w, Cleared(pc.id, pc.row))
  }

  function StepSuppress(s: State, w: WorkerId): State {
    var pc := Pc(s, w);
    if !pc.Silencing? then s else Move(s.(db := MarkSuppressed(s.db, pc.id, pc.row)), w, Idle)
  }

  function StepRelease(s: State, w: WorkerId, now: Time): State {
    var pc := Pc(s, w);
    if !pc.Yielding? then s else Move(s.(db := Release(s.db, pc.id, pc.row, now + 1)), w, Idle)
  }

  function StepStart(s: State, w: WorkerId, now: Time): State {
    var pc := Pc(s, w);
    if !pc.Cleared? then s
    else if MayStart(s.db, pc.id, pc.row, now)
    then Move(s.(db := Start(s.db, pc.id, pc.row, now)), w, Sending(pc.id, StartedRow(s.db.deliveries[pc.id])))
    else Move(s, w, Idle)
  }

  function StepFinish(s: State, w: WorkerId, outcome: Outcome, now: Time): State {
    var pc := Pc(s, w);
    if !pc.Sending? then s else Move(s.(db := Finish(s.db, pc.id, pc.row, outcome, now)), w, Idle)
  }

  ghost function Apply(s0: State, a: Action): State {
    var s := Advance(s0, a);
    match a
    case ObserveRule(p, version, eligible, o, suppressed, eventId, ids) =>
      s.(db := Observe(s.db, p, version, eligible, o, suppressed, eventId, ids))
    case Acknowledge(e, ids, now) => s.(db := AcknowledgeEvent(s.db, e, ids, now))
    case Resolve(e, ids, now) => s.(db := ResolveOutright(s.db, e, ids, now))
    case RefreshSuppression(e, flag, now) => s.(db := s.db.(events := FlagSuppressed(s.db.events, Some(e), flag)))
    case ForgetEvaluation(p, now) => s.(db := s.db.(evaluations := s.db.evaluations - {p}))
    case ChangeRules(rules, now) => s.(db := s.db.(rules := rules))
    case CreateChannel(c, enabled, email, now) =>
      s.(db := s.db.(channels := s.db.channels[c := Channel(enabled, false, email, None)]))
    case SetChannel(c, enabled, now) => s.(db := UpdateChannel(s.db, c, enabled))
    case RemoveChannel(c, now) => s.(db := DeleteChannel(s.db, c))
    case SendTest(c, i, now) => s.(db := TestChannel(s.db, c, i, now))
    case RetryFailed(i, now) => s.(db := ResetFailed(s.db, i, now))
    case Retain(cutoff, now) => s.(db := Cleanup(s.db, cutoff))
    case TakeClaim(w, i, token, now) => StepClaim(s, w, i, token, now)
    case RecheckSuppression(w, answer, now) => StepRecheck(s, w, answer)
    case SuppressClaim(w, now) => StepSuppress(s, w)
    case ReleaseClaim(w, now) => StepRelease(s, w, now)
    case StartAttempt(w, now) => StepStart(s, w, now)
    case FinishAttempt(w, outcome, now) => StepFinish(s, w, outcome, now)
    case Crash(w, now) => Move(s, w, Idle)
  }

  ghost function Run(s: State, acts: seq<Action>): State
    decreases |acts|
  {
    if acts == [] then s else Run(Apply(s, acts[0]), acts[1..])
  }

  /** A run whose timestamps may go back. */
  ghost predicate FreshRun(s: State, acts: seq<Action>)
    decreases |acts|
  {
    acts == [] || (FreshIds(s, acts[0]) && FreshRun(Apply(s, acts[0]), acts[1..]))
  }

  /** A run whose timestamps never go back. */
  ghost predicate LegalRun(s: State, acts: seq<Action>)
    decreases |acts|
  {
    acts == [] || (Legal(s, acts[0]) && LegalRun(Apply(s, acts[0]), acts[1..]))
  }

  function Initial(start: Time): State {
    State(Db(map[], map[], map[], map[], map[]), map[], {}, start)
  }
}
