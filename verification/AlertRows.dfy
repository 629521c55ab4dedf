/** Every step of the queue from the side of a single delivery row: what the step leaves of it, column
    by column, and which rows appear and disappear. */
module AlertRows {
  import opened Wrappers
  import opened AlertTables
  import opened AlertEvaluation
  import opened AlertTransactions
  import opened AlertProtocol
  import opened AlertInvariants
  import opened AlertRuns

  /** The row has left the queue, or waits in it, without a lease. */
  predicate Unleased(d: Delivery, d': Delivery, status: Status, nextAt: Option<Time>) {
    d' == d.(status := status, nextAt := nextAt, leaseUntil := None, token := None)
  }

  /** Row i is leased to worker w: both carry the same token. */
  predicate Leases(s: State, w: WorkerId, i: Uuid) {
    && i in s.db.deliveries && !Pc(s, w).Idle? && Pc(s, w).id == i
    && s.db.deliveries[i].status.Processing?
    && s.db.deliveries[i].token.Some? && s.db.deliveries[i].token == Pc(s, w).row.token
  }

  predicate EventOver(db: Db, e: Option<Uuid>) {
    e.Some? && e.value in db.events && db.events[e.value].phase.Closed?
  }

  predicate IsOn(db: Db, c: ChannelId) {
    c in db.channels && db.channels[c].enabled && !db.channels[c].deleted
  }

  /** What an attempt that ends with `outcome` at `now` leaves of its row, `copy` being the worker's copy. */
  predicate AttemptLeaves(db: Db, copy: Delivery, outcome: Outcome, now: Time, d: Delivery, d': Delivery) {
    var logged := d.(recorded := d.recorded + [copy.attempts]);
    if outcome.Delivered? then Unleased(logged, d', Succeeded, None)
    else if copy.kind.Firing? && EventOver(db, copy.event) then Unleased(logged, d', Suppressed, None)
    else if !IsOn(db, copy.channel) then Unleased(logged, d', Failed, None)
    else if copy.cycle == 1 then Unleased(logged, d', Pending, Some(now + 60))
    else if copy.cycle == 2 then Unleased(logged, d', Pending, Some(now + 5 * 60))
    else if copy.cycle == 3 then Unleased(logged, d', Pending, Some(now + 15 * 60))
    else if copy.cycle == 4 then Unleased(logged, d', Pending, Some(now + 60 * 60))
    else Unleased(logged, d', Failed, None)
  }

  /** A transient error on a mail channel pushes back what else waits on it. */
  predicate PushedOnly(d: Delivery, d': Delivery, until: Time) {
    d.status.Pending? && d' == d.(nextAt := Some(if d.nextAt.Some? && d.nextAt.value > until then d.nextAt.value else until))
  }

  predicate Cools(db: Db, copy: Delivery, outcome: Outcome) {
    outcome.TransientSmtp? && copy.channel in db.channels && db.channels[copy.channel].email && !db.channels[copy.channel].deleted
  }

  function CoolingTime(cycle: nat): Time {
    if cycle == 1 then 60 else if cycle == 2 then 5 * 60 else if cycle == 3 then 15 * 60 else 60 * 60
  }

  /** Row d as action a, applied in state s, leaves it. */
  ghost predicate RowAfter(s: State, a: Action, i: Uuid, d: Delivery, d': Delivery) {
    match a
    case SetChannel(c, enabled, _) =>
      if !enabled && c in s.db.channels && !s.db.channels[c].deleted && d.channel == c && d.status.Pending?
      then Unleased(d, d', Failed, None) else d' == d
    case RemoveChannel(c, _) =>
      if c in s.db.channels && !s.db.channels[c].deleted && d.channel == c && d.status.Pending?
      then Unleased(d, d', Failed, None) else d' == d
    case RetryFailed(j, now) =>
      if j == i && d.status.Failed? && IsOn(s.db, d.channel)
         && !(d.kind.Firing? && d.event.Some? && d.event.value in s.db.events && !s.db.events[d.event.value].phase.Open?)
         && !(d.kind.Acknowledged? && EventOver(s.db, d.event))
      then Unleased(d.(cycle := 0, retries := d.retries + 1), d', Pending, Some(now)) else d' == d
    case TakeClaim(w, j, token, now) =>
      if j == i && Pc(s, w).Idle? && IsCandidate(s.db, i, now)
      then d' == d.(status := Processing, leaseUntil := Some(now + 180), token := Some(token)) else d' == d
    case SuppressClaim(w, _) =>
      if Pc(s, w).Silencing? && Leases(s, w, i) then Unleased(d, d', Suppressed, None) else d' == d
    case ReleaseClaim(w, now) =>
      if Pc(s, w).Yielding? && Leases(s, w, i) then Unleased(d, d', Pending, Some(now + 1)) else d' == d
    case StartAttempt(w, now) =>
      if Pc(s, w).Cleared? && Leases(s, w, i) && d.leaseUntil.Some? && d.leaseUntil.value > now
      then d' == d.(attempts := d.attempts + 1, cycle := d.cycle + 1) else d' == d
    case FinishAttempt(w, outcome, now) =>
      var pc := Pc(s, w);
      if !pc.Sending? || !Leases(s, w, pc.id) then d' == d
      else if i == pc.id then AttemptLeaves(s.db, pc.row, outcome, now, d, d')
      else if Cools(s.db, pc.row, outcome) && d.channel == pc.row.channel && d.status.Pending?
      then PushedOnly(d, d', now + CoolingTime(pc.row.cycle)) else d' == d
    case _ =>
      // observations and resolutions silence the waiting first report of an event they close
      if d.kind.Firing? && d.status.Pending? && d.event.Some? && !EventOver(s.db, d.event) && EventOver(Apply(s, a).db, d.event)
      then Unleased(d, d', Suppressed, None) else d' == d
  }

  // ----- rows of worker steps

  lemma ClaimRow(s: State, a: Action, i: Uuid)
    requires a.TakeClaim? && i in s.db.deliveries
    ensures i in Apply(s, a).db.deliveries && RowAfter(s, a, i, s.db.deliveries[i], Apply(s, a).db.deliveries[i])
  {
    hide IsCandidate;
  }

  lemma SuppressedRow(s: State, a: Action, i: Uuid)
    requires a.SuppressClaim? && i in s.db.deliveries
    ensures i in Apply(s, a).db.deliveries && RowAfter(s, a, i, s.db.deliveries[i], Apply(s, a).db.deliveries[i])
  {
    hide FlagSuppressed, IsCandidate, AttemptLeaves;
  }

  lemma ReleasedRow(s: State, a: Action, i: Uuid)
    requires a.ReleaseClaim? && i in s.db.deliveries
    ensures i in Apply(s, a).db.deliveries && RowAfter(s, a, i, s.db.deliveries[i], Apply(s, a).db.deliveries[i])
  {
    hide FlagSuppressed, IsCandidate, AttemptLeaves;
  }

  lemma StartedAttempt(s: State, a: Action, i: Uuid)
    requires a.StartAttempt? && i in s.db.deliveries
    ensures i in Apply(s, a).db.deliveries && RowAfter(s, a, i, s.db.deliveries[i], Apply(s, a).db.deliveries[i])
  {
    hide FlagSuppressed, IsCandidate, AttemptLeaves;
  }

  lemma FinishedAttempt(db: Db, d: Delivery, copy: Delivery, outcome: Outcome, now: Time)
    ensures AttemptLeaves(db, copy, outcome, now, d, FinishedRow(db, d, copy, outcome, now))
  {
  }

  lemma FinishRow(s: State, a: Action, i: Uuid)
    requires a.FinishAttempt? && i in s.db.deliveries
    ensures i in Apply(s, a).db.deliveries && RowAfter(s, a, i, s.db.deliveries[i], Apply(s, a).db.deliveries[i])
  {
    var pc := Pc(s, a.w);
    if pc.Sending? && Leases(s, a.w, pc.id) {
      FinishedAttempt(s.db, s.db.deliveries[pc.id], pc.row, a.outcome, a.now);
      hide AttemptLeaves, FinishedRow;
    }
  }

  // ----- rows of administration

  lemma AdminRow(s: State, a: Action, i: Uuid)
    requires !IsEventStep(a) && !IsWorkerStep(a) && i in s.db.deliveries && i in Apply(s, a).db.deliveries && i !in Drawn(a)
    ensures RowAfter(s, a, i, s.db.deliveries[i], Apply(s, a).db.deliveries[i])
  {
    hide Retained;
  }

  // ----- rows of observations and lifecycle steps

  predicate SilencedWith(before: Db, after: Db, d: Delivery, d': Delivery) {
    if d.kind.Firing? && d.status.Pending? && d.event.Some? && !EventOver(before, d.event) && EventOver(after, d.event)
    then Unleased(d, d', Suppressed, None) else d' == d
  }

  lemma EnqueueRow(db: Db, e: Uuid, kind: Kind, suppressed: bool, ids: map<Uuid, ChannelId>, now: Time, i: Uuid)
    requires i in db.deliveries && i !in ids
    ensures var t := Enqueue(db, e, kind, suppressed, ids, now); i in t.deliveries && t.deliveries[i] == db.deliveries[i]
  {
    hide Inserts;
  }

  lemma ResolveRow(db: Db, e: Uuid, ids: map<Uuid, ChannelId>, now: Time, recoveredAt: Option<Time>, i: Uuid)
    requires e in db.events && i in db.deliveries && i !in ids
    ensures var t := ResolveEvent(db, e, ids, now, recoveredAt);
            i in t.deliveries && SilencedWith(db, t, db.deliveries[i], t.deliveries[i])
  {
    ResolveMeans(db, e, ids, now, recoveredAt);
    hide Inserts, Enqueue;
    if !db.events[e].phase.Closed? {
      var last := if recoveredAt.Some? then recoveredAt.value else db.events[e].lastObserved;
      var event := db.events[e].(phase := Closed, resolvedAt := Some(now), lastObserved := last, suppressed := false);
      EnqueueRow(db.(events := db.events[e := event], deliveries := SilencePending(db.deliveries, e)), e, Resolved, false, ids, now, i);
    }
  }

  lemma JudgeRow(db: Db, p: Pair, rule: Rule, ev0: Evaluation, active: Option<Uuid>, o: Observation, suppressed: bool,
                 eventId: Uuid, ids: map<Uuid, ChannelId>, i: Uuid)
    requires active.Some? ==> active.value in db.events && !db.events[active.value].phase.Closed?
    requires i in db.deliveries && i !in ids && eventId !in db.events
    ensures var t := Judge(db, p, rule, ev0, active, o, suppressed, eventId, ids);
            i in t.deliveries && SilencedWith(db, t, db.deliveries[i], t.deliveries[i])
  {
    JudgeMeans(db, p, rule, ev0, active, o, suppressed, eventId, ids);
    VerdictNeedsState(ev0, active.Some?, rule, o);
    hide Evaluate, Enqueue, ResolveEvent, RepeatedEvent, OpenEvent;
    var (ev, verdict) := Evaluate(ev0, active.Some?, rule, o);
    var db1 := db.(evaluations := db.evaluations[p := ev]);
    match verdict
    case Stale =>
    case Waiting =>
    case Quiet(recovered) =>
      if recovered && active.Some? {
        ResolveRow(db1, active.value, ids, o.observedAt, Some(o.observedAt), i);
      }
    case Continue =>
      RepeatKeepsPhase(db.events[active.value], o, suppressed);
      EnqueueRow(db1.(events := db1.events[active.value := RepeatedEvent(db1.events[active.value], o, suppressed)]),
                 active.value, Firing, suppressed, ids, o.observedAt, i);
    case Fire(first, count) =>
      OpenIsOpen(db1, p, rule, o, suppressed, first, count);
      OpenIsOpen(db, p, rule, o, suppressed, first, count);
      EnqueueRow(db1.(events := db1.events[eventId := OpenEvent(db1, p, rule, o, suppressed, first, count)]),
                 eventId, Firing, suppressed, ids, o.observedAt, i);
  }

  lemma RepeatKeepsPhase(v: Event, o: Observation, suppressed: bool)
    ensures RepeatedEvent(v, o, suppressed).phase == v.phase
  {
  }

  lemma OpenIsOpen(db: Db, p: Pair, rule: Rule, o: Observation, suppressed: bool, first: Time, count: nat)
    ensures OpenEvent(db, p, rule, o, suppressed, first, count).phase.Open?
  {
  }

  lemma ObserveRow(s: State, a: Action, i: Uuid)
    requires Core(s) && FreshIds(s, a) && a.ObserveRule? && i in s.db.deliveries
    ensures i in Apply(s, a).db.deliveries && RowAfter(s, a, i, s.db.deliveries[i], Apply(s, a).db.deliveries[i])
  {
    FreshTokens(s, a);
    assert a.eventId in Drawn(a) && i !in a.ids;
    hide InvUnder, FreshIds, Judge, Evaluate;
    var db, p := s.db, a.p;
    if p.0 in db.rules && db.rules[p.0].enabled && db.rules[p.0].version == a.version && a.eligible {
      var active := ActiveEvent(db, p);
      assert active.Some? ==> IsActive(db, active.value, p);
      JudgeRow(db, p, db.rules[p.0], Upserted(db.evaluations, p, a.version), active, a.o, a.suppressed, a.eventId, a.ids, i);
    }
  }

  lemma AcknowledgeRow(s: State, a: Action, i: Uuid)
    requires Core(s) && FreshIds(s, a) && a.Acknowledge? && i in s.db.deliveries
    ensures i in Apply(s, a).db.deliveries && RowAfter(s, a, i, s.db.deliveries[i], Apply(s, a).db.deliveries[i])
  {
    FreshTokens(s, a);
    hide InvUnder, FreshIds, Enqueue;
    if a.event in s.db.events {
      var mid := s.db.(events := s.db.events[a.event := s.db.events[a.event].(phase := Acked)]);
      EnqueueMeans(mid, a.event, Acknowledged, false, a.ids, a.now);
      EnqueueRow(mid, a.event, Acknowledged, false, a.ids, a.now, i);
    }
  }

  lemma OutrightRow(s: State, a: Action, i: Uuid)
    requires Core(s) && FreshIds(s, a) && a.Resolve? && i in s.db.deliveries
    ensures i in Apply(s, a).db.deliveries && RowAfter(s, a, i, s.db.deliveries[i], Apply(s, a).db.deliveries[i])
  {
    FreshTokens(s, a);
    hide InvUnder, FreshIds, ResolveEvent;
    if a.event in s.db.events {
      ResolveRow(s.db, a.event, a.ids, a.now, None, i);
    }
  }

  lemma QuietRow(s: State, a: Action, i: Uuid)
    requires (a.RefreshSuppression? || a.ForgetEvaluation? || a.ChangeRules?) && i in s.db.deliveries
    ensures i in Apply(s, a).db.deliveries && RowAfter(s, a, i, s.db.deliveries[i], Apply(s, a).db.deliveries[i])
  {
  }

  lemma StillRow(s: State, a: Action, i: Uuid)
    requires (a.RecheckSuppression? || a.Crash?) && i in s.db.deliveries
    ensures i in Apply(s, a).db.deliveries && RowAfter(s, a, i, s.db.deliveries[i], Apply(s, a).db.deliveries[i])
  {
    hide SuppressNow;
  }

  // ----- every row of every step

  lemma EventRow(s: State, a: Action, i: Uuid)
    requires Core(s) && FreshIds(s, a) && IsEventStep(a) && i in s.db.deliveries
    ensures i in Apply(s, a).db.deliveries && RowAfter(s, a, i, s.db.deliveries[i], Apply(s, a).db.deliveries[i])
  {
    hide Core, FreshIds, Apply, RowAfter;
    if a.ObserveRule? {
      ObserveRow(s, a, i);
    } else if a.Acknowledge? {
      AcknowledgeRow(s, a, i);
    } else if a.Resolve? {
      OutrightRow(s, a, i);
    } else {
      QuietRow(s, a, i);
    }
  }

  lemma WorkerRow(s: State, a: Action, i: Uuid)
    requires IsWorkerStep(a) && i in s.db.deliveries
    ensures i in Apply(s, a).db.deliveries && RowAfter(s, a, i, s.db.deliveries[i], Apply(s, a).db.deliveries[i])
  {
    hide Apply, RowAfter;
    if a.TakeClaim? {
      ClaimRow(s, a, i);
    } else if a.SuppressClaim? {
      SuppressedRow(s, a, i);
    } else if a.ReleaseClaim? {
      ReleasedRow(s, a, i);
    } else if a.StartAttempt? {
      StartedAttempt(s, a, i);
    } else if a.FinishAttempt? {
      FinishRow(s, a, i);
    } else {
      StillRow(s, a, i);
    }
  }

  lemma OldRow(s: State, a: Action, i: Uuid)
    requires Core(s) && FreshIds(s, a) && i in s.db.deliveries
    ensures i !in Drawn(a)
  {
    assert RefsOk(s.db, s.issued);
  }

  /** Whatever the step: when a row survives it, this is what is left of the row. */
  lemma RowAfterIsExact(s: State, a: Action, i: Uuid)
    requires Core(s) && FreshIds(s, a) && i in s.db.deliveries && i in Apply(s, a).db.deliveries
    ensures RowAfter(s, a, i, s.db.deliveries[i], Apply(s, a).db.deliveries[i])
  {
    hide Core, FreshIds, Apply, RowAfter;
    if IsEventStep(a) {
      EventRow(s, a, i);
    } else if IsWorkerStep(a) {
      WorkerRow(s, a, i);
    } else {
      OldRow(s, a, i);
      AdminRow(s, a, i);
    }
  }

  // ----- rows that appear and disappear

  /** A new report of event e for channel c, due at once unless it is recorded as suppressed. */
  predicate IsReport(d: Delivery, e: Uuid, c: ChannelId, kind: Kind, suppressed: bool, now: Time) {
    d == Delivery(Some(e), c, kind, if suppressed then Suppressed else Pending, 0, 0, 0,
                  if suppressed then None else Some(now), None, None, now, [])
  }

  /** A new report goes to a usable channel of its event. */
  predicate GoesOut(s: State, t: State, e: Uuid, c: ChannelId) {
    e in t.db.events && c in t.db.events[e].channels && IsOn(s.db, c)
  }

  /** What step a may add as row i. */
  ghost predicate RowBorn(s: State, a: Action, t: State, i: Uuid, d: Delivery) {
    match a
    case ObserveRule(p, _, _, o, suppressed, _, ids) =>
      && i in ids && d.event.Some? && GoesOut(s, t, d.event.value, ids[i]) && IsOf(t.db.events[d.event.value], p)
      && (IsReport(d, d.event.value, ids[i], Firing, suppressed, o.observedAt)
          || IsReport(d, d.event.value, ids[i], Resolved, false, o.observedAt))
    case Acknowledge(e, ids, now) =>
      i in ids && GoesOut(s, t, e, ids[i]) && IsReport(d, e, ids[i], Acknowledged, false, now)
    case Resolve(e, ids, now) =>
      i in ids && GoesOut(s, t, e, ids[i]) && IsReport(d, e, ids[i], Resolved, false, now)
    case SendTest(c, j, now) =>
      i == j && IsOn(s.db, c) && d == Delivery(None, c, WebhookTest, Pending, 0, 0, 0, Some(now), None, None, now, [])
    case _ => false
  }

  lemma EnqueueBorn(db: Db, e: Uuid, kind: Kind, suppressed: bool, ids: map<Uuid, ChannelId>, now: Time, i: Uuid)
    requires i !in db.deliveries && i in Enqueue(db, e, kind, suppressed, ids, now).deliveries
    ensures i in ids && e in db.events && ids[i] in db.events[e].channels && IsOn(db, ids[i])
    ensures IsReport(Enqueue(db, e, kind, suppressed, ids, now).deliveries[i], e, ids[i], kind, suppressed, now)
  {
  }

  lemma ResolveBorn(db: Db, e: Uuid, ids: map<Uuid, ChannelId>, now: Time, recoveredAt: Option<Time>, i: Uuid)
    requires e in db.events && i !in db.deliveries && i in ResolveEvent(db, e, ids, now, recoveredAt).deliveries
    ensures var t := ResolveEvent(db, e, ids, now, recoveredAt);
            && i in ids && e in t.events && ids[i] in t.events[e].channels && IsOn(db, ids[i])
            && t.events[e].rule == db.events[e].rule && t.events[e].instance == db.events[e].instance
            && IsReport(t.deliveries[i], e, ids[i], Resolved, false, now)
  {
    ResolveMeans(db, e, ids, now, recoveredAt);
    hide Enqueue;
    if !db.events[e].phase.Closed? {
      var last := if recoveredAt.Some? then recoveredAt.value else db.events[e].lastObserved;
      var event := db.events[e].(phase := Closed, resolvedAt := Some(now), lastObserved := last, suppressed := false);
      EnqueueBorn(db.(events := db.events[e := event], deliveries := SilencePending(db.deliveries, e)), e, Resolved, false, ids, now, i);
    }
  }

  lemma JudgeBorn(db: Db, p: Pair, rule: Rule, ev0: Evaluation, active: Option<Uuid>, o: Observation, suppressed: bool,
                  eventId: Uuid, ids: map<Uuid, ChannelId>, i: Uuid)
    requires active.Some? ==> IsActive(db, active.value, p)
    requires i !in db.deliveries && i in Judge(db, p, rule, ev0, active, o, suppressed, eventId, ids).deliveries
    ensures var t := Judge(db, p, rule, ev0, active, o, suppressed, eventId, ids);
            var d := t.deliveries[i];
            && i in ids && d.event.Some? && d.event.value in t.events && ids[i] in t.events[d.event.value].channels && IsOn(db, ids[i])
            && IsOf(t.events[d.event.value], p)
            && (IsReport(d, d.event.value, ids[i], Firing, suppressed, o.observedAt)
                || IsReport(d, d.event.value, ids[i], Resolved, false, o.observedAt))
  {
    VerdictNeedsState(ev0, active.Some?, rule, o);
    hide Evaluate, Enqueue, ResolveEvent;
    var (ev, verdict) := Evaluate(ev0, active.Some?, rule, o);
    var db1 := db.(evaluations := db.evaluations[p := ev]);
    match verdict
    case Stale =>
    case Waiting =>
    case Quiet(recovered) =>
      if recovered && active.Some? {
        ResolveBorn(db1, active.value, ids, o.observedAt, Some(o.observedAt), i);
      }
    case Continue =>
      var mid := db1.(events := db1.events[active.value := RepeatedEvent(db1.events[active.value], o, suppressed)]);
      EnqueueMeans(mid, active.value, Firing, suppressed, ids, o.observedAt);
      EnqueueBorn(mid, active.value, Firing, suppressed, ids, o.observedAt, i);
    case Fire(first, count) =>
      var mid := db1.(events := db1.events[eventId := OpenEvent(db1, p, rule, o, suppressed, first, count)]);
      EnqueueMeans(mid, eventId, Firing, suppressed, ids, o.observedAt);
      EnqueueBorn(mid, eventId, Firing, suppressed, ids, o.observedAt, i);
  }

  lemma ObserveBorn(s: State, a: Action, i: Uuid)
    requires a.ObserveRule? && i !in s.db.deliveries && i in Apply(s, a).db.deliveries
    ensures RowBorn(s, a, Apply(s, a), i, Apply(s, a).db.deliveries[i])
  {
    hide Judge, Evaluate, Upserted, IsReport;
    var db, p := s.db, a.p;
    var active := ActiveEvent(db, p);
    JudgeBorn(db, p, db.rules[p.0], Upserted(db.evaluations, p, a.version), active, a.o, a.suppressed, a.eventId, a.ids, i);
  }

  lemma AcknowledgeBorn(s: State, a: Action, i: Uuid)
    requires a.Acknowledge? && i !in s.db.deliveries && i in Apply(s, a).db.deliveries
    ensures RowBorn(s, a, Apply(s, a), i, Apply(s, a).db.deliveries[i])
  {
    hide Enqueue, IsReport;
    if a.event in s.db.events {
      var mid := s.db.(events := s.db.events[a.event := s.db.events[a.event].(phase := Acked)]);
      EnqueueMeans(mid, a.event, Acknowledged, false, a.ids, a.now);
      if i in Enqueue(mid, a.event, Acknowledged, false, a.ids, a.now).deliveries {
        EnqueueBorn(mid, a.event, Acknowledged, false, a.ids, a.now, i);
      }
    }
  }

  lemma OutrightBorn(s: State, a: Action, i: Uuid)
    requires a.Resolve? && i !in s.db.deliveries && i in Apply(s, a).db.deliveries
    ensures RowBorn(s, a, Apply(s, a), i, Apply(s, a).db.deliveries[i])
  {
    hide ResolveEvent, IsReport;
    ResolveBorn(s.db, a.event, a.ids, a.now, None, i);
  }

  lemma NoneBorn(s: State, a: Action, i: Uuid)
    requires !a.ObserveRule? && !a.Acknowledge? && !a.Resolve? && !a.SendTest?
    requires i !in s.db.deliveries
    ensures i !in Apply(s, a).db.deliveries
  {
    hide ChannelFree, FirstInLine, ChannelCool, FinishedRow, Retained, CooldownAfter, SuppressNow, FlagSuppressed, LifecycleHasAdvanced;
  }

  lemma TestBorn(s: State, a: Action, i: Uuid)
    requires a.SendTest? && i !in s.db.deliveries && i in Apply(s, a).db.deliveries
    ensures RowBorn(s, a, Apply(s, a), i, Apply(s, a).db.deliveries[i])
  {
  }

  /** Every row that a step adds is a report that is due, or the test message it was asked for. */
  lemma NewRowsAreReports(s: State, a: Action, i: Uuid)
    requires i !in s.db.deliveries && i in Apply(s, a).db.deliveries
    ensures RowBorn(s, a, Apply(s, a), i, Apply(s, a).db.deliveries[i])
  {
    hide Apply, RowBorn;
    if a.ObserveRule? {
      ObserveBorn(s, a, i);
    } else if a.Acknowledge? {
      AcknowledgeBorn(s, a, i);
    } else if a.Resolve? {
      OutrightBorn(s, a, i);
    } else if a.SendTest? {
      TestBorn(s, a, i);
    } else {
      NoneBorn(s, a, i);
    }
  }

  lemma NoneLost(s: State, a: Action, i: Uuid)
    requires Core(s) && FreshIds(s, a) && i in s.db.deliveries && !a.Retain?
    ensures i in Apply(s, a).db.deliveries
  {
    hide Core, FreshIds, Apply;
    if IsEventStep(a) {
      EventRow(s, a, i);
    } else if IsWorkerStep(a) {
      WorkerRow(s, a, i);
    } else {
      AdminKeepsRows(s, a, i);
    }
  }

  lemma AdminKeepsRows(s: State, a: Action, i: Uuid)
    requires !IsEventStep(a) && !IsWorkerStep(a) && !a.Retain? && i in s.db.deliveries
    ensures i in Apply(s, a).db.deliveries
  {
    hide RetryVerdict;
  }

  /** Rows are deleted by retention alone, exactly when their event was resolved before the cutoff, or,
      for a test message, when it was created before the cutoff and has left the queue. */
  lemma DeletedExactlyWhenExpired(s: State, a: Action, i: Uuid)
    requires Core(s) && FreshIds(s, a) && i in s.db.deliveries
    ensures var d := s.db.deliveries[i];
            i !in Apply(s, a).db.deliveries <==>
              && a.Retain?
              && (if d.event.Some?
                  then s.db.events[d.event.value].resolvedAt.Some? && s.db.events[d.event.value].resolvedAt.value < a.cutoff
                  else d.created < a.cutoff && !d.status.Pending? && !d.status.Processing?)
  {
    if a.Retain? {
      assert RefsOk(s.db, s.issued) && EventsOk(s.db.events, Unordered);
      if s.db.deliveries[i].event.Some? {
        assert EventOk(s.db.events[s.db.deliveries[i].event.value], Unordered);
      }
      hide Core, FreshIds;
    } else {
      NoneLost(s, a, i);
    }
  }

  // ----- when a claim is granted

  /** The lifecycle order of the kinds. */
  predicate EarlierKind(a: Kind, b: Kind) {
    match a
    case Firing => !b.Firing?
    case Acknowledged => b.Resolved? || b.WebhookTest?
    case Resolved => b.WebhookTest?
    case WebhookTest => false
  }

  /** Report a of an event comes before its report b on the same channel. */
  predicate ComesBefore(i: Uuid, a: Delivery, j: Uuid, b: Delivery) {
    a.created < b.created || (a.created == b.created && (EarlierKind(a.kind, b.kind) || (a.kind == b.kind && i < j)))
  }

  lemma OrderMeans(i: Uuid, a: Delivery, j: Uuid, b: Delivery)
    requires i != j
    ensures Precedes(j, b, i, a) <==> !ComesBefore(i, a, j, b)
  {
  }

  lemma FirstMeans(ds: Deliveries, i: Uuid)
    requires i in ds
    ensures FirstInLine(ds, i) <==>
              forall j | j in ds && j != i && ds[i].event.Some? && ds[j].event == ds[i].event && ds[j].channel == ds[i].channel
                         && (ds[j].status.Pending? || ds[j].status.Processing?) ::
                ComesBefore(i, ds[i], j, ds[j])
  {
    forall j | j in ds && j != i ensures Precedes(j, ds[j], i, ds[i]) <==> !ComesBefore(i, ds[i], j, ds[j]) {
      OrderMeans(i, ds[i], j, ds[j]);
    }
    hide Precedes, ComesBefore;
  }

  /** A claim is granted exactly when the worker is idle and the row is pending with its retry time reached, or
      processing with its lease over; its channel exists and does not cool; no other row of the channel has a
      running lease; and no earlier report of its event on the channel is in flight. */
  lemma GrantedExactly(s: State, claim: Action)
    requires claim.TakeClaim?
    ensures var ds, i, now := s.db.deliveries, claim.id, claim.now;
            Pc(s, claim.w).Idle? && !Pc(Apply(s, claim), claim.w).Idle? <==>
              && Pc(s, claim.w).Idle? && i in ds
              && ((ds[i].status.Pending? && (if ds[i].nextAt.Some? then ds[i].nextAt.value else 0) <= now)
                  || (ds[i].status.Processing? && (if ds[i].leaseUntil.Some? then ds[i].leaseUntil.value else 0) <= now))
              && ds[i].channel in s.db.channels
              && (if s.db.channels[ds[i].channel].cooldown.Some? then s.db.channels[ds[i].channel].cooldown.value else 0) <= now
              && (forall j | j in ds && j != i && ds[j].channel == ds[i].channel && ds[j].status.Processing? ::
                    (if ds[j].leaseUntil.Some? then ds[j].leaseUntil.value else 0) <= now)
              && (forall j | j in ds && j != i && ds[i].event.Some? && ds[j].event == ds[i].event && ds[j].channel == ds[i].channel
                             && (ds[j].status.Pending? || ds[j].status.Processing?) ::
                    ComesBefore(i, ds[i], j, ds[j]))
  {
    if claim.id in s.db.deliveries {
      FirstMeans(s.db.deliveries, claim.id);
    }
    if Pc(s, claim.w).Idle? {
      StartsWorking(s, claim);
    }
    hide FirstInLine, ComesBefore, Apply;
  }

  lemma StartsWorking(s: State, claim: Action)
    requires claim.TakeClaim? && Pc(s, claim.w).Idle?
    ensures !Pc(Apply(s, claim), claim.w).Idle? <==> IsCandidate(s.db, claim.id, claim.now)
  {
    hide IsCandidate;
  }
}
