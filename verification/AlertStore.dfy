/** The alert tables as the backend updates them: each method performs one function of
    backend/src/alerts.rs statement by statement and is proved to have exactly the effect of the
    transaction function that the protocol and the evaluation proofs are about. */
module AlertStore {
  import opened Wrappers
  import opened AlertTables
  import opened AlertEvaluation
  import opened AlertTransactions

  /** Rows enqueued for other channels do not change whether channel c gets one. */
  lemma InsertIsLocal(db: Db, e: Uuid, kind: Kind, suppressed: bool, ids: map<Uuid, ChannelId>, now: Time, c: ChannelId)
    requires forall i | i in ids :: ids[i] != c
    requires ids.Keys !! db.deliveries.Keys
    ensures Inserts(Enqueue(db, e, kind, suppressed, ids, now), e, c, kind, suppressed) == Inserts(db, e, c, kind, suppressed)
  {
    var ds, ds' := db.deliveries, Enqueue(db, e, kind, suppressed, ids, now).deliveries;
    assert forall j | j in ds :: j in ds' && ds'[j] == ds[j];
    assert forall j | j in ds' && j !in ds :: ds'[j].channel != c;
    assert AlreadyRecorded(ds', e, c, kind) == AlreadyRecorded(ds, e, c, kind);
    assert Deliverable(ds', e, c, kind) == Deliverable(ds, e, c, kind);
  }

  lemma NewRowsOneMore(db: Db, e: Uuid, kind: Kind, suppressed: bool, ids: map<Uuid, ChannelId>, now: Time, i: Uuid, c: ChannelId)
    requires i !in ids
    ensures var rows := NewRows(db, e, kind, suppressed, ids, now);
            NewRows(db, e, kind, suppressed, ids[i := c], now)
              == if Inserts(db, e, c, kind, suppressed) then rows[i := NewDelivery(Some(e), c, kind, suppressed, now)] else rows
  {
    hide Inserts, NewDelivery;
  }

  lemma EnqueueNothing(db: Db, e: Uuid, kind: Kind, suppressed: bool, now: Time)
    ensures Enqueue(db, e, kind, suppressed, map[], now) == db
  {
    assert NewRows(db, e, kind, suppressed, map[], now) == map[];
  }

  /** Inserting channel by channel adds up to the simultaneous insert. */
  lemma EnqueueOneMore(db: Db, e: Uuid, kind: Kind, suppressed: bool, ids: map<Uuid, ChannelId>, now: Time, i: Uuid, c: ChannelId)
    requires i !in ids && ids.Keys !! db.deliveries.Keys
    requires forall j | j in ids :: ids[j] != c
    ensures var mid := Enqueue(db, e, kind, suppressed, ids, now);
            Enqueue(db, e, kind, suppressed, ids[i := c], now)
              == if Inserts(mid, e, c, kind, suppressed) then Put(mid, i, NewDelivery(Some(e), c, kind, suppressed, now)) else mid
  {
    hide Inserts, NewRows;
    InsertIsLocal(db, e, kind, suppressed, ids, now, c);
    NewRowsOneMore(db, e, kind, suppressed, ids, now, i, c);
    var rows, d := NewRows(db, e, kind, suppressed, ids, now), NewDelivery(Some(e), c, kind, suppressed, now);
    assert (db.deliveries + rows)[i := d] == db.deliveries + rows[i := d];
  }

  lemma EnqueueIgnoresEvaluations(db: Db, evaluations: map<Pair, Evaluation>, e: Uuid, kind: Kind, suppressed: bool,
                                  ids: map<Uuid, ChannelId>, now: Time)
    ensures Enqueue(db.(evaluations := evaluations), e, kind, suppressed, ids, now)
            == Enqueue(db, e, kind, suppressed, ids, now).(evaluations := evaluations)
  {
    assert forall c :: Inserts(db.(evaluations := evaluations), e, c, kind, suppressed) == Inserts(db, e, c, kind, suppressed);
    hide Inserts;
    assert NewRows(db.(evaluations := evaluations), e, kind, suppressed, ids, now) == NewRows(db, e, kind, suppressed, ids, now);
  }

  lemma PushedBackAfterPut(ds: Deliveries, i: Uuid, d: Delivery, d': Delivery, c: ChannelId, at: Time)
    requires i in ds && !ds[i].status.Pending? && d.status == ds[i].status
    ensures PushedBack(ds[i := d], c, at)[i := d'] == PushedBack(ds, c, at)[i := d']
    ensures PushedBack(ds[i := d], c, at)[i] == d && i in PushedBack(ds[i := d], c, at)
  {
  }

  class Store {
    var deliveries: Deliveries
    var channels: map<ChannelId, Channel>
    var events: map<Uuid, Event>
    var evaluations: map<Pair, Evaluation>
    var rules: map<RuleId, Rule>

    function Tables(): Db
      reads this
    {
      Db(deliveries, channels, events, evaluations, rules)
    }

    /** claim_delivery when no other transaction holds row locks: the first candidate in claim order. */
    method ClaimDelivery(now: Time, token: Uuid) returns (claimed: Option<Uuid>)
      modifies this`deliveries
      ensures claimed.None? ==> Tables() == old(Tables()) && forall i :: !IsCandidate(old(Tables()), i, now)
      ensures claimed.Some? ==>
                && IsCandidate(old(Tables()), claimed.value, now)
                && Tables() == Claim(old(Tables()), claimed.value, token, now)
                && forall i | IsCandidate(old(Tables()), i, now) && i != claimed.value ::
                     ClaimedBefore(claimed.value, old(deliveries)[claimed.value], i, old(deliveries)[i])
      // no candidate has been ready for longer; of those ready as long none is older, of those as old none has a smaller id
      ensures claimed.Some? ==>
                var c := old(deliveries)[claimed.value];
                forall i | IsCandidate(old(Tables()), i, now) && i != claimed.value ::
                  var d := old(deliveries)[i];
                  var ready, ready' := if c.nextAt.Some? then c.nextAt.value else c.created, if d.nextAt.Some? then d.nextAt.value else d.created;
                  ready < ready' || (ready == ready' && (c.created < d.created || (c.created == d.created && claimed.value < i)))
    {
      claimed := None;
      var todo := deliveries.Keys;
      while todo != {}
        invariant todo <= deliveries.Keys && Tables() == old(Tables())
        invariant claimed.Some? ==> IsCandidate(Tables(), claimed.value, now) && claimed.value !in todo
        invariant claimed.None? ==> forall i | i in deliveries && i !in todo :: !IsCandidate(Tables(), i, now)
        invariant claimed.Some? ==> forall i | i in deliveries && i !in todo && i != claimed.value && IsCandidate(Tables(), i, now) ::
                    ClaimedBefore(claimed.value, deliveries[claimed.value], i, deliveries[i])
        decreases todo
      {
        var i :| i in todo;
        todo := todo - {i};
        if IsCandidate(Tables(), i, now) {
          if claimed.None? || ClaimedBefore(i, deliveries[i], claimed.value, deliveries[claimed.value]) {
            claimed := Some(i);
          }
        }
      }
      if claimed.Some? {
        var i := claimed.value;
        deliveries := deliveries[i := ClaimedRow(deliveries[i], token, now)];
      }
    }

    method StartDeliveryAttempt(i: Uuid, copy: Delivery, now: Time) returns (started: Option<Delivery>)
      modifies this`deliveries
      ensures Tables() == Start(old(Tables()), i, copy, now)
      ensures started == if MayStart(old(Tables()), i, copy, now) then Some(StartedRow(old(deliveries)[i])) else None
    {
      if copy.token.None? {
        return None;
      }
      if i in deliveries {
        var d := deliveries[i];
        if d.status.Processing? && d.leaseUntil.Some? && d.leaseUntil.value > now && d.token == copy.token {
          d := d.(attempts := d.attempts + 1, cycle := d.cycle + 1);
          deliveries := deliveries[i := d];
          return Some(d);
        }
      }
      return None;
    }

    method ReleaseDeliveryClaim(i: Uuid, copy: Delivery, retryAt: Time)
      modifies this`deliveries
      ensures Tables() == Release(old(Tables()), i, copy, retryAt)
    {
      if copy.token.Some? && i in deliveries && deliveries[i].status.Processing? && deliveries[i].token == copy.token {
        deliveries := deliveries[i := deliveries[i].(status := Pending, nextAt := Some(retryAt), leaseUntil := None, token := None)];
      }
    }

    method MarkDeliverySuppressed(i: Uuid, copy: Delivery)
      modifies this`deliveries, this`events
      ensures Tables() == MarkSuppressed(old(Tables()), i, copy)
    {
      if copy.token.None? || i !in deliveries || !deliveries[i].status.Processing? || deliveries[i].token != copy.token {
        return;
      }
      deliveries := deliveries[i := deliveries[i].(status := Suppressed, nextAt := None, leaseUntil := None, token := None)];
      if copy.event.Some? && copy.event.value in events && !events[copy.event.value].phase.Closed? {
        var e := copy.event.value;
        events := events[e := events[e].(suppressed := true)];
      }
    }

    method FinishDeliveryAttempt(i: Uuid, copy: Delivery, outcome: Outcome, now: Time)
      modifies this`deliveries, this`channels
      ensures Tables() == Finish(old(Tables()), i, copy, outcome, now)
    {
      hide PushedBack, CooldownDelay, FinishedRow;
      if copy.token.None? || i !in deliveries || !deliveries[i].status.Processing? || deliveries[i].token != copy.token {
        return;
      }
      ghost var before := deliveries;
      var row := OutcomeRow(deliveries[i], copy, outcome, now);
      deliveries := deliveries[i := deliveries[i].(recorded := deliveries[i].recorded + [copy.attempts])];
      var c := copy.channel;
      var delay := if c in channels && !channels[c].deleted then CooldownDelay(channels[c].email, outcome, copy.cycle) else None;
      if delay.Some? {
        PushedBackAfterPut(before, i, deliveries[i], row, c, now + delay.value);
        CoolDownChannel(c, now + delay.value);
      }
      deliveries := deliveries[i := row];
    }

    /** Which of the five closing updates the finished attempt gets. */
    method OutcomeRow(d: Delivery, copy: Delivery, outcome: Outcome, now: Time) returns (row: Delivery)
      ensures row == FinishedRow(Tables(), d, copy, outcome, now)
    {
      var inactive := !ChannelUsable(channels, copy.channel);
      var eventResolved := !outcome.Delivered? && copy.kind.Firing? && PhaseOf(events, copy.event) == Some(Closed);
      var retry := RetryDelayAfter(copy.cycle);
      row := d.(recorded := d.recorded + [copy.attempts], leaseUntil := None, token := None);
      if outcome.Delivered? {
        row := row.(status := Succeeded, nextAt := None);
      } else if eventResolved {
        row := row.(status := Suppressed, nextAt := None);
      } else if inactive {
        row := row.(status := Failed, nextAt := None);
      } else if retry.Some? {
        row := row.(status := Pending, nextAt := Some(now + retry.value));
      } else {
        row := row.(status := Failed, nextAt := None);
      }
    }

    /** The cooldown of a channel and the retry times of its queue move up together. */
    method CoolDownChannel(c: ChannelId, resumeAt: Time)
      requires c in channels
      modifies this`deliveries, this`channels
      ensures Tables() == CoolDown(old(Tables()), c, resumeAt)
    {
      var until := channels[c].cooldown;
      channels := channels[c := channels[c].(cooldown := Some(if until.Some? then Max(until.value, resumeAt) else resumeAt))];
      deliveries := PushedBack(deliveries, c, resumeAt);
    }

    method ResetFailedDelivery(i: Uuid, now: Time) returns (answer: RetryAnswer)
      modifies this`deliveries
      ensures answer == RetryVerdict(old(Tables()), i)
      ensures Tables() == ResetFailed(old(Tables()), i, now)
      ensures answer.NotFound? <==> i !in old(deliveries)
      ensures answer.NotFailed? <==> i in old(deliveries) && !old(deliveries)[i].status.Failed?
      ensures answer.Advanced? <==>
                && i in old(deliveries) && old(deliveries)[i].status.Failed?
                && old(deliveries)[i].event.Some? && old(deliveries)[i].event.value in events
                && ((old(deliveries)[i].kind.Firing? && !events[old(deliveries)[i].event.value].phase.Open?)
                    || (old(deliveries)[i].kind.Acknowledged? && events[old(deliveries)[i].event.value].phase.Closed?))
      ensures answer.ChannelOff? || answer.Reset? ==> i in old(deliveries) && old(deliveries)[i].channel in channels
      ensures answer.ChannelOff? ==> !channels[old(deliveries)[i].channel].enabled && !channels[old(deliveries)[i].channel].deleted
      ensures answer.Reset? ==>
                && channels[old(deliveries)[i].channel].enabled && !channels[old(deliveries)[i].channel].deleted
                && deliveries == old(deliveries)[i := old(deliveries)[i].(status := Pending, cycle := 0,
                                   retries := old(deliveries)[i].retries + 1, nextAt := Some(now), leaseUntil := None, token := None)]
    {
      if i !in deliveries {
        return NotFound;
      }
      var d := deliveries[i];
      if !d.status.Failed? {
        return NotFailed;
      }
      if d.event.Some? && LifecycleHasAdvanced(d.kind, PhaseOf(events, d.event)) {
        return Advanced;
      }
      if d.channel !in channels || channels[d.channel].deleted {
        return ChannelGone;
      }
      if !channels[d.channel].enabled {
        return ChannelOff;
      }
      deliveries := deliveries[i := d.(status := Pending, cycle := 0, retries := d.retries + 1, nextAt := Some(now),
                                       leaseUntil := None, token := None)];
      return Reset;
    }

    /** insert_delivery_tx: ON CONFLICT on the partial unique index DO NOTHING. */
    method InsertDelivery(i: Uuid, e: Uuid, c: ChannelId, kind: Kind, suppressed: bool, now: Time)
      modifies this`deliveries
      ensures Tables() == if suppressed || !Deliverable(old(deliveries), e, c, kind)
                          then Put(old(Tables()), i, NewDelivery(Some(e), c, kind, suppressed, now)) else old(Tables())
    {
      if suppressed || !Deliverable(deliveries, e, c, kind) {
        deliveries := deliveries[i := NewDelivery(Some(e), c, kind, suppressed, now)];
      }
    }

    /** The body of the loop over the channels of the event. */
    method EnqueueForChannel(i: Uuid, e: Uuid, c: ChannelId, kind: Kind, suppressed: bool, now: Time)
      requires e in events
      modifies this`deliveries
      ensures Tables() == if Inserts(old(Tables()), e, c, kind, suppressed)
                          then Put(old(Tables()), i, NewDelivery(Some(e), c, kind, suppressed, now)) else old(Tables())
    {
      if c in events[e].channels && ChannelUsable(channels, c) {
        if kind.Firing? && suppressed {
          if AlreadyRecorded(deliveries, e, c, kind) {
            return;
          }
        }
        InsertDelivery(i, e, c, kind, suppressed, now);
      }
    }

    /** enqueue_event_lifecycle_tx inserts channel by channel, each insert seeing the ones before it. */
    method EnqueueEventLifecycle(e: Uuid, kind: Kind, suppressed: bool, ids: map<Uuid, ChannelId>, now: Time)
      requires e in events
      requires ids.Keys !! deliveries.Keys
      requires forall i, j | i in ids && j in ids && ids[i] == ids[j] :: i == j
      modifies this`deliveries
      ensures Tables() == Enqueue(old(Tables()), e, kind, suppressed, ids, now)
    {
      hide Enqueue, Inserts, NewDelivery;
      var todo := ids.Keys;
      ghost var before := Tables();
      ghost var done: map<Uuid, ChannelId> := map[];
      EnqueueNothing(before, e, kind, suppressed, now);
      while todo != {}
        invariant done.Keys !! todo && done.Keys + todo == ids.Keys
        invariant forall i | i in done :: done[i] == ids[i]
        invariant Tables() == Enqueue(before, e, kind, suppressed, done, now)
        invariant events == old(events)
        decreases todo
      {
        var i :| i in todo;
        assert forall j | j in done :: done[j] != ids[i];
        EnqueueOneMore(before, e, kind, suppressed, done, now, i, ids[i]);
        EnqueueForChannel(i, e, ids[i], kind, suppressed, now);
        todo, done := todo - {i}, done[i := ids[i]];
      }
      assert done == ids;
    }

    method ResolveEventTx(e: Uuid, ids: map<Uuid, ChannelId>, now: Time, recoveredAt: Option<Time>)
      requires e in events
      requires ids.Keys !! deliveries.Keys
      requires forall i, j | i in ids && j in ids && ids[i] == ids[j] :: i == j
      modifies this`deliveries, this`events
      ensures Tables() == ResolveEvent(old(Tables()), e, ids, now, recoveredAt)
    {
      if events[e].phase.Closed? {
        return;
      }
      var last := if recoveredAt.Some? then recoveredAt.value else events[e].lastObserved;
      events := events[e := events[e].(phase := Closed, resolvedAt := Some(now), lastObserved := last, suppressed := false)];
      deliveries := SilencePending(deliveries, e);
      EnqueueEventLifecycle(e, Resolved, false, ids, now);
    }

    method AcknowledgeEventTx(e: Uuid, ids: map<Uuid, ChannelId>, now: Time) returns (acknowledged: bool)
      requires ids.Keys !! deliveries.Keys
      requires forall i, j | i in ids && j in ids && ids[i] == ids[j] :: i == j
      modifies this`deliveries, this`events
      ensures Tables() == AcknowledgeEvent(old(Tables()), e, ids, now)
      ensures acknowledged <==> e in old(events) && !old(events)[e].phase.Closed?
    {
      if e !in events || events[e].phase.Closed? {
        return false;
      }
      if events[e].phase.Acked? {
        return true;
      }
      events := events[e := events[e].(phase := Acked)];
      EnqueueEventLifecycle(e, Acknowledged, false, ids, now);
      return true;
    }

    method FindActive(p: Pair) returns (active: Option<Uuid>)
      requires forall e, f | IsActive(Tables(), e, p) && IsActive(Tables(), f, p) :: e == f
      ensures active == ActiveEvent(Tables(), p)
      ensures active.Some? ==> active.value in events
    {
      active := None;
      var todo := events.Keys;
      while todo != {} && active.None?
        invariant todo <= events.Keys
        invariant active.Some? ==> IsActive(Tables(), active.value, p)
        invariant active.None? ==> forall e | e in events && e !in todo :: !IsActive(Tables(), e, p)
        decreases todo
      {
        var e :| e in todo;
        todo := todo - {e};
        if IsActive(Tables(), e, p) {
          active := Some(e);
        }
      }
    }

    /** process_rule_observation; `suppressed` is the answer of suppression_reason_tx. */
    method ProcessRuleObservation(p: Pair, version: nat, eligible: bool, o: Observation, suppressed: bool,
                                  eventId: Uuid, ids: map<Uuid, ChannelId>)
      requires eventId !in events && ids.Keys !! deliveries.Keys
      requires forall i, j | i in ids && j in ids && ids[i] == ids[j] :: i == j
      requires forall e, f | IsActive(Tables(), e, p) && IsActive(Tables(), f, p) :: e == f
      modifies this`deliveries, this`events, this`evaluations
      ensures Tables() == Observe(old(Tables()), p, version, eligible, o, suppressed, eventId, ids)
    {
      hide Judge, ActiveEvent;
      if p.0 !in rules || !rules[p.0].enabled || rules[p.0].version != version {
        return;
      }
      if !eligible {
        evaluations := evaluations - {p};
        return;
      }
      var ev := if p in evaluations && evaluations[p].version == version then evaluations[p] else FreshEvaluation(version);
      var active := FindActive(p);
      JudgeObservation(p, rules[p.0], ev, active, o, suppressed, eventId, ids);
    }

    method JudgeObservation(p: Pair, rule: Rule, ev: Evaluation, active: Option<Uuid>, o: Observation, suppressed: bool,
                            eventId: Uuid, ids: map<Uuid, ChannelId>)
      requires eventId !in events && ids.Keys !! deliveries.Keys && (active.Some? ==> active.value in events)
      requires forall i, j | i in ids && j in ids && ids[i] == ids[j] :: i == j
      modifies this`deliveries, this`events, this`evaluations
      ensures Tables() == Judge(old(Tables()), p, rule, ev, active, o, suppressed, eventId, ids)
    {
      hide Enqueue, ResolveEvent, RecoveryConfirmation, PendingShouldFire, ObservationIsStale, Sampled;
      if ObservationIsStale(ev, o) {
        evaluations := evaluations[p := ev];
        return;
      }
      if !o.abnormal {
        var (since, recovered) := RecoveryConfirmation(rule.offlineMetric, active.Some?, ev.recoverySince, o.observedAt);
        evaluations := evaluations[p := Sampled(ev, o).(pendingSince := None, recoverySince := if recovered then None else since, matchCount := 0)];
        if recovered && active.Some? {
          ResolveEventTx(active.value, ids, o.observedAt, Some(o.observedAt));
        }
        return;
      }
      if active.Some? {
        var sampled := evaluations[p := Sampled(ev, o).(recoverySince := None, matchCount := ev.matchCount + 1)];
        RepeatEventTx(active.value, o, suppressed, ids, sampled);
        evaluations := sampled;
        return;
      }
      var pendingSince := if ev.pendingSince.Some? then ev.pendingSince.value else o.observedAt;
      var shouldFire := PendingShouldFire(rule.duration, ev, o.observedAt);
      evaluations := evaluations[p := Sampled(ev, o).(pendingSince := Some(pendingSince), recoverySince := None, matchCount := ev.matchCount + 1)];
      if shouldFire {
        OpenEventTx(p, rule, o, suppressed, pendingSince, ev.matchCount + 1, eventId, ids);
      }
    }

    /** The active event seen once more, and the report it may still need; `evaluations'` is what the
        caller stores next, which no insert reads. */
    method RepeatEventTx(e: Uuid, o: Observation, suppressed: bool, ids: map<Uuid, ChannelId>, ghost evaluations': map<Pair, Evaluation>)
      requires e in events && ids.Keys !! deliveries.Keys
      requires forall i, j | i in ids && j in ids && ids[i] == ids[j] :: i == j
      modifies this`deliveries, this`events
      ensures Tables().(evaluations := evaluations')
              == Enqueue(old(Tables()).(evaluations := evaluations', events := old(events)[e := RepeatedEvent(old(events)[e], o, suppressed)]),
                         e, Firing, suppressed, ids, o.observedAt)
      ensures evaluations == old(evaluations)
    {
      hide Enqueue;
      events := events[e := events[e].(lastObserved := o.observedAt, matchCount := events[e].matchCount + 1, suppressed := suppressed)];
      EnqueueIgnoresEvaluations(Tables(), evaluations', e, Firing, suppressed, ids, o.observedAt);
      EnqueueEventLifecycle(e, Firing, suppressed, ids, o.observedAt);
    }

    /** The new event with the channels of its rule, and its first report. */
    method OpenEventTx(p: Pair, rule: Rule, o: Observation, suppressed: bool, firstObserved: Time, count: nat,
                       eventId: Uuid, ids: map<Uuid, ChannelId>)
      requires eventId !in events && ids.Keys !! deliveries.Keys
      requires forall i, j | i in ids && j in ids && ids[i] == ids[j] :: i == j
      modifies this`deliveries, this`events
      ensures Tables() == Enqueue(old(Tables()).(events := old(events)[eventId := OpenEvent(old(Tables()), p, rule, o, suppressed, firstObserved, count)]),
                                  eventId, Firing, suppressed, ids, o.observedAt)
    {
      hide Enqueue;
      var targets := set c | c in rule.channels && c in channels && !channels[c].deleted;
      events := events[eventId := Event(p.0, p.1, Open, suppressed, targets, firstObserved, o.observedAt, o.observedAt, count, None)];
      EnqueueEventLifecycle(eventId, Firing, suppressed, ids, o.observedAt);
    }
  }
}
