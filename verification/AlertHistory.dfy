/** What no step can undo: how rows, events, channels and tokens evolve from one state to the next. */
module AlertHistory {
  import opened Wrappers
  import opened AlertTables
  import opened AlertEvaluation
  import opened AlertTransactions
  import opened AlertProtocol
  import opened AlertInvariants

  // A delivery that will never be sent again.
  predicate Terminal(db: Db, d: Delivery) {
    d.status.Succeeded? || d.status.Suppressed? || (d.status.Failed? && LifecycleHasAdvanced(d.kind, PhaseOf(db.events, d.event)))
  }

  predicate RowEvolves(db: Db, d: Delivery, d': Delivery) {
    && SameIdentity(d, d')
    && d.retries <= d'.retries
    && d.attempts <= d'.attempts
    && d.recorded <= d'.recorded
    && (Terminal(db, d) ==> d' == d)
  }

  ghost predicate RowsEvolve(db: Db, ds': Deliveries) {
    forall i | i in db.deliveries && i in ds' :: RowEvolves(db, db.deliveries[i], ds'[i])
  }

  /** A lease token appears on a row only when it is drawn. */
  ghost predicate TokensEvolve(ds: Deliveries, ds': Deliveries, drawn: set<Uuid>) {
    forall i | i in ds' && ds'[i].token.Some? :: ds'[i].token.value in drawn || (i in ds && ds[i].token == ds'[i].token)
  }

  /** New rows carry new ids, and never belong to an event that is over. */
  ghost predicate ArrivalsOk(db: Db, db': Db, drawn: set<Uuid>) {
    && (forall i | i in db'.deliveries && i !in db.deliveries :: i in drawn)
    && (forall e | e in db'.events && e !in db.events :: e in drawn)
    && (forall i | i in db'.deliveries && i !in db.deliveries && db'.deliveries[i].event.Some? ::
          PhaseOf(db.events, db'.deliveries[i].event) != Some(Closed))
  }

  /** Rows are deleted only together with their event. */
  ghost predicate DeparturesOk(db: Db, db': Db) {
    forall i | i in db.deliveries && i !in db'.deliveries && db.deliveries[i].event.Some? ::
      db.deliveries[i].event.value !in db'.events
  }

  ghost predicate EventsEvolve(events: map<Uuid, Event>, events': map<Uuid, Event>) {
    && (forall e | e in events && e !in events' :: events[e].phase.Closed?)
    && (forall e | e in events && e in events' && events[e].phase.Closed? ::
          events'[e].phase.Closed? && events'[e].resolvedAt == events[e].resolvedAt)
    && (forall e | e in events && e in events' :: SamePair(events[e], events'[e]) && events[e].firedAt == events'[e].firedAt)
  }

  predicate CooldownGrows(a: Channel, b: Channel) {
    a.email == b.email && (a.deleted ==> b.deleted)
    && (a.cooldown.Some? ==> b.cooldown.Some? && a.cooldown.value <= b.cooldown.value)
  }

  ghost predicate ChannelsEvolve(cs: map<ChannelId, Channel>, cs': map<ChannelId, Channel>) {
    forall c | c in cs :: c in cs' && CooldownGrows(cs[c], cs'[c])
  }

  ghost predicate Evolves(db: Db, db': Db, drawn: set<Uuid>) {
    && RowsEvolve(db, db'.deliveries)
    && TokensEvolve(db.deliveries, db'.deliveries, drawn)
    && ArrivalsOk(db, db', drawn)
    && DeparturesOk(db, db')
    && EventsEvolve(db.events, db'.events)
    && ChannelsEvolve(db.channels, db'.channels)
  }

  predicate RowStep(db: Db, d: Delivery, d': Delivery, drawn: set<Uuid>) {
    RowEvolves(db, d, d') && (d'.token.Some? ==> d'.token.value in drawn || d'.token == d.token)
  }

  /** What is left to check of a transaction that adds no rows and leaves events alone. */
  lemma OnlyRowsChange(db: Db, db': Db, drawn: set<Uuid>)
    requires db'.events == db.events && db'.deliveries.Keys == db.deliveries.Keys
    requires ChannelsEvolve(db.channels, db'.channels)
    requires forall i | i in db'.deliveries :: RowStep(db, db.deliveries[i], db'.deliveries[i], drawn)
    ensures Evolves(db, db', drawn)
  {
    hide RowEvolves;
  }

  lemma SameRowSteps(db: Db, drawn: set<Uuid>)
    ensures forall i | i in db.deliveries :: RowStep(db, db.deliveries[i], db.deliveries[i], drawn)
  {
  }

  lemma PutEvolves(db: Db, i: Uuid, d: Delivery, drawn: set<Uuid>)
    requires i in db.deliveries && RowStep(db, db.deliveries[i], d, drawn)
    ensures Evolves(db, Put(db, i, d), drawn)
  {
    SameRowSteps(db, drawn);
    SameChannelsEvolve(db.channels);
    hide RowStep, ChannelsEvolve;
    OnlyRowsChange(db, Put(db, i, d), drawn);
  }

  lemma EnqueueArrivals(db: Db, e: Uuid, kind: Kind, suppressed: bool, ids: map<Uuid, ChannelId>, now: Time)
    requires ids.Keys !! db.deliveries.Keys
    ensures forall i | i in db.deliveries :: i in Enqueue(db, e, kind, suppressed, ids, now).deliveries
              && Enqueue(db, e, kind, suppressed, ids, now).deliveries[i] == db.deliveries[i]
    ensures forall i | i in Enqueue(db, e, kind, suppressed, ids, now).deliveries && i !in db.deliveries ::
              i in ids && Enqueue(db, e, kind, suppressed, ids, now).deliveries[i] == NewDelivery(Some(e), ids[i], kind, suppressed, now)
  {
  }

  lemma SameChannelsEvolve(cs: map<ChannelId, Channel>)
    ensures ChannelsEvolve(cs, cs)
  {
  }

  /** Extending a table by unleased rows of event e, all with drawn ids. */
  ghost predicate Extends(ds: Deliveries, ds': Deliveries, e: Uuid, drawn: set<Uuid>) {
    && (forall i | i in ds :: i in ds' && ds'[i] == ds[i])
    && (forall i | i in ds' && i !in ds :: i in drawn && ds'[i].token.None? && ds'[i].event == Some(e))
  }

  lemma ExtensionEvolves(db: Db, mid: Deliveries, ds': Deliveries, e: Uuid, drawn: set<Uuid>)
    requires Extends(mid, ds', e, drawn) && mid.Keys == db.deliveries.Keys
    requires RowsEvolve(db, mid)
    requires forall i | i in mid && mid[i].token.Some? :: mid[i].token == db.deliveries[i].token
    ensures RowsEvolve(db, ds') && TokensEvolve(db.deliveries, ds', drawn)
  {
    hide RowEvolves;
  }

  /** Rows enqueued for event e on top of a row edit of the table before. */
  lemma EnqueueEvolves(db: Db, mid: Db, e: Uuid, kind: Kind, suppressed: bool, ids: map<Uuid, ChannelId>, now: Time, drawn: set<Uuid>)
    requires ids.Keys !! db.deliveries.Keys && ids.Keys <= drawn
    requires mid.deliveries.Keys == db.deliveries.Keys && mid.channels == db.channels
    requires RowsEvolve(db, mid.deliveries)
    requires forall i | i in mid.deliveries && mid.deliveries[i].token.Some? :: mid.deliveries[i].token == db.deliveries[i].token
    requires EventsEvolve(db.events, mid.events)
    requires forall f | f in mid.events && f !in db.events :: f in drawn
    requires PhaseOf(db.events, Some(e)) != Some(Closed)
    ensures Evolves(db, Enqueue(mid, e, kind, suppressed, ids, now), drawn)
  {
    EnqueueArrivals(mid, e, kind, suppressed, ids, now);
    var db' := Enqueue(mid, e, kind, suppressed, ids, now);
    assert db'.events == mid.events && db'.channels == mid.channels;
    SameChannelsEvolve(db.channels);
    hide Enqueue, RowsEvolve, TokensEvolve, EventsEvolve, ChannelsEvolve, PhaseOf;
    assert Extends(mid.deliveries, db'.deliveries, e, drawn);
    ExtensionEvolves(db, mid.deliveries, db'.deliveries, e, drawn);
  }

  lemma SilencePendingEvolves(db: Db, e: Uuid)
    ensures RowsEvolve(db, SilencePending(db.deliveries, e))
    ensures forall i | i in db.deliveries && SilencePending(db.deliveries, e)[i].token.Some? ::
              SilencePending(db.deliveries, e)[i].token == db.deliveries[i].token
  {
  }

  lemma SameRowsEvolve(db: Db)
    ensures RowsEvolve(db, db.deliveries)
  {
  }

  lemma ResolveEvolves(db: Db, e: Uuid, ids: map<Uuid, ChannelId>, now: Time, recoveredAt: Option<Time>, drawn: set<Uuid>)
    requires ids.Keys !! db.deliveries.Keys && ids.Keys <= drawn
    ensures Evolves(db, ResolveEvent(db, e, ids, now, recoveredAt), drawn)
  {
    hide RowsEvolve;
    SameRowsEvolve(db);
    SilencePendingEvolves(db, e);
    if e in db.events && !db.events[e].phase.Closed? {
      var last := if recoveredAt.Some? then recoveredAt.value else db.events[e].lastObserved;
      var event := db.events[e].(phase := Closed, resolvedAt := Some(now), lastObserved := last, suppressed := false);
      EnqueueEvolves(db, db.(events := db.events[e := event], deliveries := SilencePending(db.deliveries, e)),
                     e, Resolved, false, ids, now, drawn);
    }
  }

  lemma AcknowledgeEvolves(db: Db, e: Uuid, ids: map<Uuid, ChannelId>, now: Time, drawn: set<Uuid>)
    requires ids.Keys !! db.deliveries.Keys && ids.Keys <= drawn
    ensures Evolves(db, AcknowledgeEvent(db, e, ids, now), drawn)
  {
    SameRowsEvolve(db);
    if e in db.events && db.events[e].phase.Open? {
      EnqueueEvolves(db, db.(events := db.events[e := db.events[e].(phase := Acked)]), e, Acknowledged, false, ids, now, drawn);
    }
  }

  lemma RepeatEvolves(db: Db, e: Uuid, o: Observation, suppressed: bool, ids: map<Uuid, ChannelId>, drawn: set<Uuid>)
    requires ids.Keys !! db.deliveries.Keys && ids.Keys <= drawn && e in db.events && !db.events[e].phase.Closed?
    ensures Evolves(db, Enqueue(db.(events := db.events[e := RepeatedEvent(db.events[e], o, suppressed)]),
                                e, Firing, suppressed, ids, o.observedAt), drawn)
  {
    SameRowsEvolve(db);
    hide RowsEvolve;
    EnqueueEvolves(db, db.(events := db.events[e := RepeatedEvent(db.events[e], o, suppressed)]),
                   e, Firing, suppressed, ids, o.observedAt, drawn);
  }

  lemma OpeningEvolves(db: Db, e: Uuid, v: Event, suppressed: bool, ids: map<Uuid, ChannelId>, now: Time, drawn: set<Uuid>)
    requires ids.Keys !! db.deliveries.Keys && ids.Keys <= drawn && e !in db.events && e in drawn
    ensures Evolves(db, Enqueue(db.(events := db.events[e := v]), e, Firing, suppressed, ids, now), drawn)
  {
    SameRowsEvolve(db);
    hide RowsEvolve;
    EnqueueEvolves(db, db.(events := db.events[e := v]), e, Firing, suppressed, ids, now, drawn);
  }

  /** Evolution does not look at evaluation rows. */
  lemma EvolvesIgnoresEvaluations(db: Db, mid: Db, db': Db, drawn: set<Uuid>)
    requires mid == db.(evaluations := mid.evaluations) && Evolves(mid, db', drawn)
    ensures Evolves(db, db', drawn)
  {
  }

  lemma NothingEvolves(db: Db, db': Db, drawn: set<Uuid>)
    requires db'.deliveries == db.deliveries && db'.events == db.events && db'.channels == db.channels
    ensures Evolves(db, db', drawn)
  {
  }

  lemma ObserveEvolves(db: Db, p: Pair, version: nat, eligible: bool, o: Observation, suppressed: bool,
                       eventId: Uuid, ids: map<Uuid, ChannelId>, drawn: set<Uuid>)
    requires ids.Keys !! db.deliveries.Keys && ids.Keys <= drawn && eventId in drawn && eventId !in db.events
    ensures Evolves(db, Observe(db, p, version, eligible, o, suppressed, eventId, ids), drawn)
  {
    hide Evolves;
    var db' := Observe(db, p, version, eligible, o, suppressed, eventId, ids);
    if p.0 in db.rules && db.rules[p.0].enabled && db.rules[p.0].version == version && eligible {
      var rule, active := db.rules[p.0], ActiveEvent(db, p);
      var (ev, verdict) := Evaluate(Upserted(db.evaluations, p, version), active.Some?, rule, o);
      var db1 := db.(evaluations := db.evaluations[p := ev]);
      NothingEvolves(db1, db1, drawn);
      match verdict {
        case Stale =>
        case Waiting =>
        case Quiet(recovered) =>
          if recovered && active.Some? {
            ResolveEvolves(db1, active.value, ids, o.observedAt, Some(o.observedAt), drawn);
          }
        case Continue => RepeatEvolves(db1, active.value, o, suppressed, ids, drawn);
        case Fire(first, count) =>
          OpeningEvolves(db1, eventId, OpenEvent(db1, p, rule, o, suppressed, first, count), suppressed, ids, o.observedAt, drawn);
      }
      EvolvesIgnoresEvaluations(db, db1, db', drawn);
    } else {
      NothingEvolves(db, db', drawn);
    }
  }

  // ----- statements on single rows

  lemma FinishedRowEvolves(db: Db, d: Delivery, copy: Delivery, outcome: Outcome, now: Time)
    requires d.status.Processing?
    ensures RowStep(db, d, FinishedRow(db, d, copy, outcome, now), {})
  {
  }

  lemma PushedBackEvolves(db: Db, c: ChannelId, at: Time)
    ensures PushedBack(db.deliveries, c, at).Keys == db.deliveries.Keys
    ensures forall i | i in db.deliveries :: RowStep(db, db.deliveries[i], PushedBack(db.deliveries, c, at)[i], {})
  {
  }

  lemma CoolDownGrows(db: Db, c: ChannelId, at: Time)
    requires c in db.channels
    ensures ChannelsEvolve(db.channels, CoolDown(db, c, at).channels)
  {
  }

  /** One put on top of a bulk change. */
  lemma PutAfterBulk(db: Db, mid: Db, i: Uuid, d: Delivery)
    requires mid.events == db.events && mid.deliveries.Keys == db.deliveries.Keys && i in db.deliveries
    requires ChannelsEvolve(db.channels, mid.channels)
    requires forall j | j in db.deliveries :: RowStep(db, db.deliveries[j], mid.deliveries[j], {})
    requires RowStep(db, db.deliveries[i], d, {})
    ensures Evolves(db, Put(mid, i, d), {})
  {
    hide RowStep, ChannelsEvolve, Evolves;
    OnlyRowsChange(db, Put(mid, i, d), {});
  }

  lemma FinishEvolves(db: Db, i: Uuid, copy: Delivery, outcome: Outcome, now: Time)
    ensures Evolves(db, Finish(db, i, copy, outcome, now), {})
  {
    hide RowStep, FinishedRow, PushedBack, ChannelsEvolve, Evolves;
    NothingEvolves(db, db, {});
    if Holds(db, i, copy) {
      var row := FinishedRow(db, db.deliveries[i], copy, outcome, now);
      FinishedRowEvolves(db, db.deliveries[i], copy, outcome, now);
      var delay := CooldownAfter(db, copy, outcome);
      if delay.Some? {
        PushedBackEvolves(db, copy.channel, now + delay.value);
        CoolDownGrows(db, copy.channel, now + delay.value);
        PutAfterBulk(db, CoolDown(db, copy.channel, now + delay.value), i, row);
      } else {
        SameRowSteps(db, {});
        SameChannelsEvolve(db.channels);
        PutAfterBulk(db, db, i, row);
      }
    }
  }

  lemma MarkSuppressedEvolves(db: Db, i: Uuid, copy: Delivery)
    ensures Evolves(db, MarkSuppressed(db, i, copy), {})
  {
    if Holds(db, i, copy) {
      PutEvolves(db, i, Settled(db.deliveries[i], Suppressed), {});
      FlagEvolves(db, Put(db, i, Settled(db.deliveries[i], Suppressed)), copy.event, true, {});
    }
  }

  lemma FlagEvolves(db: Db, mid: Db, e: Option<Uuid>, flag: bool, drawn: set<Uuid>)
    requires Evolves(db, mid, drawn)
    ensures Evolves(db, mid.(events := FlagSuppressed(mid.events, e, flag)), drawn)
  {
    hide RowsEvolve, TokensEvolve, ChannelsEvolve;
  }

  lemma BulkEvolves(db: Db, db': Db)
    requires db'.events == db.events && db'.deliveries.Keys == db.deliveries.Keys && ChannelsEvolve(db.channels, db'.channels)
    requires forall i | i in db.deliveries ::
               db'.deliveries[i] == db.deliveries[i] || (db.deliveries[i].status.Pending? && db'.deliveries[i] == Settled(db.deliveries[i], Failed))
    ensures Evolves(db, db', {})
  {
    assert forall i | i in db'.deliveries :: RowStep(db, db.deliveries[i], db'.deliveries[i], {});
    hide RowStep;
    OnlyRowsChange(db, db', {});
  }

  lemma TestChannelEvolves(db: Db, c: ChannelId, i: Uuid, now: Time)
    requires i !in db.deliveries
    ensures Evolves(db, TestChannel(db, c, i, now), {i})
  {
    SameRowsEvolve(db);
    SameChannelsEvolve(db.channels);
    hide RowEvolves, ChannelsEvolve;
  }

  lemma CleanupEvolves(db: Db, cutoff: Time)
    requires forall i | i in db.deliveries && db.deliveries[i].event.Some? :: db.deliveries[i].event.value in db.events
    ensures Evolves(db, Cleanup(db, cutoff), {})
  {
    SameRowSteps(db, {});
    SameChannelsEvolve(db.channels);
    hide RowEvolves, ChannelsEvolve;
    var db' := Cleanup(db, cutoff);
    assert forall i | i in db'.deliveries :: i in db.deliveries && db'.deliveries[i] == db.deliveries[i];
    assert forall e | e in db'.events :: e in db.events && db'.events[e] == db.events[e];
  }

  // ----- every step

  lemma ClaimEvolves(db: Db, i: Uuid, token: Uuid, now: Time)
    requires i in db.deliveries && InFlight(db.deliveries[i])
    ensures Evolves(db, Claim(db, i, token, now), {token})
  {
    PutEvolves(db, i, ClaimedRow(db.deliveries[i], token, now), {token});
  }

  lemma ReleaseEvolves(db: Db, i: Uuid, copy: Delivery, at: Time)
    requires Holds(db, i, copy)
    ensures Evolves(db, Release(db, i, copy, at), {})
  {
    PutEvolves(db, i, Requeued(db.deliveries[i], at), {});
  }

  lemma StartEvolves(db: Db, i: Uuid, copy: Delivery, now: Time)
    requires MayStart(db, i, copy, now)
    ensures Evolves(db, Start(db, i, copy, now), {})
  {
    PutEvolves(db, i, StartedRow(db.deliveries[i]), {});
  }

  lemma WorkerStepEvolves(s: State, a: Action)
    requires IsWorkerStep(a)
    ensures Evolves(s.db, Apply(s, a).db, Drawn(a))
  {
    hide Evolves, ChannelFree, FirstInLine;
    var db := s.db;
    NothingEvolves(db, db, Drawn(a));
    match a
    case TakeClaim(w, i, token, now) =>
      if IsCandidate(db, i, now) { ClaimEvolves(db, i, token, now); }
    case RecheckSuppression(w, answer, now) =>
    case SuppressClaim(w, now) =>
      if Pc(s, w).Silencing? { MarkSuppressedEvolves(db, Pc(s, w).id, Pc(s, w).row); }
    case ReleaseClaim(w, now) =>
      if Pc(s, w).Yielding? && Holds(db, Pc(s, w).id, Pc(s, w).row) { ReleaseEvolves(db, Pc(s, w).id, Pc(s, w).row, now + 1); }
    case StartAttempt(w, now) =>
      if Pc(s, w).Cleared? && MayStart(db, Pc(s, w).id, Pc(s, w).row, now) { StartEvolves(db, Pc(s, w).id, Pc(s, w).row, now); }
    case FinishAttempt(w, outcome, now) =>
      if Pc(s, w).Sending? { FinishEvolves(db, Pc(s, w).id, Pc(s, w).row, outcome, now); }
    case Crash(w, now) =>
  }

  lemma EventStepEvolves(s: State, a: Action)
    requires Core(s) && FreshIds(s, a) && IsEventStep(a)
    ensures Evolves(s.db, Apply(s, a).db, Drawn(a))
  {
    FreshTokens(s, a);
    hide Evolves, Core;
    var db := s.db;
    NothingEvolves(db, db, Drawn(a));
    match a
    case ObserveRule(p, version, eligible, o, suppressed, eventId, ids) =>
      ObserveEvolves(db, p, version, eligible, o, suppressed, eventId, ids, Drawn(a));
    case Acknowledge(e, ids, now) => AcknowledgeEvolves(db, e, ids, now, Drawn(a));
    case Resolve(e, ids, now) =>
      ResolveEvolves(db, e, ids, now, None, Drawn(a));
      ForgettingEvolves(db, ResolveEvent(db, e, ids, now, None), Apply(s, a).db, Drawn(a));
    case RefreshSuppression(e, flag, now) => FlagEvolves(db, db, Some(e), flag, Drawn(a));
    case ForgetEvaluation(p, now) => NothingEvolves(db, Apply(s, a).db, Drawn(a));
    case ChangeRules(rules, now) => NothingEvolves(db, Apply(s, a).db, Drawn(a));
  }

  lemma ForgettingEvolves(db: Db, mid: Db, db': Db, drawn: set<Uuid>)
    requires Evolves(db, mid, drawn) && db'.deliveries == mid.deliveries && db'.events == mid.events && db'.channels == mid.channels
    ensures Evolves(db, db', drawn)
  {
  }

  lemma CreateChannelEvolves(db: Db, c: ChannelId, channel: Channel)
    requires c !in db.channels
    ensures Evolves(db, db.(channels := db.channels[c := channel]), {})
  {
    SameRowSteps(db, {});
    hide RowStep;
    OnlyRowsChange(db, db.(channels := db.channels[c := channel]), {});
  }

  lemma AdminStepEvolves(s: State, a: Action)
    requires Core(s) && FreshIds(s, a) && !IsEventStep(a) && !IsWorkerStep(a)
    ensures Evolves(s.db, Apply(s, a).db, Drawn(a))
  {
    FreshTokens(s, a);
    assert RefsOk(s.db, s.issued);
    hide Core, RowEvolves, RefsOk;
    var db := s.db;
    NothingEvolves(db, db, Drawn(a));
    match a
    case CreateChannel(c, enabled, email, now) =>
      CreateChannelEvolves(db, c, Channel(enabled, false, email, None));
    case SetChannel(c, enabled, now) => BulkEvolves(db, Apply(s, a).db);
    case RemoveChannel(c, now) => BulkEvolves(db, Apply(s, a).db);
    case SendTest(c, i, now) => TestChannelEvolves(db, c, i, now);
    case RetryFailed(i, now) =>
      if RetryVerdict(db, i).Reset? { ResetEvolves(db, i, now); }
    case Retain(cutoff, now) => CleanupEvolves(db, cutoff);
  }

  lemma ResetEvolves(db: Db, i: Uuid, now: Time)
    requires RetryVerdict(db, i).Reset?
    requires db.deliveries[i].kind.WebhookTest? <==> db.deliveries[i].event.None?
    ensures Evolves(db, ResetFailed(db, i, now), {})
  {
    PutEvolves(db, i, ResetRow(db.deliveries[i], now), {});
  }

  /** Every step evolves the tables. */
  lemma ApplyEvolves(s: State, a: Action)
    requires Core(s) && FreshIds(s, a)
    ensures Evolves(s.db, Apply(s, a).db, Drawn(a))
  {
    if IsEventStep(a) {
      EventStepEvolves(s, a);
    } else if IsWorkerStep(a) {
      WorkerStepEvolves(s, a);
    } else {
      AdminStepEvolves(s, a);
    }
  }
}
