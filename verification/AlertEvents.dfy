/** Every step of the queue from the side of a single event or channel: what the step leaves of it, which
    events appear and disappear, and which notifications a new event comes with. */
module AlertEvents {
  import opened Wrappers
  import opened AlertTables
  import opened AlertEvaluation
  import opened AlertTransactions
  import opened AlertProtocol
  import opened AlertInvariants
  import opened AlertTheorems
  import opened AlertRuns
  import opened AlertRows

  // ----- what an observation finds

  /** The evaluation row of the pair, if it was written under the observed version of the rule. */
  function CurrentRow(s: State, a: Action): Option<Evaluation>
    requires a.ObserveRule?
  {
    if a.p in s.db.evaluations && s.db.evaluations[a.p].version == a.version then Some(s.db.evaluations[a.p]) else None
  }

  /** The observation is of the current version of an enabled rule, about an eligible instance, and its sample is
      newer than the last one, or as old with another value. */
  predicate Counts(s: State, a: Action) {
    && a.ObserveRule? && a.eligible
    && a.p.0 in s.db.rules && s.db.rules[a.p.0].enabled && s.db.rules[a.p.0].version == a.version
    && (CurrentRow(s, a).Some? && CurrentRow(s, a).value.lastSample.Some? ==>
          var row := CurrentRow(s, a).value;
          a.o.sampleAt > row.lastSample.value || (a.o.sampleAt == row.lastSample.value && row.lastValue != Some(a.o.value)))
  }

  /** A normal observation ends the event at once, or after a minute of recovery when the rule watches for
      offline instances. */
  predicate Recovers(s: State, a: Action)
    requires Counts(s, a)
  {
    || !s.db.rules[a.p.0].offlineMetric
    || (CurrentRow(s, a).Some? && CurrentRow(s, a).value.recoverySince.Some?
        && a.o.observedAt - CurrentRow(s, a).value.recoverySince.value >= 60)
  }

  /** An abnormal observation is due for an event. */
  predicate Ripens(s: State, a: Action)
    requires Counts(s, a)
  {
    || s.db.rules[a.p.0].duration == 0
    || (CurrentRow(s, a).Some? && CurrentRow(s, a).value.pendingSince.Some? && CurrentRow(s, a).value.lastObserved.Some?
        && a.o.observedAt - CurrentRow(s, a).value.pendingSince.value >= s.db.rules[a.p.0].duration)
  }

  // ----- events that were there before

  /** Event v as action a, applied in state s, leaves it. */
  predicate EventAfter(s: State, a: Action, e: Uuid, v: Event, v': Event) {
    match a
    case ObserveRule(p, _, _, o, suppressed, _, _) =>
      if !Counts(s, a) || !IsOf(v, p) || v.phase.Closed? then v' == v
      else if o.abnormal then
        v' == v.(lastObserved := o.observedAt, matchCount := v.matchCount + 1, suppressed := suppressed)
      else if Recovers(s, a) then
        v' == v.(phase := Closed, resolvedAt := Some(o.observedAt), lastObserved := o.observedAt, suppressed := false)
      else v' == v
    case Acknowledge(f, _, _) =>
      if f == e && v.phase.Open? then v' == v.(phase := Acked) else v' == v
    case Resolve(f, _, now) =>
      if f == e && !v.phase.Closed? then v' == v.(phase := Closed, resolvedAt := Some(now), suppressed := false) else v' == v
    case RefreshSuppression(f, flag, _) =>
      if f == e && !v.phase.Closed? then v' == v.(suppressed := flag) else v' == v
    case SuppressClaim(w, _) =>
      if Pc(s, w).Silencing? && Leases(s, w, Pc(s, w).id) && Pc(s, w).row.event == Some(e) && !v.phase.Closed?
      then v' == v.(suppressed := true) else v' == v
    case _ => v' == v
  }

  /** What an observation comes to. */
  lemma VerdictMeans(s: State, a: Action, active: bool)
    requires a.ObserveRule? && a.p.0 in s.db.rules && s.db.rules[a.p.0].enabled && s.db.rules[a.p.0].version == a.version && a.eligible
    ensures var verdict := Evaluate(Upserted(s.db.evaluations, a.p, a.version), active, s.db.rules[a.p.0], a.o).1;
            if !Counts(s, a) then verdict.Stale?
            else if a.o.abnormal then (if active then verdict.Continue? else if Ripens(s, a) then verdict.Fire? else verdict.Waiting?)
            else verdict.Quiet? && (active ==> (verdict.recovered <==> Recovers(s, a)))
  {
  }

  /** The events after an observation, `active` being the one that was unresolved. */
  predicate EventsAfter(s: State, a: Action, active: Option<Uuid>, events: map<Uuid, Event>)
    requires a.ObserveRule? && (active.Some? ==> active.value in s.db.events)
  {
    var o := a.o;
    if !Counts(s, a) then events == s.db.events
    else if active.Some? then
      var v := s.db.events[active.value];
      if o.abnormal then
        events == s.db.events[active.value := v.(lastObserved := o.observedAt, matchCount := v.matchCount + 1, suppressed := a.suppressed)]
      else if Recovers(s, a) then
        events == s.db.events[active.value := v.(phase := Closed, resolvedAt := Some(o.observedAt), lastObserved := o.observedAt, suppressed := false)]
      else events == s.db.events
    else if o.abnormal && Ripens(s, a) then
      a.eventId in events && events == s.db.events[a.eventId := events[a.eventId]] && IsOpened(s, a, events[a.eventId])
    else events == s.db.events
  }

  /** The event that an observation opens. */
  predicate IsOpened(s: State, a: Action, v: Event)
    requires Counts(s, a)
  {
    && v.rule == a.p.0 && v.instance == a.p.1 && v.phase.Open? && v.suppressed == a.suppressed
    && v.firedAt == a.o.observedAt && v.lastObserved == a.o.observedAt && v.resolvedAt.None?
    && v.channels <= s.db.rules[a.p.0].channels
    && forall c | c in s.db.rules[a.p.0].channels :: c in v.channels <==> c in s.db.channels && !s.db.channels[c].deleted
  }

  lemma JudgedEventsMean(s: State, a: Action, active: Option<Uuid>)
    requires a.ObserveRule? && a.p.0 in s.db.rules && s.db.rules[a.p.0].enabled && s.db.rules[a.p.0].version == a.version && a.eligible
    requires active.Some? ==> IsActive(s.db, active.value, a.p)
    ensures EventsAfter(s, a, active, Judge(s.db, a.p, s.db.rules[a.p.0], Upserted(s.db.evaluations, a.p, a.version), active,
                                            a.o, a.suppressed, a.eventId, a.ids).events)
  {
    VerdictMeans(s, a, active.Some?);
    JudgeMeans(s.db, a.p, s.db.rules[a.p.0], Upserted(s.db.evaluations, a.p, a.version), active, a.o, a.suppressed, a.eventId, a.ids);
    hide Judge, Evaluate, Upserted, CurrentRow, Counts, Recovers, Ripens;
  }

  lemma ObservedEvents(s: State, a: Action) returns (active: Option<Uuid>)
    requires a.ObserveRule?
    ensures active.Some? ==> IsActive(s.db, active.value, a.p)
    ensures active.None? ==> forall e :: !IsActive(s.db, e, a.p)
    ensures EventsAfter(s, a, active, Apply(s, a).db.events)
  {
    active := ActiveEvent(s.db, a.p);
    if a.p.0 in s.db.rules && s.db.rules[a.p.0].enabled && s.db.rules[a.p.0].version == a.version && a.eligible {
      JudgedEventsMean(s, a, active);
    }
    hide Judge, Evaluate, Upserted, Recovers, Ripens;
  }

  lemma JudgedEvent(s: State, a: Action, e: Uuid)
    requires Core(s) && FreshIds(s, a) && a.ObserveRule? && e in s.db.events
    ensures e in Apply(s, a).db.events && EventAfter(s, a, e, s.db.events[e], Apply(s, a).db.events[e])
  {
    FreshTokens(s, a);
    assert a.eventId in Drawn(a) && a.eventId !in s.db.events;
    hide Core, FreshIds, Apply, Counts, Recovers, Ripens, IsOpened;
    var active := ObservedEvents(s, a);
    if IsActive(s.db, e, a.p) {
      OneActiveEvent(s, a.p, e, active.value);
    }
  }

  lemma LifecycleEvent(s: State, a: Action, e: Uuid)
    requires (a.Acknowledge? || a.Resolve?) && e in s.db.events
    ensures e in Apply(s, a).db.events && EventAfter(s, a, e, s.db.events[e], Apply(s, a).db.events[e])
  {
    if a.event in s.db.events {
      ResolveMeans(s.db, a.event, a.ids, a.now, None);
      EnqueueMeans(s.db.(events := s.db.events[a.event := s.db.events[a.event].(phase := Acked)]), a.event, Acknowledged, false, a.ids, a.now);
    }
    hide ResolveEvent, Enqueue;
  }

  lemma WorkerEvent(s: State, a: Action, e: Uuid)
    requires IsWorkerStep(a) && e in s.db.events
    ensures e in Apply(s, a).db.events && EventAfter(s, a, e, s.db.events[e], Apply(s, a).db.events[e])
  {
    if a.SuppressClaim? {
      hide IsCandidate, SuppressNow, Finish, Start, Release;
    } else {
      WorkerEvents(s, a);
      hide Apply;
    }
  }

  lemma WorkerEvents(s: State, a: Action)
    requires IsWorkerStep(a) && !a.SuppressClaim?
    ensures Apply(s, a).db.events == s.db.events
  {
    hide IsCandidate, SuppressNow, Finish, FinishedRow, MayStart, Holds;
    if a.FinishAttempt? && Pc(s, a.w).Sending? {
      FinishMeans(s.db, Pc(s, a.w).id, Pc(s, a.w).row, a.outcome, a.now);
    }
  }

  lemma AdminEvent(s: State, a: Action, e: Uuid)
    requires !IsWorkerStep(a) && !a.ObserveRule? && !a.Acknowledge? && !a.Resolve?
    requires e in s.db.events && e in Apply(s, a).db.events
    ensures EventAfter(s, a, e, s.db.events[e], Apply(s, a).db.events[e])
  {
    hide RetryVerdict, Retained;
  }

  /** Whatever the step: when an event survives it, this is what is left of the event. */
  lemma EventAfterIsExact(s: State, a: Action, e: Uuid)
    requires Core(s) && FreshIds(s, a) && e in s.db.events && e in Apply(s, a).db.events
    ensures EventAfter(s, a, e, s.db.events[e], Apply(s, a).db.events[e])
  {
    hide Core, FreshIds, Apply, EventAfter;
    if a.ObserveRule? {
      JudgedEvent(s, a, e);
    } else if a.Acknowledge? || a.Resolve? {
      LifecycleEvent(s, a, e);
    } else if IsWorkerStep(a) {
      WorkerEvent(s, a, e);
    } else {
      AdminEvent(s, a, e);
    }
  }

  // ----- events that appear and disappear

  /** Only retention deletes an event, exactly when it was resolved before the cutoff. */
  lemma EventDeletedExactlyWhenExpired(s: State, a: Action, e: Uuid)
    requires Core(s) && FreshIds(s, a) && e in s.db.events
    ensures e !in Apply(s, a).db.events <==>
              a.Retain? && s.db.events[e].resolvedAt.Some? && s.db.events[e].resolvedAt.value < a.cutoff
  {
    assert EventOk(s.db.events[e], Unordered);
    hide InvUnder, FreshIds;
    if a.ObserveRule? {
      JudgedEvent(s, a, e);
    } else if a.Acknowledge? || a.Resolve? {
      LifecycleEvent(s, a, e);
    } else if IsWorkerStep(a) {
      WorkerEvent(s, a, e);
    } else {
      AdminKeepsEvents(s, a, e);
    }
  }

  lemma AdminKeepsEvents(s: State, a: Action, e: Uuid)
    requires !IsWorkerStep(a) && !a.ObserveRule? && !a.Acknowledge? && !a.Resolve?
    requires e in s.db.events && EventOk(s.db.events[e], Unordered)
    ensures e !in Apply(s, a).db.events <==>
              a.Retain? && s.db.events[e].resolvedAt.Some? && s.db.events[e].resolvedAt.value < a.cutoff
  {
    hide RetryVerdict, Retained;
  }

  predicate Adds(s: State, t: State, e: Uuid) {
    e in t.db.events && e !in s.db.events
  }

  lemma NoEventBorn(s: State, a: Action, e: Uuid)
    requires !a.ObserveRule? && e !in s.db.events
    ensures e !in Apply(s, a).db.events
  {
    if a.Acknowledge? || a.Resolve? {
      if a.event in s.db.events {
        ResolveMeans(s.db, a.event, a.ids, a.now, None);
        EnqueueMeans(s.db.(events := s.db.events[a.event := s.db.events[a.event].(phase := Acked)]), a.event, Acknowledged, false, a.ids, a.now);
      }
      hide ResolveEvent, Enqueue;
    } else if IsWorkerStep(a) {
      WorkerMeans(s, a);
      hide Apply;
    } else {
      hide RetryVerdict, Retained;
    }
  }

  /** A step adds an event exactly when it is an observation that counts, is abnormal and ripe, and finds no
      unresolved event. The event is open, fires at the observation, and is linked to every channel of the
      rule that exists and is not deleted, whatever its type and whether it is enabled. */
  lemma NewEventLinksChannels(s: State, a: Action, e: Uuid)
    requires Core(s) && FreshIds(s, a)
    ensures Adds(s, Apply(s, a), e) <==>
              && Counts(s, a) && e == a.eventId && a.o.abnormal && Ripens(s, a)
              && forall f | f in s.db.events && IsOf(s.db.events[f], a.p) :: s.db.events[f].phase.Closed?
    ensures Adds(s, Apply(s, a), e) ==>
              var v := Apply(s, a).db.events[e];
              && IsOf(v, a.p) && v.phase.Open? && v.suppressed == a.suppressed
              && v.firedAt == a.o.observedAt && v.lastObserved == a.o.observedAt && v.resolvedAt.None?
              && forall c :: c in v.channels <==>
                   c in s.db.rules[a.p.0].channels && c in s.db.channels && !s.db.channels[c].deleted
  {
    FreshTokens(s, a);
    if a.ObserveRule? {
      assert a.eventId in Drawn(a) && a.eventId !in s.db.events;
      var active := ObservedEvents(s, a);
      ActiveOrClosed(s.db, a.p, active);
      hide Core, FreshIds, Apply, Recovers, Ripens;
    } else if e !in s.db.events {
      NoEventBorn(s, a, e);
    }
  }

  lemma ActiveOrClosed(db: Db, p: Pair, active: Option<Uuid>)
    requires active.Some? ==> IsActive(db, active.value, p)
    requires active.None? ==> forall e :: !IsActive(db, e, p)
    ensures active.None? <==> forall f | f in db.events && IsOf(db.events[f], p) :: db.events[f].phase.Closed?
  {
    assert forall f | f in db.events && IsOf(db.events[f], p) && !db.events[f].phase.Closed? :: IsActive(db, f, p);
  }

  // ----- the notifications of a new event

  /** The first report of event e to channel c. */
  function FirstReport(e: Uuid, c: ChannelId, suppressed: bool, now: Time): Delivery {
    Delivery(Some(e), c, Firing, if suppressed then Suppressed else Pending, 0, 0, 0,
             if suppressed then None else Some(now), None, None, now, [])
  }

  lemma AbnormalIsAccepted(s: State, a: Action)
    requires Counts(s, a) && a.o.abnormal
    ensures AcceptedAbnormal(s, a)
  {
  }

  lemma OpeningEnqueues(s: State, a: Action, e: Uuid) returns (mid: Db)
    requires Core(s) && FreshIds(s, a) && Counts(s, a) && a.o.abnormal && IsActive(Apply(s, a).db, e, a.p)
    ensures Apply(s, a).db == Enqueue(mid, e, Firing, a.suppressed, a.ids, a.o.observedAt)
    ensures mid.deliveries == s.db.deliveries && mid.channels == s.db.channels && mid.events == Apply(s, a).db.events
  {
    AbnormalIsAccepted(s, a);
    hide Core, FreshIds, Apply, Counts;
    mid := AbnormalEnqueues(s, a, e);
    EnqueueMeans(mid, e, Firing, a.suppressed, a.ids, a.o.observedAt);
  }

  /** A new event comes with exactly one row for every usable channel of its rule, its first report, which is
      due at once unless the observation was suppressed, and with no other row. */
  lemma NewEventReports(s: State, a: Action, e: Uuid, c: ChannelId)
    requires Core(s) && FreshIds(s, a) && Adds(s, Apply(s, a), e) && a.ObserveRule? && a.p.0 in s.db.rules
    ensures c in s.db.rules[a.p.0].channels && c in s.db.channels && s.db.channels[c].enabled && !s.db.channels[c].deleted ==>
              exists i | i in Apply(s, a).db.deliveries ::
                && Apply(s, a).db.deliveries[i] == FirstReport(e, c, a.suppressed, a.o.observedAt)
                && forall j | j in Apply(s, a).db.deliveries && Apply(s, a).db.deliveries[j].event == Some(e)
                              && Apply(s, a).db.deliveries[j].channel == c :: j == i
    ensures !(c in s.db.rules[a.p.0].channels && c in s.db.channels && s.db.channels[c].enabled && !s.db.channels[c].deleted) ==>
              forall j | j in Apply(s, a).db.deliveries && Apply(s, a).db.deliveries[j].event == Some(e) ::
                Apply(s, a).db.deliveries[j].channel != c
  {
    NewEventLinksChannels(s, a, e);
    assert RefsOk(s.db, s.issued) && NamesChannels(s.db, a.ids);
    FreshTokens(s, a);
    assert a.ids.Keys !! s.db.deliveries.Keys by {
      assert a.ids.Keys <= Drawn(a);
    }
    var mid := OpeningEnqueues(s, a, e);
    hide Core, FreshIds, Apply, Counts, Ripens;
    OnlyReports(mid, e, a.suppressed, a.ids, a.o.observedAt, c);
  }

  lemma OnlyReports(db: Db, e: Uuid, suppressed: bool, ids: map<Uuid, ChannelId>, now: Time, c: ChannelId)
    requires e in db.events && NamesChannels(db, ids) && ids.Keys !! db.deliveries.Keys
    requires forall j | j in db.deliveries :: db.deliveries[j].event != Some(e)
    ensures var ds := Enqueue(db, e, Firing, suppressed, ids, now).deliveries;
            if c in db.events[e].channels && c in db.channels && db.channels[c].enabled && !db.channels[c].deleted then
              exists i | i in ds :: ds[i] == FirstReport(e, c, suppressed, now)
                                    && forall j | j in ds && ds[j].event == Some(e) && ds[j].channel == c :: j == i
            else forall j | j in ds && ds[j].event == Some(e) :: ds[j].channel != c
  {
    if c in db.events[e].channels && c in db.channels && db.channels[c].enabled && !db.channels[c].deleted {
      var i :| i in ids && ids[i] == c;
      Reported(db, e, suppressed, ids, now, i);
    }
    hide Enqueue;
    forall j | j in Enqueue(db, e, Firing, suppressed, ids, now).deliveries
               && Enqueue(db, e, Firing, suppressed, ids, now).deliveries[j].event == Some(e)
      ensures j in ids && Enqueue(db, e, Firing, suppressed, ids, now).deliveries[j].channel == ids[j]
              && ids[j] in db.events[e].channels && IsOn(db, ids[j])
    {
      if j in db.deliveries {
        EnqueueRow(db, e, Firing, suppressed, ids, now, j);
      } else {
        EnqueueBorn(db, e, Firing, suppressed, ids, now, j);
      }
    }
  }

  lemma Reported(db: Db, e: Uuid, suppressed: bool, ids: map<Uuid, ChannelId>, now: Time, i: Uuid)
    requires e in db.events && i in ids && ids.Keys !! db.deliveries.Keys
    requires ids[i] in db.events[e].channels && IsOn(db, ids[i])
    requires forall j | j in db.deliveries :: db.deliveries[j].event != Some(e)
    ensures var ds := Enqueue(db, e, Firing, suppressed, ids, now).deliveries;
            i in ds && ds[i] == FirstReport(e, ids[i], suppressed, now)
  {
  }

  /** An abnormal observation that counts adds a row for channel c of the unresolved event exactly when the
      channel is linked to the event and usable, and no firing row of it is there already: none at all
      when the observation is suppressed, none that is not suppressed otherwise. */
  lemma ReportsExactlyWhenMissing(s: State, a: Action, e: Uuid, c: ChannelId)
    requires Core(s) && FreshIds(s, a) && Counts(s, a) && a.o.abnormal && IsActive(Apply(s, a).db, e, a.p)
    ensures (exists i | i in Apply(s, a).db.deliveries ::
               i !in s.db.deliveries && Apply(s, a).db.deliveries[i] == FirstReport(e, c, a.suppressed, a.o.observedAt))
            <==> && c in Apply(s, a).db.events[e].channels
                 && c in s.db.channels && s.db.channels[c].enabled && !s.db.channels[c].deleted
                 && forall j | j in s.db.deliveries && s.db.deliveries[j].event == Some(e)
                               && s.db.deliveries[j].channel == c && s.db.deliveries[j].kind.Firing? ::
                      !a.suppressed && s.db.deliveries[j].status.Suppressed?
  {
    FreshTokens(s, a);
    assert NamesChannels(s.db, a.ids);
    assert a.ids.Keys !! s.db.deliveries.Keys by {
      assert a.ids.Keys <= Drawn(a);
    }
    hide Core, FreshIds, Apply, Counts;
    var mid := OpeningEnqueues(s, a, e);
    ReportMissing(mid, e, a.suppressed, a.ids, a.o.observedAt, c);
  }

  lemma ReportMissing(db: Db, e: Uuid, suppressed: bool, ids: map<Uuid, ChannelId>, now: Time, c: ChannelId)
    requires e in db.events && NamesChannels(db, ids) && ids.Keys !! db.deliveries.Keys
    ensures var ds := Enqueue(db, e, Firing, suppressed, ids, now).deliveries;
            (exists i | i in ds :: i !in db.deliveries && ds[i] == FirstReport(e, c, suppressed, now))
            <==> && c in db.events[e].channels && IsOn(db, c)
                 && forall j | j in db.deliveries && db.deliveries[j].event == Some(e)
                               && db.deliveries[j].channel == c && db.deliveries[j].kind.Firing? ::
                      !suppressed && db.deliveries[j].status.Suppressed?
  {
    var ds := Enqueue(db, e, Firing, suppressed, ids, now).deliveries;
    InsertsMeans(db, e, suppressed, c);
    if Inserts(db, e, c, Firing, suppressed) {
      var i :| i in ids && ids[i] == c;
      assert i in ds && ds[i] == FirstReport(e, c, suppressed, now);
    }
    hide Inserts, IsOn;
  }

  lemma InsertsMeans(db: Db, e: Uuid, suppressed: bool, c: ChannelId)
    requires e in db.events
    ensures Inserts(db, e, c, Firing, suppressed) <==>
              && c in db.events[e].channels && IsOn(db, c)
              && forall j | j in db.deliveries && db.deliveries[j].event == Some(e)
                            && db.deliveries[j].channel == c && db.deliveries[j].kind.Firing? ::
                   !suppressed && db.deliveries[j].status.Suppressed?
  {
  }

  // ----- the channels of an event never change

  predicate Linked(s: State, e: Uuid, channels: set<ChannelId>) {
    e in s.issued && (e in s.db.events ==> s.db.events[e].channels == channels)
  }

  lemma LinksStay(s: State, a: Action, e: Uuid, channels: set<ChannelId>)
    requires Core(s) && FreshIds(s, a) && Linked(s, e, channels)
    ensures Linked(Apply(s, a), e, channels)
  {
    IssuedGrows(s, a);
    NewEventLinksChannels(s, a, e);
    assert a.ObserveRule? ==> a.eventId in Drawn(a);
    assert !Adds(s, Apply(s, a), e);
    hide Core, FreshIds, Apply;
    if e in Apply(s, a).db.events {
      EventAfterIsExact(s, a, e);
    }
  }

  lemma {:induction false} LinksStayAlong(s: State, acts: seq<Action>, e: Uuid, channels: set<ChannelId>)
    requires Core(s) && FreshRun(s, acts) && Linked(s, e, channels)
    ensures Linked(Run(s, acts), e, channels)
    decreases |acts|
  {
    hide Core, FreshIds, Apply, Linked;
    if acts == [] {
    } else {
      ApplyKeepsCore(s, acts[0]);
      LinksStay(s, acts[0], e, channels);
      LinksStayAlong(Apply(s, acts[0]), acts[1..], e, channels);
    }
  }

  /** In every continuation an event, while it exists, has the channels it was opened with, whatever happens to
      its rule and to its channels. */
  lemma EventChannelsAreFixed(s: State, a: Action, acts: seq<Action>, e: Uuid, c: ChannelId)
    requires Core(s) && FreshIds(s, a) && FreshRun(Apply(s, a), acts)
    requires Adds(s, Apply(s, a), e) && e in Run(Apply(s, a), acts).db.events && a.ObserveRule? && a.p.0 in s.db.rules
    ensures c in Run(Apply(s, a), acts).db.events[e].channels <==>
              c in s.db.rules[a.p.0].channels && c in s.db.channels && !s.db.channels[c].deleted
  {
    NewEventLinksChannels(s, a, e);
    IssuedGrows(s, a);
    assert e in Drawn(a);
    hide Core, FreshIds, Apply, Counts, Ripens;
    ApplyKeepsCore(s, a);
    LinksStayAlong(Apply(s, a), acts, e, Apply(s, a).db.events[e].channels);
  }

  // ----- channels

  /** Channel k as action a, applied in state s, leaves it. */
  predicate ChannelAfter(s: State, a: Action, c: ChannelId, k: Channel, k': Channel) {
    match a
    case SetChannel(d, enabled, _) => if d == c && !k.deleted then k' == k.(enabled := enabled) else k' == k
    case RemoveChannel(d, _) => if d == c && !k.deleted then k' == k.(enabled := false, deleted := true) else k' == k
    case FinishAttempt(w, outcome, now) =>
      var pc := Pc(s, w);
      if pc.Sending? && Leases(s, w, pc.id) && Cools(s.db, pc.row, outcome) && pc.row.channel == c then
        var until := now + CoolingTime(pc.row.cycle);
        k' == k.(cooldown := Some(if k.cooldown.Some? && k.cooldown.value > until then k.cooldown.value else until))
      else k' == k
    case _ => k' == k
  }

  lemma CooledChannel(s: State, a: Action, c: ChannelId)
    requires a.FinishAttempt? && c in s.db.channels
    ensures c in Apply(s, a).db.channels && ChannelAfter(s, a, c, s.db.channels[c], Apply(s, a).db.channels[c])
  {
    hide FinishedRow, PushedBack;
  }

  /** Whatever the step: no channel row is ever deleted, this is what is left of it, and only CreateChannel
      adds one, in the state it was asked for. */
  lemma ChannelAfterIsExact(s: State, a: Action, c: ChannelId)
    requires FreshIds(s, a)
    ensures c in s.db.channels ==>
              c in Apply(s, a).db.channels && ChannelAfter(s, a, c, s.db.channels[c], Apply(s, a).db.channels[c])
    ensures c !in s.db.channels ==>
              (c in Apply(s, a).db.channels <==> a.CreateChannel? && a.channel == c)
              && (c in Apply(s, a).db.channels ==> Apply(s, a).db.channels[c] == Channel(a.enabled, false, a.email, None))
  {
    if a.FinishAttempt? && c in s.db.channels {
      CooledChannel(s, a, c);
    } else if IsEventStep(a) {
      EventStepChannels(s, a);
      hide Apply;
    } else {
      OtherChannels(s, a, c);
    }
  }

  lemma EventStepChannels(s: State, a: Action)
    requires IsEventStep(a)
    ensures Apply(s, a).db.channels == s.db.channels
  {
    if a.ObserveRule? {
      var active := ActiveEvent(s.db, a.p);
      if a.p.0 in s.db.rules {
        JudgeMeans(s.db, a.p, s.db.rules[a.p.0], Upserted(s.db.evaluations, a.p, a.version), active, a.o, a.suppressed, a.eventId, a.ids);
      }
      hide Judge, JudgedEvents, Evaluate, Upserted;
    } else if a.Acknowledge? || a.Resolve? {
      if a.event in s.db.events {
        ResolveMeans(s.db, a.event, a.ids, a.now, None);
        EnqueueMeans(s.db.(events := s.db.events[a.event := s.db.events[a.event].(phase := Acked)]), a.event, Acknowledged, false, a.ids, a.now);
      }
      hide ResolveEvent, Enqueue;
    }
  }

  lemma OtherChannels(s: State, a: Action, c: ChannelId)
    requires FreshIds(s, a) && !IsEventStep(a) && (a.FinishAttempt? ==> c !in s.db.channels)
    ensures c in s.db.channels ==>
              c in Apply(s, a).db.channels && ChannelAfter(s, a, c, s.db.channels[c], Apply(s, a).db.channels[c])
    ensures c !in s.db.channels ==>
              (c in Apply(s, a).db.channels <==> a.CreateChannel? && a.channel == c)
              && (c in Apply(s, a).db.channels ==> Apply(s, a).db.channels[c] == Channel(a.enabled, false, a.email, None))
  {
    hide IsCandidate, FinishedRow, Retained, RetryVerdict, SuppressNow, FailPending, PushedBack;
  }

  // ----- rules

  /** A rule changes only when the rules are replaced, or by losing a channel that is deleted. */
  lemma RulesAfterStep(s: State, a: Action)
    ensures Apply(s, a).db.rules ==
              (match a
               case ChangeRules(rules, _) => rules
               case RemoveChannel(c, _) =>
                 if c in s.db.channels && !s.db.channels[c].deleted
                 then map r | r in s.db.rules :: s.db.rules[r].(channels := s.db.rules[r].channels - {c}) else s.db.rules
               case _ => s.db.rules)
  {
    hide Evaluate, NewRows, SilencePending, OpenEvent, RepeatedEvent, IsCandidate, FinishedRow, Retained, RetryVerdict, SuppressNow,
         FailPending, PushedBack, Holds, MayStart;
  }
}
