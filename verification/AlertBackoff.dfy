/** Retry delays and lifecycle reports of the delivery queue, over every run. */
module AlertBackoff {
  import opened Wrappers
  import opened AlertTables
  import opened AlertEvaluation
  import opened AlertTransactions
  import opened AlertProtocol
  import opened AlertInvariants
  import opened AlertHistory
  import opened AlertTheorems

  // ----- retry backoff

  /** Row i, if it is there, is not in flight before time t. */
  predicate Waits(ds: Deliveries, i: Uuid, t: Time) {
    i in ds ==> !ds[i].status.Processing? && (ds[i].status.Pending? ==> ds[i].nextAt.Some? && ds[i].nextAt.value >= t)
  }

  lemma EnqueueWaits(db: Db, e: Uuid, kind: Kind, suppressed: bool, ids: map<Uuid, ChannelId>, now: Time, i: Uuid, t: Time)
    requires Waits(db.deliveries, i, t) && i !in ids
    ensures Waits(Enqueue(db, e, kind, suppressed, ids, now).deliveries, i, t)
  {
    hide Inserts;
  }

  lemma ResolveWaits(db: Db, e: Uuid, ids: map<Uuid, ChannelId>, now: Time, recoveredAt: Option<Time>, i: Uuid, t: Time)
    requires Waits(db.deliveries, i, t) && i !in ids
    ensures Waits(ResolveEvent(db, e, ids, now, recoveredAt).deliveries, i, t)
  {
    hide Inserts, Enqueue;
    if e in db.events && !db.events[e].phase.Closed? {
      var last := if recoveredAt.Some? then recoveredAt.value else db.events[e].lastObserved;
      var event := db.events[e].(phase := Closed, resolvedAt := Some(now), lastObserved := last, suppressed := false);
      var mid := db.(events := db.events[e := event], deliveries := SilencePending(db.deliveries, e));
      assert Waits(mid.deliveries, i, t);
      EnqueueWaits(mid, e, Resolved, false, ids, now, i, t);
    }
  }

  lemma JudgeWaits(db: Db, p: Pair, rule: Rule, ev0: Evaluation, active: Option<Uuid>, o: Observation, suppressed: bool,
                   eventId: Uuid, ids: map<Uuid, ChannelId>, i: Uuid, t: Time)
    requires active.Some? ==> active.value in db.events
    requires Waits(db.deliveries, i, t) && i !in ids
    ensures Waits(Judge(db, p, rule, ev0, active, o, suppressed, eventId, ids).deliveries, i, t)
  {
    hide Enqueue, ResolveEvent, RepeatedEvent, OpenEvent, Waits;
    var (ev, verdict) := Evaluate(ev0, active.Some?, rule, o);
    var db1 := db.(evaluations := db.evaluations[p := ev]);
    match verdict
    case Stale =>
    case Waiting =>
    case Quiet(recovered) =>
      if recovered && active.Some? {
        ResolveWaits(db1, active.value, ids, o.observedAt, Some(o.observedAt), i, t);
      }
    case Continue =>
      var e := active.value;
      EnqueueWaits(db1.(events := db1.events[e := RepeatedEvent(db1.events[e], o, suppressed)]), e, Firing, suppressed, ids, o.observedAt, i, t);
    case Fire(first, count) =>
      EnqueueWaits(db1.(events := db1.events[eventId := OpenEvent(db1, p, rule, o, suppressed, first, count)]),
                   eventId, Firing, suppressed, ids, o.observedAt, i, t);
  }

  lemma EventStepWaits(s: State, a: Action, i: Uuid, t: Time)
    requires IsEventStep(a) && i !in Drawn(a) && Waits(s.db.deliveries, i, t)
    ensures Waits(Apply(s, a).db.deliveries, i, t)
  {
    hide Judge, Enqueue, ResolveEvent, Upserted, ActiveEvent, Waits;
    match a
    case ObserveRule(p, version, eligible, o, suppressed, eventId, ids) =>
      if p.0 in s.db.rules {
        JudgeWaits(s.db, p, s.db.rules[p.0], Upserted(s.db.evaluations, p, version), ActiveEvent(s.db, p), o, suppressed, eventId, ids, i, t);
      }
    case Acknowledge(e, ids, now) =>
      if e in s.db.events {
        EnqueueWaits(s.db.(events := s.db.events[e := s.db.events[e].(phase := Acked)]), e, Acknowledged, false, ids, now, i, t);
      }
    case Resolve(e, ids, now) => ResolveWaits(s.db, e, ids, now, None, i, t);
    case RefreshSuppression(e, flag, now) =>
    case ForgetEvaluation(p, now) =>
    case ChangeRules(rules, now) =>
  }

  lemma WorkerStepWaits(s: State, a: Action, i: Uuid, t: Time)
    requires IsWorkerStep(a) && TimeOf(a) < t && Waits(s.db.deliveries, i, t)
    ensures Waits(Apply(s, a).db.deliveries, i, t)
  {
    hide ChannelFree, FirstInLine, ChannelUsable, CooldownAfter, FinishedRow;
  }

  lemma AdminStepWaits(s: State, a: Action, i: Uuid, t: Time)
    requires !IsWorkerStep(a) && !IsEventStep(a) && i !in Drawn(a) && !(a.RetryFailed? && a.id == i)
    requires Waits(s.db.deliveries, i, t)
    ensures Waits(Apply(s, a).db.deliveries, i, t)
  {
    hide RetryVerdict, Retained;
  }

  lemma StepWaits(s: State, a: Action, i: Uuid, t: Time)
    requires i in s.issued && Legal(s, a) && TimeOf(a) < t && !(a.RetryFailed? && a.id == i)
    requires Waits(s.db.deliveries, i, t)
    ensures Waits(Apply(s, a).db.deliveries, i, t)
  {
    hide Apply, Waits, TimeOf;
    if IsEventStep(a) {
      EventStepWaits(s, a, i, t);
    } else if IsWorkerStep(a) {
      WorkerStepWaits(s, a, i, t);
    } else {
      AdminStepWaits(s, a, i, t);
    }
  }

  lemma {:induction false} ClockGrows(s: State, acts: seq<Action>)
    requires LegalRun(s, acts)
    ensures s.clock <= Run(s, acts).clock
    decreases |acts|
  {
    if acts == [] {
    } else {
      ClockAdvances(s, acts[0]);
      ClockGrows(Apply(s, acts[0]), acts[1..]);
    }
  }

  lemma {:induction false} RunWaits(s: State, acts: seq<Action>, i: Uuid, t: Time)
    requires i in s.issued && LegalRun(s, acts) && Run(s, acts).clock < t && Waits(s.db.deliveries, i, t)
    requires forall k | 0 <= k < |acts| :: !(acts[k].RetryFailed? && acts[k].id == i)
    ensures Waits(Run(s, acts).db.deliveries, i, t)
    decreases |acts|
  {
    hide Apply, Waits, FreshIds, InTime;
    if acts == [] {
    } else {
      ClockAdvances(s, acts[0]);
      ClockGrows(Apply(s, acts[0]), acts[1..]);
      StepWaits(s, acts[0], i, t);
      IssuedGrows(s, acts[0]);
      RunWaits(Apply(s, acts[0]), acts[1..], i, t);
    }
  }

  /** A finish that reports a failure while it holds the lease. */
  predicate FailingFinish(s: State, a: Action) {
    && a.FinishAttempt? && !a.outcome.Delivered?
    && Pc(s, a.w).Sending?
    && Holds(s.db, Pc(s, a.w).id, Pc(s, a.w).row)
  }

  lemma FailureWaits(s: State, fail: Action, t: Time)
    requires Core(s) && FailingFinish(s, fail)
    requires 1 <= Pc(s, fail.w).row.cycle <= 4 ==> t <= fail.now + DelayOf(Pc(s, fail.w).row.cycle)
    ensures Waits(Apply(s, fail).db.deliveries, Pc(s, fail.w).id, t) && Pc(s, fail.w).id in Apply(s, fail).issued
  {
    hide WorkersOk, RowsOk, TokensOk, ExclusionOk, IndexOk, EventsOk, LifecycleOk, CoolDown, CooldownAfter;
  }

  /** After a failed attempt the delivery is not claimed before its delay has passed (60 s, 5 min, 15 min,
      1 h after the first four attempts of a cycle), and after a fifth one not at all, whatever happens in
      between, unless an administrator retries it by hand. */
  lemma RetryBackoff(s: State, fail: Action, acts: seq<Action>, claim: Action)
    requires Core(s) && Legal(s, fail) && FailingFinish(s, fail) && LegalRun(Apply(s, fail), acts)
    requires forall k | 0 <= k < |acts| :: !(acts[k].RetryFailed? && acts[k].id == Pc(s, fail.w).id)
    requires Legal(Run(Apply(s, fail), acts), claim) && claim.TakeClaim? && claim.id == Pc(s, fail.w).id
    requires 1 <= Pc(s, fail.w).row.cycle <= 4 ==> claim.now < fail.now + DelayOf(Pc(s, fail.w).row.cycle)
    ensures Apply(Run(Apply(s, fail), acts), claim).db == Run(Apply(s, fail), acts).db
  {
    hide Core;
    FailureWaits(s, fail, claim.now + 1);
    RunWaits(Apply(s, fail), acts, Pc(s, fail.w).id, claim.now + 1);
  }

  // ----- recovery and acknowledgement are reported once

  /** Closing an event leaves no first report of it waiting. */
  lemma ClosingSilences(db: Db, e: Uuid, ids: map<Uuid, ChannelId>, now: Time, recoveredAt: Option<Time>, i: Uuid)
    requires e in db.events && !db.events[e].phase.Closed?
    requires i in ResolveEvent(db, e, ids, now, recoveredAt).deliveries
    ensures var d := ResolveEvent(db, e, ids, now, recoveredAt).deliveries[i];
            d.event == Some(e) && d.kind.Firing? ==> !d.status.Pending?
  {
    hide Inserts;
  }

  lemma ExactlyOne(s: State, db: Db, i: Uuid, e: Uuid, c: ChannelId, kind: Kind)
    requires Core(s.(db := db)) && Reports(db.deliveries, i, e, c, kind)
    ensures forall j :: Reports(db.deliveries, j, e, c, kind) ==> j == i
  {
    assert IndexOk(db.deliveries);
    hide Core, IndexOk;
    AtMostOneReport(db.deliveries, i, e, c, kind);
  }

  /** It also gives every usable channel exactly one recovery notification. */
  lemma RecoveryExactlyOnce(s: State, e: Uuid, ids: map<Uuid, ChannelId>, recoveredAt: Option<Time>, now: Time, c: ChannelId)
    requires Core(s) && e in s.db.events && !s.db.events[e].phase.Closed?
    requires NamesChannels(s.db, ids) && Unused(s.db.deliveries, ids.Keys, s.issued)
    requires c in s.db.events[e].channels && ChannelUsable(s.db.channels, c)
    ensures var ds := ResolveEvent(s.db, e, ids, now, recoveredAt).deliveries;
            exists i :: Reports(ds, i, e, c, Resolved) && forall j :: Reports(ds, j, e, c, Resolved) ==> j == i
  {
    hide InvUnder, Enqueue, Reports;
    var db := s.db;
    var last := if recoveredAt.Some? then recoveredAt.value else db.events[e].lastObserved;
    var event := db.events[e].(phase := Closed, resolvedAt := Some(now), lastObserved := last, suppressed := false);
    var mid := db.(events := db.events[e := event], deliveries := SilencePending(db.deliveries, e));
    EnqueueDelivers(mid, e, Resolved, ids, now, c);
    ResolveEventKeepsInv(s, e, ids, recoveredAt, now, Unordered);
    var after := ResolveEvent(db, e, ids, now, recoveredAt);
    var i :| Reports(after.deliveries, i, e, c, Resolved);
    ExactlyOne(s, after, i, e, c, Resolved);
  }

  /** Acknowledging an open event gives every usable channel exactly one acknowledgement notification. */
  lemma AcknowledgementExactlyOnce(s: State, e: Uuid, ids: map<Uuid, ChannelId>, now: Time, c: ChannelId)
    requires Core(s) && e in s.db.events && s.db.events[e].phase.Open?
    requires NamesChannels(s.db, ids) && Unused(s.db.deliveries, ids.Keys, s.issued)
    requires c in s.db.events[e].channels && ChannelUsable(s.db.channels, c)
    ensures var ds := AcknowledgeEvent(s.db, e, ids, now).deliveries;
            exists i :: Reports(ds, i, e, c, Acknowledged) && forall j :: Reports(ds, j, e, c, Acknowledged) ==> j == i
  {
    hide InvUnder, Enqueue, Reports;
    var mid := s.db.(events := s.db.events[e := s.db.events[e].(phase := Acked)]);
    EnqueueDelivers(mid, e, Acknowledged, ids, now, c);
    AcknowledgeKeepsInv(s, e, ids, now, Unordered);
    var after := AcknowledgeEvent(s.db, e, ids, now);
    var i :| Reports(after.deliveries, i, e, c, Acknowledged);
    ExactlyOne(s, after, i, e, c, Acknowledged);
  }
}
