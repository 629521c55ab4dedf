/** The guarantees of the delivery queue, over every run. */
module AlertTheorems {
  import opened Wrappers
  import opened AlertTables
  import opened AlertEvaluation
  import opened AlertTransactions
  import opened AlertProtocol
  import opened AlertInvariants
  import opened AlertHistory

  lemma {:induction false} RunAppend(s: State, a: seq<Action>, b: seq<Action>)
    ensures Run(s, a + b) == Run(Run(s, a), b)
    ensures LegalRun(s, a + b) <==> LegalRun(s, a) && LegalRun(Run(s, a), b)
    ensures FreshRun(s, a + b) <==> FreshRun(s, a) && FreshRun(Run(s, a), b)
    decreases |a|
  {
    if a == [] {
      assert a + b == b;
    } else {
      assert (a + b)[0] == a[0] && (a + b)[1..] == a[1..] + b;
      RunAppend(Apply(s, a[0]), a[1..], b);
    }
  }

  lemma OneStep(s: State, a: Action)
    ensures Run(s, [a]) == Apply(s, a) && (FreshRun(s, [a]) <==> FreshIds(s, a)) && (LegalRun(s, [a]) <==> Legal(s, a))
  {
  }

  lemma ReachableInv(start: Time, acts: seq<Action>)
    requires LegalRun(Initial(start), acts)
    ensures Inv(Run(Initial(start), acts))
  {
    InitialInv(start);
    RunKeepsInv(Initial(start), acts);
  }

  lemma ReachableCore(start: Time, acts: seq<Action>)
    requires FreshRun(Initial(start), acts)
    ensures Core(Run(Initial(start), acts))
  {
    InitialInv(start);
    RunKeepsCore(Initial(start), acts);
  }

  // ----- retry budget

  /** Whatever crashes, reclaims and clock changes happened: five recorded attempts per cycle, numbered upwards,
      never more of them than attempts that were started. */
  lemma RetryBudget(start: Time, acts: seq<Action>, i: Uuid)
    requires FreshRun(Initial(start), acts) && i in Run(Initial(start), acts).db.deliveries
    ensures var d := Run(Initial(start), acts).db.deliveries[i];
            && |d.recorded| <= 5 * (d.retries + 1)
            && |d.recorded| <= d.attempts
            && (forall j, k | 0 <= j < k < |d.recorded| :: d.recorded[j] < d.recorded[k])
            && (forall k | 0 <= k < |d.recorded| :: 1 <= d.recorded[k] <= d.attempts)
  {
    ReachableCore(start, acts);
    assert RowOk(Run(Initial(start), acts).db.deliveries[i]);
  }

  // ----- channel exclusion

  predicate Leased(d: Delivery, now: Time) {
    d.status.Processing? && OrZero(d.leaseUntil) > now
  }

  lemma ChannelExclusion(start: Time, acts: seq<Action>, i: Uuid, j: Uuid, now: Time)
    requires LegalRun(Initial(start), acts) && Run(Initial(start), acts).clock <= now
    requires i in Run(Initial(start), acts).db.deliveries && j in Run(Initial(start), acts).db.deliveries
    requires var ds := Run(Initial(start), acts).db.deliveries;
             ds[i].channel == ds[j].channel && Leased(ds[i], now) && Leased(ds[j], now)
    ensures i == j
  {
    ReachableInv(start, acts);
  }

  predicate CanStart(s: State, w: WorkerId, now: Time) {
    !Pc(s, w).Idle? && MayStart(s.db, Pc(s, w).id, Pc(s, w).row, now)
  }

  /** At most one worker can get a notification of a channel past start_delivery_attempt. */
  lemma OneSenderPerChannel(start: Time, acts: seq<Action>, v: WorkerId, w: WorkerId, now: Time)
    requires LegalRun(Initial(start), acts) && Run(Initial(start), acts).clock <= now
    requires CanStart(Run(Initial(start), acts), v, now) && CanStart(Run(Initial(start), acts), w, now)
    requires Pc(Run(Initial(start), acts), v).row.channel == Pc(Run(Initial(start), acts), w).row.channel
    ensures v == w
  {
    ReachableInv(start, acts);
    var s := Run(Initial(start), acts);
    HeldCopy(s, v, Ordered(s.clock));
    HeldCopy(s, w, Ordered(s.clock));
    var i, j := Pc(s, v).id, Pc(s, w).id;
    assert OrZero(s.db.deliveries[i].leaseUntil) > s.clock && OrZero(s.db.deliveries[j].leaseUntil) > s.clock;
    assert ExclusionOk(s.db.deliveries, Ordered(s.clock));
    assert i == j;
  }

  // ----- fencing

  /** A token that some claim used and no row carries any more. */
  ghost predicate Spent(s: State, token: Uuid) {
    token in s.issued && forall i | i in s.db.deliveries :: s.db.deliveries[i].token != Some(token)
  }

  lemma SpentForever(s: State, a: Action, token: Uuid)
    requires Core(s) && FreshIds(s, a) && Spent(s, token)
    ensures Spent(Apply(s, a), token)
  {
    IssuedGrows(s, a);
    hide Core, Apply;
    ApplyEvolves(s, a);
    TokensOfEvolution(s.db, Apply(s, a).db, Drawn(a));
  }

  lemma TokensOfEvolution(db: Db, db': Db, drawn: set<Uuid>)
    requires Evolves(db, db', drawn)
    ensures TokensEvolve(db.deliveries, db'.deliveries, drawn)
  {
  }

  lemma IssuedGrows(s: State, a: Action)
    ensures Apply(s, a).issued == s.issued + Drawn(a)
  {
  }

  lemma {:induction false} SpentAlong(s: State, acts: seq<Action>, token: Uuid)
    requires Core(s) && FreshRun(s, acts) && Spent(s, token)
    ensures Spent(Run(s, acts), token)
    decreases |acts|
  {
    if acts == [] {
    } else {
      ApplyKeepsCore(s, acts[0]);
      SpentForever(s, acts[0], token);
      SpentAlong(Apply(s, acts[0]), acts[1..], token);
    }
  }

  predicate StepOf(a: Action, w: WorkerId) {
    || (a.RecheckSuppression? && a.w == w) || (a.SuppressClaim? && a.w == w) || (a.ReleaseClaim? && a.w == w)
    || (a.StartAttempt? && a.w == w) || (a.FinishAttempt? && a.w == w)
  }

  /** Once the row no longer carries the worker's token, then in every continuation no suppress,
      release, start or finish of that claim changes any table. */
  lemma Fencing(s: State, w: WorkerId, acts: seq<Action>, a: Action)
    requires Core(s) && FreshRun(s, acts)
    requires !Pc(s, w).Idle?
    requires Pc(s, w).id in s.db.deliveries ==> s.db.deliveries[Pc(s, w).id].token != Pc(s, w).row.token
    requires !Pc(Run(s, acts), w).Idle? && Pc(Run(s, acts), w).row.token == Pc(s, w).row.token
    requires StepOf(a, w)
    ensures Apply(Run(s, acts), a).db == Run(s, acts).db
  {
    var token := Pc(s, w).row.token.value;
    assert CopyOk(s.db.deliveries, s.issued, s.workers[w]);
    assert Spent(s, token);
    SpentAlong(s, acts, token);
    var s' := Run(s, acts);
    assert !Holds(s'.db, Pc(s', w).id, Pc(s', w).row);
  }

  // ----- cooldown

  lemma CooldownStep(s: State, a: Action, c: ChannelId)
    requires Core(s) && FreshIds(s, a) && c in s.db.channels
    ensures c in Apply(s, a).db.channels && CooldownGrows(s.db.channels[c], Apply(s, a).db.channels[c])
  {
    ApplyEvolves(s, a);
  }

  lemma {:induction false} CooldownAlong(s: State, acts: seq<Action>, c: ChannelId)
    requires Core(s) && FreshRun(s, acts) && c in s.db.channels
    ensures c in Run(s, acts).db.channels && CooldownGrows(s.db.channels[c], Run(s, acts).db.channels[c])
    decreases |acts|
  {
    if acts == [] {
    } else {
      ApplyKeepsCore(s, acts[0]);
      CooldownStep(s, acts[0], c);
      CooldownAlong(Apply(s, acts[0]), acts[1..], c);
    }
  }

  /** A finish that runs into a transient SMTP error while it holds the lease, on a channel that still exists. */
  predicate CoolingFinish(s: State, a: Action) {
    && a.FinishAttempt? && a.outcome.TransientSmtp?
    && Pc(s, a.w).Sending?
    && Holds(s.db, Pc(s, a.w).id, Pc(s, a.w).row)
    && Pc(s, a.w).row.channel in s.db.channels
    && s.db.channels[Pc(s, a.w).row.channel].email
    && !s.db.channels[Pc(s, a.w).row.channel].deleted
  }

  function DelayOf(cycle: nat): Time {
    if cycle == 1 then 60 else if cycle == 2 then 300 else if cycle == 3 then 900 else 3600
  }

  /** ... lets no delivery of that channel be claimed before its delay has passed, whatever happens
      in between, and leaves every other channel and its deliveries as they were. */
  lemma CooldownHolds(s: State, fail: Action, acts: seq<Action>, claim: Action)
    requires Core(s) && FreshIds(s, fail) && FreshRun(Apply(s, fail), acts) && CoolingFinish(s, fail)
    requires FreshIds(Run(Apply(s, fail), acts), claim) && claim.TakeClaim?
    requires claim.id in Run(Apply(s, fail), acts).db.deliveries
    requires Run(Apply(s, fail), acts).db.deliveries[claim.id].channel == Pc(s, fail.w).row.channel
    requires claim.now < fail.now + DelayOf(Pc(s, fail.w).row.cycle)
    ensures Apply(Run(Apply(s, fail), acts), claim).db == Run(Apply(s, fail), acts).db
  {
    hide DbOk, WorkersOk, RowsOk;
    var c := Pc(s, fail.w).row.channel;
    HeldCopy(s, fail.w, Unordered);
    ApplyKeepsCore(s, fail);
    assert CooldownAfter(s.db, Pc(s, fail.w).row, TransientSmtp) == Some(DelayOf(Pc(s, fail.w).row.cycle));
    assert Apply(s, fail).db.channels[c].cooldown.value >= fail.now + DelayOf(Pc(s, fail.w).row.cycle);
    hide Core;
    CooldownAlong(Apply(s, fail), acts, c);
  }

  lemma CooldownIsLocal(s: State, fail: Action, c: ChannelId, i: Uuid)
    requires Core(s) && CoolingFinish(s, fail) && c != Pc(s, fail.w).row.channel
    ensures c in s.db.channels ==> Apply(s, fail).db.channels[c] == s.db.channels[c]
    ensures i in s.db.deliveries && s.db.deliveries[i].channel == c ==>
              i in Apply(s, fail).db.deliveries && Apply(s, fail).db.deliveries[i] == s.db.deliveries[i]
  {
    HeldCopy(s, fail.w, Unordered);
  }

  // ----- no permanent blocking

  lemma LeastInLine(ds: Deliveries, open: set<Uuid>) returns (m: Uuid)
    requires open != {} && open <= ds.Keys
    ensures m in open && forall j | j in open && j != m :: !Precedes(j, ds[j], m, ds[m])
    decreases open
  {
    m :| m in open;
    if open != {m} {
      var n := LeastInLine(ds, open - {m});
      if !Precedes(m, ds[m], n, ds[n]) {
        forall j | j in open && j != n ensures !Precedes(j, ds[j], n, ds[n]) {
          assert j == m || j in open - {m};
        }
        m := n;
      } else {
        forall j | j in open && j != m ensures !Precedes(j, ds[j], m, ds[m]) {
          assert j in open - {m};
        }
      }
    }
  }

  /** Past its retry times, lease ends and cooldown, a channel with work always has a delivery to claim. */
  lemma NoPermanentBlocking(db: Db, c: ChannelId, now: Time)
    requires c in db.channels && OrZero(db.channels[c].cooldown) <= now
    requires exists i | i in db.deliveries :: db.deliveries[i].channel == c && InFlight(db.deliveries[i])
    requires forall i | i in db.deliveries && db.deliveries[i].channel == c && InFlight(db.deliveries[i]) :: Due(db.deliveries[i], now)
    ensures exists i :: IsCandidate(db, i, now) && db.deliveries[i].channel == c
  {
    var ds := db.deliveries;
    var open := set i | i in ds && ds[i].channel == c && InFlight(ds[i]);
    var first :| first in ds && ds[first].channel == c && InFlight(ds[first]);
    assert first in open;
    var m := LeastInLine(ds, open);
    assert ChannelFree(ds, m, now) by {
      forall j | j in ds && j != m && ds[j].channel == ds[m].channel && ds[j].status.Processing?
        ensures OrZero(ds[j].leaseUntil) <= now
      {
        assert Due(ds[j], now);
      }
    }
    assert FirstInLine(ds, m);
    assert IsCandidate(db, m, now);
  }

  // ----- first report exactly once

  predicate Reports(ds: Deliveries, i: Uuid, e: Uuid, c: ChannelId, kind: Kind) {
    i in ds && ds[i].event == Some(e) && ds[i].channel == c && ds[i].kind == kind && !ds[i].status.Suppressed?
  }

  /** An abnormal observation that the evaluation takes into account. */
  predicate AcceptedAbnormal(s: State, a: Action) {
    && a.ObserveRule? && a.eligible && a.o.abnormal
    && a.p.0 in s.db.rules && s.db.rules[a.p.0].enabled && s.db.rules[a.p.0].version == a.version
    && !ObservationIsStale(Upserted(s.db.evaluations, a.p, a.version), a.o)
  }

  lemma EnqueueDelivers(db: Db, e: Uuid, kind: Kind, ids: map<Uuid, ChannelId>, now: Time, c: ChannelId)
    requires e in db.events && c in db.events[e].channels && ChannelUsable(db.channels, c)
    requires exists i | i in ids :: ids[i] == c
    requires ids.Keys !! db.deliveries.Keys
    ensures exists i :: Reports(Enqueue(db, e, kind, false, ids, now).deliveries, i, e, c, kind)
  {
    var ds' := Enqueue(db, e, kind, false, ids, now).deliveries;
    if Deliverable(db.deliveries, e, c, kind) {
      var j :| j in db.deliveries && db.deliveries[j].event == Some(e) && db.deliveries[j].channel == c
               && db.deliveries[j].kind == kind && !db.deliveries[j].status.Suppressed?;
      assert Reports(ds', j, e, c, kind);
    } else {
      var i :| i in ids && ids[i] == c;
      assert Reports(ds', i, e, c, kind);
    }
  }

  /** Whenever an event is active after such an observation, the transaction enqueued its firing report. */
  lemma AbnormalEnqueues(s: State, a: Action, e: Uuid) returns (mid: Db)
    requires Core(s) && AcceptedAbnormal(s, a)
    requires IsActive(Apply(s, a).db, e, a.p)
    ensures mid.deliveries == s.db.deliveries && mid.channels == s.db.channels && e in mid.events
    ensures Apply(s, a).db == Enqueue(mid, e, Firing, a.suppressed, a.ids, a.o.observedAt)
  {
    var db, p := s.db, a.p;
    var rule, active := db.rules[p.0], ActiveEvent(db, p);
    var (ev, verdict) := Evaluate(Upserted(db.evaluations, p, a.version), active.Some?, rule, a.o);
    var db1 := db.(evaluations := db.evaluations[p := ev]);
    mid := db1;
    assert active.None? ==> !IsActive(db, e, p);
    if active.Some? {
      assert IsActive(db, e, p);
      OneActiveEvent(s, p, active.value, e);
      mid := db1.(events := db1.events[e := RepeatedEvent(db1.events[e], a.o, a.suppressed)]);
    } else if verdict.Fire? {
      assert e == a.eventId;
      mid := db1.(events := db1.events[e := OpenEvent(db1, p, rule, a.o, a.suppressed, verdict.firstObserved, verdict.count)]);
    }
  }

  /** Whatever was suppressed before: after an unsuppressed one every usable channel of the active event has
      exactly one firing notification that is not suppressed. */
  lemma FirstReportExactlyOnce(s: State, a: Action, e: Uuid, c: ChannelId)
    requires Core(s) && FreshIds(s, a) && AcceptedAbnormal(s, a) && !a.suppressed
    requires IsActive(Apply(s, a).db, e, a.p)
    requires c in Apply(s, a).db.events[e].channels && ChannelUsable(Apply(s, a).db.channels, c)
    ensures exists i :: Reports(Apply(s, a).db.deliveries, i, e, c, Firing)
                        && forall j :: Reports(Apply(s, a).db.deliveries, j, e, c, Firing) ==> j == i
  {
    ApplyKeepsCore(s, a);
    assert IndexOk(Apply(s, a).db.deliveries);
    FreshTokens(s, a);
    var mid := AbnormalEnqueues(s, a, e);
    hide Core, IndexOk, Apply;
    EnqueueDelivers(mid, e, Firing, a.ids, a.o.observedAt, c);
    var i :| Reports(Apply(s, a).db.deliveries, i, e, c, Firing);
    AtMostOneReport(Apply(s, a).db.deliveries, i, e, c, Firing);
  }

  lemma AtMostOneReport(ds: Deliveries, i: Uuid, e: Uuid, c: ChannelId, kind: Kind)
    requires IndexOk(ds) && Reports(ds, i, e, c, kind)
    ensures forall j :: Reports(ds, j, e, c, kind) ==> j == i
  {
  }

  /** At most one unresolved event per rule and instance. */
  lemma OneActiveEvent(s: State, p: Pair, e: Uuid, f: Uuid)
    requires Core(s) && IsActive(s.db, e, p) && IsActive(s.db, f, p)
    ensures e == f
  {
    assert EventOk(s.db.events[e], Unordered) && EventOk(s.db.events[f], Unordered);
    assert e == f || Apart(s.db.events[e], s.db.events[f], Unordered);
  }

  /** Two events of the same rule and instance never overlap in time. */
  lemma EventsNeverOverlap(start: Time, acts: seq<Action>, e: Uuid, f: Uuid, t: Time)
    requires LegalRun(Initial(start), acts)
    requires e in Run(Initial(start), acts).db.events && f in Run(Initial(start), acts).db.events
    requires var v := Run(Initial(start), acts).db.events;
             && SamePair(v[e], v[f])
             && v[e].firedAt <= t && (v[e].resolvedAt.Some? ==> t < v[e].resolvedAt.value)
             && v[f].firedAt <= t && (v[f].resolvedAt.Some? ==> t < v[f].resolvedAt.value)
    ensures e == f
  {
    ReachableInv(start, acts);
    var v := Run(Initial(start), acts).db.events;
    assert e == f || Apart(v[e], v[f], Ordered(Run(Initial(start), acts).clock));
  }

  // ----- at most one success

  ghost predicate SucceededOnce(s: State, i: Uuid, e: Uuid, c: ChannelId, kind: Kind) {
    && e in s.issued
    && (e in s.db.events ==> Reports(s.db.deliveries, i, e, c, kind) && s.db.deliveries[i].status.Succeeded?)
  }

  lemma SuccessStays(s: State, a: Action, i: Uuid, e: Uuid, c: ChannelId, kind: Kind)
    requires Core(s) && FreshIds(s, a) && SucceededOnce(s, i, e, c, kind)
    ensures SucceededOnce(Apply(s, a), i, e, c, kind)
  {
    ApplyEvolves(s, a);
    IssuedGrows(s, a);
    hide Apply, Core;
    if e in Apply(s, a).db.events {
      assert e in s.db.events;
      assert i in Apply(s, a).db.deliveries;
      assert RowEvolves(s.db, s.db.deliveries[i], Apply(s, a).db.deliveries[i]);
    }
  }

  lemma {:induction false} SuccessAlong(s: State, acts: seq<Action>, i: Uuid, e: Uuid, c: ChannelId, kind: Kind)
    requires Core(s) && FreshRun(s, acts) && SucceededOnce(s, i, e, c, kind)
    ensures SucceededOnce(Run(s, acts), i, e, c, kind)
    decreases |acts|
  {
    if acts == [] {
    } else {
      ApplyKeepsCore(s, acts[0]);
      SuccessStays(s, acts[0], i, e, c, kind);
      SuccessAlong(Apply(s, acts[0]), acts[1..], i, e, c, kind);
    }
  }

  /** Of all deliveries of one (event, channel, kind) that ever exist, at most one ever succeeds. */
  lemma AtMostOneSuccess(start: Time, before: seq<Action>, after: seq<Action>, i: Uuid, j: Uuid, e: Uuid, c: ChannelId, kind: Kind)
    requires FreshRun(Initial(start), before + after)
    requires Reports(Run(Initial(start), before).db.deliveries, i, e, c, kind)
             && Run(Initial(start), before).db.deliveries[i].status.Succeeded?
    requires Reports(Run(Initial(start), before + after).db.deliveries, j, e, c, kind)
             && Run(Initial(start), before + after).db.deliveries[j].status.Succeeded?
    ensures i == j
  {
    RunAppend(Initial(start), before, after);
    ReachableCore(start, before);
    ReachableCore(start, before + after);
    SuccessAlong(Run(Initial(start), before), after, i, e, c, kind);
    AtMostOneReport(Run(Initial(start), before + after).db.deliveries, j, e, c, kind);
  }
}
