/** The lifecycle order of an alert: when the claim of a recovery notification is final, with clocks
    that keep time and with clocks that do not. */
module AlertFinality {
  import opened Wrappers
  import opened AlertTables
  import opened AlertEvaluation
  import opened AlertTransactions
  import opened AlertProtocol
  import opened AlertInvariants
  import opened AlertHistory
  import opened AlertTheorems

  predicate OfPair(d: Delivery, e: Uuid, c: ChannelId) {
    d.event == Some(e) && d.channel == c
  }

  predicate BeforeResolution(k: Kind) {
    k.Firing? || k.Acknowledged?
  }

  /** No firing or acknowledged notification of (event, channel) is in flight. */
  ghost predicate Quiesced(ds: Deliveries, e: Uuid, c: ChannelId) {
    forall i | i in ds && OfPair(ds[i], e, c) && BeforeResolution(ds[i].kind) :: !InFlight(ds[i])
  }

  /** ... and the event is over, or has been deleted since. */
  ghost predicate Finished(s: State, e: Uuid, c: ChannelId) {
    && e in s.issued
    && (e in s.db.events ==> s.db.events[e].phase.Closed?)
    && Quiesced(s.db.deliveries, e, c)
  }

  /** The one statement that could break the order: claiming a resolved notification closes the
      pair exactly when no in-flight report of the pair was created after it. */
  lemma ClaimQuiescesIff(db: Db, i: Uuid, token: Uuid, now: Time, e: Uuid)
    requires IsCandidate(db, i, now) && db.deliveries[i].kind.Resolved? && db.deliveries[i].event == Some(e)
    ensures Quiesced(Claim(db, i, token, now).deliveries, e, db.deliveries[i].channel)
            <==> forall j | j in db.deliveries && OfPair(db.deliveries[j], e, db.deliveries[i].channel)
                            && BeforeResolution(db.deliveries[j].kind) && InFlight(db.deliveries[j]) ::
                   db.deliveries[j].created <= db.deliveries[i].created
  {
    var ds, ds' := db.deliveries, Claim(db, i, token, now).deliveries;
    var c := ds[i].channel;
    assert forall j | j in ds && j != i :: ds'[j] == ds[j];
    assert forall j | j in ds && OfPair(ds[j], e, c) && InFlight(ds[j]) && j != i :: !Precedes(j, ds[j], i, ds[i]);
  }

  /** No in-flight firing or acknowledged notification of claimed row i's event and channel was created after it. */
  ghost predicate NoneLater(ds: Deliveries, i: Uuid)
    requires i in ds
  {
    forall j | j in ds && ds[j].event == ds[i].event && ds[j].channel == ds[i].channel
               && BeforeResolution(ds[j].kind) && InFlight(ds[j]) ::
      ds[j].created <= ds[i].created
  }

  /** A claim that succeeds, of a resolved notification of event e. */
  predicate ClaimsResolved(s: State, a: Action, e: Uuid) {
    && a.TakeClaim? && Pc(s, a.w).Idle? && IsCandidate(s.db, a.id, a.now)
    && s.db.deliveries[a.id].kind.Resolved? && s.db.deliveries[a.id].event == Some(e)
  }

  lemma ClaimFinishes(s: State, a: Action, e: Uuid)
    requires Core(s) && FreshIds(s, a) && ClaimsResolved(s, a, e) && NoneLater(s.db.deliveries, a.id)
    ensures Finished(Apply(s, a), e, s.db.deliveries[a.id].channel)
  {
    ClaimQuiescesIff(s.db, a.id, a.token, a.now, e);
    assert LifecycleOk(s.db) && RefsOk(s.db, s.issued);
    assert PhaseOf(s.db.events, s.db.deliveries[a.id].event) == Some(Closed);
  }

  lemma FinishedStays(s: State, a: Action, e: Uuid, c: ChannelId)
    requires Core(s) && FreshIds(s, a) && Finished(s, e, c)
    ensures Finished(Apply(s, a), e, c)
    ensures forall i | i in s.db.deliveries && i in Apply(s, a).db.deliveries
                       && OfPair(s.db.deliveries[i], e, c) && BeforeResolution(s.db.deliveries[i].kind) ::
              Apply(s, a).db.deliveries[i] == s.db.deliveries[i]
  {
    ApplyEvolves(s, a);
    ApplyKeepsCore(s, a);
    IssuedGrows(s, a);
    hide Apply, RowsOk, TokensOk, ExclusionOk, IndexOk, EventsOk, LifecycleOk, CreatedOk, WorkersOk, Evolves;
    FinishedEvolves(s.db, Apply(s, a).db, Drawn(a), s.issued, Apply(s, a).issued, e, c);
  }

  lemma FinishedEvolves(db: Db, db': Db, drawn: set<Uuid>, issued: set<Uuid>, issued': set<Uuid>, e: Uuid, c: ChannelId)
    requires Evolves(db, db', drawn) && drawn !! issued && e in issued && RefsOk(db', issued')
    requires forall i | i in db.deliveries && db.deliveries[i].event.Some? :: db.deliveries[i].event.value in db.events
    requires e in db.events ==> db.events[e].phase.Closed?
    requires Quiesced(db.deliveries, e, c)
    ensures e in db'.events ==> db'.events[e].phase.Closed?
    ensures Quiesced(db'.deliveries, e, c)
    ensures forall i | i in db.deliveries && i in db'.deliveries
                       && OfPair(db.deliveries[i], e, c) && BeforeResolution(db.deliveries[i].kind) ::
              db'.deliveries[i] == db.deliveries[i]
  {
    forall i | i in db.deliveries && i in db'.deliveries && OfPair(db.deliveries[i], e, c) && BeforeResolution(db.deliveries[i].kind)
      ensures db'.deliveries[i] == db.deliveries[i]
    {
      assert Terminal(db, db.deliveries[i]);
      assert RowEvolves(db, db.deliveries[i], db'.deliveries[i]);
    }
    forall i | i in db'.deliveries && OfPair(db'.deliveries[i], e, c) ensures i in db.deliveries {
      assert e in db'.events;
    }
    forall i | i in db.deliveries && i in db'.deliveries ensures SameIdentity(db.deliveries[i], db'.deliveries[i]) {
      assert RowEvolves(db, db.deliveries[i], db'.deliveries[i]);
    }
  }

  lemma {:induction false} FinishedAlong(s: State, acts: seq<Action>, e: Uuid, c: ChannelId)
    requires Core(s) && FreshRun(s, acts) && Finished(s, e, c)
    ensures Finished(Run(s, acts), e, c)
    decreases |acts|
  {
    if acts == [] {
    } else {
      ApplyKeepsCore(s, acts[0]);
      FinishedStays(s, acts[0], e, c);
      FinishedAlong(Apply(s, acts[0]), acts[1..], e, c);
    }
  }

  /** No continuation, whatever its timestamps, has a firing or acknowledged notification of the pair in flight. */
  ghost predicate FinalFrom(s: State, e: Uuid, c: ChannelId) {
    forall acts | FreshRun(s, acts) :: Quiesced(Run(s, acts).db.deliveries, e, c)
  }

  /** Over runs whose clocks may go back: claiming a resolved notification is final for its event and
      channel if and only if no in-flight firing or acknowledged notification of them was created later. */
  lemma ResolutionIsFinalIff(start: Time, before: seq<Action>, claim: Action, e: Uuid)
    requires FreshRun(Initial(start), before) && FreshIds(Run(Initial(start), before), claim)
    requires ClaimsResolved(Run(Initial(start), before), claim, e)
    ensures var s := Run(Initial(start), before);
            FinalFrom(Apply(s, claim), e, s.db.deliveries[claim.id].channel) <==> NoneLater(s.db.deliveries, claim.id)
  {
    var s := Run(Initial(start), before);
    var c := s.db.deliveries[claim.id].channel;
    ReachableCore(start, before);
    if NoneLater(s.db.deliveries, claim.id) {
      ClaimFinishes(s, claim, e);
      ApplyKeepsCore(s, claim);
      FinishedIsFinal(Apply(s, claim), e, c);
    } else {
      ClaimQuiescesIff(s.db, claim.id, claim.token, claim.now, e);
      NotYetQuiesced(s, claim, e, c);
    }
  }

  lemma FinishedIsFinal(s: State, e: Uuid, c: ChannelId)
    requires Core(s) && Finished(s, e, c)
    ensures FinalFrom(s, e, c)
  {
    hide Core, Quiesced;
    forall acts | FreshRun(s, acts) ensures Quiesced(Run(s, acts).db.deliveries, e, c) {
      FinishedAlong(s, acts, e, c);
      FinishedMeans(Run(s, acts), e, c);
    }
  }

  lemma FinishedMeans(s: State, e: Uuid, c: ChannelId)
    requires Finished(s, e, c)
    ensures Quiesced(s.db.deliveries, e, c)
  {
  }

  lemma NotYetQuiesced(s: State, claim: Action, e: Uuid, c: ChannelId)
    requires ClaimsResolved(s, claim, e) && !Quiesced(Claim(s.db, claim.id, claim.token, claim.now).deliveries, e, c)
    ensures !FinalFrom(Apply(s, claim), e, c)
  {
    hide Quiesced, IsCandidate;
    var after := Apply(s, claim);
    assert Run(after, []) == after && FreshRun(after, []);
  }

  /** When clocks never go back the condition holds at every such claim. */
  lemma InOrderNoneLater(s: State, claim: Action, e: Uuid)
    requires Inv(s) && ClaimsResolved(s, claim, e)
    ensures NoneLater(s.db.deliveries, claim.id)
  {
    assert CreatedOk(s.db.deliveries, Ordered(s.clock));
  }

  /** So then resolution is final at every such claim, and no later step changes a firing or
      acknowledged notification of the pair. */
  lemma ResolutionIsFinal(start: Time, before: seq<Action>, claim: Action, after: seq<Action>, last: Action, e: Uuid, i: Uuid)
    requires LegalRun(Initial(start), before) && FreshRun(Run(Initial(start), before), [claim] + after + [last])
    requires ClaimsResolved(Run(Initial(start), before), claim, e)
    requires var s' := Run(Initial(start), before + [claim] + after);
             i in s'.db.deliveries && BeforeResolution(s'.db.deliveries[i].kind)
             && OfPair(s'.db.deliveries[i], e, Run(Initial(start), before).db.deliveries[claim.id].channel)
    ensures var s' := Run(Initial(start), before + [claim] + after);
            && !InFlight(s'.db.deliveries[i])
            && (i in Apply(s', last).db.deliveries ==> Apply(s', last).db.deliveries[i] == s'.db.deliveries[i])
  {
    var s0 := Initial(start);
    var s := Run(s0, before);
    var c := s.db.deliveries[claim.id].channel;
    RunAppend(s, [claim] + after, [last]);
    RunAppend(s, [claim], after);
    RunAppend(s0, before, [claim] + after);
    assert before + ([claim] + after) == before + [claim] + after;
    assert Run(s, [claim]) == Apply(s, claim) && FreshIds(s, claim);
    ReachableInv(start, before);
    InvIsCore(s);
    hide InvUnder, Apply, ClaimsResolved, FreshIds;
    InOrderNoneLater(s, claim, e);
    ClaimFinishes(s, claim, e);
    ApplyKeepsCore(s, claim);
    FinishedAlong(Apply(s, claim), after, e, c);
    RunKeepsCore(Apply(s, claim), after);
    FinishedStays(Run(s0, before + [claim] + after), last, e, c);
  }

  // ----- a run in which it is not final

  // Rule 0 fires at once; its events are reported through channel 0.
  const RULE: Rule := Rule(true, 0, false, 0, {0})
  const PAIR: Pair := (0, 0)
  const CHANNEL: Channel := Channel(true, false, false, None)

  /** An alert opens at 40. An evaluation pass reads its clock at 50; before it gets to this rule, an
      administrator acknowledges the event at 60. The pass then resolves it, stamped 50, and at 60 a
      worker claims the recovery. */
  function SkewedRun(): seq<Action> {
    [ChangeRules(map[0 := RULE], 10),
     CreateChannel(0, true, false, 10),
     ObserveRule(PAIR, 0, true, Observation(1, true, 40, 40), false, 1, map[2 := 0]),
     Acknowledge(1, map[3 := 0], 60),
     ObserveRule(PAIR, 0, true, Observation(0, false, 50, 50), false, 4, map[5 := 0]),
     TakeClaim(0, 5, 6, 60)]
  }

  const OPENED: Event := Event(0, 0, Open, false, {0}, 40, 40, 40, 1, None)
  const ACKED: Event := OPENED.(phase := Acked)
  const CLOSED: Event := OPENED.(phase := Closed, resolvedAt := Some(50), lastObserved := 50)
  const FIRING: Delivery := NewDelivery(Some(1), 0, Firing, false, 40)
  const ACKNOWLEDGEMENT: Delivery := NewDelivery(Some(1), 0, Acknowledged, false, 60)
  const RECOVERY: Delivery := NewDelivery(Some(1), 0, Resolved, false, 50)
  const ABNORMAL: Evaluation := Evaluation(0, Some(40), None, Some(40), Some(1), Some(40), 1)
  const NORMAL: Evaluation := Evaluation(0, None, None, Some(50), Some(0), Some(50), 0)

  function Tables(ds: Deliveries, events: map<Uuid, Event>, evaluations: map<Pair, Evaluation>): Db {
    Db(ds, map[0 := CHANNEL], events, evaluations, map[0 := RULE])
  }

  const QUIET: State := State(Tables(map[], map[], map[]), map[], {}, 10)
  const RAISED: State := State(Tables(map[2 := FIRING], map[1 := OPENED], map[PAIR := ABNORMAL]), map[], {1, 2}, 40)
  const CONFIRMED: State :=
    State(Tables(map[2 := FIRING, 3 := ACKNOWLEDGEMENT], map[1 := ACKED], map[PAIR := ABNORMAL]), map[], {1, 2, 3}, 60)
  const OVER: State :=
    State(Tables(map[2 := Settled(FIRING, Suppressed), 3 := ACKNOWLEDGEMENT, 5 := RECOVERY], map[1 := CLOSED], map[PAIR := NORMAL]),
          map[], {1, 2, 3, 4, 5}, 60)

  lemma OneNewRow(db: Db, e: Uuid, kind: Kind, i: Uuid, c: ChannelId, now: Time)
    requires Inserts(db, e, c, kind, false)
    ensures Enqueue(db, e, kind, false, map[i := c], now)
         == db.(deliveries := db.deliveries[i := NewDelivery(Some(e), c, kind, false, now)])
  {
    hide Inserts;
    var ids := map[i := c];
    assert NewRows(db, e, kind, false, ids, now) == map[i := NewDelivery(Some(e), c, kind, false, now)];
  }

  lemma SkewedSetup()
    ensures Run(Initial(0), SkewedRun()[..2]) == QUIET && FreshRun(Initial(0), SkewedRun()[..2])
  {
    var a, b := SkewedRun()[0], SkewedRun()[1];
    var mid := Apply(Initial(0), a);
    assert SkewedRun()[..2] == [a, b] && [a, b][1..] == [b] && [b][1..] == [];
    assert FreshIds(Initial(0), a) && FreshIds(mid, b);
    assert Apply(mid, b) == QUIET;
  }

  lemma SkewedOpening()
    ensures FreshIds(QUIET, SkewedRun()[2]) && Apply(QUIET, SkewedRun()[2]) == RAISED
  {
    var a := SkewedRun()[2];
    var db := QUIET.db;
    var mid := db.(evaluations := map[PAIR := ABNORMAL], events := map[1 := OPENED]);
    assert ActiveEvent(db, PAIR).None?;
    assert Evaluate(FreshEvaluation(0), false, RULE, a.o) == (ABNORMAL, Fire(40, 1));
    assert OpenEvent(db.(evaluations := map[PAIR := ABNORMAL]), PAIR, RULE, a.o, false, 40, 1) == OPENED;
    OneNewRow(mid, 1, Firing, 2, 0, 40);
    hide Evaluate, OpenEvent, Enqueue;
    assert Observe(db, PAIR, 0, true, a.o, false, 1, a.ids) == Enqueue(mid, 1, Firing, false, a.ids, 40);
    OneName(db, 2);
  }

  lemma OneName(db: Db, i: Uuid)
    requires db.channels == map[0 := CHANNEL]
    ensures NamesChannels(db, map[i := 0])
  {
    assert i in map[i := 0];
  }

  lemma AcknowledgedTables()
    ensures AcknowledgeEvent(RAISED.db, 1, map[3 := 0], 60) == CONFIRMED.db
  {
    var mid := RAISED.db.(events := map[1 := ACKED]);
    OneNewRow(mid, 1, Acknowledged, 3, 0, 60);
    hide Enqueue;
    assert RAISED.db.events[1 := ACKED] == map[1 := ACKED];
    assert AcknowledgeEvent(RAISED.db, 1, map[3 := 0], 60) == Enqueue(mid, 1, Acknowledged, false, map[3 := 0], 60);
  }

  lemma SkewedAcknowledgement()
    ensures FreshIds(RAISED, SkewedRun()[3]) && Apply(RAISED, SkewedRun()[3]) == CONFIRMED
  {
    hide AcknowledgeEvent, NamesChannels;
    AcknowledgedTables();
    OneName(RAISED.db, 3);
  }

  lemma ResolvedTables()
    ensures ResolveEvent(CONFIRMED.db.(evaluations := map[PAIR := NORMAL]), 1, map[5 := 0], 50, Some(50)) == OVER.db
  {
    var db := CONFIRMED.db.(evaluations := map[PAIR := NORMAL]);
    assert SilencePending(db.deliveries, 1) == map[2 := Settled(FIRING, Suppressed), 3 := ACKNOWLEDGEMENT];
    var mid := db.(events := map[1 := CLOSED], deliveries := SilencePending(db.deliveries, 1));
    OneNewRow(mid, 1, Resolved, 5, 0, 50);
    hide Enqueue, SilencePending;
    assert db.events[1 := CLOSED] == map[1 := CLOSED];
    assert ResolveEvent(db, 1, map[5 := 0], 50, Some(50)) == Enqueue(mid, 1, Resolved, false, map[5 := 0], 50);
  }

  lemma ResolvedByObservation(o: Observation)
    requires o == Observation(0, false, 50, 50)
    ensures Observe(CONFIRMED.db, PAIR, 0, true, o, false, 4, map[5 := 0]) == OVER.db
  {
    hide Evaluate, ResolveEvent;
    var db := CONFIRMED.db;
    assert IsActive(db, 1, PAIR);
    assert ActiveEvent(db, PAIR) == Some(1);
    RecoveryVerdict(o);
    ResolvedTables();
    assert db.evaluations[PAIR := NORMAL] == map[PAIR := NORMAL];
  }

  lemma RecoveryVerdict(o: Observation)
    requires o == Observation(0, false, 50, 50)
    ensures Upserted(CONFIRMED.db.evaluations, PAIR, 0) == ABNORMAL && Evaluate(ABNORMAL, true, RULE, o) == (NORMAL, Quiet(true))
  {
  }

  lemma SkewedResolution()
    ensures FreshIds(CONFIRMED, SkewedRun()[4]) && Apply(CONFIRMED, SkewedRun()[4]) == OVER
  {
    hide Observe, NamesChannels;
    ResolvedByObservation(SkewedRun()[4].o);
    OneName(CONFIRMED.db, 5);
  }

  /** The acknowledgement, created later, does not precede the recovery. */
  lemma SkewedClaim()
    ensures FreshIds(OVER, SkewedRun()[5]) && ClaimsResolved(OVER, SkewedRun()[5], 1)
    ensures !NoneLater(OVER.db.deliveries, 5) && !Quiesced(Apply(OVER, SkewedRun()[5]).db.deliveries, 1, 0)
  {
    var ds := OVER.db.deliveries;
    assert ds[3] == ACKNOWLEDGEMENT && ds[5] == RECOVERY;
    assert IsCandidate(OVER.db, 5, 60);
    assert Apply(OVER, SkewedRun()[5]).db.deliveries[3] == ACKNOWLEDGEMENT;
  }

  /** Every id of the run is drawn once, but its clock goes back, and its claim is not final: the
      acknowledgement still waits to be sent after the recovery was claimed. */
  lemma SkewedRunIsNotFinal()
    ensures FreshRun(Initial(0), SkewedRun()) && !LegalRun(Initial(0), SkewedRun())
    ensures ClaimsResolved(Run(Initial(0), SkewedRun()[..5]), SkewedRun()[5], 1)
    ensures !Quiesced(Run(Initial(0), SkewedRun()).db.deliveries, 1, 0)
  {
    hide Apply, FreshIds, Quiesced, NoneLater, ClaimsResolved, Initial;
    var acts := SkewedRun();
    SkewedSetup();
    SkewedOpening();
    SkewedAcknowledgement();
    SkewedResolution();
    SkewedClaim();
    OneStep(QUIET, acts[2]);
    OneStep(RAISED, acts[3]);
    OneStep(CONFIRMED, acts[4]);
    OneStep(OVER, acts[5]);
    RunAppend(QUIET, [acts[2]], [acts[3]]);
    RunAppend(QUIET, [acts[2]] + [acts[3]], [acts[4]]);
    RunAppend(Initial(0), acts[..2], [acts[2]] + [acts[3]] + [acts[4]]);
    RunAppend(Initial(0), acts[..5], [acts[5]]);
    assert acts[..5] == acts[..2] + ([acts[2]] + [acts[3]] + [acts[4]]) && acts == acts[..5] + [acts[5]];
    SkewedClockGoesBack();
  }

  lemma SkewedClockGoesBack()
    ensures !InTime(CONFIRMED, SkewedRun()[4])
  {
  }
}
