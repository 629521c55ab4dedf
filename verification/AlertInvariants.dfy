/** The inductive invariant of the delivery queue and the proof that every step keeps it. */
module AlertInvariants {
  import opened Wrappers
  import opened AlertTables
  import opened AlertEvaluation
  import opened AlertTransactions
  import opened AlertProtocol

  const ATTEMPTS_PER_CYCLE: nat := 5

  function MinNat(a: int, b: int): int {
    if a < b then a else b
  }

  predicate Increasing(s: seq<nat>) {
    forall i, j | 0 <= i < j < |s| :: s[i] < s[j]
  }

  // ----- one row

  predicate ShapeOk(d: Delivery) {
    && (d.status.Processing? <==> d.token.Some?)
    && (d.status.Processing? <==> d.leaseUntil.Some?)
    && (d.status.Pending? ==> d.nextAt.Some?)
    && (!InFlight(d) ==> d.nextAt.None?)
    && (d.kind.WebhookTest? <==> d.event.None?)
  }

  predicate AttemptsOk(d: Delivery) {
    && d.cycle <= d.attempts
    && |d.recorded| <= d.attempts
    && Increasing(d.recorded)
    && (forall k | 0 <= k < |d.recorded| :: 1 <= d.recorded[k] <= d.attempts)
    && |d.recorded| <= ATTEMPTS_PER_CYCLE * d.retries + (if InFlight(d) then MinNat(d.cycle, 4) else ATTEMPTS_PER_CYCLE)
  }

  predicate RowOk(d: Delivery) {
    ShapeOk(d) && AttemptsOk(d)
  }

  /** A copy returned by start_delivery_attempt: this attempt is not in the log yet. */
  predicate UnrecordedOk(d: Delivery) {
    && 1 <= d.cycle
    && |d.recorded| < d.attempts
    && (forall k | 0 <= k < |d.recorded| :: d.recorded[k] < d.attempts)
    && |d.recorded| <= ATTEMPTS_PER_CYCLE * d.retries + MinNat(d.cycle - 1, 4)
  }

  // ----- the delivery table

  ghost predicate RowsOk(ds: Deliveries) {
    forall i | i in ds :: RowOk(ds[i])
  }

  ghost predicate TokensOk(ds: Deliveries) {
    forall i, j | i in ds && j in ds && ds[i].token.Some? && ds[i].token == ds[j].token :: i == j
  }

  /** What is known of the timestamps used so far: that they never went back and now stand at
      `clock`, or nothing. */
  datatype Timing = Ordered(clock: Time) | Unordered

  /** `now` is the time of the step in progress. */
  predicate IsNow(timing: Timing, now: Time) {
    timing.Ordered? ==> timing.clock == now
  }

  /** At any time from the clock on, at most one delivery of a channel has an unexpired lease. */
  ghost predicate ExclusionOk(ds: Deliveries, timing: Timing) {
    timing.Ordered? ==>
      forall i, j | i in ds && j in ds && i != j && ds[i].channel == ds[j].channel
                    && ds[i].status.Processing? && ds[j].status.Processing? ::
        OrZero(ds[i].leaseUntil) <= timing.clock || OrZero(ds[j].leaseUntil) <= timing.clock
  }

  predicate SameReport(a: Delivery, b: Delivery) {
    a.event.Some? && a.event == b.event && a.channel == b.channel && a.kind == b.kind
  }

  /** The partial unique index holds. */
  ghost predicate IndexOk(ds: Deliveries) {
    forall i, j | i in ds && j in ds && SameReport(ds[i], ds[j])
                  && !ds[i].status.Suppressed? && !ds[j].status.Suppressed? :: i == j
  }

  ghost predicate RefsOk(db: Db, issued: set<Uuid>) {
    && (forall i | i in db.deliveries ::
          && i in issued
          && db.deliveries[i].channel in db.channels
          && (db.deliveries[i].event.Some? ==> db.deliveries[i].event.value in db.events)
          && (db.deliveries[i].token.Some? ==> db.deliveries[i].token.value in issued))
    && (forall e | e in db.events :: e in issued)
  }

  // ----- events

  predicate EventOk(v: Event, timing: Timing) {
    && (v.phase.Closed? <==> v.resolvedAt.Some?)
    && (timing.Ordered? ==>
          && v.firedAt <= timing.clock
          && (v.resolvedAt.Some? ==> v.firedAt <= v.resolvedAt.value <= timing.clock))
  }

  predicate SamePair(a: Event, b: Event) {
    a.rule == b.rule && a.instance == b.instance
  }

  /** One of the two is resolved, and no later than the other fired. */
  predicate Apart(a: Event, b: Event, timing: Timing) {
    || (a.resolvedAt.Some? && (timing.Ordered? ==> a.resolvedAt.value <= b.firedAt))
    || (b.resolvedAt.Some? && (timing.Ordered? ==> b.resolvedAt.value <= a.firedAt))
  }

  ghost predicate EventsOk(events: map<Uuid, Event>, timing: Timing) {
    && (forall e | e in events :: EventOk(events[e], timing))
    && (forall e, f | e in events && f in events && e != f && SamePair(events[e], events[f]) :: Apart(events[e], events[f], timing))
  }

  /** A row of a later kind exists only once the event has got that far. */
  ghost predicate LifecycleOk(db: Db) {
    && (forall i | i in db.deliveries && db.deliveries[i].kind.Resolved? ::
          PhaseOf(db.events, db.deliveries[i].event) == Some(Closed))
    && (forall i | i in db.deliveries && db.deliveries[i].kind.Acknowledged? ::
          PhaseOf(db.events, db.deliveries[i].event) in {Some(Acked), Some(Closed)})
  }

  /** No row was created after the clock, or after a recovery row of its event. */
  ghost predicate CreatedOk(ds: Deliveries, timing: Timing) {
    timing.Ordered? ==>
      && (forall i | i in ds :: ds[i].created <= timing.clock)
      && (forall i, j | i in ds && j in ds && ds[j].kind.Resolved? && ds[i].event == ds[j].event ::
            ds[i].created <= ds[j].created)
  }

  // ----- workers

  /** A copy whose token is still in the table is an exact copy of its row. */
  ghost predicate CopyOk(ds: Deliveries, issued: set<Uuid>, pc: Worker) {
    !pc.Idle? ==>
      && pc.row.token.Some?
      && pc.row.token.value in issued
      && (forall i | i in ds && ds[i].token == pc.row.token :: i == pc.id && ds[i] == pc.row)
      && (pc.Sending? ==> UnrecordedOk(pc.row))
  }

  ghost predicate WorkersOk(ds: Deliveries, workers: map<WorkerId, Worker>, issued: set<Uuid>) {
    && (forall w | w in workers :: CopyOk(ds, issued, workers[w]))
    && (forall v, w | v in workers && w in workers && v != w && !workers[v].Idle? && !workers[w].Idle? ::
          workers[v].row.token != workers[w].row.token)
  }

  ghost predicate DbOk(db: Db, issued: set<Uuid>, timing: Timing) {
    && RowsOk(db.deliveries)
    && TokensOk(db.deliveries)
    && ExclusionOk(db.deliveries, timing)
    && IndexOk(db.deliveries)
    && RefsOk(db, issued)
    && EventsOk(db.events, timing)
    && LifecycleOk(db)
    && CreatedOk(db.deliveries, timing)
  }

  ghost predicate InvUnder(s: State, timing: Timing) {
    DbOk(s.db, s.issued, timing) && WorkersOk(s.db.deliveries, s.workers, s.issued)
  }

  /** What every run keeps, even when its timestamps go back. */
  ghost predicate Core(s: State) {
    InvUnder(s, Unordered)
  }

  /** What a run keeps whose timestamps never go back. */
  ghost predicate Inv(s: State) {
    InvUnder(s, Ordered(s.clock))
  }

  lemma InvIsCore(s: State)
    requires Inv(s)
    ensures Core(s)
  {
    hide RowsOk, TokensOk, IndexOk, RefsOk, LifecycleOk, WorkersOk;
    assert forall e | e in s.db.events :: EventOk(s.db.events[e], Ordered(s.clock));
    assert EventsOk(s.db.events, Unordered);
  }

  // ----- elementary changes

  predicate SameIdentity(a: Delivery, b: Delivery) {
    a.event == b.event && a.channel == b.channel && a.kind == b.kind && a.created == b.created
  }

  /** A change of one row that grants no lease and revives no suppressed row. */
  predicate RowEdit(a: Delivery, b: Delivery) {
    && SameIdentity(a, b)
    && RowOk(b)
    && (a.status.Suppressed? ==> b == a)
    && (b.status.Processing? ==> a.status.Processing? && b.token == a.token && b.leaseUntil == a.leaseUntil)
  }

  ghost predicate TableEdit(ds: Deliveries, ds': Deliveries) {
    ds'.Keys == ds.Keys && forall i | i in ds :: RowEdit(ds[i], ds'[i])
  }

  /** Lifecycle facts speak only of columns that no statement updates. */
  lemma IdentityKeepsLifecycle(db: Db, db': Db, timing: Timing)
    requires LifecycleOk(db) && CreatedOk(db.deliveries, timing) && db'.events == db.events
    requires forall i | i in db'.deliveries :: i in db.deliveries && SameIdentity(db.deliveries[i], db'.deliveries[i])
    ensures LifecycleOk(db') && CreatedOk(db'.deliveries, timing)
  {
  }

  lemma EditKeepsLeases(ds: Deliveries, ds': Deliveries, timing: Timing)
    requires RowsOk(ds) && TokensOk(ds) && ExclusionOk(ds, timing) && TableEdit(ds, ds')
    ensures RowsOk(ds') && TokensOk(ds') && ExclusionOk(ds', timing)
  {
    hide AttemptsOk;
    assert forall i | i in ds' :: i in ds && RowEdit(ds[i], ds'[i]);
  }

  lemma EditKeepsIndex(ds: Deliveries, ds': Deliveries)
    requires IndexOk(ds) && TableEdit(ds, ds')
    ensures IndexOk(ds')
  {
    hide RowOk;
    assert forall i | i in ds' :: i in ds && RowEdit(ds[i], ds'[i]);
  }

  lemma EditKeepsRefs(db: Db, db': Db, issued: set<Uuid>)
    requires RefsOk(db, issued) && RowsOk(db.deliveries) && TableEdit(db.deliveries, db'.deliveries)
    requires db'.events == db.events && db'.channels.Keys == db.channels.Keys
    ensures RefsOk(db', issued)
  {
    hide AttemptsOk;
    assert forall i | i in db'.deliveries :: i in db.deliveries && RowEdit(db.deliveries[i], db'.deliveries[i]);
  }

  lemma EditKeepsDb(db: Db, db': Db, issued: set<Uuid>, timing: Timing)
    requires DbOk(db, issued, timing)
    requires db'.events == db.events && db'.channels.Keys == db.channels.Keys
    requires TableEdit(db.deliveries, db'.deliveries)
    ensures DbOk(db', issued, timing)
  {
    hide RowOk, RowsOk, TokensOk, ExclusionOk, IndexOk, RefsOk, LifecycleOk, CreatedOk, EventsOk;
    EditKeepsLeases(db.deliveries, db'.deliveries, timing);
    EditKeepsIndex(db.deliveries, db'.deliveries);
    EditKeepsRefs(db, db', issued);
    IdentityKeepsLifecycle(db, db', timing);
  }

  /** Workers are unaffected by a table edit that leaves every leased row alone. */
  lemma EditKeepsWorkers(ds: Deliveries, ds': Deliveries, workers: map<WorkerId, Worker>, issued: set<Uuid>)
    requires WorkersOk(ds, workers, issued)
    requires forall i | i in ds' && ds'[i].token.Some? :: i in ds && ds[i] == ds'[i]
    ensures WorkersOk(ds', workers, issued)
  {
  }

  /** The clock moves on: known to be ordered only if it was so far and the step is no earlier. */
  predicate Moves(before: Timing, now: Time, after: Timing) {
    after.Ordered? ==> before.Ordered? && before.clock <= now == after.clock
  }

  lemma AdvanceKeepsInv(s: State, a: Action, before: Timing, after: Timing)
    requires InvUnder(s, before) && Moves(before, TimeOf(a), after)
    ensures InvUnder(Advance(s, a), after)
  {
    hide RowsOk, IndexOk, LifecycleOk, SamePair;
    var s' := Advance(s, a);
    assert RefsOk(s'.db, s'.issued);
    assert forall e | e in s'.db.events :: EventOk(s'.db.events[e], before);
    assert WorkersOk(s'.db.deliveries, s'.workers, s'.issued);
  }

  // ----- changes of the event table

  predicate EventEdit(a: Event, b: Event, timing: Timing) {
    && SamePair(a, b)
    && b.firedAt == a.firedAt
    && EventOk(b, timing)
    && (a.phase.Acked? ==> !b.phase.Open?)
    && (a.phase.Closed? ==> b.phase.Closed? && b.resolvedAt == a.resolvedAt)
  }

  lemma EventEditKeepsEvents(events: map<Uuid, Event>, e: Uuid, v: Event, timing: Timing)
    requires EventsOk(events, timing) && e in events && EventEdit(events[e], v, timing)
    ensures EventsOk(events[e := v], timing)
  {
    forall a, b | a in events && b in events && a != b && SamePair(events[e := v][a], events[e := v][b])
      ensures Apart(events[e := v][a], events[e := v][b], timing)
    {
      assert Apart(events[a], events[b], timing);
    }
  }

  lemma EventEditKeepsLifecycle(db: Db, e: Uuid, v: Event, timing: Timing)
    requires LifecycleOk(db) && e in db.events && EventEdit(db.events[e], v, timing)
    ensures LifecycleOk(db.(events := db.events[e := v]))
  {
    hide EventOk;
  }

  lemma EventEditKeepsDb(db: Db, e: Uuid, v: Event, issued: set<Uuid>, timing: Timing)
    requires DbOk(db, issued, timing)
    requires e in db.events && EventEdit(db.events[e], v, timing)
    ensures DbOk(db.(events := db.events[e := v]), issued, timing)
  {
    hide RowsOk, TokensOk, ExclusionOk, IndexOk, EventsOk, LifecycleOk, CreatedOk, EventEdit;
    EventEditKeepsEvents(db.events, e, v, timing);
    EventEditKeepsLifecycle(db, e, v, timing);
  }

  lemma NewEventKeepsDb(db: Db, e: Uuid, v: Event, issued: set<Uuid>, now: Time, timing: Timing)
    requires DbOk(db, issued, timing) && IsNow(timing, now)
    requires e !in db.events && e in issued && v.phase.Open? && v.resolvedAt.None? && v.firedAt == now
    requires forall f | f in db.events && SamePair(db.events[f], v) :: db.events[f].phase.Closed?
    ensures DbOk(db.(events := db.events[e := v]), issued, timing)
  {
    hide RowOk, RowsOk, TokensOk, ExclusionOk, IndexOk, CreatedOk;
    var db' := db.(events := db.events[e := v]);
    forall a, b | a in db'.events && b in db'.events && a != b && SamePair(db'.events[a], db'.events[b])
      ensures Apart(db'.events[a], db'.events[b], timing)
    {
      if a != e && b != e {
        assert Apart(db.events[a], db.events[b], timing);
      }
    }
    assert forall i | i in db.deliveries :: PhaseOf(db'.events, db.deliveries[i].event) == PhaseOf(db.events, db.deliveries[i].event);
  }

  // ----- new deliveries

  /** Row ids not used so far. */
  ghost predicate Unused(ds: Deliveries, ids: set<Uuid>, issued: set<Uuid>) {
    ids <= issued && ids !! ds.Keys
  }

  ghost predicate Injective(ids: map<Uuid, ChannelId>) {
    forall i, j | i in ids && j in ids && ids[i] == ids[j] :: i == j
  }

  /** Old rows stay and every new one is unleased. */
  ghost predicate Grows(ds: Deliveries, ds': Deliveries) {
    && (forall i | i in ds :: i in ds' && ds'[i] == ds[i])
    && (forall i | i in ds' && i !in ds :: RowOk(ds'[i]) && !ds'[i].status.Processing?)
  }

  lemma GrowthKeepsLeases(ds: Deliveries, ds': Deliveries, timing: Timing)
    requires RowsOk(ds) && TokensOk(ds) && ExclusionOk(ds, timing) && Grows(ds, ds')
    ensures RowsOk(ds') && TokensOk(ds') && ExclusionOk(ds', timing)
  {
  }

  lemma EnqueueKeepsIndex(db: Db, e: Uuid, kind: Kind, suppressed: bool, ids: map<Uuid, ChannelId>, now: Time)
    requires IndexOk(db.deliveries) && ids.Keys !! db.deliveries.Keys && Injective(ids)
    ensures IndexOk(Enqueue(db, e, kind, suppressed, ids, now).deliveries)
  {
    var ds, ds' := db.deliveries, Enqueue(db, e, kind, suppressed, ids, now).deliveries;
    forall i, j | i in ds' && i !in ds && j in ds && SameReport(ds'[i], ds[j]) && !ds'[i].status.Suppressed?
      ensures ds[j].status.Suppressed?
    {
      assert Inserts(db, e, ids[i], kind, suppressed) && !Deliverable(ds, e, ids[i], kind);
    }
  }

  lemma EnqueueFrame(db: Db, e: Uuid, kind: Kind, suppressed: bool, ids: map<Uuid, ChannelId>, now: Time)
    requires ids.Keys !! db.deliveries.Keys && !kind.WebhookTest?
    ensures Grows(db.deliveries, Enqueue(db, e, kind, suppressed, ids, now).deliveries)
    ensures Enqueue(db, e, kind, suppressed, ids, now).events == db.events
    ensures Enqueue(db, e, kind, suppressed, ids, now).channels == db.channels
  {
  }

  lemma EnqueueKeepsRefs(db: Db, e: Uuid, kind: Kind, suppressed: bool, ids: map<Uuid, ChannelId>, issued: set<Uuid>, now: Time)
    requires RefsOk(db, issued) && ids.Keys <= issued && e in db.events
    ensures RefsOk(Enqueue(db, e, kind, suppressed, ids, now), issued)
  {
  }

  ghost predicate NoneResolved(ds: Deliveries, e: Uuid) {
    forall j | j in ds && ds[j].kind.Resolved? :: ds[j].event != Some(e)
  }

  lemma EnqueueKeepsLifecycle(db: Db, e: Uuid, kind: Kind, suppressed: bool, ids: map<Uuid, ChannelId>, now: Time)
    requires LifecycleOk(db) && e in db.events && ids.Keys !! db.deliveries.Keys
    requires !kind.WebhookTest?
    requires kind.Resolved? ==> db.events[e].phase.Closed?
    requires kind.Acknowledged? ==> db.events[e].phase.Acked?
    ensures LifecycleOk(Enqueue(db, e, kind, suppressed, ids, now))
  {
    hide Inserts;
    var ds, ds' := db.deliveries, Enqueue(db, e, kind, suppressed, ids, now).deliveries;
    assert forall i | i in ds' :: if i in ds then ds'[i] == ds[i] else ds'[i].kind == kind && ds'[i].event == Some(e);
  }

  lemma EnqueueKeepsCreated(db: Db, e: Uuid, kind: Kind, suppressed: bool, ids: map<Uuid, ChannelId>, now: Time, timing: Timing)
    requires CreatedOk(db.deliveries, timing) && LifecycleOk(db) && IsNow(timing, now)
    requires e in db.events && ids.Keys !! db.deliveries.Keys
    requires kind.Resolved? ==> NoneResolved(db.deliveries, e)
    requires kind.Firing? ==> !db.events[e].phase.Closed?
    requires kind.Acknowledged? ==> db.events[e].phase.Acked?
    requires !kind.WebhookTest?
    ensures CreatedOk(Enqueue(db, e, kind, suppressed, ids, now).deliveries, timing)
  {
    hide Inserts;
    var ds, ds' := db.deliveries, Enqueue(db, e, kind, suppressed, ids, now).deliveries;
    assert forall i | i in ds' :: if i in ds then ds'[i] == ds[i]
                                  else ds'[i].created == now && ds'[i].kind == kind && ds'[i].event == Some(e);
    forall j | !kind.Resolved? && j in ds && ds[j].kind.Resolved? ensures ds[j].event != Some(e) {
      assert PhaseOf(db.events, ds[j].event) == Some(Closed);
    }
  }

  lemma EnqueueKeepsDb(db: Db, e: Uuid, kind: Kind, suppressed: bool, ids: map<Uuid, ChannelId>, issued: set<Uuid>, now: Time, timing: Timing)
    requires DbOk(db, issued, timing) && IsNow(timing, now)
    requires Unused(db.deliveries, ids.Keys, issued) && Injective(ids)
    requires e in db.events && !kind.WebhookTest?
    requires kind.Resolved? ==> db.events[e].phase.Closed? && NoneResolved(db.deliveries, e)
    requires kind.Acknowledged? ==> db.events[e].phase.Acked?
    requires kind.Firing? ==> !db.events[e].phase.Closed?
    ensures DbOk(Enqueue(db, e, kind, suppressed, ids, now), issued, timing)
  {
    EnqueueFrame(db, e, kind, suppressed, ids, now);
    hide Enqueue, RowsOk, TokensOk, ExclusionOk, IndexOk, RefsOk, LifecycleOk, CreatedOk, EventsOk, Grows, Injective, IsNow;
    EnqueueKeepsIndex(db, e, kind, suppressed, ids, now);
    EnqueueKeepsRefs(db, e, kind, suppressed, ids, issued, now);
    EnqueueKeepsLifecycle(db, e, kind, suppressed, ids, now);
    EnqueueKeepsCreated(db, e, kind, suppressed, ids, now, timing);
    GrowthKeepsLeases(db.deliveries, Enqueue(db, e, kind, suppressed, ids, now).deliveries, timing);
  }

  lemma EnqueueKeepsWorkers(s: State, e: Uuid, kind: Kind, suppressed: bool, ids: map<Uuid, ChannelId>, now: Time)
    requires WorkersOk(s.db.deliveries, s.workers, s.issued)
    requires ids.Keys !! s.db.deliveries.Keys
    ensures WorkersOk(Enqueue(s.db, e, kind, suppressed, ids, now).deliveries, s.workers, s.issued)
  {
    EditKeepsWorkers(s.db.deliveries, Enqueue(s.db, e, kind, suppressed, ids, now).deliveries, s.workers, s.issued);
  }

  // ----- lifecycle transactions

  lemma SilencePendingEdits(ds: Deliveries, e: Uuid)
    requires RowsOk(ds)
    ensures TableEdit(ds, SilencePending(ds, e))
  {
  }

  /** Closing an event and silencing its waiting first reports. */
  lemma ClosingKeepsDb(db: Db, e: Uuid, v: Event, issued: set<Uuid>, timing: Timing)
    requires DbOk(db, issued, timing) && e in db.events && !db.events[e].phase.Closed? && EventEdit(db.events[e], v, timing)
    ensures DbOk(db.(events := db.events[e := v], deliveries := SilencePending(db.deliveries, e)), issued, timing)
    ensures NoneResolved(SilencePending(db.deliveries, e), e)
  {
    assert forall j | j in db.deliveries && db.deliveries[j].kind.Resolved? :: PhaseOf(db.events, db.deliveries[j].event) == Some(Closed);
    SilencePendingEdits(db.deliveries, e);
    hide RowsOk, TokensOk, ExclusionOk, IndexOk, EventsOk, RefsOk, LifecycleOk, CreatedOk, EventEdit, TableEdit;
    EventEditKeepsDb(db, e, v, issued, timing);
    EditKeepsDb(db.(events := db.events[e := v]), db.(events := db.events[e := v], deliveries := SilencePending(db.deliveries, e)), issued, timing);
  }

  lemma ClosedEventOk(v: Event, now: Time, last: Time, timing: Timing)
    requires EventOk(v, timing) && IsNow(timing, now) && !v.phase.Closed?
    ensures EventEdit(v, v.(phase := Closed, resolvedAt := Some(now), lastObserved := last, suppressed := false), timing)
  {
  }

  lemma ResolveEventKeepsInv(s: State, e: Uuid, ids: map<Uuid, ChannelId>, recoveredAt: Option<Time>, now: Time, timing: Timing)
    requires InvUnder(s, timing) && IsNow(timing, now) && Unused(s.db.deliveries, ids.Keys, s.issued) && Injective(ids)
    ensures InvUnder(s.(db := ResolveEvent(s.db, e, ids, now, recoveredAt)), timing)
  {
    var db := s.db;
    if e in db.events && !db.events[e].phase.Closed? {
      var last := if recoveredAt.Some? then recoveredAt.value else db.events[e].lastObserved;
      var event := db.events[e].(phase := Closed, resolvedAt := Some(now), lastObserved := last, suppressed := false);
      assert EventsOk(db.events, timing) && EventOk(db.events[e], timing);
      ClosedEventOk(db.events[e], now, last, timing);
      hide DbOk, WorkersOk, EventsOk, EventEdit, Injective, IsNow, Enqueue, NoneResolved;
      var mid := db.(events := db.events[e := event], deliveries := SilencePending(db.deliveries, e));
      ClosingKeepsDb(db, e, event, s.issued, timing);
      EditKeepsWorkers(db.deliveries, mid.deliveries, s.workers, s.issued);
      EnqueueKeepsDb(mid, e, Resolved, false, ids, s.issued, now, timing);
      EnqueueKeepsWorkers(s.(db := mid), e, Resolved, false, ids, now);
    }
  }

  lemma AcknowledgeKeepsInv(s: State, e: Uuid, ids: map<Uuid, ChannelId>, now: Time, timing: Timing)
    requires InvUnder(s, timing) && IsNow(timing, now) && Unused(s.db.deliveries, ids.Keys, s.issued) && Injective(ids)
    ensures InvUnder(s.(db := AcknowledgeEvent(s.db, e, ids, now)), timing)
  {
    var db := s.db;
    if e in db.events && db.events[e].phase.Open? {
      var v := db.events[e].(phase := Acked);
      var db1 := db.(events := db.events[e := v]);
      EventEditKeepsDb(db, e, v, s.issued, timing);
      EnqueueKeepsDb(db1, e, Acknowledged, false, ids, s.issued, now, timing);
      EnqueueKeepsWorkers(s.(db := db1), e, Acknowledged, false, ids, now);
    }
  }

  /** Evaluation rows and rules are outside the invariant. */
  lemma FrameKeepsInv(s: State, db: Db, timing: Timing)
    requires InvUnder(s, timing)
    requires db.deliveries == s.db.deliveries && db.events == s.db.events && s.db.channels.Keys <= db.channels.Keys
    ensures InvUnder(s.(db := db), timing)
  {
  }

  lemma RepeatKeepsInv(s: State, e: Uuid, o: Observation, suppressed: bool, ids: map<Uuid, ChannelId>, now: Time, timing: Timing)
    requires InvUnder(s, timing) && IsNow(timing, now) && Unused(s.db.deliveries, ids.Keys, s.issued) && Injective(ids)
    requires e in s.db.events && !s.db.events[e].phase.Closed?
    ensures InvUnder(s.(db := Enqueue(s.db.(events := s.db.events[e := RepeatedEvent(s.db.events[e], o, suppressed)]),
                                 e, Firing, suppressed, ids, now)), timing)
  {
    var v := RepeatedEvent(s.db.events[e], o, suppressed);
    var db := s.db.(events := s.db.events[e := v]);
    EventEditKeepsDb(s.db, e, v, s.issued, timing);
    EnqueueKeepsDb(db, e, Firing, suppressed, ids, s.issued, now, timing);
    EnqueueKeepsWorkers(s.(db := db), e, Firing, suppressed, ids, now);
  }

  lemma OpeningKeepsInv(s: State, e: Uuid, v: Event, suppressed: bool, ids: map<Uuid, ChannelId>, now: Time, timing: Timing)
    requires InvUnder(s, timing) && IsNow(timing, now) && Unused(s.db.deliveries, ids.Keys, s.issued) && Injective(ids)
    requires e !in s.db.events && e in s.issued && v.phase.Open? && v.resolvedAt.None? && v.firedAt == now
    requires forall f | f in s.db.events && SamePair(s.db.events[f], v) :: s.db.events[f].phase.Closed?
    ensures InvUnder(s.(db := Enqueue(s.db.(events := s.db.events[e := v]), e, Firing, suppressed, ids, now)), timing)
  {
    var db := s.db.(events := s.db.events[e := v]);
    NewEventKeepsDb(s.db, e, v, s.issued, now, timing);
    EnqueueKeepsDb(db, e, Firing, suppressed, ids, s.issued, now, timing);
    EnqueueKeepsWorkers(s.(db := db), e, Firing, suppressed, ids, now);
  }

  lemma ObserveKeepsInv(s: State, p: Pair, version: nat, eligible: bool, o: Observation, suppressed: bool,
                        eventId: Uuid, ids: map<Uuid, ChannelId>, now: Time, timing: Timing)
    requires InvUnder(s, timing) && IsNow(timing, now) && Unused(s.db.deliveries, ids.Keys, s.issued) && Injective(ids)
    requires eventId !in s.db.events && eventId in s.issued && o.observedAt == now
    ensures InvUnder(s.(db := Observe(s.db, p, version, eligible, o, suppressed, eventId, ids)), timing)
  {
    hide DbOk, WorkersOk, Enqueue, ResolveEvent, RepeatedEvent, Evaluate, Injective, Unused, IsNow;
    var db := s.db;
    if p.0 !in db.rules || !db.rules[p.0].enabled || db.rules[p.0].version != version {
    } else if !eligible {
      FrameKeepsInv(s, db.(evaluations := db.evaluations - {p}), timing);
    } else {
      var rule, active := db.rules[p.0], ActiveEvent(db, p);
      var (ev, verdict) := Evaluate(Upserted(db.evaluations, p, version), active.Some?, rule, o);
      VerdictNeedsState(Upserted(db.evaluations, p, version), active.Some?, rule, o);
      var db1 := db.(evaluations := db.evaluations[p := ev]);
      FrameKeepsInv(s, db1, timing);
      match verdict
      case Stale =>
      case Waiting =>
      case Quiet(recovered) =>
        if recovered && active.Some? {
          ResolveEventKeepsInv(s.(db := db1), active.value, ids, Some(o.observedAt), now, timing);
        }
      case Continue => RepeatKeepsInv(s.(db := db1), active.value, o, suppressed, ids, now, timing);
      case Fire(first, count) =>
        var v := OpenEvent(db1, p, rule, o, suppressed, first, count);
        forall f | f in db.events && SamePair(db.events[f], v) ensures db.events[f].phase.Closed? {
          assert !IsActive(db, f, p);
        }
        OpeningKeepsInv(s.(db := db1), eventId, v, suppressed, ids, now, timing);
    }
  }

  // ----- administration

  lemma FailPendingEdits(ds: Deliveries, c: ChannelId)
    requires RowsOk(ds)
    ensures TableEdit(ds, FailPending(ds, c))
  {
    forall j | j in ds ensures RowEdit(ds[j], FailPending(ds, c)[j]) {
      assert RowOk(ds[j]);
    }
  }

  lemma FailPendingKeepsInv(s: State, c: ChannelId, db: Db, timing: Timing)
    requires InvUnder(s, timing)
    requires db.deliveries == FailPending(s.db.deliveries, c) && db.events == s.db.events && db.channels.Keys == s.db.channels.Keys
    ensures InvUnder(s.(db := db), timing)
  {
    hide WorkersOk, EventsOk, IndexOk, RefsOk, LifecycleOk, CreatedOk, ExclusionOk;
    FailPendingEdits(s.db.deliveries, c);
    EditKeepsDb(s.db, db, s.issued, timing);
    EditKeepsWorkers(s.db.deliveries, db.deliveries, s.workers, s.issued);
  }

  lemma TestChannelKeepsInv(s: State, c: ChannelId, i: Uuid, now: Time, timing: Timing)
    requires InvUnder(s, timing) && IsNow(timing, now) && Unused(s.db.deliveries, {i}, s.issued)
    ensures InvUnder(s.(db := TestChannel(s.db, c, i, now)), timing)
  {
    if ChannelUsable(s.db.channels, c) {
      assert i !in s.db.deliveries && i in s.issued;
      TestRowKeepsDb(s.db, i, c, s.issued, now, timing);
      EditKeepsWorkers(s.db.deliveries, TestChannel(s.db, c, i, now).deliveries, s.workers, s.issued);
    }
  }

  lemma TestRowKeepsDb(db: Db, i: Uuid, c: ChannelId, issued: set<Uuid>, now: Time, timing: Timing)
    requires DbOk(db, issued, timing) && IsNow(timing, now) && i !in db.deliveries && i in issued && c in db.channels
    ensures DbOk(Put(db, i, NewDelivery(None, c, WebhookTest, false, now)), issued, timing)
  {
    var d := NewDelivery(None, c, WebhookTest, false, now);
    assert RowOk(d);
    hide RowOk, EventsOk;
    GrowthKeepsLeases(db.deliveries, db.deliveries[i := d], timing);
    hide RowsOk, TokensOk, ExclusionOk;
    TestRowKeepsRest(db, i, d, issued, now, timing);
  }

  lemma TestRowKeepsRest(db: Db, i: Uuid, d: Delivery, issued: set<Uuid>, now: Time, timing: Timing)
    requires LifecycleOk(db) && CreatedOk(db.deliveries, timing) && IsNow(timing, now) && IndexOk(db.deliveries) && RefsOk(db, issued)
    requires i !in db.deliveries && i in issued && d.channel in db.channels && d.created == now
    requires d.event.None? && d.kind.WebhookTest? && d.token.None?
    ensures LifecycleOk(Put(db, i, d)) && CreatedOk(Put(db, i, d).deliveries, timing)
    ensures IndexOk(Put(db, i, d).deliveries) && RefsOk(Put(db, i, d), issued)
  {
    assert forall j | j in db.deliveries && db.deliveries[j].kind.Resolved? :: PhaseOf(db.events, db.deliveries[j].event).Some?;
  }

  lemma CleanupKeepsRest(db: Db, cutoff: Time, issued: set<Uuid>, timing: Timing)
    requires LifecycleOk(db) && CreatedOk(db.deliveries, timing) && RefsOk(db, issued) && EventsOk(db.events, timing)
    ensures LifecycleOk(Cleanup(db, cutoff)) && CreatedOk(Cleanup(db, cutoff).deliveries, timing)
    ensures RefsOk(Cleanup(db, cutoff), issued) && EventsOk(Cleanup(db, cutoff).events, timing)
  {
    hide EventOk, Apart;
    var db' := Cleanup(db, cutoff);
    assert forall i | i in db'.deliveries :: i in db.deliveries && db'.deliveries[i] == db.deliveries[i];
    assert forall e | e in db'.events :: e in db.events && db'.events[e] == db.events[e];
    forall i | i in db'.deliveries
      ensures PhaseOf(db'.events, db.deliveries[i].event) == PhaseOf(db.events, db.deliveries[i].event)
    {
    }
  }

  lemma CleanupKeepsInv(s: State, cutoff: Time, timing: Timing)
    requires InvUnder(s, timing)
    ensures InvUnder(s.(db := Cleanup(s.db, cutoff)), timing)
  {
    hide RowOk, EventsOk, LifecycleOk, CreatedOk, RefsOk;
    CleanupKeepsRest(s.db, cutoff, s.issued, timing);
    assert forall i | i in Cleanup(s.db, cutoff).deliveries ::
        i in s.db.deliveries && Cleanup(s.db, cutoff).deliveries[i] == s.db.deliveries[i];
    hide Cleanup;
    EditKeepsWorkers(s.db.deliveries, Cleanup(s.db, cutoff).deliveries, s.workers, s.issued);
  }

  lemma ResetEdits(ds: Deliveries, i: Uuid, now: Time)
    requires RowsOk(ds) && i in ds && ds[i].status.Failed?
    ensures TableEdit(ds, ds[i := ResetRow(ds[i], now)])
  {
    assert RowEdit(ds[i], ResetRow(ds[i], now));
  }

  lemma ResetFailedKeepsInv(s: State, i: Uuid, now: Time, timing: Timing)
    requires InvUnder(s, timing) && IsNow(timing, now)
    ensures InvUnder(s.(db := ResetFailed(s.db, i, now)), timing)
  {
    hide AttemptsOk, EventsOk, IndexOk, RefsOk, LifecycleOk, CreatedOk, ExclusionOk, WorkersOk;
    if RetryVerdict(s.db, i).Reset? {
      var db' := ResetFailed(s.db, i, now);
      ResetEdits(s.db.deliveries, i, now);
      EditKeepsDb(s.db, db', s.issued, timing);
      EditKeepsWorkers(s.db.deliveries, db'.deliveries, s.workers, s.issued);
    }
  }

  // ----- worker steps

  lemma ClaimedRowOk(d: Delivery, token: Uuid, now: Time)
    requires RowOk(d) && InFlight(d)
    ensures RowOk(ClaimedRow(d, token, now))
  {
  }

  lemma ClaimKeepsLeases(ds: Deliveries, i: Uuid, token: Uuid, now: Time, timing: Timing)
    requires RowsOk(ds) && TokensOk(ds) && ExclusionOk(ds, timing) && IsNow(timing, now)
    requires i in ds && InFlight(ds[i]) && ChannelFree(ds, i, now)
    requires forall j | j in ds :: ds[j].token != Some(token)
    ensures RowsOk(ds[i := ClaimedRow(ds[i], token, now)]) && TokensOk(ds[i := ClaimedRow(ds[i], token, now)])
    ensures ExclusionOk(ds[i := ClaimedRow(ds[i], token, now)], timing)
  {
    ClaimedRowOk(ds[i], token, now);
    hide RowOk;
  }

  lemma ClaimKeepsRefs(db: Db, i: Uuid, token: Uuid, issued: set<Uuid>, now: Time)
    requires RefsOk(db, issued) && i in db.deliveries && token in issued
    ensures RefsOk(Claim(db, i, token, now), issued)
  {
  }

  lemma ClaimKeepsDb(db: Db, i: Uuid, token: Uuid, issued: set<Uuid>, now: Time, timing: Timing)
    requires DbOk(db, issued, timing) && IsNow(timing, now) && token in issued && IsCandidate(db, i, now)
    requires forall j | j in db.deliveries :: db.deliveries[j].token != Some(token)
    ensures DbOk(Claim(db, i, token, now), issued, timing)
  {
    hide RowsOk, TokensOk, ExclusionOk, RefsOk, LifecycleOk, CreatedOk, EventsOk, ChannelFree, FirstInLine, ChannelCool;
    ClaimKeepsLeases(db.deliveries, i, token, now, timing);
    ClaimKeepsRefs(db, i, token, issued, now);
    IdentityKeepsLifecycle(db, Claim(db, i, token, now), timing);
  }

  lemma ClaimKeepsWorkers(s: State, w: WorkerId, i: Uuid, token: Uuid, now: Time)
    requires WorkersOk(s.db.deliveries, s.workers, s.issued) && token in s.issued && i in s.db.deliveries
    requires forall j | j in s.db.deliveries :: s.db.deliveries[j].token != Some(token)
    requires forall v | v in s.workers && !s.workers[v].Idle? :: s.workers[v].row.token != Some(token)
    ensures WorkersOk(Claim(s.db, i, token, now).deliveries,
                      s.workers[w := Claimed(i, ClaimedRow(s.db.deliveries[i], token, now))], s.issued)
  {
  }

  lemma ClaimKeepsInv(s: State, w: WorkerId, i: Uuid, token: Uuid, now: Time, timing: Timing)
    requires InvUnder(s, timing) && IsNow(timing, now) && token in s.issued
    requires forall j | j in s.db.deliveries :: s.db.deliveries[j].token != Some(token)
    requires forall v | v in s.workers && !s.workers[v].Idle? :: s.workers[v].row.token != Some(token)
    ensures InvUnder(StepClaim(s, w, i, token, now), timing)
  {
    if Pc(s, w).Idle? && IsCandidate(s.db, i, now) {
      ClaimKeepsDb(s.db, i, token, s.issued, now, timing);
      ClaimKeepsWorkers(s, w, i, token, now);
    }
  }

  lemma WorkerGoesIdle(s: State, w: WorkerId, db: Db, timing: Timing)
    requires InvUnder(s.(db := db), timing)
    ensures InvUnder(Move(s.(db := db), w, Idle), timing)
  {
  }

  lemma RecheckKeepsInv(s: State, w: WorkerId, answer: Recheck, timing: Timing)
    requires InvUnder(s, timing)
    ensures InvUnder(StepRecheck(s, w, answer), timing)
  {
    hide DbOk, SuppressNow;
  }

  /** A table edit that takes the lease off row i and leaves all other leased rows alone. */
  ghost predicate LeaseEnds(ds: Deliveries, ds': Deliveries, i: Uuid) {
    && TableEdit(ds, ds')
    && i in ds
    && ds'[i].token.None?
    && forall j | j in ds && j != i && ds'[j].token.Some? :: ds'[j] == ds[j]
  }

  /** An edit of the row whose token worker w holds disturbs no other worker. */
  lemma HolderEditKeepsInv(s: State, w: WorkerId, db: Db, timing: Timing)
    requires InvUnder(s, timing) && w in s.workers && !s.workers[w].Idle?
    requires Holds(s.db, s.workers[w].id, s.workers[w].row)
    requires db.events == s.db.events && db.channels.Keys == s.db.channels.Keys
    requires LeaseEnds(s.db.deliveries, db.deliveries, s.workers[w].id)
    ensures InvUnder(Move(s.(db := db), w, Idle), timing)
  {
    EditKeepsDb(s.db, db, s.issued, timing);
    EditKeepsWorkers(s.db.deliveries, db.deliveries, s.workers, s.issued);
    WorkerGoesIdle(s, w, db, timing);
  }

  lemma SettledEdits(ds: Deliveries, i: Uuid)
    requires RowsOk(ds) && i in ds && ds[i].status.Processing?
    ensures LeaseEnds(ds, ds[i := Settled(ds[i], Suppressed)], i)
  {
    assert RowEdit(ds[i], Settled(ds[i], Suppressed));
  }

  /** The holder of a live token has the row itself in hand. */
  lemma HeldCopy(s: State, w: WorkerId, timing: Timing)
    requires InvUnder(s, timing) && !Pc(s, w).Idle? && Holds(s.db, Pc(s, w).id, Pc(s, w).row)
    ensures w in s.workers && RowsOk(s.db.deliveries)
    ensures s.db.deliveries[Pc(s, w).id] == Pc(s, w).row
    ensures Pc(s, w).Sending? ==> UnrecordedOk(Pc(s, w).row)
  {
  }

  lemma SuppressKeepsInv(s: State, w: WorkerId, timing: Timing)
    requires InvUnder(s, timing)
    ensures InvUnder(StepSuppress(s, w), timing)
  {
    hide DbOk, WorkersOk, LeaseEnds, RowsOk, RowOk;
    var pc := Pc(s, w);
    if pc.Silencing? {
      if Holds(s.db, pc.id, pc.row) {
        HeldCopy(s, w, timing);
        SettledEdits(s.db.deliveries, pc.id);
        var db1 := Put(s.db, pc.id, Settled(s.db.deliveries[pc.id], Suppressed));
        HolderEditKeepsInv(s, w, db1, timing);
        FlagKeepsInv(Move(s.(db := db1), w, Idle), pc.row.event, true, timing);
      } else {
        WorkerGoesIdle(s, w, s.db, timing);
      }
    }
  }

  lemma FlagKeepsInv(s: State, e: Option<Uuid>, flag: bool, timing: Timing)
    requires InvUnder(s, timing)
    ensures InvUnder(s.(db := s.db.(events := FlagSuppressed(s.db.events, e, flag))), timing)
  {
    if e.Some? && e.value in s.db.events && !s.db.events[e.value].phase.Closed? {
      EventEditKeepsDb(s.db, e.value, s.db.events[e.value].(suppressed := flag), s.issued, timing);
    }
  }

  lemma ReleaseEdits(db: Db, i: Uuid, at: Time)
    requires RowsOk(db.deliveries) && i in db.deliveries && Holds(db, i, db.deliveries[i])
    ensures LeaseEnds(db.deliveries, Release(db, i, db.deliveries[i], at).deliveries, i)
  {
    var d := db.deliveries[i];
    assert RowEdit(d, Requeued(d, at));
  }

  lemma ReleaseKeepsInv(s: State, w: WorkerId, now: Time, timing: Timing)
    requires InvUnder(s, timing) && IsNow(timing, now)
    ensures InvUnder(StepRelease(s, w, now), timing)
  {
    hide DbOk, WorkersOk, LeaseEnds, RowsOk;
    var pc := Pc(s, w);
    if pc.Yielding? {
      if Holds(s.db, pc.id, pc.row) {
        HeldCopy(s, w, timing);
        ReleaseEdits(s.db, pc.id, now + 1);
        HolderEditKeepsInv(s, w, Release(s.db, pc.id, pc.row, now + 1), timing);
      } else {
        WorkerGoesIdle(s, w, s.db, timing);
      }
    }
  }

  lemma StartedRowOk(d: Delivery)
    requires RowOk(d) && InFlight(d)
    ensures RowOk(StartedRow(d)) && UnrecordedOk(StartedRow(d))
  {
  }

  lemma StartKeepsWorkers(s: State, w: WorkerId, d: Delivery)
    requires WorkersOk(s.db.deliveries, s.workers, s.issued) && TokensOk(s.db.deliveries)
    requires w in s.workers && s.workers[w].Cleared? && Holds(s.db, s.workers[w].id, s.workers[w].row)
    requires d.token == s.workers[w].row.token && UnrecordedOk(d)
    ensures WorkersOk(s.db.deliveries[s.workers[w].id := d], s.workers[w := Sending(s.workers[w].id, d)], s.issued)
  {
    hide UnrecordedOk;
  }

  lemma StartKeepsInv(s: State, w: WorkerId, now: Time, timing: Timing)
    requires InvUnder(s, timing) && IsNow(timing, now)
    ensures InvUnder(StepStart(s, w, now), timing)
  {
    hide RowOk, EventsOk, IndexOk, RefsOk, LifecycleOk, CreatedOk, ExclusionOk, TokensOk, WorkersOk, UnrecordedOk;
    var pc := Pc(s, w);
    if pc.Cleared? {
      if MayStart(s.db, pc.id, pc.row, now) {
        var d := s.db.deliveries[pc.id];
        StartedRowOk(d);
        var db := Put(s.db, pc.id, StartedRow(d));
        EditKeepsDb(s.db, db, s.issued, timing);
        StartKeepsWorkers(s, w, StartedRow(d));
      } else {
        WorkerGoesIdle(s, w, s.db, timing);
      }
    }
  }

  lemma FinishedRowEdits(db: Db, d: Delivery, outcome: Outcome, now: Time)
    requires RowOk(d) && d.status.Processing? && UnrecordedOk(d)
    ensures RowEdit(d, FinishedRow(db, d, d, outcome, now)) && FinishedRow(db, d, d, outcome, now).token.None?
  {
    var row := FinishedRow(db, d, d, outcome, now);
    assert row.recorded == d.recorded + [d.attempts];
    assert Increasing(row.recorded);
  }

  /** A table edit that keeps leased rows as they are. */
  ghost predicate UnleasedEdit(ds: Deliveries, ds': Deliveries) {
    TableEdit(ds, ds') && forall j | j in ds && ds[j].token.Some? :: ds'[j] == ds[j]
  }

  lemma NoEdit(ds: Deliveries)
    requires RowsOk(ds)
    ensures UnleasedEdit(ds, ds)
  {
  }

  lemma PushedBackEdits(ds: Deliveries, c: ChannelId, at: Time)
    requires RowsOk(ds)
    ensures UnleasedEdit(ds, PushedBack(ds, c, at))
  {
    forall j | j in ds ensures RowEdit(ds[j], PushedBack(ds, c, at)[j]) {
      assert RowOk(ds[j]);
    }
  }

  lemma PutAfterEdit(ds: Deliveries, ds': Deliveries, i: Uuid, d: Delivery)
    requires UnleasedEdit(ds, ds') && i in ds && RowEdit(ds[i], d) && d.token.None?
    ensures LeaseEnds(ds, ds'[i := d], i)
  {
    forall j | j in ds && ds'[j].token.Some? ensures ds[j].token.Some? {
      assert RowEdit(ds[j], ds'[j]);
    }
    hide RowEdit;
  }

  lemma FinishEdits(db: Db, i: Uuid, outcome: Outcome, now: Time)
    requires RowsOk(db.deliveries) && i in db.deliveries && Holds(db, i, db.deliveries[i]) && UnrecordedOk(db.deliveries[i])
    ensures LeaseEnds(db.deliveries, Finish(db, i, db.deliveries[i], outcome, now).deliveries, i)
  {
    hide RowOk, UnrecordedOk, RowEdit, FinishedRow, PushedBack, UnleasedEdit, LeaseEnds;
    var d := db.deliveries[i];
    FinishedRowEdits(db, d, outcome, now);
    var delay := CooldownAfter(db, d, outcome);
    if delay.Some? {
      PushedBackEdits(db.deliveries, d.channel, now + delay.value);
      PutAfterEdit(db.deliveries, PushedBack(db.deliveries, d.channel, now + delay.value), i, FinishedRow(db, d, d, outcome, now));
    } else {
      NoEdit(db.deliveries);
      PutAfterEdit(db.deliveries, db.deliveries, i, FinishedRow(db, d, d, outcome, now));
    }
  }

  lemma FinishKeepsInv(s: State, w: WorkerId, outcome: Outcome, now: Time, timing: Timing)
    requires InvUnder(s, timing) && IsNow(timing, now)
    ensures InvUnder(StepFinish(s, w, outcome, now), timing)
  {
    hide DbOk, WorkersOk, LeaseEnds, RowsOk, RowOk, FinishedRow;
    var pc := Pc(s, w);
    if pc.Sending? {
      if Holds(s.db, pc.id, pc.row) {
        HeldCopy(s, w, timing);
        FinishEdits(s.db, pc.id, outcome, now);
        var db := Finish(s.db, pc.id, pc.row, outcome, now);
        HolderEditKeepsInv(s, w, db, timing);
      } else {
        WorkerGoesIdle(s, w, s.db, timing);
      }
    }
  }

  // ----- every step

  lemma InitialInv(start: Time)
    ensures Inv(Initial(start)) && Core(Initial(start))
  {
  }

  lemma FreshTokens(s: State, a: Action)
    requires Core(s) && FreshIds(s, a)
    ensures Unused(s.db.deliveries, Drawn(a), Advance(s, a).issued) && Drawn(a) !! s.db.events.Keys
    ensures forall t, j | t in Drawn(a) && j in s.db.deliveries :: s.db.deliveries[j].token != Some(t)
    ensures forall t, v | t in Drawn(a) && v in s.workers && !s.workers[v].Idle? :: s.workers[v].row.token != Some(t)
  {
  }

  predicate IsEventStep(a: Action) {
    a.ObserveRule? || a.Acknowledge? || a.Resolve? || a.RefreshSuppression? || a.ForgetEvaluation? || a.ChangeRules?
  }

  predicate IsWorkerStep(a: Action) {
    || a.TakeClaim? || a.RecheckSuppression? || a.SuppressClaim? || a.ReleaseClaim? || a.StartAttempt?
    || a.FinishAttempt? || a.Crash?
  }

  lemma EventStepKeepsInv(s0: State, a: Action, timing: Timing)
    requires InvUnder(Advance(s0, a), timing) && IsNow(timing, TimeOf(a))
    requires Core(s0) && FreshIds(s0, a) && IsEventStep(a)
    ensures InvUnder(Apply(s0, a), timing)
  {
    FreshTokens(s0, a);
    hide DbOk, WorkersOk;
    var s := Advance(s0, a);
    match a
    case ObserveRule(p, version, eligible, o, suppressed, eventId, ids) =>
      assert eventId in Drawn(a) && eventId !in s.db.events;
      ObserveKeepsInv(s, p, version, eligible, o, suppressed, eventId, ids, o.observedAt, timing);
    case Acknowledge(e, ids, now) => AcknowledgeKeepsInv(s, e, ids, now, timing);
    case Resolve(e, ids, now) =>
      ResolveEventKeepsInv(s, e, ids, None, now, timing);
      FrameKeepsInv(s.(db := ResolveEvent(s.db, e, ids, now, None)), Apply(s0, a).db, timing);
    case RefreshSuppression(e, flag, now) => FlagKeepsInv(s, Some(e), flag, timing);
    case ForgetEvaluation(p, now) => FrameKeepsInv(s, Apply(s0, a).db, timing);
    case ChangeRules(rules, now) => FrameKeepsInv(s, Apply(s0, a).db, timing);
  }

  lemma WorkerStepKeepsInv(s0: State, a: Action, timing: Timing)
    requires InvUnder(Advance(s0, a), timing) && IsNow(timing, TimeOf(a))
    requires Core(s0) && FreshIds(s0, a) && IsWorkerStep(a)
    ensures InvUnder(Apply(s0, a), timing)
  {
    FreshTokens(s0, a);
    hide DbOk, WorkersOk;
    var s := Advance(s0, a);
    match a
    case TakeClaim(w, i, token, now) =>
      assert token in Drawn(a);
      ClaimKeepsInv(s, w, i, token, now, timing);
    case RecheckSuppression(w, answer, now) => RecheckKeepsInv(s, w, answer, timing);
    case SuppressClaim(w, now) => SuppressKeepsInv(s, w, timing);
    case ReleaseClaim(w, now) => ReleaseKeepsInv(s, w, now, timing);
    case StartAttempt(w, now) => StartKeepsInv(s, w, now, timing);
    case FinishAttempt(w, outcome, now) => FinishKeepsInv(s, w, outcome, now, timing);
    case Crash(w, now) => WorkerGoesIdle(s, w, s.db, timing);
  }

  lemma AdminStepKeepsInv(s0: State, a: Action, timing: Timing)
    requires InvUnder(Advance(s0, a), timing) && IsNow(timing, TimeOf(a))
    requires Core(s0) && FreshIds(s0, a) && !IsEventStep(a) && !IsWorkerStep(a)
    ensures InvUnder(Apply(s0, a), timing)
  {
    FreshTokens(s0, a);
    hide DbOk, WorkersOk;
    var s := Advance(s0, a);
    match a
    case CreateChannel(c, enabled, email, now) => FrameKeepsInv(s, Apply(s0, a).db, timing);
    case SetChannel(c, enabled, now) =>
      if c in s.db.channels && !s.db.channels[c].deleted {
        if enabled { FrameKeepsInv(s, Apply(s0, a).db, timing); } else { FailPendingKeepsInv(s, c, Apply(s0, a).db, timing); }
      }
    case RemoveChannel(c, now) =>
      if c in s.db.channels && !s.db.channels[c].deleted { FailPendingKeepsInv(s, c, Apply(s0, a).db, timing); }
    case SendTest(c, i, now) => TestChannelKeepsInv(s, c, i, now, timing);
    case RetryFailed(i, now) => ResetFailedKeepsInv(s, i, now, timing);
    case Retain(cutoff, now) => CleanupKeepsInv(s, cutoff, timing);
  }

  lemma StepKeepsInv(s: State, a: Action, before: Timing, after: Timing)
    requires Core(s) && InvUnder(s, before) && FreshIds(s, a)
    requires Moves(before, TimeOf(a), after)
    ensures InvUnder(Apply(s, a), after)
  {
    hide InvUnder, Apply;
    AdvanceKeepsInv(s, a, before, after);
    if IsEventStep(a) {
      EventStepKeepsInv(s, a, after);
    } else if IsWorkerStep(a) {
      WorkerStepKeepsInv(s, a, after);
    } else {
      AdminStepKeepsInv(s, a, after);
    }
  }

  /** The invariant is inductive; its part that does not speak of time is so even when clocks go back. */
  lemma ApplyKeepsCore(s: State, a: Action)
    requires Core(s) && FreshIds(s, a)
    ensures Core(Apply(s, a))
  {
    hide InvUnder, Apply;
    StepKeepsInv(s, a, Unordered, Unordered);
  }

  lemma ApplyKeepsInv(s: State, a: Action)
    requires Inv(s) && Legal(s, a)
    ensures Inv(Apply(s, a))
  {
    InvIsCore(s);
    StepKeepsInv(s, a, Ordered(s.clock), Ordered(TimeOf(a)));
    hide InvUnder;
    ClockAdvances(s, a);
  }

  lemma ClockAdvances(s: State, a: Action)
    requires InTime(s, a)
    ensures Apply(s, a).clock == TimeOf(a)
  {
  }

  lemma {:induction false} RunKeepsCore(s: State, acts: seq<Action>)
    requires Core(s) && FreshRun(s, acts)
    ensures Core(Run(s, acts))
    decreases |acts|
  {
    if acts == [] {
    } else {
      ApplyKeepsCore(s, acts[0]);
      RunKeepsCore(Apply(s, acts[0]), acts[1..]);
    }
  }

  lemma {:induction false} RunKeepsInv(s: State, acts: seq<Action>)
    requires Inv(s) && LegalRun(s, acts)
    ensures Inv(Run(s, acts))
    decreases |acts|
  {
    if acts == [] {
    } else {
      ApplyKeepsInv(s, acts[0]);
      RunKeepsInv(Apply(s, acts[0]), acts[1..]);
    }
  }

  lemma {:induction false} LegalIsFresh(s: State, acts: seq<Action>)
    requires LegalRun(s, acts)
    ensures FreshRun(s, acts)
    decreases |acts|
  {
    if acts == [] {
    } else {
      LegalIsFresh(Apply(s, acts[0]), acts[1..]);
    }
  }
}
