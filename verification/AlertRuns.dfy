/** The evaluation of one rule on one instance within whole runs of the protocol: every event row in
    the tables is an event of the automaton of AlertTrace, whatever else happens in between. */
module AlertRuns {
  import opened Wrappers
  import opened AlertTables
  import opened AlertEvaluation
  import opened AlertTransactions
  import opened AlertProtocol
  import opened AlertInvariants
  import opened AlertTrace

  // ----- what a run feeds into the automaton

  /** An observation judged under the rule as it stood, with the id a new event would get; the deletion
      of the evaluation row; or that deletion together with the resolution of the active event. */
  datatype Input = Sample(rule: Rule, o: Observation, id: Uuid) | Forget | Outright(now: Time)

  predicate IsOf(v: Event, p: Pair) {
    (v.rule, v.instance) == p
  }

  /** What action a means for p. */
  function InputOf(db: Db, a: Action, p: Pair): Option<Input> {
    match a
    case ObserveRule(q, version, eligible, o, _, eventId, _) =>
      if q != p || p.0 !in db.rules || !db.rules[p.0].enabled || db.rules[p.0].version != version then None
      else if eligible then Some(Sample(db.rules[p.0], o, eventId))
      else Some(Forget)
    case ForgetEvaluation(q, _) => if q == p then Some(Forget) else None
    case Resolve(e, _, now) =>
      if e !in db.events || !IsOf(db.events[e], p) then None
      else if db.events[e].phase.Closed? then Some(Forget)
      else Some(Outright(now))
    case _ => None
  }

  /** The evaluation row, if there is one, and the events so far with their ids, oldest first. */
  datatype Watch = Watch(row: Option<Evaluation>, history: seq<Episode>, ids: seq<Uuid>)

  function RowUnder(row: Option<Evaluation>, version: nat): Evaluation {
    if row.Some? && row.value.version == version then row.value else FreshEvaluation(version)
  }

  function MonitorOf(w: Watch, version: nat): Monitor {
    Monitor(RowUnder(w.row, version), w.history)
  }

  function Fed(w: Watch, i: Input): Watch {
    match i
    case Sample(rule, o, id) =>
      var m := AlertTrace.Advance(MonitorOf(w, rule.version), rule, o);
      Watch(Some(m.ev), m.history, if |m.history| > |w.history| then w.ids + [id] else w.ids)
    case Forget => w.(row := None)
    case Outright(now) => w.(row := None, history := Ended(w.history, now))
  }

  function Stepped(w: Watch, i: Option<Input>): Watch {
    if i.Some? then Fed(w, i.value) else w
  }

  /** The automaton along a run. */
  ghost function WatchAlong(w: Watch, s: State, acts: seq<Action>, p: Pair): Watch
    decreases |acts|
  {
    if acts == [] then w
    else WatchAlong(Stepped(w, InputOf(s.db, acts[0], p)), Apply(s, acts[0]), acts[1..], p)
  }

  // ----- the tables mirror the automaton

  predicate EventMirrors(v: Event, h: Episode, p: Pair) {
    && IsOf(v, p)
    && v.firstObserved == h.firstObserved && v.firedAt == h.firedAt
    && v.matchCount == h.count && v.resolvedAt == h.resolvedAt
  }

  /** The events the automaton knows: all but the latest are over, each row of p in the table is one
      of them, and only events that are over may have been deleted. */
  ghost predicate EventsMirror(events: map<Uuid, Event>, issued: set<Uuid>, p: Pair, w: Watch) {
    && |w.ids| == |w.history|
    && (forall i, j | 0 <= i < j < |w.ids| :: w.ids[i] != w.ids[j])
    && (forall i | 0 <= i < |w.ids| :: w.ids[i] in issued)
    && (forall i | 0 <= i < |w.ids| - 1 :: w.history[i].resolvedAt.Some?)
    && (forall e | e in events && IsOf(events[e], p) :: e in w.ids)
    && (forall i | 0 <= i < |w.ids| && w.ids[i] in events :: EventMirrors(events[w.ids[i]], w.history[i], p))
    && (forall i | 0 <= i < |w.ids| && w.ids[i] !in events :: w.history[i].resolvedAt.Some?)
  }

  ghost predicate RowMirrors(db: Db, p: Pair, w: Watch) {
    w.row == if p in db.evaluations then Some(db.evaluations[p]) else None
  }

  ghost predicate Mirrors(s: State, p: Pair, w: Watch) {
    RowMirrors(s.db, p, w) && EventsMirror(s.db.events, s.issued, p, w)
  }

  predicate Running(w: Watch) {
    w.history != [] && w.history[|w.history| - 1].resolvedAt.None?
  }

  /** The active event is the automaton's latest. */
  lemma ActiveIsLatest(s: State, p: Pair, w: Watch)
    requires Core(s) && Mirrors(s, p, w)
    ensures ActiveEvent(s.db, p) == if Running(w) then Some(w.ids[|w.ids| - 1]) else None
    ensures forall e :: IsActive(s.db, e, p) <==> Running(w) && e == w.ids[|w.ids| - 1]
  {
    hide RowsOk, TokensOk, IndexOk, RefsOk, LifecycleOk, WorkersOk, Apart;
    var events := s.db.events;
    forall e ensures IsActive(s.db, e, p) <==> Running(w) && e == w.ids[|w.ids| - 1] {
      if e in events {
        assert EventOk(events[e], Unordered);
        if IsOf(events[e], p) {
          var i :| 0 <= i < |w.ids| && w.ids[i] == e;
          assert EventMirrors(events[e], w.history[i], p);
        }
      }
    }
    if Running(w) {
      assert IsActive(s.db, w.ids[|w.ids| - 1], p);
    }
  }

  // ----- steps that leave p alone

  predicate SameColumns(v: Event, v': Event) {
    && v'.rule == v.rule && v'.instance == v.instance && v'.firstObserved == v.firstObserved
    && v'.firedAt == v.firedAt && v'.matchCount == v.matchCount && v'.resolvedAt == v.resolvedAt
  }

  /** No event of p appears, changes in the columns that matter, or is deleted unless it is over. */
  ghost predicate SameEvents(events: map<Uuid, Event>, events': map<Uuid, Event>, p: Pair) {
    && (forall e | e in events' && IsOf(events'[e], p) :: e in events && SameColumns(events[e], events'[e]))
    && (forall e | e in events && IsOf(events[e], p) && e !in events' :: events[e].resolvedAt.Some?)
    && (forall e | e in events && IsOf(events[e], p) && e in events' :: IsOf(events'[e], p))
  }

  /** An id known to the automaton is never given to an event of another pair. */
  ghost predicate OldIdsStay(events: map<Uuid, Event>, events': map<Uuid, Event>, issued: set<Uuid>) {
    forall e | e in events' && e !in events :: e !in issued
  }

  lemma SameEventsMirror(events: map<Uuid, Event>, events': map<Uuid, Event>, issued: set<Uuid>, issued': set<Uuid>, p: Pair, w: Watch)
    requires EventsMirror(events, issued, p, w) && SameEvents(events, events', p) && OldIdsStay(events, events', issued)
    requires issued <= issued'
    ensures EventsMirror(events', issued', p, w)
  {
    forall i | 0 <= i < |w.ids| && w.ids[i] in events' ensures EventMirrors(events'[w.ids[i]], w.history[i], p) {
      assert w.ids[i] in events;
      assert EventMirrors(events[w.ids[i]], w.history[i], p);
    }
    forall i | 0 <= i < |w.ids| && w.ids[i] !in events' ensures w.history[i].resolvedAt.Some? {
      if w.ids[i] in events {
        assert EventMirrors(events[w.ids[i]], w.history[i], p);
      }
    }
  }

  // ----- observations

  function EndedEvent(v: Event, at: Time): Event {
    v.(phase := Phase.Closed, resolvedAt := Some(at), lastObserved := at, suppressed := false)
  }

  /** The events after one judged observation. */
  function JudgedEvents(db: Db, p: Pair, rule: Rule, verdict: Verdict, active: Option<Uuid>, o: Observation, suppressed: bool,
                        eventId: Uuid): map<Uuid, Event>
    requires active.Some? ==> active.value in db.events
  {
    match verdict
    case Stale => db.events
    case Waiting => db.events
    case Quiet(recovered) =>
      if recovered && active.Some? && !db.events[active.value].phase.Closed?
      then db.events[active.value := EndedEvent(db.events[active.value], o.observedAt)] else db.events
    case Continue =>
      if active.Some? then db.events[active.value := RepeatedEvent(db.events[active.value], o, suppressed)] else db.events
    case Fire(first, count) => db.events[eventId := OpenEvent(db, p, rule, o, suppressed, first, count)]
  }

  lemma JudgeMeans(db: Db, p: Pair, rule: Rule, ev0: Evaluation, active: Option<Uuid>, o: Observation, suppressed: bool,
                   eventId: Uuid, ids: map<Uuid, ChannelId>)
    requires active.Some? ==> active.value in db.events
    ensures var (ev, verdict) := Evaluate(ev0, active.Some?, rule, o);
            var db' := Judge(db, p, rule, ev0, active, o, suppressed, eventId, ids);
            && db'.evaluations == db.evaluations[p := ev] && db'.channels == db.channels
            && db'.events == JudgedEvents(db, p, rule, verdict, active, o, suppressed, eventId)
  {
    VerdictNeedsState(ev0, active.Some?, rule, o);
    hide Evaluate, Enqueue, ResolveEvent, RepeatedEvent, OpenEvent;
    var (ev, verdict) := Evaluate(ev0, active.Some?, rule, o);
    var db1 := db.(evaluations := db.evaluations[p := ev]);
    match verdict
    case Stale =>
    case Waiting =>
    case Quiet(recovered) =>
      if recovered && active.Some? {
        ResolveMeans(db1, active.value, ids, o.observedAt, Some(o.observedAt));
      }
    case Continue =>
      EnqueueMeans(db1.(events := db1.events[active.value := RepeatedEvent(db1.events[active.value], o, suppressed)]),
                   active.value, Firing, suppressed, ids, o.observedAt);
    case Fire(first, count) =>
      OpenEventMeans(db, db1, p, rule, o, suppressed, first, count);
      EnqueueMeans(db1.(events := db1.events[eventId := OpenEvent(db1, p, rule, o, suppressed, first, count)]),
                   eventId, Firing, suppressed, ids, o.observedAt);
  }

  lemma OpenEventMeans(db: Db, db': Db, p: Pair, rule: Rule, o: Observation, suppressed: bool, first: Time, count: nat)
    requires db'.channels == db.channels
    ensures OpenEvent(db', p, rule, o, suppressed, first, count) == OpenEvent(db, p, rule, o, suppressed, first, count)
  {
  }

  lemma EnqueueMeans(db: Db, e: Uuid, kind: Kind, suppressed: bool, ids: map<Uuid, ChannelId>, now: Time)
    ensures var db' := Enqueue(db, e, kind, suppressed, ids, now); db'.events == db.events && db'.evaluations == db.evaluations && db'.channels == db.channels
  {
    hide NewRows;
  }

  lemma ResolveMeans(db: Db, e: Uuid, ids: map<Uuid, ChannelId>, now: Time, recoveredAt: Option<Time>)
    requires e in db.events
    ensures var v, db' := db.events[e], ResolveEvent(db, e, ids, now, recoveredAt);
            && db'.evaluations == db.evaluations && db'.channels == db.channels
            && db'.events == if v.phase.Closed? then db.events
                             else db.events[e := EndedEvent(v, now).(lastObserved := if recoveredAt.Some? then recoveredAt.value else v.lastObserved)]
  {
    hide NewRows, SilencePending;
  }

  /** The latest event changes, in the table as in the automaton. */
  lemma LatestChanges(events: map<Uuid, Event>, issued: set<Uuid>, p: Pair, w: Watch, v: Event, h: Episode)
    requires EventsMirror(events, issued, p, w) && Running(w) && EventMirrors(v, h, p)
    ensures var n := |w.ids| - 1; EventsMirror(events[w.ids[n] := v], issued, p, w.(history := w.history[n := h]))
  {
  }

  lemma LatestRow(events: map<Uuid, Event>, issued: set<Uuid>, p: Pair, w: Watch)
    requires EventsMirror(events, issued, p, w)
    ensures |w.ids| == |w.history|
    ensures var n := |w.ids| - 1; Running(w) ==> w.ids[n] in events && EventMirrors(events[w.ids[n]], w.history[n], p)
  {
  }

  /** A new event appears. */
  lemma EventAppears(events: map<Uuid, Event>, issued: set<Uuid>, p: Pair, w: Watch, id: Uuid, v: Event, h: Episode)
    requires EventsMirror(events, issued, p, w) && !Running(w) && EventMirrors(v, h, p)
    requires id in issued && id !in w.ids
    ensures EventsMirror(events[id := v], issued, p, w.(history := w.history + [h], ids := w.ids + [id]))
  {
    var w' := w.(history := w.history + [h], ids := w.ids + [id]);
    assert forall i | 0 <= i < |w.ids| :: w'.ids[i] == w.ids[i] && w'.history[i] == w.history[i];
    assert w'.ids[|w.ids|] == id;
  }

  /** What one judged observation makes of the automaton's events. */
  function HistoryAfter(h: seq<Episode>, verdict: Verdict, active: bool, o: Observation): seq<Episode> {
    match verdict
    case Stale => h
    case Waiting => h
    case Quiet(recovered) => if recovered && active then Ended(h, o.observedAt) else h
    case Continue => Matched(h)
    case Fire(first, count) => h + [Episode(first, o.observedAt, count, None)]
  }

  lemma FedMeans(w: Watch, rule: Rule, o: Observation, id: Uuid)
    ensures var (ev, verdict) := Evaluate(RowUnder(w.row, rule.version), Running(w), rule, o);
            Fed(w, Sample(rule, o, id)) == Watch(Some(ev), HistoryAfter(w.history, verdict, Running(w), o),
                                                 if verdict.Fire? then w.ids + [id] else w.ids)
  {
    hide Evaluate, RowUnder;
    var m := AlertTrace.Advance(MonitorOf(w, rule.version), rule, o);
    var (ev, verdict) := Evaluate(RowUnder(w.row, rule.version), Running(w), rule, o);
    assert Active(MonitorOf(w, rule.version)) == Running(w);
    assert m.ev == ev;
    assert m.history == HistoryAfter(w.history, verdict, Running(w), o);
    assert |m.history| > |w.history| <==> verdict.Fire?;
  }

  lemma VerdictMirrors(db: Db, issued: set<Uuid>, p: Pair, w: Watch, rule: Rule, o: Observation, suppressed: bool,
                       eventId: Uuid, active: Option<Uuid>, verdict: Verdict, row: Option<Evaluation>)
    requires EventsMirror(db.events, issued, p, w) && eventId in issued && eventId !in w.ids
    requires active == if Running(w) then Some(w.ids[|w.ids| - 1]) else None
    requires active.Some? ==> IsActive(db, active.value, p)
    requires (verdict.Continue? ==> active.Some?) && (verdict.Fire? ==> active.None?)
    ensures EventsMirror(JudgedEvents(db, p, rule, verdict, active, o, suppressed, eventId), issued, p,
                         Watch(row, HistoryAfter(w.history, verdict, Running(w), o), if verdict.Fire? then w.ids + [eventId] else w.ids))
  {
    LatestRow(db.events, issued, p, w);
    hide EventsMirror;
    var w' := w.(row := row);
    SameHistory(db.events, issued, p, w, w');
    match verdict
    case Stale =>
    case Waiting =>
    case Quiet(recovered) =>
      if recovered && Running(w) {
        var e, n := active.value, |w.ids| - 1;
        LatestChanges(db.events, issued, p, w', EndedEvent(db.events[e], o.observedAt), w.history[n].(resolvedAt := Some(o.observedAt)));
      }
    case Continue =>
      var e, n := active.value, |w.ids| - 1;
      LatestChanges(db.events, issued, p, w', RepeatedEvent(db.events[e], o, suppressed), w.history[n].(count := w.history[n].count + 1));
    case Fire(first, count) =>
      EventAppears(db.events, issued, p, w', eventId, OpenEvent(db, p, rule, o, suppressed, first, count),
                   Episode(first, o.observedAt, count, None));
  }

  lemma SampleEventsMirror(db: Db, issued: set<Uuid>, p: Pair, w: Watch, rule: Rule, o: Observation, suppressed: bool,
                           eventId: Uuid, active: Option<Uuid>)
    requires EventsMirror(db.events, issued, p, w) && eventId in issued && eventId !in w.ids
    requires active == if Running(w) then Some(w.ids[|w.ids| - 1]) else None
    requires active.Some? ==> IsActive(db, active.value, p)
    ensures var verdict := Evaluate(RowUnder(w.row, rule.version), Running(w), rule, o).1;
            EventsMirror(JudgedEvents(db, p, rule, verdict, active, o, suppressed, eventId), issued, p, Fed(w, Sample(rule, o, eventId)))
  {
    hide EventsMirror, JudgedEvents, IsActive, HistoryAfter;
    var (ev, verdict) := Evaluate(RowUnder(w.row, rule.version), Running(w), rule, o);
    VerdictNeedsState(RowUnder(w.row, rule.version), Running(w), rule, o);
    FedMeans(w, rule, o, eventId);
    hide Evaluate, RowUnder, Fed;
    VerdictMirrors(db, issued, p, w, rule, o, suppressed, eventId, active, verdict, Some(ev));
  }

  /** The evaluation row is no part of the event mirror. */
  lemma SameHistory(events: map<Uuid, Event>, issued: set<Uuid>, p: Pair, w: Watch, w': Watch)
    ensures w'.history == w.history && w'.ids == w.ids ==> EventsMirror(events, issued, p, w') == EventsMirror(events, issued, p, w)
  {
  }

  /** Drawing more ids changes nothing. */
  lemma MoreIssued(events: map<Uuid, Event>, issued: set<Uuid>, issued': set<Uuid>, p: Pair, w: Watch)
    requires EventsMirror(events, issued, p, w) && issued <= issued'
    ensures EventsMirror(events, issued', p, w)
  {
  }

  lemma SampleMirrors(s: State, a: Action, p: Pair, w: Watch)
    requires Core(s) && FreshIds(s, a) && Mirrors(s, p, w)
    requires a.ObserveRule? && InputOf(s.db, a, p).Some? && InputOf(s.db, a, p).value.Sample?
    ensures Mirrors(Apply(s, a), p, Fed(w, InputOf(s.db, a, p).value))
  {
    ActiveIsLatest(s, p, w);
    hide Core, EventsMirror, Evaluate, Judge, JudgedEvents, NamesChannels;
    var rule, active, o := s.db.rules[p.0], ActiveEvent(s.db, p), a.o;
    var ev0 := Upserted(s.db.evaluations, p, rule.version);
    assert ev0 == RowUnder(w.row, rule.version);
    IdIsNew(s, a, p, w);
    JudgeMeans(s.db, p, rule, ev0, active, o, a.suppressed, a.eventId, a.ids);
    MoreIssued(s.db.events, s.issued, s.issued + Drawn(a), p, w);
    SampleEventsMirror(s.db, s.issued + Drawn(a), p, w, rule, o, a.suppressed, a.eventId, active);
    SampleRow(w, rule, o, a.eventId);
  }

  lemma IdIsNew(s: State, a: Action, p: Pair, w: Watch)
    requires FreshIds(s, a) && a.ObserveRule? && EventsMirror(s.db.events, s.issued, p, w)
    ensures a.eventId in Drawn(a) && a.eventId !in w.ids
  {
  }

  lemma SampleRow(w: Watch, rule: Rule, o: Observation, id: Uuid)
    ensures Fed(w, Sample(rule, o, id)).row == Some(Evaluate(RowUnder(w.row, rule.version), Running(w), rule, o).0)
  {
  }

  // ----- deletions and resolutions

  lemma ForgetMirrors(s: State, a: Action, p: Pair, w: Watch)
    requires FreshIds(s, a) && Mirrors(s, p, w) && InputOf(s.db, a, p) == Some(Forget)
    ensures Mirrors(Apply(s, a), p, Fed(w, Forget))
  {
    MoreIssued(s.db.events, s.issued, s.issued + Drawn(a), p, w);
    hide EventsMirror, NamesChannels, Judge, ActiveEvent, Enqueue;
  }

  lemma OutrightEvents(db: Db, issued: set<Uuid>, p: Pair, w: Watch, now: Time, lastObserved: Time)
    requires EventsMirror(db.events, issued, p, w) && Running(w) && IsActive(db, w.ids[|w.ids| - 1], p)
    ensures var e := w.ids[|w.ids| - 1];
            EventsMirror(db.events[e := EndedEvent(db.events[e], now).(lastObserved := lastObserved)], issued, p,
                         w.(history := Ended(w.history, now)))
  {
    var n := |w.ids| - 1;
    var before := db.events[w.ids[n]];
    assert EventMirrors(before, w.history[n], p);
    LatestChanges(db.events, issued, p, w, EndedEvent(before, now).(lastObserved := lastObserved), w.history[n].(resolvedAt := Some(now)));
  }

  lemma OutrightMirrors(s: State, a: Action, p: Pair, w: Watch)
    requires Core(s) && FreshIds(s, a) && Mirrors(s, p, w)
    requires a.Resolve? && InputOf(s.db, a, p) == Some(Outright(a.now))
    ensures Mirrors(Apply(s, a), p, Fed(w, Outright(a.now)))
  {
    ActiveIsLatest(s, p, w);
    hide Core, FreshIds, EventsMirror, ResolveEvent;
    assert IsActive(s.db, a.event, p);
    var before := s.db.events[a.event];
    var v := EndedEvent(before, a.now).(lastObserved := before.lastObserved);
    OutrightEvents(s.db, s.issued, p, w, a.now, before.lastObserved);
    ResolveMeans(s.db, a.event, a.ids, a.now, None);
    MoreIssued(s.db.events[a.event := v], s.issued, s.issued + Drawn(a), p, w.(history := Ended(w.history, a.now)));
  }

  // ----- everything else

  /** The step leaves the evaluation row and the events of p as they are. */
  ghost predicate LeavesAlone(s: State, a: Action, p: Pair) {
    var t := Apply(s, a);
    && (p in t.db.evaluations <==> p in s.db.evaluations)
    && (p in s.db.evaluations ==> t.db.evaluations[p] == s.db.evaluations[p])
    && SameEvents(s.db.events, t.db.events, p) && OldIdsStay(s.db.events, t.db.events, s.issued)
  }

  lemma AloneMirrors(s: State, a: Action, p: Pair, w: Watch)
    requires Mirrors(s, p, w) && LeavesAlone(s, a, p) && s.issued <= Apply(s, a).issued
    ensures Mirrors(Apply(s, a), p, w)
  {
    hide Apply, EventsMirror;
    SameEventsMirror(s.db.events, Apply(s, a).db.events, s.issued, Apply(s, a).issued, p, w);
  }

  lemma JudgedLeavesAlone(db: Db, q: Pair, rule: Rule, verdict: Verdict, active: Option<Uuid>, o: Observation, suppressed: bool,
                          eventId: Uuid, p: Pair)
    requires active.Some? ==> IsActive(db, active.value, q)
    requires p != q && eventId !in db.events
    ensures SameEvents(db.events, JudgedEvents(db, q, rule, verdict, active, o, suppressed, eventId), p)
    ensures forall e | e in JudgedEvents(db, q, rule, verdict, active, o, suppressed, eventId) && e !in db.events :: e == eventId
  {
  }

  lemma ObserveLeavesAlone(s: State, a: Action, p: Pair)
    requires Core(s) && FreshIds(s, a) && a.ObserveRule? && InputOf(s.db, a, p).None?
    ensures LeavesAlone(s, a, p)
  {
    var db, q := s.db, a.p;
    assert a.eventId in Drawn(a) && a.eventId !in s.issued && a.eventId !in db.events by {
      assert RefsOk(s.db, s.issued);
    }
    hide Core, FreshIds, Evaluate, Judge, JudgedEvents, ActiveEvent, SameEvents;
    if q.0 in db.rules && db.rules[q.0].enabled && db.rules[q.0].version == a.version && a.eligible {
      var active, ev0 := ActiveEvent(db, q), Upserted(db.evaluations, q, a.version);
      assert active.Some? ==> IsActive(db, active.value, q);
      JudgeMeans(db, q, db.rules[q.0], ev0, active, a.o, a.suppressed, a.eventId, a.ids);
      JudgedLeavesAlone(db, q, db.rules[q.0], Evaluate(ev0, active.Some?, db.rules[q.0], a.o).1, active, a.o, a.suppressed, a.eventId, p);
    } else {
      Unchanged(db.events, p);
    }
  }

  lemma Unchanged(events: map<Uuid, Event>, p: Pair)
    ensures SameEvents(events, events, p)
  {
  }

  lemma OneChanges(events: map<Uuid, Event>, e: Uuid, v: Event, p: Pair)
    requires e in events && (SameColumns(events[e], v) || (!IsOf(events[e], p) && !IsOf(v, p)))
    ensures SameEvents(events, events[e := v], p)
  {
  }

  lemma ResolveLeavesAlone(s: State, a: Action, p: Pair)
    requires a.Resolve? && InputOf(s.db, a, p).None?
    ensures LeavesAlone(s, a, p)
  {
    hide ResolveEvent, SameEvents;
    Unchanged(s.db.events, p);
    if a.event in s.db.events {
      var v := s.db.events[a.event];
      ResolveMeans(s.db, a.event, a.ids, a.now, None);
      OneChanges(s.db.events, a.event, EndedEvent(v, a.now).(lastObserved := v.lastObserved), p);
    }
  }

  lemma AcknowledgeLeavesAlone(s: State, a: Action, p: Pair)
    requires a.Acknowledge?
    ensures LeavesAlone(s, a, p)
  {
    hide Enqueue, SameEvents;
    Unchanged(s.db.events, p);
    if a.event in s.db.events {
      var v := s.db.events[a.event].(phase := Acked);
      OneChanges(s.db.events, a.event, v, p);
      EnqueueMeans(s.db.(events := s.db.events[a.event := v]), a.event, Acknowledged, false, a.ids, a.now);
    }
  }

  lemma FlagLeavesAlone(events: map<Uuid, Event>, e: Option<Uuid>, flag: bool, p: Pair)
    ensures SameEvents(events, FlagSuppressed(events, e, flag), p) && FlagSuppressed(events, e, flag).Keys == events.Keys
  {
    hide SameEvents;
    Unchanged(events, p);
    if e.Some? && e.value in events {
      OneChanges(events, e.value, events[e.value].(suppressed := flag), p);
    }
  }

  lemma FinishMeans(db: Db, i: Uuid, copy: Delivery, outcome: Outcome, now: Time)
    ensures var db' := Finish(db, i, copy, outcome, now); db'.events == db.events && db'.evaluations == db.evaluations
  {
    hide FinishedRow, PushedBack, Holds, CooldownAfter;
  }

  lemma WorkerMeans(s: State, a: Action)
    requires IsWorkerStep(a)
    ensures var t := Apply(s, a).db;
            && t.evaluations == s.db.evaluations
            && (t.events == s.db.events || (!Pc(s, a.w).Idle? && t.events == FlagSuppressed(s.db.events, Pc(s, a.w).row.event, true)))
  {
    hide IsCandidate, Finish, FlagSuppressed, Holds, SuppressNow;
    if a.FinishAttempt? && Pc(s, a.w).Sending? {
      FinishMeans(s.db, Pc(s, a.w).id, Pc(s, a.w).row, a.outcome, a.now);
    }
  }

  lemma WorkerLeavesAlone(s: State, a: Action, p: Pair)
    requires IsWorkerStep(a)
    ensures LeavesAlone(s, a, p)
  {
    hide Apply, SameEvents, FlagSuppressed;
    Unchanged(s.db.events, p);
    WorkerMeans(s, a);
    if !Pc(s, a.w).Idle? {
      FlagLeavesAlone(s.db.events, Pc(s, a.w).row.event, true, p);
    }
  }

  lemma AdminLeavesAlone(s: State, a: Action, p: Pair)
    requires InputOf(s.db, a, p).None?
    requires !IsWorkerStep(a) && !a.ObserveRule? && !a.Resolve? && !a.Acknowledge?
    ensures LeavesAlone(s, a, p)
  {
    hide SameEvents, FlagSuppressed, RetryVerdict, Retained;
    Unchanged(s.db.events, p);
    match a
    case RefreshSuppression(e, flag, _) => FlagLeavesAlone(s.db.events, Some(e), flag, p);
    case Retain(cutoff, _) => CleanupLeavesAlone(s.db, cutoff, p);
    case _ =>
  }

  lemma CleanupLeavesAlone(db: Db, cutoff: Time, p: Pair)
    ensures SameEvents(db.events, Cleanup(db, cutoff).events, p)
  {
    hide Retained;
  }

  lemma StepMirrors(s: State, a: Action, p: Pair, w: Watch)
    requires Core(s) && FreshIds(s, a) && Mirrors(s, p, w)
    ensures Mirrors(Apply(s, a), p, Stepped(w, InputOf(s.db, a, p)))
  {
    hide Core, FreshIds, Mirrors, Apply, Fed, LeavesAlone;
    var i := InputOf(s.db, a, p);
    if i.None? {
      if a.ObserveRule? {
        ObserveLeavesAlone(s, a, p);
      } else if a.Resolve? {
        ResolveLeavesAlone(s, a, p);
      } else if a.Acknowledge? {
        AcknowledgeLeavesAlone(s, a, p);
      } else if IsWorkerStep(a) {
        WorkerLeavesAlone(s, a, p);
      } else {
        AdminLeavesAlone(s, a, p);
      }
      IssuedOnlyGrows(s, a);
      AloneMirrors(s, a, p, w);
    } else if i.value.Sample? {
      SampleMirrors(s, a, p, w);
    } else if i.value.Forget? {
      ForgetMirrors(s, a, p, w);
    } else {
      OutrightMirrors(s, a, p, w);
    }
  }

  lemma IssuedOnlyGrows(s: State, a: Action)
    ensures s.issued <= Apply(s, a).issued
  {
  }

  // ----- whole runs

  lemma {:induction false} RunMirrors(s: State, acts: seq<Action>, p: Pair, w: Watch)
    requires Core(s) && FreshRun(s, acts) && Mirrors(s, p, w)
    ensures Mirrors(Run(s, acts), p, WatchAlong(w, s, acts, p))
    decreases |acts|
  {
    hide Core, Mirrors, Apply, FreshIds, Stepped;
    if acts == [] {
    } else {
      StepMirrors(s, acts[0], p, w);
      ApplyKeepsCore(s, acts[0]);
      RunMirrors(Apply(s, acts[0]), acts[1..], p, Stepped(w, InputOf(s.db, acts[0], p)));
    }
  }

  const NOTHING: Watch := Watch(None, [], [])

  /** In every run from empty tables, with any workers, acknowledgements, other rules, deletions and
      resets in between: the event rows of p are the automaton's events, each with its start, opening,
      match count and end, and the evaluation row is the automaton's. */
  lemma EveryEventIsAnEpisode(start: Time, acts: seq<Action>, p: Pair)
    requires FreshRun(Initial(start), acts)
    ensures Mirrors(Run(Initial(start), acts), p, WatchAlong(NOTHING, Initial(start), acts, p))
  {
    InitialInv(start);
    assert Mirrors(Initial(start), p, NOTHING);
    hide Mirrors, Core, FreshRun, Initial;
    RunMirrors(Initial(start), acts, p, NOTHING);
  }

  // ----- the meaning of a run between resets

  /** The observations of p that a run takes into account. */
  ghost function SamplesOf(s: State, acts: seq<Action>, p: Pair): seq<Observation>
    decreases |acts|
  {
    if acts == [] then []
    else
      var i := InputOf(s.db, acts[0], p);
      (if i.Some? && i.value.Sample? then [i.value.o] else []) + SamplesOf(Apply(s, acts[0]), acts[1..], p)
  }

  predicate SameJudgement(r: Rule, rule: Rule) {
    r.version == rule.version && r.offlineMetric == rule.offlineMetric && r.duration == rule.duration
  }

  /** No step resets p, and its rule keeps judging as `rule` does. */
  ghost predicate Steady(s: State, acts: seq<Action>, p: Pair, rule: Rule)
    decreases |acts|
  {
    acts == []
    || (var i := InputOf(s.db, acts[0], p);
        && (i.Some? ==> i.value.Sample? && SameJudgement(i.value.rule, rule))
        && Steady(Apply(s, acts[0]), acts[1..], p, rule))
  }

  lemma SampleAdvances(w: Watch, r: Rule, rule: Rule, o: Observation, id: Uuid)
    requires SameJudgement(r, rule)
    ensures MonitorOf(Fed(w, Sample(r, o, id)), rule.version) == AlertTrace.Advance(MonitorOf(w, rule.version), rule, o)
  {
  }

  lemma AfterOneMore(h: seq<Episode>, rule: Rule, trace: seq<Observation>, o: Observation)
    ensures After(h, rule, trace + [o]) == AlertTrace.Advance(After(h, rule, trace), rule, o)
  {
    assert (trace + [o])[..|trace|] == trace;
  }

  lemma {:induction false} SteadyWatch(w: Watch, s: State, acts: seq<Action>, p: Pair, rule: Rule, h: seq<Episode>, trace: seq<Observation>)
    requires Steady(s, acts, p, rule) && MonitorOf(w, rule.version) == After(h, rule, trace)
    ensures MonitorOf(WatchAlong(w, s, acts, p), rule.version) == After(h, rule, trace + SamplesOf(s, acts, p))
    decreases |acts|
  {
    hide Apply, InputOf, Fed, MonitorOf, After;
    if acts == [] {
      assert trace + [] == trace;
    } else {
      var i := InputOf(s.db, acts[0], p);
      var rest := SamplesOf(Apply(s, acts[0]), acts[1..], p);
      if i.Some? {
        SampleAdvances(w, i.value.rule, rule, i.value.o, i.value.id);
        AfterOneMore(h, rule, trace, i.value.o);
        SteadyWatch(Fed(w, i.value), Apply(s, acts[0]), acts[1..], p, rule, h, trace + [i.value.o]);
        assert trace + ([i.value.o] + rest) == trace + [i.value.o] + rest;
      } else {
        SteadyWatch(w, Apply(s, acts[0]), acts[1..], p, rule, h, trace);
        assert [] + rest == rest;
      }
    }
  }

  lemma ActiveMeans(s: State, p: Pair, w: Watch)
    requires Core(s) && Mirrors(s, p, w)
    ensures (exists e :: IsActive(s.db, e, p)) <==> Running(w)
  {
    ActiveIsLatest(s, p, w);
    hide Core, Mirrors, IsActive;
    if Running(w) {
      assert IsActive(s.db, w.ids[|w.ids| - 1], p);
    }
  }

  /** A reset leaves what the meaning of a run starts from. */
  lemma ResetIsClean(s: State, a: Action, p: Pair, w: Watch)
    requires Core(s) && FreshIds(s, a) && Mirrors(s, p, w) && InputOf(s.db, a, p).Some?
    requires InputOf(s.db, a, p).value.Outright? || (InputOf(s.db, a, p).value.Forget? && !Running(w))
    ensures var w' := Fed(w, InputOf(s.db, a, p).value);
            Core(Apply(s, a)) && Mirrors(Apply(s, a), p, w') && w'.row.None? && !Running(w')
  {
    hide Core, FreshIds, Mirrors, Apply, InputOf;
    StepMirrors(s, a, p, w);
    ApplyKeepsCore(s, a);
  }

  /** Between resets the tables mean what the trace means. From a state in which p has no evaluation
      row and no active event, through any run that does not reset p: an event of p is active at the
      end exactly when the accepted observations raise the alarm, and the events of p are those the
      trace gives. */
  lemma RunsComputeMeaning(s: State, acts: seq<Action>, p: Pair, rule: Rule, w: Watch)
    requires Core(s) && FreshRun(s, acts) && Mirrors(s, p, w) && w.row.None? && !Running(w)
    requires Steady(s, acts, p, rule) && 0 <= rule.duration
    ensures (exists e :: IsActive(Run(s, acts).db, e, p)) <==> Alarmed(Accepted(SamplesOf(s, acts, p)), rule)
    ensures var after := WatchAlong(w, s, acts, p);
            Mirrors(Run(s, acts), p, after) && after.history == After(w.history, rule, SamplesOf(s, acts, p)).history
  {
    hide Core, Mirrors, FreshRun, Steady, Alarmed, Accepted, IsActive, After, WatchAlong, SamplesOf, RowUnder;
    var trace, after := SamplesOf(s, acts, p), WatchAlong(w, s, acts, p);
    assert [] + trace == trace;
    CleanStart(w, rule);
    SteadyWatch(w, s, acts, p, rule, w.history, []);
    RunMirrors(s, acts, p, w);
    RunKeepsCore(s, acts);
    ActiveMeans(Run(s, acts), p, after);
    ActiveIffAlarmed(w.history, rule, trace);
  }

  lemma CleanStart(w: Watch, rule: Rule)
    requires w.row.None?
    ensures MonitorOf(w, rule.version) == After(w.history, rule, [])
  {
  }
}
