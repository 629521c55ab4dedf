/** The evaluation automaton against its meaning: when an alert event opens and closes, stated over
    the whole trace of observations of one rule and instance. */
module AlertTrace {
  import opened Wrappers
  import opened AlertTables
  import opened AlertEvaluation

  /** What the event table remembers of one event: its start, its opening, how many abnormal
      observations it has matched, and its end. */
  datatype Episode = Episode(firstObserved: Time, firedAt: Time, count: nat, resolvedAt: Option<Time>)

  /** The evaluation row together with the events it has produced, oldest first. */
  datatype Monitor = Monitor(ev: Evaluation, history: seq<Episode>)

  predicate Active(m: Monitor) {
    m.history != [] && m.history[|m.history| - 1].resolvedAt.None?
  }

  /** The latest event has matched once more ... */
  function Matched(h: seq<Episode>): seq<Episode> {
    if h == [] then h else h[|h| - 1 := h[|h| - 1].(count := h[|h| - 1].count + 1)]
  }

  /** ... or is over. */
  function Ended(h: seq<Episode>, at: Time): seq<Episode> {
    if h == [] then h else h[|h| - 1 := h[|h| - 1].(resolvedAt := Some(at))]
  }

  function Advance(m: Monitor, rule: Rule, o: Observation): Monitor {
    var (ev, verdict) := Evaluate(m.ev, Active(m), rule, o);
    match verdict
    case Stale => Monitor(ev, m.history)
    case Waiting => Monitor(ev, m.history)
    case Continue => Monitor(ev, Matched(m.history))
    case Quiet(recovered) =>
      if recovered && Active(m) then Monitor(ev, Ended(m.history, o.observedAt)) else Monitor(ev, m.history)
    case Fire(first, count) => Monitor(ev, m.history + [Episode(first, o.observedAt, count, None)])
  }

  /** The automaton after a trace, started without an evaluation row and with past events `h`. */
  function After(h: seq<Episode>, rule: Rule, trace: seq<Observation>): Monitor {
    if trace == [] then Monitor(FreshEvaluation(rule.version), h)
    else Advance(After(h, rule, trace[..|trace| - 1]), rule, trace[|trace| - 1])
  }

  /** No past event is still active. */
  predicate AllOver(h: seq<Episode>) {
    h != [] ==> h[|h| - 1].resolvedAt.Some?
  }

  // ----- the meaning

  predicate StaleAfter(last: Observation, o: Observation) {
    o.sampleAt < last.sampleAt || (o.sampleAt == last.sampleAt && o.value == last.value)
  }

  /** The observations that count: each one newer than the one accepted before it. */
  function Accepted(trace: seq<Observation>): seq<Observation> {
    if trace == [] then []
    else
      var before, o := Accepted(trace[..|trace| - 1]), trace[|trace| - 1];
      if before != [] && StaleAfter(before[|before| - 1], o) then before else before + [o]
  }

  /** The unbroken run of equally judged observations that ends at i starts at k. */
  predicate IsRunStart(a: seq<Observation>, k: int, i: nat)
    requires i < |a|
  {
    && 0 <= k <= i
    && (forall j | k <= j <= i :: a[j].abnormal == a[i].abnormal)
    && (k > 0 ==> a[k - 1].abnormal != a[i].abnormal)
  }

  ghost predicate Lasts(a: seq<Observation>, i: nat, span: Time)
    requires i < |a|
  {
    exists k :: IsRunStart(a, k, i) && a[i].observedAt - a[k].observedAt >= span
  }

  /** Abnormal for at least the rule's duration. */
  ghost predicate Ripe(a: seq<Observation>, rule: Rule, i: nat)
    requires i < |a|
  {
    a[i].abnormal && (rule.duration == 0 || Lasts(a, i, rule.duration))
  }

  /** Normal; for the offline metric, normal for at least a minute. */
  ghost predicate Recovering(a: seq<Observation>, rule: Rule, i: nat)
    requires i < |a|
  {
    !a[i].abnormal && (!rule.offlineMetric || Lasts(a, i, OFFLINE_RECOVERY_STABILITY_SECONDS))
  }

  /** Some run was long enough, and nothing since then was a recovery. */
  ghost predicate Alarmed(a: seq<Observation>, rule: Rule) {
    exists j | 0 <= j < |a| :: Ripe(a, rule, j) && forall r | j < r < |a| :: !Recovering(a, rule, r)
  }

  // ----- run starts

  function RunStart(a: seq<Observation>): (k: nat)
    requires a != []
    ensures k < |a| && IsRunStart(a, k, |a| - 1)
  {
    var n := |a|;
    if n == 1 || a[n - 2].abnormal != a[n - 1].abnormal then n - 1
    else
      assert IsRunStart(a[..n - 1], RunStart(a[..n - 1]), n - 2);
      RunStart(a[..n - 1])
  }

  lemma RunStartIsUnique(a: seq<Observation>, k: int)
    requires a != [] && IsRunStart(a, k, |a| - 1)
    ensures k == RunStart(a)
  {
    var r := RunStart(a);
    assert r == 0 || a[r - 1].abnormal != a[|a| - 1].abnormal;
    assert k == 0 || a[k - 1].abnormal != a[|a| - 1].abnormal;
  }

  lemma LastsFromRunStart(a: seq<Observation>, span: Time)
    requires a != []
    ensures Lasts(a, |a| - 1, span) <==> a[|a| - 1].observedAt - a[RunStart(a)].observedAt >= span
  {
    if Lasts(a, |a| - 1, span) {
      var k :| IsRunStart(a, k, |a| - 1) && a[|a| - 1].observedAt - a[k].observedAt >= span;
      RunStartIsUnique(a, k);
    } else {
      assert IsRunStart(a, RunStart(a), |a| - 1);
    }
  }

  lemma LastsOfPrefix(a: seq<Observation>, o: Observation, i: nat, span: Time)
    requires i < |a|
    ensures Lasts(a + [o], i, span) == Lasts(a, i, span)
  {
    var b := a + [o];
    forall k ensures IsRunStart(b, k, i) == IsRunStart(a, k, i) {
      assert forall j | 0 <= j <= i :: b[j] == a[j];
    }
    if Lasts(b, i, span) {
      var k :| IsRunStart(b, k, i) && b[i].observedAt - b[k].observedAt >= span;
      assert IsRunStart(a, k, i);
    }
  }

  /** Later observations do not change what an earlier one meant. */
  lemma MeaningOfPrefix(a: seq<Observation>, o: Observation, rule: Rule, i: nat)
    requires i < |a|
    ensures Ripe(a + [o], rule, i) == Ripe(a, rule, i)
    ensures Recovering(a + [o], rule, i) == Recovering(a, rule, i)
  {
    LastsOfPrefix(a, o, i, rule.duration);
    LastsOfPrefix(a, o, i, OFFLINE_RECOVERY_STABILITY_SECONDS);
  }

  lemma AlarmedExtends(a: seq<Observation>, o: Observation, rule: Rule)
    ensures Alarmed(a + [o], rule)
            <==> Ripe(a + [o], rule, |a|) || (Alarmed(a, rule) && !Recovering(a + [o], rule, |a|))
  {
    var b := a + [o];
    forall i | 0 <= i < |a|
      ensures Ripe(b, rule, i) == Ripe(a, rule, i) && Recovering(b, rule, i) == Recovering(a, rule, i)
    {
      MeaningOfPrefix(a, o, rule, i);
    }
    if Alarmed(a, rule) && !Recovering(b, rule, |a|) {
      var j :| 0 <= j < |a| && Ripe(a, rule, j) && forall r | j < r < |a| :: !Recovering(a, rule, r);
      assert Ripe(b, rule, j) && forall r | j < r < |b| :: !Recovering(b, rule, r);
    }
    if Alarmed(b, rule) && !Ripe(b, rule, |a|) {
      var j :| 0 <= j < |b| && Ripe(b, rule, j) && forall r | j < r < |b| :: !Recovering(b, rule, r);
      assert Ripe(a, rule, j) && forall r | j < r < |a| :: !Recovering(a, rule, r);
    }
  }

  // ----- the automaton computes the meaning

  /** What the evaluation row holds after the accepted observations `a`. */
  ghost predicate Tracks(m: Monitor, rule: Rule, a: seq<Observation>) {
    && Active(m) == Alarmed(a, rule)
    && (a == [] ==> m.ev == FreshEvaluation(m.ev.version))
    && (a != [] ==>
          var last := a[|a| - 1];
          && m.ev.lastSample == Some(last.sampleAt)
          && m.ev.lastValue == Some(last.value)
          && m.ev.lastObserved == Some(last.observedAt)
          && (last.abnormal ==> m.ev.recoverySince.None?)
          && (!last.abnormal ==> m.ev.pendingSince.None? && m.ev.matchCount == 0)
          && (last.abnormal && !Active(m) ==>
                m.ev.pendingSince == Some(a[RunStart(a)].observedAt) && m.ev.matchCount == |a| - RunStart(a))
          && (!last.abnormal && Active(m) ==>
                rule.offlineMetric && m.ev.recoverySince == Some(a[RunStart(a)].observedAt))
          && (!last.abnormal && !Active(m) ==> m.ev.recoverySince.None?))
  }

  lemma NextRunStart(a: seq<Observation>, o: Observation)
    ensures RunStart(a + [o]) == if a != [] && a[|a| - 1].abnormal == o.abnormal then RunStart(a) else |a|
  {
    assert (a + [o])[..|a|] == a;
  }

  /** Ripe and Recovering, read off the last run start. */
  lemma JudgedFromRunStart(a: seq<Observation>, o: Observation, rule: Rule)
    ensures var b := a + [o];
            && (Ripe(b, rule, |a|) <==> o.abnormal && (rule.duration == 0 || o.observedAt - b[RunStart(b)].observedAt >= rule.duration))
            && (Recovering(b, rule, |a|) <==>
                  !o.abnormal && (!rule.offlineMetric || o.observedAt - b[RunStart(b)].observedAt >= OFFLINE_RECOVERY_STABILITY_SECONDS))
  {
    LastsFromRunStart(a + [o], rule.duration);
    LastsFromRunStart(a + [o], OFFLINE_RECOVERY_STABILITY_SECONDS);
  }

  lemma QuietStep(m: Monitor, rule: Rule, o: Observation)
    requires !o.abnormal && !ObservationIsStale(m.ev, o)
    ensures var (since, recovered) := RecoveryConfirmation(rule.offlineMetric, Active(m), m.ev.recoverySince, o.observedAt);
            Advance(m, rule, o) == Monitor(
              Sampled(m.ev, o).(pendingSince := None, recoverySince := if recovered then None else since, matchCount := 0),
              if recovered && Active(m) then Ended(m.history, o.observedAt) else m.history)
  {
  }

  lemma LoudStep(m: Monitor, rule: Rule, o: Observation)
    requires o.abnormal && !ObservationIsStale(m.ev, o)
    ensures Active(m) ==> Advance(m, rule, o) == Monitor(Sampled(m.ev, o).(recoverySince := None, matchCount := m.ev.matchCount + 1), Matched(m.history))
    ensures !Active(m) ==>
              var since := if m.ev.pendingSince.Some? then m.ev.pendingSince.value else o.observedAt;
              Advance(m, rule, o) == Monitor(
                Sampled(m.ev, o).(pendingSince := Some(since), recoverySince := None, matchCount := m.ev.matchCount + 1),
                if PendingShouldFire(rule.duration, m.ev, o.observedAt)
                then m.history + [Episode(since, o.observedAt, m.ev.matchCount + 1, None)] else m.history)
  {
  }

  function NextHistory(h: seq<Episode>, a: seq<Observation>, opens: bool, repeats: bool, closes: bool): seq<Episode>
    requires a != []
  {
    var at := a[|a| - 1].observedAt;
    if opens then h + [Episode(a[RunStart(a)].observedAt, at, |a| - RunStart(a), None)]
    else if repeats then Matched(h)
    else if closes then Ended(h, at)
    else h
  }

  lemma {:induction false} QuietTracks(m: Monitor, rule: Rule, a: seq<Observation>, o: Observation)
    requires Tracks(m, rule, a) && !o.abnormal
    requires a == [] || !StaleAfter(a[|a| - 1], o)
    ensures Tracks(Advance(m, rule, o), rule, a + [o])
    ensures Advance(m, rule, o).history == NextHistory(m.history, a + [o], false, false, Active(m) && Recovering(a + [o], rule, |a|))
  {
    hide Alarmed, Ripe, Recovering, IsRunStart, RunStart, Advance;
    AlarmedExtends(a, o, rule);
    NextRunStart(a, o);
    JudgedFromRunStart(a, o, rule);
    QuietStep(m, rule, o);
    assert a != [] ==> (a + [o])[RunStart(a)] == a[RunStart(a)];
  }

  lemma {:induction false} LoudTracksActive(m: Monitor, rule: Rule, a: seq<Observation>, o: Observation)
    requires Tracks(m, rule, a) && o.abnormal && Active(m)
    requires a == [] || !StaleAfter(a[|a| - 1], o)
    ensures Tracks(Advance(m, rule, o), rule, a + [o])
    ensures Advance(m, rule, o).history == Matched(m.history)
  {
    hide Alarmed, Ripe, Recovering, IsRunStart, RunStart, Advance;
    AlarmedExtends(a, o, rule);
    JudgedFromRunStart(a, o, rule);
    LoudStep(m, rule, o);
    assert (a + [o])[|a|] == o;
  }

  lemma {:induction false} LoudTracksPassive(m: Monitor, rule: Rule, a: seq<Observation>, o: Observation)
    requires Tracks(m, rule, a) && o.abnormal && !Active(m) && 0 <= rule.duration
    requires a == [] || !StaleAfter(a[|a| - 1], o)
    ensures Tracks(Advance(m, rule, o), rule, a + [o])
    ensures Advance(m, rule, o).history == NextHistory(m.history, a + [o], Ripe(a + [o], rule, |a|), false, false)
  {
    hide Alarmed, Ripe, Recovering, IsRunStart, RunStart, Advance;
    AlarmedExtends(a, o, rule);
    NextRunStart(a, o);
    JudgedFromRunStart(a, o, rule);
    LoudStep(m, rule, o);
    assert a != [] ==> (a + [o])[RunStart(a)] == a[RunStart(a)];
    assert (a + [o])[|a|] == o;
  }

  lemma AdvanceTracks(m: Monitor, rule: Rule, a: seq<Observation>, o: Observation)
    requires Tracks(m, rule, a) && 0 <= rule.duration
    requires a == [] || !StaleAfter(a[|a| - 1], o)
    ensures Tracks(Advance(m, rule, o), rule, a + [o])
    ensures Advance(m, rule, o).history
              == NextHistory(m.history, a + [o], !Active(m) && Ripe(a + [o], rule, |a|), Active(m) && o.abnormal,
                             Active(m) && Recovering(a + [o], rule, |a|))
  {
    if o.abnormal {
      if Active(m) { LoudTracksActive(m, rule, a, o); } else { LoudTracksPassive(m, rule, a, o); }
    } else {
      QuietTracks(m, rule, a, o);
    }
    assert Ripe(a + [o], rule, |a|) ==> o.abnormal;
    assert Recovering(a + [o], rule, |a|) ==> !o.abnormal;
  }

  lemma {:induction false} TraceTracks(h: seq<Episode>, rule: Rule, trace: seq<Observation>)
    requires AllOver(h) && 0 <= rule.duration
    ensures Tracks(After(h, rule, trace), rule, Accepted(trace))
  {
    if trace == [] {
    } else {
      var before, o := trace[..|trace| - 1], trace[|trace| - 1];
      TraceTracks(h, rule, before);
      var a := Accepted(before);
      if a == [] || !StaleAfter(a[|a| - 1], o) {
        AdvanceTracks(After(h, rule, before), rule, a, o);
      }
    }
  }

  /** An event is active after a trace exactly when the trace says so. */
  lemma ActiveIffAlarmed(h: seq<Episode>, rule: Rule, trace: seq<Observation>)
    requires AllOver(h) && 0 <= rule.duration
    ensures Active(After(h, rule, trace)) <==> Alarmed(Accepted(trace), rule)
  {
    TraceTracks(h, rule, trace);
  }

  predicate IsStale(trace: seq<Observation>, o: Observation) {
    Accepted(trace) != [] && StaleAfter(Accepted(trace)[|Accepted(trace)| - 1], o)
  }

  lemma StaleChangesNothing(h: seq<Episode>, rule: Rule, trace: seq<Observation>, o: Observation)
    requires AllOver(h) && 0 <= rule.duration && IsStale(trace, o)
    ensures After(h, rule, trace + [o]) == After(h, rule, trace)
  {
    assert (trace + [o])[..|trace|] == trace;
    TraceTracks(h, rule, trace);
  }

  /** What one more accepted observation adds to the history. */
  lemma OneMore(h: seq<Episode>, rule: Rule, trace: seq<Observation>, o: Observation)
    requires AllOver(h) && 0 <= rule.duration && !IsStale(trace, o)
    ensures Accepted(trace + [o]) == Accepted(trace) + [o]
    ensures var m, a := After(h, rule, trace), Accepted(trace);
            After(h, rule, trace + [o]).history
              == NextHistory(m.history, a + [o], !Active(m) && Ripe(a + [o], rule, |a|), Active(m) && o.abnormal,
                             Active(m) && Recovering(a + [o], rule, |a|))
  {
    hide Tracks, Advance, Ripe, Recovering, NextHistory, StaleAfter;
    assert (trace + [o])[..|trace|] == trace;
    TraceTracks(h, rule, trace);
    AdvanceTracks(After(h, rule, trace), rule, Accepted(trace), o);
  }

  /** With no active event, one more accepted observation opens an event exactly when the current
      abnormal run has lasted the duration; the event carries that run's start and length. */
  lemma OpensExactlyWhenRipe(h: seq<Episode>, rule: Rule, trace: seq<Observation>, o: Observation, k: int)
    requires AllOver(h) && 0 <= rule.duration && !IsStale(trace, o) && !Active(After(h, rule, trace))
    requires IsRunStart(Accepted(trace) + [o], k, |Accepted(trace)|)
    ensures var a := Accepted(trace) + [o];
            var opens := o.abnormal && (rule.duration == 0 || o.observedAt - a[k].observedAt >= rule.duration);
            After(h, rule, trace + [o]).history
              == if opens then After(h, rule, trace).history + [Episode(a[k].observedAt, o.observedAt, |a| - k, None)]
                 else After(h, rule, trace).history
  {
    hide After, Accepted, Active, Ripe, Recovering, RunStart, IsRunStart, IsStale;
    OneMore(h, rule, trace, o);
    RunStartIsUnique(Accepted(trace) + [o], k);
    JudgedFromRunStart(Accepted(trace), o, rule);
  }

  /** With an active event, one more accepted observation closes it exactly when it is normal and,
      for the offline metric, the normal run has lasted a minute. */
  lemma ClosesExactlyWhenRecovered(h: seq<Episode>, rule: Rule, trace: seq<Observation>, o: Observation, k: int)
    requires AllOver(h) && 0 <= rule.duration && !IsStale(trace, o) && Active(After(h, rule, trace))
    requires IsRunStart(Accepted(trace) + [o], k, |Accepted(trace)|)
    ensures var before := After(h, rule, trace).history;
            var a := Accepted(trace) + [o];
            var closes := !o.abnormal && (!rule.offlineMetric || o.observedAt - a[k].observedAt >= 60);
            After(h, rule, trace + [o]).history
              == if closes then Ended(before, o.observedAt) else if o.abnormal then Matched(before) else before
  {
    assert After(h, rule, trace).history != [];
    hide After, Accepted, Active, Ripe, Recovering, RunStart, IsRunStart, IsStale;
    OneMore(h, rule, trace, o);
    RunStartIsUnique(Accepted(trace) + [o], k);
    JudgedFromRunStart(Accepted(trace), o, rule);
  }

  // ----- episodes never overlap

  predicate InOrder(h: seq<Episode>, latest: Time) {
    && (forall i | 0 <= i < |h| :: h[i].firedAt <= latest)
    && (forall i | 0 <= i < |h| && h[i].resolvedAt.Some? :: h[i].firedAt <= h[i].resolvedAt.value <= latest)
    && (forall i, j | 0 <= i < j < |h| :: h[i].resolvedAt.Some? && h[i].resolvedAt.value <= h[j].firedAt)
  }

  lemma OrderLasts(h: seq<Episode>, t: Time, u: Time)
    requires InOrder(h, t) && t <= u
    ensures InOrder(h, u)
  {
    assert forall i | 0 <= i < |h| :: h[i].firedAt <= t;
  }

  lemma AdvanceKeepsOrder(m: Monitor, rule: Rule, o: Observation)
    requires InOrder(m.history, o.observedAt)
    ensures InOrder(Advance(m, rule, o).history, o.observedAt)
  {
  }

  lemma {:induction false} EpisodesNeverOverlap(h: seq<Episode>, rule: Rule, trace: seq<Observation>)
    requires trace != [] ==> InOrder(h, trace[0].observedAt)
    requires forall i, j | 0 <= i < j < |trace| :: trace[i].observedAt <= trace[j].observedAt
    ensures trace != [] ==> InOrder(After(h, rule, trace).history, trace[|trace| - 1].observedAt)
  {
    if trace == [] {
    } else {
      var before, o := trace[..|trace| - 1], trace[|trace| - 1];
      EpisodesNeverOverlap(h, rule, before);
      OrderLasts(After(h, rule, before).history, if before == [] then o.observedAt else before[|before| - 1].observedAt, o.observedAt);
      AdvanceKeepsOrder(After(h, rule, before), rule, o);
    }
  }
}
