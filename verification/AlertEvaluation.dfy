/** The pure part of process_rule_observation: how one observation moves an evaluation row. */
module AlertEvaluation {
  import opened Wrappers
  import opened AlertTables

  datatype Observation = Observation(value: int, abnormal: bool, observedAt: Time, sampleAt: Time)

  datatype Verdict =
    | Stale                                  // the row is left alone
    | Quiet(recovered: bool)                 // normal: resolve the active event iff recovered
    | Continue                               // abnormal with an active event
    | Waiting                                // abnormal, not yet long enough
    | Fire(firstObserved: Time, count: nat)  // abnormal long enough: open an event

  function FreshEvaluation(version: nat): Evaluation {
    Evaluation(version, None, None, None, None, None, 0)
  }

  /** The upsert that starts a new row when the rule version moved on. */
  function Upserted(evaluations: map<Pair, Evaluation>, p: Pair, version: nat): Evaluation {
    if p in evaluations && evaluations[p].version == version then evaluations[p] else FreshEvaluation(version)
  }

  predicate ObservationIsStale(ev: Evaluation, o: Observation) {
    && ev.lastSample.Some?
    && (o.sampleAt < ev.lastSample.value
        || (o.sampleAt == ev.lastSample.value && ev.lastValue == Some(o.value)))
  }

  function RecoveryConfirmation(offlineMetric: bool, active: bool, since: Option<Time>, at: Time): (Option<Time>, bool) {
    if !offlineMetric || !active then (None, true)
    else
      var start := if since.Some? then since.value else at;
      (Some(start), at - start >= OFFLINE_RECOVERY_STABILITY_SECONDS)
  }

  predicate PendingShouldFire(duration: Time, ev: Evaluation, at: Time) {
    || duration == 0
    || (ev.pendingSince.Some? && ev.lastObserved.Some? && at - ev.pendingSince.value >= duration)
  }

  function Sampled(ev: Evaluation, o: Observation): Evaluation {
    ev.(lastObserved := Some(o.observedAt), lastValue := Some(o.value), lastSample := Some(o.sampleAt))
  }

  function Evaluate(ev: Evaluation, active: bool, rule: Rule, o: Observation): (Evaluation, Verdict) {
    if ObservationIsStale(ev, o) then (ev, Stale)
    else if !o.abnormal then
      var (since, recovered) := RecoveryConfirmation(rule.offlineMetric, active, ev.recoverySince, o.observedAt);
      (Sampled(ev, o).(pendingSince := None, recoverySince := if recovered then None else since, matchCount := 0),
       Quiet(recovered))
    else if active then
      (Sampled(ev, o).(recoverySince := None, matchCount := ev.matchCount + 1), Continue)
    else
      var since := if ev.pendingSince.Some? then ev.pendingSince.value else o.observedAt;
      var next := Sampled(ev, o).(pendingSince := Some(since), recoverySince := None, matchCount := ev.matchCount + 1);
      (next, if PendingShouldFire(rule.duration, ev, o.observedAt) then Fire(since, ev.matchCount + 1) else Waiting)
  }

  /** An event repeats only when there is one, and opens only when there is none. */
  lemma VerdictNeedsState(ev: Evaluation, active: bool, rule: Rule, o: Observation)
    ensures Evaluate(ev, active, rule, o).1.Continue? ==> active
    ensures Evaluate(ev, active, rule, o).1.Fire? ==> !active
  {
  }
}
