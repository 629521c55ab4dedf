/** What a claim and a delivered attempt are good for, over whole runs: a claimed notification stays
    with its worker for three minutes, and a delivered one is never touched again. */
module AlertLeases {
  import opened Wrappers
  import opened AlertTables
  import opened AlertEvaluation
  import opened AlertTransactions
  import opened AlertProtocol
  import opened AlertInvariants
  import opened AlertRows
  import opened AlertTheorems
  import opened AlertBackoff

  // ----- a delivered notification

  /** Worker a.w reports that the row it has under lease was delivered. */
  predicate Delivers(s: State, a: Action) {
    a.FinishAttempt? && a.outcome.Delivered? && Pc(s, a.w).Sending? && Leases(s, a.w, Pc(s, a.w).id)
  }

  /** Row i, as long as it exists, is d. */
  ghost predicate Stays(s: State, i: Uuid, d: Delivery) {
    i in s.issued && (i in s.db.deliveries ==> s.db.deliveries[i] == d)
  }

  lemma SucceededStays(s: State, a: Action, i: Uuid, d: Delivery)
    requires Core(s) && FreshIds(s, a) && Stays(s, i, d) && d.status.Succeeded?
    ensures Stays(Apply(s, a), i, d)
  {
    IssuedGrows(s, a);
    hide Core, FreshIds, Apply;
    if i in Apply(s, a).db.deliveries {
      NotReborn(s, a, i);
      RowAfterIsExact(s, a, i);
      SucceededRow(s, a, i, Apply(s, a).db.deliveries[i]);
    }
  }

  lemma NotReborn(s: State, a: Action, i: Uuid)
    requires Core(s) && FreshIds(s, a) && i in s.issued && i in Apply(s, a).db.deliveries
    ensures i in s.db.deliveries
  {
    if i !in s.db.deliveries {
      NewRowsAreReports(s, a, i);
    }
  }

  lemma SucceededRow(s: State, a: Action, i: Uuid, d': Delivery)
    requires i in s.db.deliveries && s.db.deliveries[i].status.Succeeded? && RowAfter(s, a, i, s.db.deliveries[i], d')
    ensures d' == s.db.deliveries[i]
  {
    hide Apply, EventOver, FirstInLine, ChannelFree;
  }

  lemma {:induction false} SucceededAlong(s: State, acts: seq<Action>, i: Uuid, d: Delivery)
    requires Core(s) && FreshRun(s, acts) && Stays(s, i, d) && d.status.Succeeded?
    ensures Stays(Run(s, acts), i, d)
    decreases |acts|
  {
    hide Core, FreshIds, Apply, Stays;
    if acts == [] {
    } else {
      ApplyKeepsCore(s, acts[0]);
      SucceededStays(s, acts[0], i, d);
      SucceededAlong(Apply(s, acts[0]), acts[1..], i, d);
    }
  }

  lemma DeliveredRow(s: State, a: Action)
    requires Core(s) && FreshIds(s, a) && Delivers(s, a)
    ensures var i, t := Pc(s, a.w).id, Apply(s, a);
            && i in t.db.deliveries && Stays(t, i, t.db.deliveries[i])
            && t.db.deliveries[i].status.Succeeded?
            && t.db.deliveries[i].nextAt.None? && t.db.deliveries[i].leaseUntil.None? && t.db.deliveries[i].token.None?
            && t.db.deliveries[i].recorded == s.db.deliveries[i].recorded + [Pc(s, a.w).row.attempts]
  {
    var i := Pc(s, a.w).id;
    assert i in s.issued by {
      assert RefsOk(s.db, s.issued);
    }
    IssuedGrows(s, a);
    hide Core, FreshIds, Apply;
    WorkerRow(s, a, i);
  }

  lemma NoClaimOfSettled(s: State, claim: Action)
    requires claim.TakeClaim?
    requires claim.id in s.db.deliveries ==>
               !s.db.deliveries[claim.id].status.Pending? && !s.db.deliveries[claim.id].status.Processing?
    ensures Apply(s, claim).db == s.db
  {
  }

  /** A delivered attempt leaves its row succeeded, without retry time, lease or token, and with the attempt
      recorded. In every continuation, manual retries included, the row is unchanged while it exists and
      no claim of it changes any table. */
  lemma DeliveredIsFinal(s: State, finish: Action, acts: seq<Action>, claim: Action)
    requires Core(s) && FreshIds(s, finish) && Delivers(s, finish) && FreshRun(Apply(s, finish), acts)
    requires claim.TakeClaim? && claim.id == Pc(s, finish.w).id
    ensures var i, t, u := Pc(s, finish.w).id, Apply(s, finish), Run(Apply(s, finish), acts);
            && i in t.db.deliveries
            && t.db.deliveries[i].status.Succeeded?
            && t.db.deliveries[i].nextAt.None? && t.db.deliveries[i].leaseUntil.None? && t.db.deliveries[i].token.None?
            && t.db.deliveries[i].recorded == s.db.deliveries[i].recorded + [Pc(s, finish.w).row.attempts]
            && (i in u.db.deliveries ==> u.db.deliveries[i] == t.db.deliveries[i])
            && Apply(u, claim).db == u.db
  {
    hide Core, FreshIds, Apply, FreshRun, Leases;
    var i, t := Pc(s, finish.w).id, Apply(s, finish);
    DeliveredRow(s, finish);
    ApplyKeepsCore(s, finish);
    SucceededAlong(t, acts, i, t.db.deliveries[i]);
    NoClaimOfSettled(Run(t, acts), claim);
  }

  predicate Succeeded(s: State, i: Uuid) {
    i in s.db.deliveries && s.db.deliveries[i].status.Succeeded?
  }

  /** A row becomes succeeded by such a step only. */
  lemma SucceedsOnlyByDelivery(s: State, a: Action, i: Uuid)
    requires Core(s) && FreshIds(s, a) && !Succeeded(s, i)
    ensures Succeeded(Apply(s, a), i) <==> Delivers(s, a) && Pc(s, a.w).id == i
  {
    if Delivers(s, a) && Pc(s, a.w).id == i {
      DeliveredRow(s, a);
    } else if Succeeded(Apply(s, a), i) {
      hide Core, FreshIds, Apply;
      if i in s.db.deliveries {
        RowAfterIsExact(s, a, i);
        NotDelivered(s, a, i, Apply(s, a).db.deliveries[i]);
      } else {
        NewRowsAreReports(s, a, i);
      }
    }
  }

  lemma NotDelivered(s: State, a: Action, i: Uuid, d': Delivery)
    requires i in s.db.deliveries && RowAfter(s, a, i, s.db.deliveries[i], d')
    requires !s.db.deliveries[i].status.Succeeded? && !(Delivers(s, a) && Pc(s, a.w).id == i)
    ensures !d'.status.Succeeded?
  {
    hide Apply, EventOver, IsCandidate;
  }

  /** In every run from empty tables a succeeded row was delivered: some worker that had it under lease
      said so. */
  lemma {:induction false} SucceededWasDelivered(start: Time, acts: seq<Action>, i: Uuid) returns (k: nat)
    requires FreshRun(Initial(start), acts) && Succeeded(Run(Initial(start), acts), i)
    ensures k < |acts| && Delivers(Run(Initial(start), acts[..k]), acts[k]) && Pc(Run(Initial(start), acts[..k]), acts[k].w).id == i
  {
    hide Core, FreshIds, Apply, Delivers, Succeeded, Initial;
    if acts == [] {
      NoneSucceeded(start, i);
    } else {
      var front, last := acts[..|acts| - 1], acts[|acts| - 1];
      assert acts == front + [last];
      RunAppend(Initial(start), front, [last]);
      OneStep(Run(Initial(start), front), last);
      ReachableCore(start, front);
      if Succeeded(Run(Initial(start), front), i) {
        k := SucceededWasDelivered(start, front, i);
        assert front[..k] == acts[..k];
      } else {
        SucceedsOnlyByDelivery(Run(Initial(start), front), last, i);
        k := |front|;
      }
    }
  }

  lemma NoneSucceeded(start: Time, i: Uuid)
    ensures !Succeeded(Initial(start), i)
  {
  }

  // ----- a claimed notification

  /** Worker w takes its next step, or vanishes. */
  predicate ActsAs(a: Action, w: WorkerId) {
    IsWorkerStep(a) && a.w == w
  }

  /** The claim is granted. */
  predicate Claims(s: State, a: Action) {
    a.TakeClaim? && Pc(s, a.w).Idle? && IsCandidate(s.db, a.id, a.now)
  }

  /** Row i is d and leased to worker w until `end`. */
  predicate LeasedTo(s: State, w: WorkerId, i: Uuid, d: Delivery, end: Time) {
    Leases(s, w, i) && s.db.deliveries[i] == d && d.leaseUntil == Some(end)
  }

  lemma ClaimGrants(s: State, a: Action)
    requires Claims(s, a)
    ensures a.id in s.db.deliveries
    ensures var d := s.db.deliveries[a.id].(status := Processing, leaseUntil := Some(a.now + 180), token := Some(a.token));
            LeasedTo(Apply(s, a), a.w, a.id, d, a.now + 180) && Pc(Apply(s, a), a.w) == Claimed(a.id, d)
  {
    hide ChannelFree, FirstInLine, ChannelCool;
  }

  lemma TokensDiffer(s: State, v: WorkerId, w: WorkerId, i: Uuid)
    requires Core(s) && Leases(s, v, i) && Leases(s, w, i)
    ensures v == w
  {
  }

  lemma OthersLeaveRow(s: State, a: Action, w: WorkerId, i: Uuid, d: Delivery, end: Time, d': Delivery)
    requires LeasedTo(s, w, i, d, end) && !ActsAs(a, w) && TimeOf(a) < end
    requires IsWorkerStep(a) ==> !Leases(s, a.w, i)
    requires RowAfter(s, a, i, d, d')
    ensures d' == d
  {
    hide Apply, EventOver, ChannelFree, FirstInLine, ChannelCool;
  }

  lemma OthersLeaveWorker(s: State, a: Action, w: WorkerId)
    requires !ActsAs(a, w)
    ensures Pc(Apply(s, a), w) == Pc(s, w)
  {
    hide IsCandidate, MayStart, SuppressNow;
  }

  lemma LeaseStays(s: State, a: Action, w: WorkerId, i: Uuid, d: Delivery, end: Time)
    requires Core(s) && FreshIds(s, a) && LeasedTo(s, w, i, d, end) && !ActsAs(a, w) && TimeOf(a) < end
    requires i in Apply(s, a).db.deliveries
    ensures LeasedTo(Apply(s, a), w, i, d, end) && Pc(Apply(s, a), w) == Pc(s, w)
  {
    hide Core, FreshIds, Apply, TimeOf;
    OthersLeaveWorker(s, a, w);
    RowAfterIsExact(s, a, i);
    if IsWorkerStep(a) && Leases(s, a.w, i) {
      TokensDiffer(s, a.w, w, i);
    }
    OthersLeaveRow(s, a, w, i, d, end, Apply(s, a).db.deliveries[i]);
  }

  lemma RowsAreIssued(s: State, i: Uuid)
    requires Core(s) && i in s.db.deliveries
    ensures i in s.issued
  {
    assert RefsOk(s.db, s.issued);
  }

  lemma {:induction false} RowWasThere(s: State, acts: seq<Action>, i: Uuid)
    requires Core(s) && FreshRun(s, acts) && i in s.issued && i in Run(s, acts).db.deliveries
    ensures i in s.db.deliveries
    decreases |acts|
  {
    hide Core, FreshIds, Apply;
    if acts == [] {
    } else {
      ApplyKeepsCore(s, acts[0]);
      IssuedGrows(s, acts[0]);
      RowWasThere(Apply(s, acts[0]), acts[1..], i);
      NotReborn(s, acts[0], i);
    }
  }

  /** In a run without steps of w in which the row is not deleted, the lease holds until its end. */
  lemma {:induction false} LeaseHolds(s: State, acts: seq<Action>, w: WorkerId, i: Uuid, d: Delivery, end: Time)
    requires Core(s) && LegalRun(s, acts) && LeasedTo(s, w, i, d, end)
    requires (forall k | 0 <= k < |acts| :: !ActsAs(acts[k], w)) && Run(s, acts).clock < end
    requires i in Run(s, acts).db.deliveries
    ensures LeasedTo(Run(s, acts), w, i, d, end) && Pc(Run(s, acts), w) == Pc(s, w)
    decreases |acts|
  {
    hide Core, FreshIds, Apply, LeasedTo, InTime, Pc, ActsAs;
    if acts == [] {
    } else {
      var t := Apply(s, acts[0]);
      ApplyKeepsCore(s, acts[0]);
      ClockAdvances(s, acts[0]);
      ClockGrows(t, acts[1..]);
      LegalIsFresh(t, acts[1..]);
      LeasedRow(s, w, i, d, end);
      RowsAreIssued(s, i);
      IssuedGrows(s, acts[0]);
      RowWasThere(t, acts[1..], i);
      LeaseStays(s, acts[0], w, i, d, end);
      LeaseHolds(t, acts[1..], w, i, d, end);
    }
  }

  lemma LeasedRow(s: State, w: WorkerId, i: Uuid, d: Delivery, end: Time)
    requires LeasedTo(s, w, i, d, end)
    ensures i in s.db.deliveries
  {
  }

  /** Within the lease no claim on the row's channel succeeds. */
  lemma LeaseExcludes(s: State, w: WorkerId, i: Uuid, d: Delivery, end: Time, other: Action)
    requires LeasedTo(s, w, i, d, end) && other.TakeClaim? && other.now < end
    requires other.id in s.db.deliveries && s.db.deliveries[other.id].channel == d.channel
    ensures Apply(s, other).db == s.db
  {
    hide FirstInLine, ChannelCool;
  }

  /** The row that a claim leaves. */
  function ClaimedUntil(d: Delivery, token: Uuid, end: Time): Delivery {
    d.(status := Processing, leaseUntil := Some(end), token := Some(token))
  }

  /** A claim made at t holds for 180 seconds: as long as every timestamp is below t + 180, the worker
      takes no step and the row is not deleted, the row stays as claimed and no other claim of it, or of
      any row of its channel, changes a table. */
  lemma ClaimLasts(s: State, claim: Action, acts: seq<Action>, other: Action)
    requires Core(s) && Legal(s, claim) && Claims(s, claim) && LegalRun(Apply(s, claim), acts)
    requires forall k | 0 <= k < |acts| :: !ActsAs(acts[k], claim.w)
    requires Run(Apply(s, claim), acts).clock < claim.now + 180 && claim.id in Run(Apply(s, claim), acts).db.deliveries
    ensures var i, u := claim.id, Run(Apply(s, claim), acts);
            u.db.deliveries[i] == ClaimedUntil(s.db.deliveries[i], claim.token, claim.now + 180)
    ensures var i, u := claim.id, Run(Apply(s, claim), acts);
            other.TakeClaim? && other.now < claim.now + 180 && other.id in u.db.deliveries
            && u.db.deliveries[other.id].channel == s.db.deliveries[i].channel ==>
              Apply(u, other).db == u.db
  {
    hide Core, FreshIds, Apply, InTime, IsCandidate;
    var i, w, t, end := claim.id, claim.w, Apply(s, claim), claim.now + 180;
    ClaimGrants(s, claim);
    var d := ClaimedUntil(s.db.deliveries[i], claim.token, end);
    ApplyKeepsCore(s, claim);
    LeaseHolds(t, acts, w, i, d, end);
    if other.TakeClaim? && other.now < end && other.id in Run(t, acts).db.deliveries
       && Run(t, acts).db.deliveries[other.id].channel == d.channel {
      LeaseExcludes(Run(t, acts), w, i, d, end, other);
    }
  }

  lemma RecheckClears(s: State, r: Action, w: WorkerId, i: Uuid, d: Delivery, end: Time)
    requires LeasedTo(s, w, i, d, end) && r.RecheckSuppression? && r.w == w && Pc(s, w) == Claimed(i, d)
    requires Pc(Apply(s, r), w).Cleared?
    ensures LeasedTo(Apply(s, r), w, i, d, end) && Pc(Apply(s, r), w) == Cleared(i, d)
  {
    hide SuppressNow;
  }

  lemma StartCounts(s: State, start: Action, w: WorkerId, i: Uuid, d: Delivery, end: Time)
    requires LeasedTo(s, w, i, d, end) && start.StartAttempt? && start.w == w && start.now < end && Pc(s, w).Cleared?
    ensures var t, d' := Apply(s, start), d.(attempts := d.attempts + 1, cycle := d.cycle + 1);
            i in t.db.deliveries && t.db.deliveries[i] == d' && Pc(t, w) == Sending(i, d')
  {
  }

  /** What the recheck decides: a copy is put back when it cannot be read, and suppressed exactly when it is a first
      report whose event is closed or silenced now; otherwise the worker goes on to send it. */
  lemma RecheckDecides(s: State, r: Action)
    requires r.RecheckSuppression? && Pc(s, r.w).Claimed?
    ensures var pc, pc' := Pc(s, r.w), Pc(Apply(s, r), r.w);
            var e := pc.row.event;
            && (if r.answer.ReadFailed? then pc'.Yielding?
                else if pc.row.kind.Firing? && e.Some? && e.value in s.db.events
                        && (s.db.events[e.value].phase.Closed? || r.answer.Silenced?) then pc'.Silencing?
                else pc'.Cleared?)
            && pc'.id == pc.id && pc'.row == pc.row && Apply(s, r).db == s.db
  {
  }

  /** Within those 180 seconds the worker, once its recheck has cleared the copy, starts the attempt:
      one attempt more is counted and the worker goes on to send. */
  lemma ClaimedAttemptStarts(s: State, claim: Action, before: seq<Action>, recheck: Action, between: seq<Action>, start: Action)
    requires Core(s) && Legal(s, claim) && Claims(s, claim)
    requires LegalRun(Apply(s, claim), before) && Legal(Run(Apply(s, claim), before), recheck)
    requires recheck.RecheckSuppression? && recheck.w == claim.w
    requires var v := Apply(Run(Apply(s, claim), before), recheck);
             && Pc(v, claim.w).Cleared? && LegalRun(v, between)
             && Run(v, between).clock < claim.now + 180 && claim.id in Run(v, between).db.deliveries
    requires forall k | 0 <= k < |before| :: !ActsAs(before[k], claim.w)
    requires forall k | 0 <= k < |between| :: !ActsAs(between[k], claim.w)
    requires start.StartAttempt? && start.w == claim.w && start.now < claim.now + 180
    ensures var d := ClaimedUntil(s.db.deliveries[claim.id], claim.token, claim.now + 180);
            var t := Apply(Run(Apply(Run(Apply(s, claim), before), recheck), between), start);
            && claim.id in t.db.deliveries
            && t.db.deliveries[claim.id] == d.(attempts := d.attempts + 1, cycle := d.cycle + 1)
            && Pc(t, claim.w) == Sending(claim.id, t.db.deliveries[claim.id])
  {
    hide Core, FreshIds, Apply, IsCandidate, LeasedTo, ActsAs;
    var i, w, t, end := claim.id, claim.w, Apply(s, claim), claim.now + 180;
    ClaimGrants(s, claim);
    var d := ClaimedUntil(s.db.deliveries[i], claim.token, end);
    ApplyKeepsCore(s, claim);
    LeasedRow(t, w, i, d, end);
    RowsAreIssued(t, i);
    LegalIsFresh(t, before);
    RunKeepsCore(t, before);
    var u := Run(t, before);
    var v := Apply(u, recheck);
    ApplyKeepsCore(u, recheck);
    LegalIsFresh(v, between);
    ClockAdvances(u, recheck);
    ClockGrows(v, between);
    IssuedAlong(t, before, i);
    IssuedGrows(u, recheck);
    RowWasThere(v, between, i);
    NotReborn(u, recheck, i);
    LeaseHolds(t, before, w, i, d, end);
    RecheckClears(u, recheck, w, i, d, end);
    LeaseHolds(v, between, w, i, d, end);
    StartCounts(Run(v, between), start, w, i, d, end);
  }

  lemma {:induction false} IssuedAlong(s: State, acts: seq<Action>, i: Uuid)
    requires i in s.issued
    ensures i in Run(s, acts).issued
    decreases |acts|
  {
    hide Apply;
    if acts == [] {
    } else {
      IssuedGrows(s, acts[0]);
      IssuedAlong(Apply(s, acts[0]), acts[1..], i);
    }
  }

  lemma LeaseOver(s: State, w: WorkerId, i: Uuid, d: Delivery, end: Time)
    requires ExclusionOk(s.db.deliveries, Ordered(s.clock)) && LeasedTo(s, w, i, d, end) && s.clock < end
    ensures IsCandidate(s.db, i, end) <==>
              ChannelCool(s.db, d.channel, end) && FirstInLine(s.db.deliveries, i)
  {
    hide FirstInLine, ChannelCool;
  }

  /** At t + 180 the row can be claimed again: nothing but a cooldown of its channel, or an earlier report
      of its event still in flight there, stands in the way. */
  lemma ClaimEnds(s: State, claim: Action, acts: seq<Action>)
    requires Inv(s) && Legal(s, claim) && Claims(s, claim) && LegalRun(Apply(s, claim), acts)
    requires forall k | 0 <= k < |acts| :: !ActsAs(acts[k], claim.w)
    requires Run(Apply(s, claim), acts).clock < claim.now + 180 && claim.id in Run(Apply(s, claim), acts).db.deliveries
    ensures var i, u := claim.id, Run(Apply(s, claim), acts);
            IsCandidate(u.db, i, claim.now + 180) <==>
              ChannelCool(u.db, s.db.deliveries[i].channel, claim.now + 180) && FirstInLine(u.db.deliveries, i)
  {
    var i, w, t, end := claim.id, claim.w, Apply(s, claim), claim.now + 180;
    ClaimGrants(s, claim);
    var d := ClaimedUntil(s.db.deliveries[i], claim.token, end);
    ApplyKeepsInv(s, claim);
    RunKeepsInv(t, acts);
    assert ExclusionOk(Run(t, acts).db.deliveries, Ordered(Run(t, acts).clock));
    InvIsCore(t);
    hide InvUnder, FreshIds, Apply, ChannelFree, FirstInLine, ChannelCool, LeasedTo, ActsAs;
    LeaseHolds(t, acts, w, i, d, end);
    LeaseOver(Run(t, acts), w, i, d, end);
  }
}
