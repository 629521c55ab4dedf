/** The failed-login limiter of backend/src/admin_auth.rs: windows, blocks, pruning and eviction. */
module AuthLimiter {
  import opened Wrappers

  type Time = int
  type Key = string

  const AUTH_FAILURE_LIMIT: nat := 5
  const AUTH_WINDOW_SECONDS: Time := 300
  const AUTH_BLOCK_SECONDS: Time := 300

  datatype Attempt = Attempt(failures: nat, windowStart: Time, blockedUntil: Time)

  type Attempts = map<Key, Attempt>

  const UNSEEN: Attempt := Attempt(0, 0, 0)

  predicate Alive(a: Attempt, now: Time) {
    a.blockedUntil > now || now - a.windowStart <= AUTH_WINDOW_SECONDS
  }

  function Pruned(m: Attempts, now: Time): Attempts {
    map k | k in m && Alive(m[k], now) :: m[k]
  }

  predicate Blocked(m: Attempts, k: Key, now: Time) {
    k in m && m[k].blockedUntil > now
  }

  function Entry(m: Attempts, k: Key): Attempt {
    if k in m then m[k] else UNSEEN
  }

  /** One more failure: a new window if the old one is over, a block from the fifth failure on. */
  function Hit(a: Attempt, now: Time): Attempt {
    var current := if a.windowStart == 0 || now - a.windowStart > AUTH_WINDOW_SECONDS then Attempt(0, now, 0) else a;
    var failures := current.failures + 1;
    Attempt(failures, current.windowStart, if failures >= AUTH_FAILURE_LIMIT then now + AUTH_BLOCK_SECONDS else current.blockedUntil)
  }

  /** A key that is not blocked and whose window began first. */
  ghost predicate IsOldestUnblocked(m: Attempts, v: Key, now: Time) {
    && v in m && m[v].blockedUntil <= now
    && forall k | k in m && m[k].blockedUntil <= now :: m[v].windowStart <= m[k].windowStart
  }

  predicate Full(m: Attempts, k: Key, maxKeys: Option<nat>) {
    k !in m && maxKeys.Some? && |m| >= maxKeys.value
  }

  /** What recording a failure makes of the map `m`. */
  ghost predicate Recorded(m: Attempts, after: Attempts, k: Key, now: Time, maxKeys: Option<nat>) {
    if !Full(m, k, maxKeys) then after == m[k := Hit(Entry(m, k), now)]
    else if forall j | j in m :: m[j].blockedUntil > now then after == m
    else exists v :: IsOldestUnblocked(m, v, now) && after == (m - {v})[k := Hit(UNSEEN, now)]
  }

  class Limiter {
    var attempts: Attempts

    method Prune(now: Time)
      modifies this
      ensures attempts == Pruned(old(attempts), now)
    {
      attempts := map k | k in attempts && (attempts[k].blockedUntil > now || now - attempts[k].windowStart <= AUTH_WINDOW_SECONDS) :: attempts[k];
    }

    /** ensure_attempt_allowed_in */
    method EnsureAllowed(k: Key, now: Time) returns (allowed: bool)
      modifies this
      ensures attempts == AfterPruning(old(attempts), Check(k, now))
      ensures allowed <==> !Blocked(old(attempts), k, now)
    {
      Prune(now);
      allowed := !(k in attempts && attempts[k].blockedUntil > now);
    }

    method OldestUnblocked(now: Time) returns (victim: Option<Key>)
      ensures victim.None? ==> forall k | k in attempts :: attempts[k].blockedUntil > now
      ensures victim.Some? ==> victim.value in attempts && attempts[victim.value].blockedUntil <= now
      ensures victim.Some? ==> IsOldestUnblocked(attempts, victim.value, now)
    {
      victim := None;
      var todo := attempts.Keys;
      while todo != {}
        invariant todo <= attempts.Keys
        invariant victim.None? ==> forall k | k in attempts && k !in todo :: attempts[k].blockedUntil > now
        invariant victim.Some? ==> victim.value in attempts && attempts[victim.value].blockedUntil <= now
        invariant victim.Some? ==> forall k | k in attempts && k !in todo && attempts[k].blockedUntil <= now ::
                    attempts[victim.value].windowStart <= attempts[k].windowStart
        decreases todo
      {
        var k :| k in todo;
        todo := todo - {k};
        if attempts[k].blockedUntil <= now && (victim.None? || attempts[k].windowStart < attempts[victim.value].windowStart) {
          victim := Some(k);
        }
      }
    }

    /** record_auth_failure_locked: a bounded map makes room by forgetting the oldest key that is not
        blocked, and gives up when every key is. */
    method RecordFailureLocked(k: Key, now: Time, maxKeys: Option<nat>)
      modifies this
      ensures Recorded(old(attempts), attempts, k, now, maxKeys)
    {
      hide IsOldestUnblocked;
      if k !in attempts && maxKeys.Some? && |attempts| >= maxKeys.value {
        var victim := OldestUnblocked(now);
        if victim.None? {
          return;
        }
        attempts := attempts - {victim.value};
      }
      var attempt := Entry(attempts, k);
      if attempt.windowStart == 0 || now - attempt.windowStart > AUTH_WINDOW_SECONDS {
        attempt := Attempt(0, now, 0);
      }
      attempt := attempt.(failures := attempt.failures + 1);
      if attempt.failures >= AUTH_FAILURE_LIMIT {
        attempt := attempt.(blockedUntil := now + AUTH_BLOCK_SECONDS);
      }
      attempts := attempts[k := attempt];
    }

    /** record_auth_failure_in */
    method RecordFailure(k: Key, now: Time, maxKeys: Option<nat>)
      modifies this
      ensures maxKeys.Some? && |old(attempts)| <= maxKeys.value ==> |attempts| <= maxKeys.value
      ensures !Full(Pruned(old(attempts), now), k, maxKeys) || (exists j | j in Pruned(old(attempts), now) :: !Blocked(old(attempts), j, now)) ==>
                k in attempts && attempts[k] == Hit(Entry(Pruned(old(attempts), now), k), now)
      ensures forall j | j != k && Blocked(old(attempts), j, now) :: j in attempts && attempts[j] == old(attempts)[j]
      ensures forall j | j in attempts && j != k :: j in old(attempts) && attempts[j] == old(attempts)[j]
      ensures maxKeys.None? ==> attempts == AfterPruning(old(attempts), Fail(k, now))
    {
      Prune(now);
      ghost var pruned := attempts;
      RecordFailureLocked(k, now, maxKeys);
      PruningShrinks(old(attempts), now);
      if !Full(pruned, k, maxKeys) || exists j | j in pruned :: pruned[j].blockedUntil <= now {
        RecordingCounts(pruned, attempts, k, now, maxKeys);
      }
      RecordingIsLocal(pruned, attempts, k, now, maxKeys);
      if maxKeys.Some? && |old(attempts)| <= maxKeys.value {
        RecordingIsBounded(pruned, attempts, k, now, maxKeys);
      }
    }

    /** clear_source_auth_failures and clear_account_auth_failures */
    method Clear(k: Key)
      modifies this
      ensures attempts == AfterPruning(old(attempts), Forget(k))
      ensures forall now: Time :: !Blocked(attempts, k, now)
    {
      attempts := attempts - {k};
    }
  }

  lemma RecordingCounts(m: Attempts, after: Attempts, k: Key, now: Time, maxKeys: Option<nat>)
    requires Recorded(m, after, k, now, maxKeys)
    requires !Full(m, k, maxKeys) || exists j | j in m :: m[j].blockedUntil <= now
    ensures k in after && after[k] == Hit(Entry(m, k), now)
  {
  }

  lemma RecordingIsLocal(m: Attempts, after: Attempts, k: Key, now: Time, maxKeys: Option<nat>)
    requires Recorded(m, after, k, now, maxKeys)
    ensures forall j | j != k && Blocked(m, j, now) :: j in after && after[j] == m[j]
    ensures forall j | j in after && j != k :: j in m && after[j] == m[j]
  {
  }

  lemma SizeWith(m: Attempts, k: Key, a: Attempt)
    ensures |m[k := a]| == if k in m then |m| else |m| + 1
  {
    assert m[k := a].Keys == m.Keys + {k};
    assert |m[k := a]| == |m[k := a].Keys| && |m| == |m.Keys|;
  }

  lemma SizeWithout(m: Attempts, v: Key)
    requires v in m
    ensures |m - {v}| == |m| - 1
  {
    assert (m - {v}).Keys == m.Keys - {v};
    assert |m - {v}| == |(m - {v}).Keys| && |m| == |m.Keys|;
  }

  lemma RecordingIsBounded(m: Attempts, after: Attempts, k: Key, now: Time, maxKeys: Option<nat>)
    requires Recorded(m, after, k, now, maxKeys) && maxKeys.Some? && |m| <= maxKeys.value
    ensures |after| <= maxKeys.value
  {
    hide Hit, Entry;
    if !Full(m, k, maxKeys) {
      SizeWith(m, k, Hit(Entry(m, k), now));
    } else if exists j | j in m :: m[j].blockedUntil <= now {
      var v :| IsOldestUnblocked(m, v, now) && after == (m - {v})[k := Hit(UNSEEN, now)];
      SizeWithout(m, v);
      SizeWith(m - {v}, k, Hit(UNSEEN, now));
    }
  }

  lemma PruningShrinks(m: Attempts, now: Time)
    ensures |Pruned(m, now)| <= |m|
  {
    var p := Pruned(m, now);
    assert p.Keys <= m.Keys;
    assert m.Keys == p.Keys + (m.Keys - p.Keys);
    assert |m.Keys| == |p.Keys| + |m.Keys - p.Keys|;
  }

  // ----- pruning is invisible

  datatype Op = Check(k: Key, now: Time) | Fail(k: Key, now: Time) | Forget(k: Key)

  function AfterPruning(m: Attempts, op: Op): Attempts {
    match op
    case Check(k, now) => Pruned(m, now)
    case Fail(k, now) => Pruned(m, now)[k := Hit(Entry(Pruned(m, now), k), now)]
    case Forget(k) => m - {k}
  }

  function AfterPlain(m: Attempts, op: Op): Attempts {
    match op
    case Check(k, now) => m
    case Fail(k, now) => m[k := Hit(Entry(m, k), now)]
    case Forget(k) => m - {k}
  }

  /** The map after a run as the program executes it, pruning first in every operation. */
  function Run(ops: seq<Op>): Attempts {
    if ops == [] then map[] else AfterPruning(Run(ops[..|ops| - 1]), ops[|ops| - 1])
  }

  function RunPlain(ops: seq<Op>): Attempts {
    if ops == [] then map[] else AfterPlain(RunPlain(ops[..|ops| - 1]), ops[|ops| - 1])
  }

  /** The time of the latest timed operation. */
  function Clock(ops: seq<Op>): Time {
    if ops == [] then 0
    else if ops[|ops| - 1].Forget? then Clock(ops[..|ops| - 1])
    else ops[|ops| - 1].now
  }

  /** Times are positive and never go back. */
  predicate Monotone(ops: seq<Op>) {
    ops == []
    || (Monotone(ops[..|ops| - 1])
        && (!ops[|ops| - 1].Forget? ==> 0 < ops[|ops| - 1].now && Clock(ops[..|ops| - 1]) <= ops[|ops| - 1].now))
  }

  /** The pruned map lacks only entries that no longer matter. */
  ghost predicate Agrees(pruned: Attempts, plain: Attempts, now: Time) {
    && (forall k | k in pruned :: k in plain && plain[k] == pruned[k])
    && (forall k | k in plain && k !in pruned :: !Alive(plain[k], now))
  }

  lemma {:induction false} RunsAgree(ops: seq<Op>)
    requires Monotone(ops)
    ensures Agrees(Run(ops), RunPlain(ops), Clock(ops))
  {
    if ops == [] {
    } else {
      RunsAgree(ops[..|ops| - 1]);
    }
  }

  /** Pruning before every operation changes no answer, after any run whose clock does not go back. */
  lemma PruningIsInvisible(ops: seq<Op>, k: Key, now: Time)
    requires Monotone(ops) && Clock(ops) <= now
    ensures Blocked(Run(ops), k, now) == Blocked(RunPlain(ops), k, now)
  {
    RunsAgree(ops);
  }

  // ----- what the answers mean

  /** The times of the failures of key k since it was last cleared, oldest first. */
  function Since(ops: seq<Op>, k: Key): seq<Time> {
    if ops == [] then []
    else
      var before, op := ops[..|ops| - 1], ops[|ops| - 1];
      if op.k != k || op.Check? then Since(before, k)
      else if op.Forget? then []
      else Since(before, k) + [op.now]
  }

  /** The failure that opened the window the last one of `times` falls into: a failure opens a window
      when there is none before it or it comes more than 300 seconds after the one that opened the last. */
  function Opening(times: seq<Time>): (i: nat)
    requires times != []
    ensures i < |times|
  {
    var n := |times|;
    if n == 1 || times[n - 1] - times[Opening(times[..n - 1])] > 300 then n - 1 else Opening(times[..n - 1])
  }

  /** Failure j comes more than 300 seconds after the failure that opened the window before it. */
  predicate Opens(times: seq<Time>, j: nat)
    requires 0 < j < |times|
  {
    times[j] - times[Opening(times[..j])] > 300
  }

  /** Failures are listed in order, from the first positive time to the clock. */
  lemma {:induction false} SinceIsOrdered(ops: seq<Op>, k: Key)
    requires Monotone(ops)
    ensures 0 <= Clock(ops)
    ensures forall i | 0 <= i < |Since(ops, k)| :: 0 < Since(ops, k)[i] <= Clock(ops)
    ensures forall i, j | 0 <= i <= j < |Since(ops, k)| :: Since(ops, k)[i] <= Since(ops, k)[j]
  {
    if ops == [] {
    } else {
      SinceIsOrdered(ops[..|ops| - 1], k);
    }
  }

  /** What the limiter keeps of a key, said of its failures alone. */
  ghost predicate EntryMeans(a: Attempt, times: seq<Time>) {
    && times != []
    && a.windowStart == times[Opening(times)]
    && a.failures == |times| - Opening(times)
    && a.blockedUntil == (if a.failures >= 5 then times[|times| - 1] + 300 else 0)
  }

  lemma {:induction false} EntryIsExact(ops: seq<Op>, k: Key)
    requires Monotone(ops)
    ensures k in RunPlain(ops) <==> Since(ops, k) != []
    ensures k in RunPlain(ops) ==> EntryMeans(RunPlain(ops)[k], Since(ops, k))
  {
    if ops == [] {
    } else {
      var before, op := ops[..|ops| - 1], ops[|ops| - 1];
      EntryIsExact(before, k);
      if op.Fail? && op.k == k {
        SinceIsOrdered(before, k);
        assert Since(ops, k)[..|Since(before, k)|] == Since(before, k);
      }
    }
  }

  /** A key is refused exactly when five or more of its failures since it last succeeded, counted from the
      one that opened the latest window, have come in, and the latest is less than 300 seconds old. */
  lemma RefusedIff(ops: seq<Op>, k: Key, now: Time)
    requires Monotone(ops) && Clock(ops) <= now
    ensures var times := Since(ops, k);
            Blocked(Run(ops), k, now) <==>
              times != [] && |times| - Opening(times) >= 5 && now < times[|times| - 1] + 300
  {
    PruningIsInvisible(ops, k, now);
    EntryIsExact(ops, k);
  }

  lemma {:induction false} WindowIsShort(times: seq<Time>, j: nat)
    requires times != [] && Opening(times) <= j < |times|
    requires forall a, b | 0 <= a <= b < |times| :: times[a] <= times[b]
    ensures times[Opening(times)] <= times[j] <= times[Opening(times)] + 300
  {
    var n := |times|;
    if n == 1 || Opens(times, n - 1) {
    } else if j < n - 1 {
      WindowIsShort(times[..n - 1], j);
    }
  }

  /** Nobody is refused without five failures since the last success within the 300 seconds of the
      latest window. */
  lemma RefusalIsEarned(ops: seq<Op>, k: Key, now: Time)
    requires Monotone(ops) && Clock(ops) <= now && Blocked(Run(ops), k, now)
    ensures var times := Since(ops, k);
            && times != [] && |times| - Opening(times) >= 5
            && forall j | Opening(times) <= j < |times| :: times[Opening(times)] <= times[j] <= times[Opening(times)] + 300
  {
    var times := Since(ops, k);
    RefusedIff(ops, k, now);
    SinceIsOrdered(ops, k);
    forall j | Opening(times) <= j < |times| ensures times[Opening(times)] <= times[j] <= times[Opening(times)] + 300 {
      WindowIsShort(times, j);
    }
  }

  // ----- where a window that slides would answer otherwise

  /** The latest window opened at failure s or before exactly when no failure after s opened one. */
  lemma {:induction false} OpenedBefore(times: seq<Time>, s: nat)
    requires s < |times|
    ensures Opening(times) <= s <==> forall j: nat | s < j < |times| :: !Opens(times, j)
  {
    var n := |times|;
    if s == n - 1 {
    } else if Opens(times, n - 1) {
      assert Opening(times) == n - 1;
    } else {
      var front := times[..n - 1];
      OpenedBefore(front, s);
      forall j: nat | s < j < n - 1 ensures Opens(front, j) == Opens(times, j) {
        assert front[..j] == times[..j];
      }
    }
  }

  /** Five failures within 300 seconds, the latest less than 300 seconds ago, are refused exactly when
      none of the last four opened a window. */
  lemma FiveFailuresRefusedIff(ops: seq<Op>, k: Key, now: Time)
    requires Monotone(ops) && Clock(ops) <= now && |Since(ops, k)| >= 5
    requires var times := Since(ops, k); times[|times| - 1] - times[|times| - 5] <= 300 && now < times[|times| - 1] + 300
    ensures var times := Since(ops, k);
            Blocked(Run(ops), k, now) <==> forall j: nat | |times| - 5 < j < |times| :: !Opens(times, j)
  {
    RefusedIff(ops, k, now);
    OpenedBefore(Since(ops, k), |Since(ops, k)| - 5);
  }

  function FailuresAt(k: Key, times: seq<Time>): seq<Op> {
    seq(|times|, i requires 0 <= i < |times| => Fail(k, times[i]))
  }

  lemma {:induction false} FailuresAre(k: Key, times: seq<Time>)
    requires forall i | 0 <= i < |times| :: 0 < times[i]
    requires forall i, j | 0 <= i <= j < |times| :: times[i] <= times[j]
    ensures Monotone(FailuresAt(k, times)) && Since(FailuresAt(k, times), k) == times
    ensures Clock(FailuresAt(k, times)) == if times == [] then 0 else times[|times| - 1]
  {
    if times == [] {
    } else {
      var front := times[..|times| - 1];
      FailuresAre(k, front);
      assert FailuresAt(k, times)[..|times| - 1] == FailuresAt(k, front);
    }
  }

  lemma OpeningOfMore(times: seq<Time>, t: Time)
    requires times != []
    ensures Opening(times + [t]) == if t - times[Opening(times)] > 300 then |times| else Opening(times)
  {
    assert (times + [t])[..|times|] == times;
  }

  /** A run of failures of one key alone is refused as its times say. */
  lemma AnswerTo(k: Key, times: seq<Time>, now: Time)
    requires times != [] && forall i | 0 <= i < |times| :: 0 < times[i] <= now
    requires forall i, j | 0 <= i <= j < |times| :: times[i] <= times[j]
    ensures Monotone(FailuresAt(k, times)) && Since(FailuresAt(k, times), k) == times && Clock(FailuresAt(k, times)) <= now
    ensures Blocked(Run(FailuresAt(k, times)), k, now) <==> |times| - Opening(times) >= 5 && now < times[|times| - 1] + 300
  {
    FailuresAre(k, times);
    RefusedIff(FailuresAt(k, times), k, now);
  }

  /** Six failures, the last five within four seconds, and no refusal: the one at 302 opened a new window. */
  lemma BurstAcrossWindows(k: Key)
    ensures !Blocked(Run(FailuresAt(k, [1, 300, 301, 302, 303, 304])), k, 304)
  {
    OpeningOfMore([1], 300);
    OpeningOfMore([1, 300], 301);
    OpeningOfMore([1, 300, 301], 302);
    OpeningOfMore([1, 300, 301, 302], 303);
    OpeningOfMore([1, 300, 301, 302, 303], 304);
    assert [1] + [300] == [1, 300];
    assert [1, 300] + [301] == [1, 300, 301];
    assert [1, 300, 301] + [302] == [1, 300, 301, 302];
    assert [1, 300, 301, 302] + [303] == [1, 300, 301, 302, 303];
    assert [1, 300, 301, 302, 303] + [304] == [1, 300, 301, 302, 303, 304];
    AnswerTo(k, [1, 300, 301, 302, 303, 304], 304);
  }

  // ----- how long a block stands

  /** What was refused after `ops` stays refused until `end`, at every moment of `more`. */
  ghost predicate Stands(ops: seq<Op>, more: seq<Op>, k: Key, end: Time) {
    forall j, now | 0 <= j <= |more| && Clock(ops + more[..j]) <= now < end :: Blocked(Run(ops + more[..j]), k, now)
  }

  /** An operation that ends a window of key k opened at `start`: a success, or a failure after it is over. */
  predicate Ends(op: Op, k: Key, start: Time) {
    op.k == k && (op.Forget? || (op.Fail? && op.now > start + 300))
  }

  lemma SinceOfMore(ops: seq<Op>, op: Op, k: Key)
    ensures Since(ops + [op], k)
         == if op.k != k || op.Check? then Since(ops, k) else if op.Forget? then [] else Since(ops, k) + [op.now]
  {
    assert (ops + [op])[..|ops|] == ops;
  }

  lemma {:induction false} WindowGoesOn(ops: seq<Op>, more: seq<Op>, k: Key)
    requires Since(ops, k) != []
    requires forall j | 0 <= j < |more| :: !Ends(more[j], k, Since(ops, k)[Opening(Since(ops, k))])
    ensures Since(ops, k) <= Since(ops + more, k) && Opening(Since(ops + more, k)) == Opening(Since(ops, k))
  {
    if more == [] {
      assert ops + more == ops;
    } else {
      hide Since, Opening;
      var front, last := more[..|more| - 1], more[|more| - 1];
      WindowGoesOn(ops, front, k);
      SinceOfMore(ops + front, last, k);
      assert ops + more == ops + front + [last];
      assert !Ends(last, k, Since(ops, k)[Opening(Since(ops, k))]);
      if last.Fail? && last.k == k {
        OpeningOfMore(Since(ops + front, k), last.now);
      }
    }
  }

  lemma {:induction false} PrefixIsMonotone(ops: seq<Op>, more: seq<Op>)
    requires Monotone(ops + more)
    ensures Monotone(ops) && Clock(ops) <= Clock(ops + more)
  {
    if more == [] {
      assert ops + more == ops;
    } else {
      assert (ops + more)[..|ops + more| - 1] == ops + more[..|more| - 1];
      PrefixIsMonotone(ops, more[..|more| - 1]);
    }
  }

  lemma SplitMonotone(ops: seq<Op>, more: seq<Op>, j: nat)
    requires Monotone(ops + more) && j <= |more|
    ensures Monotone(ops + more[..j]) && Clock(ops + more[..j]) <= Clock(ops + more)
  {
    assert ops + more == ops + more[..j] + more[j..];
    PrefixIsMonotone(ops + more[..j], more[j..]);
  }

  /** A key that is refused stays refused until 300 seconds after its latest failure exactly when, until
      then, it neither succeeds nor fails once more after its window is over. */
  lemma BlockStandsIff(ops: seq<Op>, more: seq<Op>, k: Key)
    requires Monotone(ops + more) && Blocked(Run(ops), k, Clock(ops))
    requires Since(ops, k) != [] ==> Clock(ops + more) < Since(ops, k)[|Since(ops, k)| - 1] + 300
    ensures Since(ops, k) != []
    ensures k in RunPlain(ops) && RunPlain(ops)[k].blockedUntil == Since(ops, k)[|Since(ops, k)| - 1] + 300
    ensures var times := Since(ops, k);
            Stands(ops, more, k, times[|times| - 1] + 300) <==>
              forall j | 0 <= j < |more| :: !Ends(more[j], k, times[Opening(times)])
  {
    hide Monotone, Run, Since, Opening, Blocked, Clock, Ends;
    PrefixIsMonotone(ops, more);
    RefusedIff(ops, k, Clock(ops));
    EntryIsExact(ops, k);
    var times := Since(ops, k);
    var start, end := times[Opening(times)], times[|times| - 1] + 300;
    if forall j | 0 <= j < |more| :: !Ends(more[j], k, start) {
      forall j, now | 0 <= j <= |more| && Clock(ops + more[..j]) <= now < end ensures Blocked(Run(ops + more[..j]), k, now) {
        StillRefused(ops, more, k, j, now);
      }
    } else {
      var j := FirstEnd(more, k, start);
      NoLongerRefused(ops, more, k, j);
      SplitMonotone(ops, more, j + 1);
    }
  }

  lemma StillRefused(ops: seq<Op>, more: seq<Op>, k: Key, j: nat, now: Time)
    requires Monotone(ops + more) && j <= |more| && Since(ops, k) != []
    requires var times := Since(ops, k);
             |times| - Opening(times) >= 5 && Clock(ops + more[..j]) <= now < times[|times| - 1] + 300
             && forall i | 0 <= i < |more| :: !Ends(more[i], k, times[Opening(times)])
    ensures Blocked(Run(ops + more[..j]), k, now)
  {
    var times, longer := Since(ops, k), Since(ops + more[..j], k);
    SplitMonotone(ops, more, j);
    WindowGoesOn(ops, more[..j], k);
    RefusedIff(ops + more[..j], k, now);
    SinceIsOrdered(ops + more[..j], k);
    assert longer[|times| - 1] == times[|times| - 1];
  }

  lemma {:induction false} FirstEnd(more: seq<Op>, k: Key, start: Time) returns (j: nat)
    requires exists i :: 0 <= i < |more| && Ends(more[i], k, start)
    ensures j < |more| && Ends(more[j], k, start) && forall i | 0 <= i < j :: !Ends(more[i], k, start)
  {
    j := 0;
    while !Ends(more[j], k, start)
      invariant j < |more| && forall i | 0 <= i < j :: !Ends(more[i], k, start)
      decreases |more| - j
    {
      j := j + 1;
    }
  }

  lemma NoLongerRefused(ops: seq<Op>, more: seq<Op>, k: Key, j: nat)
    requires Monotone(ops + more) && j < |more| && Since(ops, k) != []
    requires var start := Since(ops, k)[Opening(Since(ops, k))];
             Ends(more[j], k, start) && forall i | 0 <= i < j :: !Ends(more[i], k, start)
    ensures !Blocked(Run(ops + more[..j + 1]), k, Clock(ops + more[..j + 1]))
  {
    hide Monotone, Run, Since, Opening, Blocked, Clock;
    SplitMonotone(ops, more, j + 1);
    WindowGoesOn(ops, more[..j], k);
    assert ops + more[..j + 1] == ops + more[..j] + [more[j]];
    WindowEnds(ops + more[..j], more[j], k);
  }

  lemma OpeningOfOne(op: Op)
    ensures op.Fail? ==> Opening([op.now]) == 0
  {
  }

  lemma WindowEnds(ops: seq<Op>, op: Op, k: Key)
    requires Monotone(ops + [op]) && Since(ops, k) != [] && Ends(op, k, Since(ops, k)[Opening(Since(ops, k))])
    ensures !Blocked(Run(ops + [op]), k, Clock(ops + [op]))
  {
    hide Monotone, Run, Since, Opening, Blocked, Clock;
    SinceOfMore(ops, op, k);
    OpeningOfOne(op);
    if op.Fail? {
      OpeningOfMore(Since(ops, k), op.now);
    }
    RefusedIff(ops + [op], k, Clock(ops + [op]));
  }

  /** Five failures leave a refusal until 601, and a sixth at 302 lifts it. */
  lemma FurtherFailureLiftsBlock(k: Key)
    ensures Blocked(Run(FailuresAt(k, [1, 2, 3, 4, 301])), k, 301)
    ensures !Blocked(Run(FailuresAt(k, [1, 2, 3, 4, 301, 302])), k, 302)
  {
    FourThen(301);
    FourThen(302);
    OpeningOfMore([1, 2, 3, 4, 301], 302);
    assert [1, 2, 3, 4, 301] + [302] == [1, 2, 3, 4, 301, 302];
    AnswerTo(k, [1, 2, 3, 4, 301], 301);
    AnswerTo(k, [1, 2, 3, 4, 301, 302], 302);
  }

  lemma FourThen(t: Time)
    ensures Opening([1, 2, 3, 4, t]) == if t > 301 then 4 else 0
  {
    OpeningOfMore([1], 2);
    OpeningOfMore([1, 2], 3);
    OpeningOfMore([1, 2, 3], 4);
    OpeningOfMore([1, 2, 3, 4], t);
    assert [1] + [2] == [1, 2];
    assert [1, 2] + [3] == [1, 2, 3];
    assert [1, 2, 3] + [4] == [1, 2, 3, 4];
    assert [1, 2, 3, 4] + [t] == [1, 2, 3, 4, t];
  }

  /** A fifth failure more than 300 seconds after the first of them is not refused. */
  lemma LateFifthFailure(k: Key)
    ensures !Blocked(Run(FailuresAt(k, [1, 2, 3, 4, 305])), k, 305)
  {
    FourThen(305);
    AnswerTo(k, [1, 2, 3, 4, 305], 305);
  }
}
