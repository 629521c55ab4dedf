/** One-time codes of administrators: backend/src/admin_auth.rs (verify_user_code, step-up and its one
    reuse of a login code) and backend/src/auth.rs (verify_totp_counter, the session map). */
module OneTimeCodes {
  import opened Wrappers

  type DeviceId = nat
  type UserId = nat
  type Token = nat
  type Counter = nat
  type Thread = nat

  // ----- the code of a moment

  const PERIOD: int := 30

  /** The counters a code may stand for at a time, in the order they are tried. */
  function Candidates(timestamp: int): seq<Counter> {
    var counter := (if timestamp < 0 then 0 else timestamp) / PERIOD;
    [counter, if counter == 0 then 0 else counter - 1, counter + 1]
  }

  predicate WellFormed(code: string) {
    |code| == 6 && forall i | 0 <= i < 6 :: '0' <= code[i] <= '9'
  }

  /** verify_totp_counter on a trimmed code; `totp` is the code of each counter under the device's secret. */
  method VerifyTotpCounter(totp: Counter -> string, code: string, timestamp: int) returns (found: Option<Counter>)
    ensures found.Some? ==> WellFormed(code) && totp(found.value) == code
    ensures found.Some? ==> -1 <= found.value - (if timestamp < 0 then 0 else timestamp) / PERIOD <= 1
    ensures found.Some? ==> exists k :: 0 <= k < 3 && found.value == Candidates(timestamp)[k]
                                        && forall j | 0 <= j < k :: totp(Candidates(timestamp)[j]) != code
    ensures found.None? <==> !WellFormed(code) || forall k | 0 <= k < 3 :: totp(Candidates(timestamp)[k]) != code
    // in numbers: six digits that are the code of the current period, the one before or the one after, in this order
    ensures var now := (if timestamp < 0 then 0 else timestamp) / 30;
            found == if |code| != 6 || exists i | 0 <= i < 6 :: !('0' <= code[i] <= '9') then None
                     else if totp(now) == code then Some(now)
                     else if now > 0 && totp(now - 1) == code then Some(now - 1)
                     else if totp(now + 1) == code then Some(now + 1)
                     else None
  {
    if !WellFormed(code) {
      return None;
    }
    var candidates := Candidates(timestamp);
    for k := 0 to 3
      invariant (k > 0 ==> totp(candidates[0]) != code) && (k > 1 ==> totp(candidates[1]) != code) && (k > 2 ==> totp(candidates[2]) != code)
    {
      if totp(candidates[k]) == code {
        return Some(candidates[k]);
      }
    }
    found := None;
  }

  // ----- the tables

  datatype Device = Device(user: UserId, last: Option<Counter>)

  datatype Session = Session(user: UserId, device: DeviceId, loginCounter: Option<Counter>)

  type Devices = map<DeviceId, Device>
  type Sessions = map<Token, Session>

  datatype Principal = Principal(token: Token, user: UserId, device: DeviceId)

  /** A device as an earlier query saw it. */
  datatype Row = Row(device: DeviceId, last: Option<Counter>)

  predicate Above(counter: Counter, last: Option<Counter>) {
    last.None? || last.value < counter
  }

  /** The guard of the conditional UPDATE. */
  predicate Claimable(devices: Devices, device: DeviceId, counter: Counter) {
    device in devices && Above(counter, devices[device].last)
  }

  function Claimed(devices: Devices, device: DeviceId, counter: Counter): Devices {
    if Claimable(devices, device, counter) then devices[device := devices[device].(last := Some(counter))] else devices
  }

  predicate IsOwn(sessions: Sessions, p: Principal) {
    p.token in sessions && sessions[p.token].user == p.user && sessions[p.token].device == p.device
  }

  function Cleared(sessions: Sessions, p: Principal): Sessions {
    if IsOwn(sessions, p) then sessions[p.token := sessions[p.token].(loginCounter := None)] else sessions
  }

  predicate Consumable(sessions: Sessions, p: Principal, counter: Counter) {
    IsOwn(sessions, p) && sessions[p.token].loginCounter == Some(counter)
  }

  // ----- the tables updated in place

  class Tables {
    var devices: Devices
    var sessions: Sessions

    /** The conditional UPDATE: whether one row was affected. */
    method Claim(device: DeviceId, counter: Counter) returns (updated: bool)
      modifies this`devices
      ensures updated == Claimable(old(devices), device, counter)
      ensures devices == Claimed(old(devices), device, counter)
      ensures updated <==>
                device in old(devices) && (old(devices)[device].last.None? || old(devices)[device].last.value < counter)
      ensures devices == if updated then old(devices)[device := Device(old(devices)[device].user, Some(counter))] else old(devices)
    {
      updated := device in devices && (devices[device].last.None? || devices[device].last.value < counter);
      if updated {
        devices := devices[device := Device(devices[device].user, Some(counter))];
      }
    }

    /** verify_user_code when nothing interferes: `rows` are the user's devices as queried, `find` is what
        the code stands for on each of them. */
    method VerifyUserCode(rows: seq<Row>, find: DeviceId -> Option<Counter>) returns (accepted: Option<Row>)
      modifies this`devices
      ensures accepted.None? ==> devices == old(devices) && forall k | 0 <= k < |rows| :: !Fits(old(devices), rows[k], find)
      ensures accepted.Some? ==>
                exists k :: 0 <= k < |rows| && rows[k].device == accepted.value.device
                            && Fits(old(devices), rows[k], find) && (forall j | 0 <= j < k :: !Fits(old(devices), rows[j], find))
                            && accepted.value.last == find(rows[k].device)
                            && devices == Claimed(old(devices), rows[k].device, find(rows[k].device).value)
      // when the devices are as they were queried: the first whose code is newer than its last one
      ensures (forall k | 0 <= k < |rows| :: rows[k].device in old(devices) && old(devices)[rows[k].device].last == rows[k].last) ==>
                && (accepted.Some? <==>
                      exists k | 0 <= k < |rows| ::
                        find(rows[k].device).Some? && (rows[k].last.None? || rows[k].last.value < find(rows[k].device).value))
                && (accepted.Some? ==>
                      exists k :: 0 <= k < |rows| && accepted.value == Row(rows[k].device, find(rows[k].device))
                                  && find(rows[k].device).Some?
                                  && (rows[k].last.None? || rows[k].last.value < find(rows[k].device).value)
                                  && (forall j | 0 <= j < k ::
                                        find(rows[j].device).Some? ==>
                                          rows[j].last.Some? && find(rows[j].device).value <= rows[j].last.value)
                                  && devices == old(devices)[rows[k].device :=
                                                  Device(old(devices)[rows[k].device].user, find(rows[k].device))])
    {
      for k := 0 to |rows|
        invariant devices == old(devices)
        invariant forall j | 0 <= j < k :: !Fits(old(devices), rows[j], find)
      {
        var counter := find(rows[k].device);
        if counter.Some? {
          if rows[k].last.Some? && counter.value <= rows[k].last.value {
            continue;
          }
          var updated := Claim(rows[k].device, counter.value);
          if updated {
            return Some(Row(rows[k].device, counter));
          }
        }
      }
      accepted := None;
    }

    /** insert_session */
    method InsertSession(token: Token, session: Session)
      modifies this`sessions
      ensures sessions == old(sessions)[token := session]
    {
      sessions := sessions[token := session];
    }

    /** clear_login_counter_for_session */
    method ClearLoginCounter(p: Principal)
      modifies this`sessions
      ensures sessions == Cleared(old(sessions), p)
      ensures p.token in old(sessions) && old(sessions)[p.token].user == p.user && old(sessions)[p.token].device == p.device ==>
                sessions == old(sessions)[p.token := Session(p.user, p.device, None)]
    {
      if p.token in sessions && sessions[p.token].user == p.user && sessions[p.token].device == p.device {
        sessions := sessions[p.token := Session(p.user, p.device, None)];
      }
    }

    /** The end of consume_login_counter_for_step_up, under the write lock. */
    method ConsumeLoginCounter(p: Principal, allowed: Counter) returns (consumed: bool)
      modifies this`sessions
      ensures consumed == Consumable(old(sessions), p, allowed)
      ensures sessions == if consumed then Cleared(old(sessions), p) else old(sessions)
      ensures consumed <==> p.token in old(sessions) && old(sessions)[p.token] == Session(p.user, p.device, Some(allowed))
      ensures consumed ==> sessions == old(sessions)[p.token := Session(p.user, p.device, None)]
    {
      if p.token !in sessions {
        return false;
      }
      var session := sessions[p.token];
      if session.user != p.user || session.device != p.device || session.loginCounter != Some(allowed) {
        return false;
      }
      sessions := sessions[p.token := session.(loginCounter := None)];
      consumed := true;
    }

    /** revoke_matching_session_entries */
    method RevokeMatching(matching: Session -> bool)
      modifies this`sessions
      ensures forall t :: t in sessions <==> t in old(sessions) && !matching(old(sessions)[t])
      ensures forall t | t in sessions :: sessions[t] == old(sessions)[t]
    {
      sessions := map t | t in sessions && !matching(sessions[t]) :: sessions[t];
    }
  }

  /** Whether a queried row would be accepted against the current table. */
  predicate Fits(devices: Devices, row: Row, find: DeviceId -> Option<Counter>) {
    var counter := find(row.device);
    counter.Some? && Above(counter.value, row.last) && Claimable(devices, row.device, counter.value)
  }

  // ----- many requests at once

  datatype Purpose = Login(user: UserId) | StepUp(principal: Principal)

  datatype Pc =
    | Idle
    | Verifying(purpose: Purpose, rows: seq<Row>)          // devices still to be tried
    | Accepted(purpose: Purpose, device: DeviceId, counter: Counter)
    | Fallback(principal: Principal)                       // no new counter; the login code may be reused
    | Allowed(principal: Principal, counter: Counter)      // the session's login counter, as read
    | Checked(principal: Principal, counter: Counter)      // the code stands for that counter

  /** An accepted code. */
  datatype Use = Fresh(device: DeviceId, counter: Counter) | Reuse(device: DeviceId, counter: Counter, token: Token)

  datatype Origin = Origin(device: DeviceId, counter: Counter)

  datatype State = State(
    devices: Devices,
    sessions: Sessions,
    threads: map<Thread, Pc>,
    log: seq<Use>,
    origins: map<Token, Origin>,     // the login each session came from
    usedDevices: set<DeviceId>)

  datatype Action =
    | BeginLogin(thread: Thread, user: UserId, rows: seq<Row>)
    | BeginStepUp(thread: Thread, principal: Principal, rows: seq<Row>)
    | TryDevice(thread: Thread, found: Option<Counter>)
    | OpenSession(thread: Thread, token: Token)
    | ClearOwn(thread: Thread)
    | ReadAllowed(thread: Thread)
    | CheckCode(thread: Thread, found: Option<Counter>)
    | Consume(thread: Thread)
    | Enrol(thread: Thread, device: DeviceId, user: UserId, counter: Counter, first: bool)
    | DropDevice(device: DeviceId)
    | DropSessions(tokens: set<Token>)
    | Crash(thread: Thread)

  function PcOf(s: State, t: Thread): Pc {
    if t in s.threads then s.threads[t] else Idle
  }

  predicate IsListing(rows: seq<Row>, devices: Devices, user: UserId) {
    && (forall k | 0 <= k < |rows| :: rows[k].device in devices && devices[rows[k].device] == Device(user, rows[k].last))
    && (forall d | d in devices && devices[d].user == user :: exists k :: 0 <= k < |rows| && rows[k].device == d)
  }

  predicate Legal(s: State, action: Action) {
    match action
    case BeginLogin(t, user, rows) => PcOf(s, t).Idle? && IsListing(rows, s.devices, user)
    case BeginStepUp(t, p, rows) => PcOf(s, t).Idle? && IsListing(rows, s.devices, p.user)
    case TryDevice(t, _) => PcOf(s, t).Verifying?
    case OpenSession(t, token) => PcOf(s, t).Accepted? && PcOf(s, t).purpose.Login? && token !in s.origins
    case ClearOwn(t) => PcOf(s, t).Accepted? && PcOf(s, t).purpose.StepUp?
    case ReadAllowed(t) => PcOf(s, t).Fallback?
    case CheckCode(t, _) => PcOf(s, t).Allowed?
    case Consume(t) => PcOf(s, t).Checked?
    case Enrol(t, device, _, _, _) => PcOf(s, t).Idle? && device !in s.usedDevices
    case _ => true
  }

  function At(s: State, t: Thread, pc: Pc): State {
    s.(threads := s.threads[t := pc])
  }

  /** One device of verify_user_code: skipped, or the conditional UPDATE. */
  function Tried(s: State, t: Thread, purpose: Purpose, rows: seq<Row>, found: Option<Counter>): State {
    if rows == [] then At(s, t, if purpose.Login? then Idle else Fallback(purpose.principal))
    else if found.Some? && Above(found.value, rows[0].last) && Claimable(s.devices, rows[0].device, found.value) then
      At(s, t, Accepted(purpose, rows[0].device, found.value))
        .(devices := Claimed(s.devices, rows[0].device, found.value), log := s.log + [Fresh(rows[0].device, found.value)])
    else At(s, t, Verifying(purpose, rows[1..]))
  }

  function Apply(s: State, action: Action): State
    requires Legal(s, action)
  {
    match action
    case BeginLogin(t, user, rows) => At(s, t, Verifying(Login(user), rows))
    case BeginStepUp(t, p, rows) => At(s, t, Verifying(StepUp(p), rows))
    case TryDevice(t, found) => Tried(s, t, PcOf(s, t).purpose, PcOf(s, t).rows, found)
    case OpenSession(t, token) =>
      var pc := PcOf(s, t);
      At(s, t, Idle).(sessions := s.sessions[token := Session(pc.purpose.user, pc.device, Some(pc.counter))],
                      origins := s.origins[token := Origin(pc.device, pc.counter)])
    case ClearOwn(t) => At(s, t, Idle).(sessions := Cleared(s.sessions, PcOf(s, t).purpose.principal))
    case ReadAllowed(t) =>
      var p := PcOf(s, t).principal;
      At(s, t, if IsOwn(s.sessions, p) && s.sessions[p.token].loginCounter.Some?
               then Allowed(p, s.sessions[p.token].loginCounter.value) else Idle)
    case CheckCode(t, found) =>
      var pc := PcOf(s, t);
      At(s, t, if pc.principal.device in s.devices && s.devices[pc.principal.device].user == pc.principal.user
                  && found == Some(pc.counter)
               then Checked(pc.principal, pc.counter) else Idle)
    case Consume(t) =>
      var pc := PcOf(s, t);
      if Consumable(s.sessions, pc.principal, pc.counter) then
        At(s, t, Idle).(sessions := Cleared(s.sessions, pc.principal),
                        log := s.log + [Reuse(pc.principal.device, pc.counter, pc.principal.token)])
      else At(s, t, Idle)
    case Enrol(t, device, user, counter, first) =>
      At(s, t, if first then Accepted(Login(user), device, counter) else Idle)
        .(devices := s.devices[device := Device(user, Some(counter))], log := s.log + [Fresh(device, counter)],
          usedDevices := s.usedDevices + {device})
    case DropDevice(device) => s.(devices := s.devices - {device})
    case DropSessions(tokens) => s.(sessions := s.sessions - tokens)
    case Crash(t) => At(s, t, Idle)
  }

  /** Sessions live in memory: none at the start. Devices may come from an earlier run. */
  predicate Initial(s: State) {
    s.sessions == map[] && s.threads == map[] && s.log == [] && s.origins == map[] && s.devices.Keys <= s.usedDevices
  }

  function Run(start: State, actions: seq<Action>): Option<State> {
    if actions == [] then Some(start)
    else
      var before, last := Run(start, actions[..|actions| - 1]), actions[|actions| - 1];
      if before.Some? && Legal(before.value, last) then Some(Apply(before.value, last)) else None
  }

  // ----- the invariant

  /** Accepted counters of a device increase, up to the one its row holds. */
  ghost predicate CountersOk(s: State) {
    && s.devices.Keys <= s.usedDevices
    && (forall i: nat | i < |s.log| && s.log[i].Fresh? :: s.log[i].device in s.usedDevices)
    && (forall i: nat | i < |s.log| && s.log[i].Fresh? && s.log[i].device in s.devices ::
          s.devices[s.log[i].device].last.Some? && s.log[i].counter <= s.devices[s.log[i].device].last.value)
    && (forall i: nat, j: nat | i < j < |s.log| && s.log[i].Fresh? && s.log[j].Fresh? && s.log[i].device == s.log[j].device ::
          s.log[i].counter < s.log[j].counter)
  }

  /** Thread t is about to open a session for a login with this code. */
  predicate Opening(s: State, t: Thread, o: Origin) {
    t in s.threads && s.threads[t].Accepted? && s.threads[t].purpose.Login?
    && s.threads[t].device == o.device && s.threads[t].counter == o.counter
  }

  /** Every login code opens at most one session. */
  ghost predicate OriginsOk(s: State) {
    && (forall t | t in s.origins :: Fresh(s.origins[t].device, s.origins[t].counter) in s.log)
    && (forall t, o | Opening(s, t, o) :: Fresh(o.device, o.counter) in s.log)
    && (forall t, r, o | Opening(s, t, o) && Opening(s, r, o) :: t == r)
    && (forall t, o, k | Opening(s, t, o) && k in s.origins :: s.origins[k] != o)
    && (forall k, m | k in s.origins && m in s.origins && s.origins[k] == s.origins[m] :: k == m)
  }

  /** A session's login counter is that of the login it came from, until it is used. */
  ghost predicate SessionsOk(s: State) {
    && s.sessions.Keys <= s.origins.Keys
    && (forall k | k in s.sessions && s.sessions[k].loginCounter.Some? ::
          s.origins[k] == Origin(s.sessions[k].device, s.sessions[k].loginCounter.value))
    && (forall i: nat | i < |s.log| && s.log[i].Reuse? ::
          && s.log[i].token in s.origins && s.origins[s.log[i].token] == Origin(s.log[i].device, s.log[i].counter)
          && (s.log[i].token in s.sessions ==> s.sessions[s.log[i].token].loginCounter.None?))
    && (forall i: nat, j: nat | i < j < |s.log| && s.log[i].Reuse? && s.log[j].Reuse? :: s.log[i].token != s.log[j].token)
  }

  ghost predicate Inv(s: State) {
    CountersOk(s) && OriginsOk(s) && SessionsOk(s)
  }

  lemma InitialInv(s: State)
    requires Initial(s)
    ensures Inv(s)
  {
  }

  lemma TriedKeepsCounters(s: State, t: Thread, purpose: Purpose, rows: seq<Row>, found: Option<Counter>)
    requires CountersOk(s)
    ensures CountersOk(Tried(s, t, purpose, rows, found))
  {
  }

  lemma EnrolKeepsCounters(s: State, action: Action)
    requires CountersOk(s) && action.Enrol? && Legal(s, action)
    ensures CountersOk(Apply(s, action))
  {
  }

  lemma ApplyKeepsCounters(s: State, action: Action)
    requires CountersOk(s) && Legal(s, action)
    ensures CountersOk(Apply(s, action))
  {
    hide Tried, IsListing, Cleared, IsOwn, Consumable;
    match action
    case TryDevice(t, found) => TriedKeepsCounters(s, t, PcOf(s, t).purpose, PcOf(s, t).rows, found);
    case Enrol(_, _, _, _, _) => EnrolKeepsCounters(s, action);
    case _ =>
  }

  /** A code about to be claimed was never accepted before. */
  lemma ClaimableIsNew(s: State, device: DeviceId, counter: Counter)
    requires CountersOk(s) && (Claimable(s.devices, device, counter) || device !in s.usedDevices)
    ensures Fresh(device, counter) !in s.log
  {
  }

  /** No new code waits for a session. */
  lemma OriginsCarry(s: State, t: State)
    requires OriginsOk(s) && t.origins == s.origins
    requires forall u | u in s.log :: u in t.log
    requires forall r, o | Opening(t, r, o) :: Opening(s, r, o)
    ensures OriginsOk(t)
  {
  }

  /** Thread r waits to open a session for a code accepted just now. */
  lemma OriginsWait(s: State, t: State, r: Thread, o: Origin)
    requires OriginsOk(s) && t.origins == s.origins && t.log == s.log + [Fresh(o.device, o.counter)]
    requires Fresh(o.device, o.counter) !in s.log
    requires forall q, p | Opening(t, q, p) :: Opening(s, q, p) || (q == r && p == o)
    ensures OriginsOk(t)
  {
  }

  lemma TriedKeepsOrigins(s: State, t: Thread, purpose: Purpose, rows: seq<Row>, found: Option<Counter>)
    requires CountersOk(s) && OriginsOk(s)
    ensures OriginsOk(Tried(s, t, purpose, rows, found))
  {
    hide CountersOk, OriginsOk;
    var after := Tried(s, t, purpose, rows, found);
    if after.log != s.log && purpose.Login? {
      ClaimableIsNew(s, rows[0].device, found.value);
      OriginsWait(s, after, t, Origin(rows[0].device, found.value));
    } else {
      OriginsCarry(s, after);
    }
  }

  lemma EnrolKeepsOrigins(s: State, action: Action)
    requires CountersOk(s) && OriginsOk(s) && action.Enrol? && Legal(s, action)
    ensures OriginsOk(Apply(s, action))
  {
    hide CountersOk, OriginsOk, IsListing;
    if action.first {
      ClaimableIsNew(s, action.device, action.counter);
      OriginsWait(s, Apply(s, action), action.thread, Origin(action.device, action.counter));
    } else {
      OriginsCarry(s, Apply(s, action));
    }
  }

  lemma OpenKeepsOrigins(s: State, action: Action)
    requires OriginsOk(s) && action.OpenSession? && Legal(s, action)
    ensures OriginsOk(Apply(s, action))
  {
    hide IsListing;
    var t := Apply(s, action);
    var pc := PcOf(s, action.thread);
    assert Opening(s, action.thread, Origin(pc.device, pc.counter));
    forall r, o | Opening(t, r, o) ensures Opening(s, r, o) && r != action.thread {
    }
  }

  lemma ApplyKeepsOrigins(s: State, action: Action)
    requires CountersOk(s) && OriginsOk(s) && Legal(s, action)
    ensures OriginsOk(Apply(s, action))
  {
    hide IsListing, Cleared, IsOwn, Consumable, CountersOk, OriginsOk, Tried;
    match action
    case TryDevice(t, found) => TriedKeepsOrigins(s, t, PcOf(s, t).purpose, PcOf(s, t).rows, found);
    case Enrol(_, _, _, _, _) => EnrolKeepsOrigins(s, action);
    case OpenSession(_, _) => OpenKeepsOrigins(s, action);
    case _ => OriginsCarry(s, Apply(s, action));
  }

  /** No session gains a login counter, no code is reused. */
  lemma SessionsCarry(s: State, t: State)
    requires SessionsOk(s) && t.origins == s.origins
    requires t.log == s.log || exists u: Use :: u.Fresh? && t.log == s.log + [u]
    requires forall k | k in t.sessions :: k in s.sessions && (t.sessions[k].loginCounter.None? || t.sessions[k] == s.sessions[k])
    ensures SessionsOk(t)
  {
  }

  lemma TriedKeepsSessions(s: State, t: Thread, purpose: Purpose, rows: seq<Row>, found: Option<Counter>)
    requires SessionsOk(s)
    ensures SessionsOk(Tried(s, t, purpose, rows, found))
  {
    hide SessionsOk;
    SessionsCarry(s, Tried(s, t, purpose, rows, found));
  }

  lemma OpenKeepsSessions(s: State, action: Action)
    requires SessionsOk(s) && action.OpenSession? && Legal(s, action)
    ensures SessionsOk(Apply(s, action))
  {
    hide IsListing;
  }

  lemma ConsumeKeepsSessions(s: State, action: Action)
    requires SessionsOk(s) && action.Consume? && Legal(s, action)
    ensures SessionsOk(Apply(s, action))
  {
    hide IsListing;
    var t := Apply(s, action);
    var pc := PcOf(s, action.thread);
    if Consumable(s.sessions, pc.principal, pc.counter) {
      forall i: nat | i < |s.log| && s.log[i].Reuse? ensures s.log[i].token != pc.principal.token {
      }
    }
  }

  lemma ApplyKeepsSessions(s: State, action: Action)
    requires SessionsOk(s) && Legal(s, action)
    ensures SessionsOk(Apply(s, action))
  {
    hide IsListing, Consumable, SessionsOk, Tried, Claimable;
    match action
    case TryDevice(t, found) => TriedKeepsSessions(s, t, PcOf(s, t).purpose, PcOf(s, t).rows, found);
    case OpenSession(_, _) => OpenKeepsSessions(s, action);
    case Consume(_) => ConsumeKeepsSessions(s, action);
    case Enrol(_, device, _, counter, _) =>
      assert Fresh(device, counter).Fresh?;
      SessionsCarry(s, Apply(s, action));
    case _ => SessionsCarry(s, Apply(s, action));
  }

  lemma ApplyKeepsInv(s: State, action: Action)
    requires Inv(s) && Legal(s, action)
    ensures Inv(Apply(s, action))
  {
    hide CountersOk, OriginsOk, SessionsOk, Apply, Legal;
    ApplyKeepsCounters(s, action);
    ApplyKeepsOrigins(s, action);
    ApplyKeepsSessions(s, action);
  }

  lemma {:induction false} RunKeepsInv(start: State, actions: seq<Action>)
    requires Inv(start) && Run(start, actions).Some?
    ensures Inv(Run(start, actions).value)
  {
    hide Inv, Apply, Legal;
    if actions == [] {
    } else {
      RunKeepsInv(start, actions[..|actions| - 1]);
      ApplyKeepsInv(Run(start, actions[..|actions| - 1]).value, actions[|actions| - 1]);
    }
  }

  // ----- what holds in every run

  /** However logins and step-ups interleave, a code is accepted as new at most once per device, and
      accepted counters of a device only increase. */
  lemma FreshAtMostOnce(start: State, actions: seq<Action>, s: State, i: nat, j: nat)
    requires Initial(start) && Run(start, actions) == Some(s)
    requires i < j < |s.log| && s.log[i].Fresh? && s.log[j].Fresh? && s.log[i].device == s.log[j].device
    ensures s.log[i].counter < s.log[j].counter
  {
    hide Initial, OriginsOk, SessionsOk;
    InitialInv(start);
    RunKeepsInv(start, actions);
  }

  /** A login code is reused at most once, whichever sessions try. */
  lemma ReusedAtMostOnce(start: State, actions: seq<Action>, s: State, i: nat, j: nat)
    requires Initial(start) && Run(start, actions) == Some(s)
    requires i < |s.log| && j < |s.log| && s.log[i].Reuse? && s.log[j].Reuse?
    requires s.log[i].device == s.log[j].device && s.log[i].counter == s.log[j].counter
    ensures i == j
  {
    hide Initial, CountersOk;
    InitialInv(start);
    RunKeepsInv(start, actions);
  }

  /** Only the session that the login with this very code opened reuses it. */
  lemma ReusedByItsOwnSession(start: State, actions: seq<Action>, s: State, i: nat)
    requires Initial(start) && Run(start, actions) == Some(s) && i < |s.log| && s.log[i].Reuse?
    ensures s.log[i].token in s.origins && s.origins[s.log[i].token] == Origin(s.log[i].device, s.log[i].counter)
    ensures Fresh(s.log[i].device, s.log[i].counter) in s.log
    ensures forall k | k in s.origins && s.origins[k] == Origin(s.log[i].device, s.log[i].counter) :: k == s.log[i].token
  {
    hide Initial, CountersOk;
    InitialInv(start);
    RunKeepsInv(start, actions);
  }

  /** No step lowers or repeats the last counter of a device. */
  lemma LastCounterIncreases(s: State, action: Action, device: DeviceId)
    requires Legal(s, action) && Inv(s) && device in s.devices && device in Apply(s, action).devices
    ensures var before, after := s.devices[device].last, Apply(s, action).devices[device].last;
            after == before || (after.Some? && (before.None? || before.value < after.value))
  {
    hide IsListing, OriginsOk, SessionsOk, Cleared, Consumable;
  }

  /** Opening a session for a login makes that login's code reusable by this session and by no other,
      and leaves every other session as it was. */
  lemma OpenedSessionOwnsItsCode(s: State, action: Action, p: Principal)
    requires Inv(s) && Legal(s, action) && action.OpenSession?
    ensures var t, pc := Apply(s, action), PcOf(s, action.thread);
            && action.token !in s.sessions && Fresh(pc.device, pc.counter) in t.log
            && (p.device == pc.device ==>
                  (Consumable(t.sessions, p, pc.counter) <==> p == Principal(action.token, pc.purpose.user, pc.device)))
            && forall k | k in s.sessions :: k in t.sessions && t.sessions[k] == s.sessions[k]
  {
    hide IsListing, CountersOk;
    var t, pc := Apply(s, action), PcOf(s, action.thread);
    assert Opening(s, action.thread, Origin(pc.device, pc.counter));
    ApplyKeepsOrigins(s, action);
    ApplyKeepsSessions(s, action);
  }

  /** The login code of a session can no longer be reused. */
  predicate Spent(s: State, token: Token) {
    token in s.origins && (token in s.sessions ==> s.sessions[token].loginCounter.None?)
  }

  lemma SpentStays(s: State, action: Action, token: Token)
    requires Inv(s) && Legal(s, action) && Spent(s, token)
    ensures var t := Apply(s, action);
            Spent(t, token) && s.log <= t.log && forall i | |s.log| <= i < |t.log| && t.log[i].Reuse? :: t.log[i].token != token
  {
    hide IsListing, OriginsOk, CountersOk;
  }

  /** A step-up with a new code spends its session's login code. */
  lemma StepUpSpends(s: State, action: Action)
    requires Inv(s) && Legal(s, action) && action.ClearOwn? && IsOwn(s.sessions, PcOf(s, action.thread).purpose.principal)
    ensures Spent(Apply(s, action), PcOf(s, action.thread).purpose.principal.token)
  {
    hide IsListing, OriginsOk, CountersOk;
  }

  /** A spent login code is not reused in any continuation. */
  lemma {:induction false} SpentForGood(s: State, actions: seq<Action>, token: Token)
    requires Inv(s) && Spent(s, token) && Run(s, actions).Some?
    ensures var t := Run(s, actions).value;
            Spent(t, token) && s.log <= t.log && forall i | |s.log| <= i < |t.log| && t.log[i].Reuse? :: t.log[i].token != token
  {
    hide Inv, Apply, Legal, Spent;
    if actions == [] {
    } else {
      var before := Run(s, actions[..|actions| - 1]).value;
      SpentForGood(s, actions[..|actions| - 1], token);
      RunKeepsInv(s, actions[..|actions| - 1]);
      SpentStays(before, actions[|actions| - 1], token);
    }
  }

  // ----- what is accepted

  /** A device that is tried is accepted exactly when its code is newer than the last one in the queried row and
      in the stored row. The step that accepts it stores and logs the counter; any other goes on to
      the next device and changes neither tables nor log. */
  lemma AcceptsExactlyNewer(s: State, action: Action)
    requires Legal(s, action) && action.TryDevice? && PcOf(s, action.thread).rows != []
    ensures var pc, t, found := PcOf(s, action.thread), Apply(s, action), action.found;
            var d := pc.rows[0].device;
            if found.Some? && (pc.rows[0].last.None? || pc.rows[0].last.value < found.value)
               && d in s.devices && (s.devices[d].last.None? || s.devices[d].last.value < found.value)
            then t == s.(threads := s.threads[action.thread := Accepted(pc.purpose, d, found.value)],
                         devices := s.devices[d := Device(s.devices[d].user, found)],
                         log := s.log + [Fresh(d, found.value)])
            else t == s.(threads := s.threads[action.thread := Verifying(pc.purpose, pc.rows[1..])])
  {
  }

  /** The last counter of the device is what it was, or was accepted since. */
  ghost predicate OnlyUsed(s: State, t: State, d: DeviceId) {
    d in s.usedDevices && d in t.usedDevices && |s.log| <= |t.log|
    && (d in t.devices ==>
          && d in s.devices
          && (t.devices[d].last != s.devices[d].last ==>
                t.devices[d].last.Some? && exists n :: |s.log| <= n < |t.log| && t.log[n] == Fresh(d, t.devices[d].last.value)))
  }

  lemma OnlyUsedStep(s: State, t: State, action: Action, d: DeviceId)
    requires OnlyUsed(s, t, d) && Legal(t, action)
    ensures OnlyUsed(s, Apply(t, action), d)
  {
    hide IsListing, Cleared, IsOwn, Consumable;
    var u := Apply(t, action);
    if d in u.devices && d in t.devices && u.devices[d] != t.devices[d] {
      assert u.log[|t.log|] == Fresh(d, u.devices[d].last.value);
    } else if d in u.devices && d in t.devices && t.devices[d].last != s.devices[d].last {
      var n :| |s.log| <= n < |t.log| && t.log[n] == Fresh(d, t.devices[d].last.value);
      assert u.log[n] == t.log[n];
    }
  }

  lemma {:induction false} OnlyUsedAlong(s: State, actions: seq<Action>, d: DeviceId)
    requires d in s.devices && d in s.usedDevices && Run(s, actions).Some?
    ensures OnlyUsed(s, Run(s, actions).value, d)
  {
    hide Apply, Legal, OnlyUsed;
    if actions == [] {
      SameIsUsed(s, d);
    } else {
      OnlyUsedAlong(s, actions[..|actions| - 1], d);
      OnlyUsedStep(s, Run(s, actions[..|actions| - 1]).value, actions[|actions| - 1], d);
    }
  }

  lemma SameIsUsed(s: State, d: DeviceId)
    requires d in s.devices && d in s.usedDevices
    ensures OnlyUsed(s, s, d)
  {
  }

  /** A right code is refused for no other reason than use: when a device was queried in s with a last counter
      below the code's, and any number of requests later its turn comes, it is accepted, unless the device
      is gone or a counter at least as high was accepted on it in the meantime. */
  lemma RefusedOnlyWhenUsed(s: State, actions: seq<Action>, try: Action, counter: Counter)
    requires Inv(s) && Run(s, actions).Some? && Legal(Run(s, actions).value, try) && try.TryDevice? && try.found == Some(counter)
    requires var rows := PcOf(Run(s, actions).value, try.thread).rows;
             rows != [] && rows[0].device in s.devices && rows[0].last == s.devices[rows[0].device].last
             && (rows[0].last.None? || rows[0].last.value < counter)
    ensures var t := Run(s, actions).value;
            var d := PcOf(t, try.thread).rows[0].device;
            || Apply(t, try).log == t.log + [Fresh(d, counter)]
            || d !in t.devices
            || exists n, c :: |s.log| <= n < |t.log| && t.log[n] == Fresh(d, c) && counter <= c
  {
    var t := Run(s, actions).value;
    var d := PcOf(t, try.thread).rows[0].device;
    AcceptsExactlyNewer(t, try);
    OnlyUsedAlong(s, actions, d);
    hide OriginsOk, SessionsOk, Apply, Legal, Run;
  }

  /** A login code is reused exactly when the requester's own session still holds it, and this spends it. */
  lemma ReusesExactlyWhatItHolds(s: State, action: Action)
    requires Legal(s, action) && action.Consume?
    ensures var pc, t := PcOf(s, action.thread), Apply(s, action);
            var p := pc.principal;
            if p.token in s.sessions && s.sessions[p.token] == Session(p.user, p.device, Some(pc.counter))
            then t == s.(threads := s.threads[action.thread := Idle],
                         sessions := s.sessions[p.token := Session(p.user, p.device, None)],
                         log := s.log + [Reuse(p.device, pc.counter, p.token)])
            else t == s.(threads := s.threads[action.thread := Idle])
  {
  }

  /** The login code gets an administrator through one step-up: when no device accepts the code as new, the
      session still holds its login counter, the device is still there and the code stands for that counter,
      then, nothing interfering, the request ends by reusing it, and the session no longer holds it. */
  lemma StepUpReusesLoginCode(s: State, t: Thread, p: Principal, c: Counter, found: Option<Counter>)
    requires PcOf(s, t) == Verifying(StepUp(p), [])
    requires p.token in s.sessions && s.sessions[p.token] == Session(p.user, p.device, Some(c))
    requires p.device in s.devices && s.devices[p.device].user == p.user
    ensures Legal(s, TryDevice(t, found))
    ensures var s1 := Apply(s, TryDevice(t, found));
            Legal(s1, ReadAllowed(t))
            && var s2 := Apply(s1, ReadAllowed(t));
               Legal(s2, CheckCode(t, Some(c)))
               && var s3 := Apply(s2, CheckCode(t, Some(c)));
                  Legal(s3, Consume(t))
                  && Apply(s3, Consume(t)) == s.(threads := s.threads[t := Idle],
                                                 sessions := s.sessions[p.token := Session(p.user, p.device, None)],
                                                 log := s.log + [Reuse(p.device, c, p.token)])
  {
    var s1 := Apply(s, TryDevice(t, found));
    assert s1 == s.(threads := s.threads[t := Fallback(p)]);
    var s2 := Apply(s1, ReadAllowed(t));
    assert s2 == s.(threads := s.threads[t := Allowed(p, c)]);
    var s3 := Apply(s2, CheckCode(t, Some(c)));
    assert s3 == s.(threads := s.threads[t := Checked(p, c)]);
  }
}
