/** How pending Docker requests and their audit events are settled: backend/src/docker.rs, with
    finish_event of backend/src/audit.rs. */
module DockerSettlement {
  import opened Wrappers

  type RequestId = nat
  type AuditId = nat
  type Instance = nat
  type Connection = nat

  datatype Pending = Pending(instance: Instance, connection: Connection, audit: Option<AuditId>)

  datatype Audit = Audit(status: string, code: Option<string>)

  type Requests = map<RequestId, Pending>
  type Audits = map<AuditId, Audit>

  /** The statuses the table accepts. */
  predicate IsStorable(status: string) {
    status == "running" || status == "success" || status == "partial_success" || status == "failed" || status == "cancelled"
  }

  // ----- outcomes

  datatype ErrorCode =
    | InvalidRequest | NotFound | PermissionDenied | NotInstalled | DaemonUnavailable | UnsupportedVersion | Busy
    | Conflict | Timeout | Cancelled | OutputTooLarge | CommandFailed | Unsupported | Internal

  function CodeText(code: ErrorCode): string {
    match code
    case InvalidRequest => "invalid_request"
    case NotFound => "not_found"
    case PermissionDenied => "permission_denied"
    case NotInstalled => "not_installed"
    case DaemonUnavailable => "daemon_unavailable"
    case UnsupportedVersion => "unsupported_version"
    case Busy => "busy"
    case Conflict => "conflict"
    case Timeout => "timeout"
    case Cancelled => "cancelled"
    case OutputTooLarge => "output_too_large"
    case CommandFailed => "command_failed"
    case Unsupported => "unsupported"
    case Internal => "internal"
  }

  /** An agent's answer; the two flags are the boolean members of a completed operation's data, if present. */
  datatype Response = Error(code: ErrorCode) | OperationComplete(partialSuccess: Option<bool>, completed: Option<bool>) | OtherResponse

  datatype Outcome = Outcome(status: string, code: Option<string>)

  /** docker_response_audit_outcome */
  function ResponseOutcome(response: Response): Outcome {
    match response
    case Error(code) => Outcome(if code.Cancelled? then "cancelled" else "failed", Some(CodeText(code)))
    case OperationComplete(partialSuccess, completed) =>
      if partialSuccess == Some(true) then Outcome("partial_success", Some("partial_failure"))
      else if completed == Some(false) then Outcome("failed", Some("operation_failed"))
      else Outcome("succeeded", None)
    case OtherResponse => Outcome("succeeded", None)
  }

  /** The error code a text stands for. */
  function CodeOf(text: string): Option<ErrorCode> {
    if text == "invalid_request" then Some(InvalidRequest)
    else if text == "not_found" then Some(NotFound)
    else if text == "permission_denied" then Some(PermissionDenied)
    else if text == "not_installed" then Some(NotInstalled)
    else if text == "daemon_unavailable" then Some(DaemonUnavailable)
    else if text == "unsupported_version" then Some(UnsupportedVersion)
    else if text == "busy" then Some(Busy)
    else if text == "conflict" then Some(Conflict)
    else if text == "timeout" then Some(Timeout)
    else if text == "cancelled" then Some(Cancelled)
    else if text == "output_too_large" then Some(OutputTooLarge)
    else if text == "command_failed" then Some(CommandFailed)
    else if text == "unsupported" then Some(Unsupported)
    else if text == "internal" then Some(Internal)
    else None
  }

  /** No two codes share a text. */
  lemma CodesAreTold(code: ErrorCode)
    ensures CodeOf(CodeText(code)) == Some(code)
  {
  }

  /** What an answer leaves in the audit table. */
  predicate Records(row: Audit, response: Response) {
    && (row.status == "success" <==>
          !response.Error?
          && !(response.OperationComplete? && (response.partialSuccess == Some(true) || response.completed == Some(false))))
    && (row.status == "partial_success" <==> response.OperationComplete? && response.partialSuccess == Some(true))
    && (row.status == "cancelled" <==> response == Error(Cancelled))
    && (row.status == "failed" <==>
          || (response.Error? && response != Error(Cancelled))
          || (response.OperationComplete? && response.partialSuccess != Some(true) && response.completed == Some(false)))
    && (response.Error? ==> row.code.Some? && CodeOf(row.code.value) == Some(response.code))
    && (row.status == "partial_success" ==> row.code == Some("partial_failure"))
    && (row.status == "failed" && response.OperationComplete? ==> row.code == Some("operation_failed"))
    && (row.status == "success" ==> row.code.None?)
  }

  /** The row an outcome leaves: the table's word for success differs. */
  function Row(outcome: Outcome): Audit {
    Audit(if outcome.status == "succeeded" then "success" else outcome.status, outcome.code)
  }

  predicate IsRunning(audits: Audits, a: AuditId) {
    a in audits && audits[a].status == "running"
  }

  /** The audit events that a set of pending requests holds. */
  function HeldBy(requests: Requests, ids: set<RequestId>): set<AuditId> {
    set r | r in ids && r in requests && requests[r].audit.Some? :: requests[r].audit.value
  }

  /** finish_event on every event of a set: only a running event is finished. */
  function Finished(audits: Audits, events: set<AuditId>, outcome: Outcome): Audits {
    map a | a in audits :: if a in events && audits[a].status == "running" then Row(outcome) else audits[a]
  }

  // ----- the protocol

  datatype Sweep = CloseConnection(connection: Connection) | CancelInstance(instance: Instance)

  function SweepOutcome(sweep: Sweep): Outcome {
    match sweep
    case CloseConnection(_) => Outcome("failed", Some("offline"))
    case CancelInstance(_) => Outcome("cancelled", Some("cancelled"))
  }

  predicate InScope(sweep: Sweep, p: Pending) {
    match sweep
    case CloseConnection(connection) => p.connection == connection
    case CancelInstance(instance) => p.instance == instance
  }

  /** A sweep first lists the requests in its scope, and later removes those of them still pending. */
  datatype Listed = Listed(sweep: Sweep, ids: set<RequestId>)

  datatype State = State(
    requests: Requests,
    audits: Audits,
    preparing: set<AuditId>,            // events begun for requests not yet registered
    agents: map<Instance, Connection>,  // the current connection of each instance
    sweeps: map<nat, Listed>,
    usedRequests: set<RequestId>,
    usedConnections: set<Connection>)

  datatype Action =
    | Connect(instance: Instance, connection: Connection)
    | Disconnect(instance: Instance, connection: Connection)
    | StartAudit(audit: AuditId)
    | Abandon(audit: AuditId, code: string)
    | Register(request: RequestId, pending: Pending)
    | SendFailed(request: RequestId)
    | Respond(request: RequestId, instance: Instance, connection: Connection, response: Response)
    | Expire(request: RequestId, instance: Instance, connection: Connection, timedOut: bool)
    | BeginSweep(id: nat, sweep: Sweep)
    | EndSweep(id: nat)

  predicate IsCurrent(s: State, c: Connection) {
    exists i | i in s.agents :: s.agents[i] == c
  }

  /** Ids are new when they are taken; a request is registered only under its instance's current
      connection; a connection is swept only after it stopped being current. */
  predicate Legal(s: State, action: Action) {
    match action
    case Connect(_, connection) => connection !in s.usedConnections
    case StartAudit(audit) => audit !in s.audits
    case Abandon(audit, _) => audit in s.preparing
    case Register(request, pending) =>
      && request !in s.usedRequests
      && pending.instance in s.agents && s.agents[pending.instance] == pending.connection
      && (pending.audit.Some? ==> pending.audit.value in s.preparing)
    case BeginSweep(id, sweep) =>
      && id !in s.sweeps
      && (sweep.CloseConnection? ==> sweep.connection in s.usedConnections && !IsCurrent(s, sweep.connection))
    case EndSweep(id) => id in s.sweeps
    case _ => true
  }

  predicate Matches(s: State, r: RequestId, instance: Instance, connection: Connection) {
    r in s.requests && s.requests[r].instance == instance && s.requests[r].connection == connection
  }

  /** The pending requests an action removes. */
  function Removes(s: State, action: Action): set<RequestId>
    requires Legal(s, action)
  {
    match action
    case SendFailed(request) => {request} * s.requests.Keys
    case Respond(request, instance, connection, _) => if Matches(s, request, instance, connection) then {request} else {}
    case Expire(request, instance, connection, _) => if Matches(s, request, instance, connection) then {request} else {}
    case EndSweep(id) => s.sweeps[id].ids * s.requests.Keys
    case _ => {}
  }

  /** The outcome with which an action settles what it removes. */
  function OutcomeOf(s: State, action: Action): Outcome
    requires Legal(s, action)
  {
    match action
    case Abandon(_, code) => Outcome("failed", Some(code))
    case Respond(_, _, _, response) => ResponseOutcome(response)
    case Expire(_, _, _, timedOut) => Outcome("failed", Some(if timedOut then "timeout" else "client_disconnected"))
    case EndSweep(id) => SweepOutcome(s.sweeps[id].sweep)
    case _ => Outcome("failed", Some("offline"))
  }

  function Settled(s: State, ids: set<RequestId>, outcome: Outcome): State {
    s.(requests := s.requests - ids, audits := Finished(s.audits, HeldBy(s.requests, ids), outcome))
  }

  function Apply(s: State, action: Action): State
    requires Legal(s, action)
  {
    match action
    case Connect(instance, connection) =>
      s.(agents := s.agents[instance := connection], usedConnections := s.usedConnections + {connection})
    case Disconnect(instance, connection) =>
      if instance in s.agents && s.agents[instance] == connection then s.(agents := s.agents - {instance}) else s
    case StartAudit(audit) =>
      s.(audits := s.audits[audit := Audit("running", None)], preparing := s.preparing + {audit})
    case Abandon(audit, code) =>
      s.(audits := Finished(s.audits, {audit}, OutcomeOf(s, action)), preparing := s.preparing - {audit})
    case Register(request, pending) =>
      s.(requests := s.requests[request := pending], usedRequests := s.usedRequests + {request},
         preparing := s.preparing - (if pending.audit.Some? then {pending.audit.value} else {}))
    case BeginSweep(id, sweep) =>
      s.(sweeps := s.sweeps[id := Listed(sweep, set r | r in s.requests && InScope(sweep, s.requests[r]))])
    case EndSweep(id) =>
      Settled(s, Removes(s, action), OutcomeOf(s, action)).(sweeps := s.sweeps - {id})
    case _ =>
      Settled(s, Removes(s, action), OutcomeOf(s, action))
  }

  const EMPTY: State := State(map[], map[], {}, map[], map[], {}, {})

  // ----- the invariant

  predicate Holds(requests: Requests, r: RequestId, a: AuditId) {
    r in requests && requests[r].audit == Some(a)
  }

  /** A pending request's event is running and no other's. */
  ghost predicate HoldersOk(s: State) {
    && (forall r, a | Holds(s.requests, r, a) :: IsRunning(s.audits, a) && a !in s.preparing)
    && (forall r, q, a | Holds(s.requests, r, a) && Holds(s.requests, q, a) :: r == q)
  }

  /** Every running event is still being prepared or held by a pending request. */
  ghost predicate RunningOk(s: State) {
    && (forall a | a in s.preparing :: IsRunning(s.audits, a))
    && (forall a | IsRunning(s.audits, a) :: a in s.preparing || exists r :: Holds(s.requests, r, a))
    && (forall a | a in s.audits :: IsStorable(s.audits[a].status))
  }

  ghost predicate SweepsOk(s: State) {
    && s.requests.Keys <= s.usedRequests
    && (forall i | i in s.agents :: s.agents[i] in s.usedConnections)
    && (forall k | k in s.sweeps && s.sweeps[k].sweep.CloseConnection? ::
          && s.sweeps[k].sweep.connection in s.usedConnections && !IsCurrent(s, s.sweeps[k].sweep.connection)
          && forall r | r in s.requests && InScope(s.sweeps[k].sweep, s.requests[r]) :: r in s.sweeps[k].ids)
  }

  ghost predicate Inv(s: State) {
    HoldersOk(s) && RunningOk(s) && SweepsOk(s)
  }

  lemma EmptyInv()
    ensures Inv(EMPTY)
  {
  }

  lemma AnswersAreRecorded(response: Response)
    ensures Records(Row(ResponseOutcome(response)), response)
  {
    if response.Error? {
      CodesAreTold(response.code);
    }
  }

  lemma OutcomesAreStorable(s: State, action: Action)
    requires Legal(s, action)
    ensures IsStorable(Row(OutcomeOf(s, action)).status) && Row(OutcomeOf(s, action)).status != "running"
  {
  }

  lemma SettledKeepsHolders(s: State, ids: set<RequestId>, outcome: Outcome)
    requires HoldersOk(s) && RunningOk(s)
    requires IsStorable(Row(outcome).status) && Row(outcome).status != "running"
    ensures HoldersOk(Settled(s, ids, outcome)) && RunningOk(Settled(s, ids, outcome))
  {
    hide Row, IsStorable;
    var t := Settled(s, ids, outcome);
    forall r, a | Holds(t.requests, r, a) ensures Holds(s.requests, r, a) && IsRunning(t.audits, a) {
      assert Holds(s.requests, r, a);
      assert forall q | q in ids :: !Holds(s.requests, q, a);
    }
    forall a | a in s.preparing ensures IsRunning(t.audits, a) {
      forall q | q in ids ensures !Holds(s.requests, q, a) {
      }
    }
    forall a | IsRunning(t.audits, a) ensures a in t.preparing || exists r :: Holds(t.requests, r, a) {
      assert IsRunning(s.audits, a);
      if a !in s.preparing {
        var r :| Holds(s.requests, r, a);
        assert r !in ids;
        assert Holds(t.requests, r, a);
      }
    }
  }

  lemma ApplyKeepsInv(s: State, action: Action)
    requires Inv(s) && Legal(s, action)
    ensures Inv(Apply(s, action))
  {
    hide Row, IsStorable;
    OutcomesAreStorable(s, action);
    ApplyKeepsHolders(s, action);
    ApplyKeepsSweeps(s, action);
  }

  lemma RegisterKeepsHolders(s: State, request: RequestId, pending: Pending)
    requires HoldersOk(s) && RunningOk(s) && Legal(s, Register(request, pending)) && request !in s.requests
    ensures var t := Apply(s, Register(request, pending)); HoldersOk(t) && RunningOk(t)
  {
    hide IsStorable, Finished, Removes, OutcomeOf;
    var t := Apply(s, Register(request, pending));
    forall r: RequestId, a: AuditId | Holds(t.requests, r, a)
      ensures if r == request then pending.audit == Some(a) && a in s.preparing else Holds(s.requests, r, a)
    {
    }
    forall r, a | Holds(s.requests, r, a) ensures Holds(t.requests, r, a) {
    }
    forall a | IsRunning(t.audits, a) ensures a in t.preparing || exists r :: Holds(t.requests, r, a) {
      if a in s.preparing && a !in t.preparing {
        assert Holds(t.requests, request, a);
      }
    }
  }

  lemma AbandonKeepsHolders(s: State, audit: AuditId, code: string)
    requires HoldersOk(s) && RunningOk(s) && Legal(s, Abandon(audit, code))
    ensures var t := Apply(s, Abandon(audit, code)); HoldersOk(t) && RunningOk(t)
  {
    var t := Apply(s, Abandon(audit, code));
    forall a | IsRunning(t.audits, a) ensures a != audit && IsRunning(s.audits, a) {
    }
    forall r, a | Holds(t.requests, r, a) ensures IsRunning(t.audits, a) && a !in t.preparing {
      assert Holds(s.requests, r, a);
    }
  }

  lemma StartKeepsHolders(s: State, audit: AuditId)
    requires HoldersOk(s) && RunningOk(s) && Legal(s, StartAudit(audit))
    ensures var t := Apply(s, StartAudit(audit)); HoldersOk(t) && RunningOk(t)
  {
    var t := Apply(s, StartAudit(audit));
    forall a | IsRunning(t.audits, a) ensures a == audit || IsRunning(s.audits, a) {
    }
    forall r, a | Holds(t.requests, r, a) ensures IsRunning(s.audits, a) {
      assert Holds(s.requests, r, a);
    }
  }

  lemma ApplyKeepsHolders(s: State, action: Action)
    requires Inv(s) && Legal(s, action)
    ensures HoldersOk(Apply(s, action)) && RunningOk(Apply(s, action))
  {
    match action
    case StartAudit(audit) => StartKeepsHolders(s, audit);
    case Abandon(audit, code) => AbandonKeepsHolders(s, audit, code);
    case Register(request, pending) => RegisterKeepsHolders(s, request, pending);
    case Connect(_, _) =>
    case Disconnect(_, _) =>
    case BeginSweep(_, _) =>
    case _ =>
      OutcomesAreStorable(s, action);
      SettledKeepsHolders(s, Removes(s, action), OutcomeOf(s, action));
  }

  lemma ApplyKeepsSweeps(s: State, action: Action)
    requires Inv(s) && Legal(s, action)
    ensures SweepsOk(Apply(s, action))
  {
    hide HoldersOk, RunningOk, Finished, OutcomeOf;
  }

  // ----- one step settles what it removes, and nothing else

  /** An event leaves the running state only by the action that removes its request, or that gives up
      preparing it, and it gets that action's outcome; every event whose request is removed is settled. */
  lemma SettledByTheRemover(s: State, action: Action, a: AuditId)
    requires Inv(s) && Legal(s, action) && a in s.audits
    ensures a in Apply(s, action).audits
    ensures IsRunning(s.audits, a) && !IsRunning(Apply(s, action).audits, a) <==>
              (exists r :: r in Removes(s, action) && Holds(s.requests, r, a)) || (action.Abandon? && action.audit == a)
    ensures IsRunning(s.audits, a) && !IsRunning(Apply(s, action).audits, a) ==>
              Apply(s, action).audits[a] == Row(OutcomeOf(s, action))
    ensures !IsRunning(s.audits, a) ==> Apply(s, action).audits[a] == s.audits[a]
  {
    hide Row, SweepsOk, IsStorable;
    OutcomesAreStorable(s, action);
    HeldMeans(s, Removes(s, action), a);
  }

  lemma HeldMeans(s: State, ids: set<RequestId>, a: AuditId)
    requires HoldersOk(s)
    ensures a in HeldBy(s.requests, ids) <==> exists r :: r in ids && Holds(s.requests, r, a)
    ensures a in HeldBy(s.requests, ids) ==> IsRunning(s.audits, a)
  {
  }

  /** A pending request goes away only by being removed, and its event is settled in the same step. */
  lemma RemovalSettles(s: State, action: Action, r: RequestId)
    requires Inv(s) && Legal(s, action) && r in s.requests
    ensures r in Apply(s, action).requests <==> r !in Removes(s, action)
    ensures r in Removes(s, action) && s.requests[r].audit.Some? ==>
              var a := s.requests[r].audit.value;
              a in Apply(s, action).audits && Apply(s, action).audits[a] == Row(OutcomeOf(s, action))
  {
    hide Row, SweepsOk, IsStorable;
    if r in Removes(s, action) && s.requests[r].audit.Some? {
      assert Holds(s.requests, r, s.requests[r].audit.value);
      SettledByTheRemover(s, action, s.requests[r].audit.value);
    }
  }

  /** What the removal of a request, or the end of its preparation, leaves in the audit table. */
  predicate Leaves(s: State, action: Action, row: Audit)
    requires Legal(s, action)
  {
    match action
    case Respond(_, _, _, response) => Records(row, response)
    case Expire(_, _, _, timedOut) => row == Audit("failed", Some(if timedOut then "timeout" else "client_disconnected"))
    case EndSweep(id) =>
      row == if s.sweeps[id].sweep.CloseConnection? then Audit("failed", Some("offline")) else Audit("cancelled", Some("cancelled"))
    case SendFailed(_) => row == Audit("failed", Some("offline"))
    case Abandon(_, code) => row == Audit("failed", Some(code))
    case _ => false
  }

  /** The action ends pending request r: answers and expiries the request they name, if it is theirs; a sweep
      what it listed of its connection or its instance. */
  predicate Drops(s: State, action: Action, r: RequestId)
    requires Legal(s, action)
  {
    r in s.requests &&
    match action
    case SendFailed(request) => r == request
    case Respond(request, instance, connection, _) =>
      r == request && s.requests[r].instance == instance && s.requests[r].connection == connection
    case Expire(request, instance, connection, _) =>
      r == request && s.requests[r].instance == instance && s.requests[r].connection == connection
    case EndSweep(id) => r in s.sweeps[id].ids
    case _ => false
  }

  lemma DroppedRequestsGo(s: State, action: Action, r: RequestId)
    requires Legal(s, action) && r in s.requests
    ensures r in Apply(s, action).requests <==> !Drops(s, action, r)
  {
    hide Finished, OutcomeOf;
  }

  lemma SweepListsItsOwn(s: State, id: nat, sweep: Sweep, r: RequestId)
    requires Legal(s, BeginSweep(id, sweep))
    ensures var t := Apply(s, BeginSweep(id, sweep));
            id in t.sweeps && t.sweeps[id].sweep == sweep
            && (r in t.sweeps[id].ids <==>
                  r in s.requests && (if sweep.CloseConnection? then s.requests[r].connection == sweep.connection
                                      else s.requests[r].instance == sweep.instance))
  {
  }

  /** The action ends request r, which holds event a, or the preparation of a. */
  predicate Ends(s: State, action: Action, r: RequestId, a: AuditId)
    requires Legal(s, action)
  {
    (Drops(s, action, r) && Holds(s.requests, r, a)) || (action.Abandon? && action.audit == a)
  }

  lemma OutcomeIsLeft(s: State, action: Action)
    requires Legal(s, action) && !action.Connect? && !action.Disconnect? && !action.StartAudit? && !action.Register? && !action.BeginSweep?
    ensures Leaves(s, action, Row(OutcomeOf(s, action)))
  {
    if action.Respond? {
      AnswersAreRecorded(action.response);
    }
    hide Records, CodeText;
  }

  /** What ends a running event, and what it then reads; any other event is unchanged. */
  lemma EndedEventReads(s: State, action: Action, a: AuditId)
    requires Inv(s) && Legal(s, action) && a in s.audits
    ensures a in Apply(s, action).audits
    ensures if IsRunning(s.audits, a) && exists r :: Ends(s, action, r, a)
            then !IsRunning(Apply(s, action).audits, a) && Leaves(s, action, Apply(s, action).audits[a])
            else Apply(s, action).audits[a] == s.audits[a]
  {
    SettledByTheRemover(s, action, a);
    if IsRunning(s.audits, a) && !IsRunning(Apply(s, action).audits, a) {
      OutcomeIsLeft(s, action);
    }
    EndsMeans(s, action, a);
    hide Inv, Apply, Leaves, Ends, OutcomeOf, Row, Legal;
    if IsRunning(s.audits, a) && IsRunning(Apply(s, action).audits, a) {
      StillRunning(s, action, a);
    }
  }

  /** An answer on the request's own instance and connection ends it, and its event reads what was answered. */
  lemma AnswerSettles(s: State, answer: Action, a: AuditId)
    requires Inv(s) && answer.Respond? && answer.request in s.requests
    requires s.requests[answer.request] == Pending(answer.instance, answer.connection, Some(a))
    ensures var t := Apply(s, answer); answer.request !in t.requests && a in t.audits && Records(t.audits[a], answer.response)
  {
    assert Holds(s.requests, answer.request, a) && Ends(s, answer, answer.request, a);
    DroppedRequestsGo(s, answer, answer.request);
    EndedEventReads(s, answer, a);
    hide Records, Apply;
  }

  lemma StillRunning(s: State, action: Action, a: AuditId)
    requires Legal(s, action) && a in s.audits && a in Apply(s, action).audits && IsRunning(Apply(s, action).audits, a)
    ensures Apply(s, action).audits[a] == s.audits[a]
  {
    OutcomesAreStorable(s, action);
    hide OutcomeOf, Removes, Row;
  }

  lemma EndsMeans(s: State, action: Action, a: AuditId)
    requires Legal(s, action)
    ensures (exists r :: Ends(s, action, r, a)) <==>
              (exists r :: r in Removes(s, action) && Holds(s.requests, r, a)) || (action.Abandon? && action.audit == a)
  {
    if action.Abandon? && action.audit == a {
      assert Ends(s, action, 0, a);
    }
    forall r | r in Removes(s, action) && Holds(s.requests, r, a) ensures Ends(s, action, r, a) {
    }
    forall r | Ends(s, action, r, a) && !action.Abandon? ensures r in Removes(s, action) && Holds(s.requests, r, a) {
    }
  }

  // ----- whole runs

  /** The state after a list of actions; None when one of them is not legal in its place. */
  function Run(start: State, actions: seq<Action>): Option<State> {
    if actions == [] then Some(start)
    else
      var before, last := Run(start, actions[..|actions| - 1]), actions[|actions| - 1];
      if before.Some? && Legal(before.value, last) then Some(Apply(before.value, last)) else None
  }

  lemma {:induction false} RunKeepsInv(start: State, actions: seq<Action>)
    requires Inv(start) && Run(start, actions).Some?
    ensures Inv(Run(start, actions).value)
  {
    hide Inv, Apply, Legal;
    if actions == [] {
    } else {
      RunKeepsInv(start, actions[..|actions| - 1]);
      ApplyKeepsInv(Run(start, actions[..|actions| - 1]).value, actions[|actions| - 1]);
    }
  }

  /** In every reachable state an event is running exactly while it is being prepared or held by a
      pending request, never both, and by one request at most. */
  lemma RunningExactlyWhilePending(actions: seq<Action>, s: State, a: AuditId)
    requires Run(EMPTY, actions) == Some(s)
    ensures IsRunning(s.audits, a) <==> a in s.preparing || exists r :: Holds(s.requests, r, a)
    ensures a in s.preparing ==> !exists r :: Holds(s.requests, r, a)
    ensures forall r, q | Holds(s.requests, r, a) && Holds(s.requests, q, a) :: r == q
    ensures a in s.audits ==> IsStorable(s.audits[a].status)
  {
    hide SweepsOk, IsStorable;
    EmptyInv();
    RunKeepsInv(EMPTY, actions);
  }

  /** A finished event is never touched again: it is finished at most once. */
  lemma {:induction false} FinishedOnce(start: State, actions: seq<Action>, a: AuditId)
    requires Inv(start) && Run(start, actions).Some?
    requires a in start.audits && !IsRunning(start.audits, a)
    ensures a in Run(start, actions).value.audits && Run(start, actions).value.audits[a] == start.audits[a]
  {
    hide Inv, Apply, Legal;
    if actions == [] {
    } else {
      var front := actions[..|actions| - 1];
      FinishedOnce(start, front, a);
      RunKeepsInv(start, front);
      SettledByTheRemover(Run(start, front).value, actions[|actions| - 1], a);
    }
  }

  lemma NothingEnded(a: AuditId)
    ensures a !in EMPTY.audits
  {
  }

  /** Every event that is no longer running was ended by one step of the run, and reads what that step left. */
  lemma {:induction false} EndedByAStep(actions: seq<Action>, s: State, a: AuditId) returns (k: nat, before: State, r: RequestId)
    requires Run(EMPTY, actions) == Some(s) && a in s.audits && !IsRunning(s.audits, a)
    ensures k < |actions| && Run(EMPTY, actions[..k]) == Some(before) && Legal(before, actions[k])
    ensures IsRunning(before.audits, a) && Ends(before, actions[k], r, a) && Leaves(before, actions[k], s.audits[a])
  {
    hide Inv, Apply, Legal, Ends, Leaves, EMPTY;
    if actions == [] {
      NothingEnded(a);
    } else {
      var front, last := actions[..|actions| - 1], actions[|actions| - 1];
      var prior := Run(EMPTY, front).value;
      EmptyInv();
      RunKeepsInv(EMPTY, front);
      if a in prior.audits && !IsRunning(prior.audits, a) {
        EndedEventReads(prior, last, a);
        k, before, r := EndedByAStep(front, prior, a);
        assert front[..k] == actions[..k];
      } else if a in prior.audits {
        EndedEventReads(prior, last, a);
        k, before := |front|, prior;
        r :| Ends(prior, last, r, a);
      } else {
        NewEventRuns(prior, last, a);
      }
    }
  }

  lemma NewEventRuns(s: State, action: Action, a: AuditId)
    requires Legal(s, action) && a !in s.audits && a in Apply(s, action).audits
    ensures IsRunning(Apply(s, action).audits, a)
  {
    hide OutcomeOf;
  }

  /** An event reads "success" only if an answer to its own request, on its own instance and connection,
      carried neither an error nor a partial success nor completed == false. */
  lemma SuccessWasAnswered(actions: seq<Action>, s: State, a: AuditId) returns (k: nat, before: State)
    requires Run(EMPTY, actions) == Some(s) && a in s.audits && s.audits[a].status == "success"
    ensures k < |actions| && Run(EMPTY, actions[..k]) == Some(before) && actions[k].Respond?
    ensures var act := actions[k];
            && Holds(before.requests, act.request, a)
            && before.requests[act.request].instance == act.instance && before.requests[act.request].connection == act.connection
            && !act.response.Error?
            && (act.response.OperationComplete? ==> act.response.partialSuccess != Some(true) && act.response.completed != Some(false))
  {
    var r: RequestId;
    k, before, r := EndedByAStep(actions, s, a);
    hide Legal, Run, CodeOf;
  }

  // ----- nothing is left behind

  predicate Drained(s: State, c: Connection) {
    c in s.usedConnections && !IsCurrent(s, c) && forall r | r in s.requests :: s.requests[r].connection != c
  }

  /** A sweep of a connection that is no longer current leaves no request of it pending. */
  lemma SweepDrains(s: State, id: nat)
    requires Inv(s) && id in s.sweeps && s.sweeps[id].sweep.CloseConnection?
    ensures Drained(Apply(s, EndSweep(id)), s.sweeps[id].sweep.connection)
  {
    hide HoldersOk, RunningOk, Finished;
  }

  /** And none appears later. */
  lemma {:induction false} DrainedForGood(start: State, actions: seq<Action>, c: Connection)
    requires Run(start, actions).Some? && Drained(start, c)
    ensures Drained(Run(start, actions).value, c)
  {
    if actions == [] {
    } else {
      var front := actions[..|actions| - 1];
      DrainedForGood(start, front, c);
      DrainedStep(Run(start, front).value, actions[|actions| - 1], c);
    }
  }

  lemma DrainedStep(s: State, action: Action, c: Connection)
    requires Legal(s, action) && Drained(s, c)
    ensures Drained(Apply(s, action), c)
  {
    hide Finished, OutcomeOf, HeldBy;
  }

  // ----- the tables updated in place

  /** The pending requests and audit events that the handlers share. */
  class Registry {
    var requests: Requests
    var audits: Audits

    /** finish_audit with finish_event */
    method FinishAudit(audit: Option<AuditId>, outcome: Outcome)
      modifies this`audits
      ensures audits == Finished(old(audits), if audit.Some? then {audit.value} else {}, outcome)
      ensures audits == if audit.Some? && audit.value in old(audits) && old(audits)[audit.value].status == "running"
                        then old(audits)[audit.value := Audit(if outcome.status == "succeeded" then "success" else outcome.status, outcome.code)]
                        else old(audits)
    {
      if audit.Some? && audit.value in audits && audits[audit.value].status == "running" {
        audits := audits[audit.value := Row(outcome)];
      }
    }

    /** handle_docker_response */
    method HandleResponse(instance: Instance, connection: Connection, request: RequestId, response: Response)
      modifies this
      ensures var ids := if request in old(requests) && old(requests)[request].instance == instance
                            && old(requests)[request].connection == connection then {request} else {};
              && requests == old(requests) - ids
              && audits == Finished(old(audits), HeldBy(old(requests), ids), ResponseOutcome(response))
      // the row of a running event whose request is answered, and all the others
      ensures audits.Keys == old(audits).Keys
      ensures forall a | a in audits ::
                if request in old(requests) && old(requests)[request] == Pending(instance, connection, Some(a))
                   && old(audits)[a].status == "running"
                then Records(audits[a], response) else audits[a] == old(audits)[a]
    {
      AnswersAreRecorded(response);
      if request in requests && requests[request].instance == instance && requests[request].connection == connection {
        var pending := requests[request];
        HeldByOne(requests, request);
        requests := requests - {request};
        FinishAudit(pending.audit, ResponseOutcome(response));
      }
    }

    /** The tail of DockerRequestCleanup::drop, once the grace period is over. */
    method Expire(instance: Instance, connection: Connection, request: RequestId, timedOut: bool)
      modifies this
      ensures var ids := if request in old(requests) && old(requests)[request].instance == instance
                            && old(requests)[request].connection == connection then {request} else {};
              && requests == old(requests) - ids
              && audits == Finished(old(audits), HeldBy(old(requests), ids),
                                    Outcome("failed", Some(if timedOut then "timeout" else "client_disconnected")))
      ensures audits.Keys == old(audits).Keys
      ensures forall a | a in audits ::
                audits[a] == if request in old(requests) && old(requests)[request] == Pending(instance, connection, Some(a))
                                && old(audits)[a].status == "running"
                             then Audit("failed", Some(if timedOut then "timeout" else "client_disconnected")) else old(audits)[a]
    {
      if request in requests && requests[request].instance == instance && requests[request].connection == connection {
        var pending := requests[request];
        HeldByOne(requests, request);
        requests := requests - {request};
        FinishAudit(pending.audit, Outcome("failed", Some(if timedOut then "timeout" else "client_disconnected")));
      }
    }

    /** The first half of close_connection_docker and cancel_instance_docker. */
    method List(sweep: Sweep) returns (ids: seq<RequestId>)
      ensures forall r :: r in ids <==>
                r in requests && (if sweep.CloseConnection? then requests[r].connection == sweep.connection
                                  else requests[r].instance == sweep.instance)
    {
      ids := [];
      var todo := requests.Keys;
      while todo != {}
        invariant todo <= requests.Keys
        invariant forall r :: r in ids <==> r in requests && r !in todo && InScope(sweep, requests[r])
        decreases todo
      {
        var r :| r in todo;
        todo := todo - {r};
        if InScope(sweep, requests[r]) {
          ids := ids + [r];
        }
      }
    }

    /** Their second half: remove what is still pending, then finish the events one by one. */
    method Settle(ids: seq<RequestId>, outcome: Outcome)
      requires Row(outcome).status != "running"
      modifies this
      ensures requests == old(requests) - Among(ids)
      ensures audits == Finished(old(audits), HeldBy(old(requests), Among(ids)), outcome)
      ensures audits.Keys == old(audits).Keys
      ensures forall a | a in audits ::
                audits[a] == if old(audits)[a].status == "running"
                                && exists i :: 0 <= i < |ids| && ids[i] in old(requests) && old(requests)[ids[i]].audit == Some(a)
                             then Audit(if outcome.status == "succeeded" then "success" else outcome.status, outcome.code)
                             else old(audits)[a]
    {
      var removed: seq<Option<AuditId>> := [];
      for i := 0 to |ids|
        invariant audits == old(audits)
        invariant requests == old(requests) - Among(ids[..i])
        invariant Events(removed) == HeldBy(old(requests), Among(ids[..i]))
      {
        NextId(old(requests), ids, i);
        if ids[i] in requests {
          var pending := requests[ids[i]];
          requests := requests - {ids[i]};
          EventsMore(removed, pending.audit);
          removed := removed + [pending.audit];
        }
      }
      assert ids[..|ids|] == ids;
      NoEvents(audits, removed, outcome);
      for i := 0 to |removed|
        invariant requests == old(requests) - Among(ids)
        invariant audits == Finished(old(audits), Events(removed[..i]), outcome)
      {
        EventsMore(removed[..i], removed[i]);
        assert removed[..i + 1] == removed[..i] + [removed[i]];
        FinishedInTurn(old(audits), Events(removed[..i]), if removed[i].Some? then {removed[i].value} else {}, outcome);
        FinishAudit(removed[i], outcome);
      }
      assert removed[..|removed|] == removed;
    }
  }

  function Among(ids: seq<RequestId>): set<RequestId> {
    set i | 0 <= i < |ids| :: ids[i]
  }

  function Events(removed: seq<Option<AuditId>>): set<AuditId> {
    set i | 0 <= i < |removed| && removed[i].Some? :: removed[i].value
  }

  lemma HeldByOne(requests: Requests, r: RequestId)
    requires r in requests
    ensures HeldBy(requests, {r}) == if requests[r].audit.Some? then {requests[r].audit.value} else {}
  {
    if requests[r].audit.Some? {
      assert requests[r].audit.value in HeldBy(requests, {r});
    }
  }

  lemma NextId(requests: Requests, ids: seq<RequestId>, i: nat)
    requires i < |ids|
    ensures Among(ids[..i + 1]) == Among(ids[..i]) + {ids[i]}
    ensures HeldBy(requests, Among(ids[..i + 1]))
         == HeldBy(requests, Among(ids[..i]))
            + (if ids[i] in requests && requests[ids[i]].audit.Some? then {requests[ids[i]].audit.value} else {})
  {
    assert forall k | 0 <= k < i :: ids[..i + 1][k] == ids[..i][k];
    assert ids[..i + 1][i] == ids[i];
    forall r ensures r in Among(ids[..i + 1]) <==> r in Among(ids[..i]) || r == ids[i] {
    }
  }

  lemma EventsMore(removed: seq<Option<AuditId>>, audit: Option<AuditId>)
    ensures Events(removed + [audit]) == Events(removed) + (if audit.Some? then {audit.value} else {})
  {
    var more := removed + [audit];
    assert more[|removed|] == audit;
    assert forall k | 0 <= k < |removed| :: more[k] == removed[k];
    forall a ensures a in Events(more) <==> a in Events(removed) || audit == Some(a) {
    }
  }

  lemma NoEvents(audits: Audits, removed: seq<Option<AuditId>>, outcome: Outcome)
    ensures audits == Finished(audits, Events(removed[..0]), outcome)
  {
  }

  lemma FinishedInTurn(audits: Audits, first: set<AuditId>, second: set<AuditId>, outcome: Outcome)
    requires Row(outcome).status != "running"
    ensures Finished(Finished(audits, first, outcome), second, outcome) == Finished(audits, first + second, outcome)
  {
  }
}
