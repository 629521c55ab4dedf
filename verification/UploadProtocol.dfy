/** The upload as a protocol between two programs: the server loop of backend/src/files.rs and the
    receiving agent of instanceEnd/src/file_manager.rs, joined by ordered links (frames and
    control messages travel to the agent separately, replies travel back), the agent's queue of four
    messages and the server's queue of twelve events. */
module UploadProtocol {
  import opened Wrappers
  import opened FileFrames
  import opened FileUpload

  const AGENT_QUEUE: nat := TRANSFER_WINDOW
  const EVENT_QUEUE: nat := TRANSFER_WINDOW * 2 + 4

  datatype Message = Data(sequence: nat, data: Bytes) | Finish

  datatype Reply = Ack(sequence: nat, transferred: nat) | Complete(size: nat)

  datatype Status = Running | Success | Failure

  datatype State = State(
    // the server
    sent: nat, inFlight: seq<Pending>, transferred: nat, finishSent: bool, server: Status,
    // frames and control messages under way to the agent, and what its queue has accepted
    wire: seq<Message>, control: seq<Message>, inbox: seq<Message>,
    // the agent
    next: nat, file: Bytes, agent: Status,
    // replies under way to the server, and accepted by it; whether one was dropped
    back: seq<Reply>, events: seq<Reply>, dropped: bool)

  datatype Step = SendFrame | SendFinish | Deliver | DeliverControl | Receive | Return | TakeReply

  function Start(): State {
    State(0, [], 0, false, Running, [], [], [], 0, [], Running, [], [], false)
  }

  predicate Enabled(s: State, step: Step, frames: seq<Bytes>) {
    match step
    case SendFrame => s.server.Running? && s.sent < |frames| && |s.inFlight| < TRANSFER_WINDOW
    case SendFinish => s.server.Running? && s.sent == |frames| && s.inFlight == [] && !s.finishSent
    case Deliver => s.wire != []
    case DeliverControl => s.control != []
    case Receive => s.agent.Running? && s.inbox != []
    case Return => s.back != []
    case TakeReply => s.server.Running? && s.events != [] && (s.finishSent || s.inFlight != [])
  }

  /** The agent's queue refuses a fifth message; the transfer then fails. */
  function Delivered(s: State, m: Message): State {
    if |s.inbox| < AGENT_QUEUE then s.(inbox := s.inbox + [m]) else s.(agent := Failure)
  }

  /** run_upload: one message of the agent's queue. */
  function Received(s: State, expected: nat): State
    requires s.inbox != []
  {
    var rest := s.inbox[1..];
    match s.inbox[0]
    case Data(sequence, data) =>
      if sequence != s.next || |s.file| + |data| > expected then s.(inbox := rest, agent := Failure)
      else s.(inbox := rest, file := s.file + data, next := s.next + 1, back := s.back + [Ack(sequence, |s.file| + |data|)])
    case Finish =>
      if |s.file| != expected then s.(inbox := rest, agent := Failure)
      else s.(inbox := rest, agent := Success, back := s.back + [Complete(|s.file|)])
  }

  /** The server's queue drops an event that does not fit. */
  function Returned(s: State): State
    requires s.back != []
  {
    if |s.events| < EVENT_QUEUE then s.(back := s.back[1..], events := s.events + [s.back[0]])
    else s.(back := s.back[1..], dropped := true)
  }

  /** wait_upload_ack, or the wait for the final response. */
  function Taken(s: State, expected: nat): State
    requires s.events != [] && (s.finishSent || s.inFlight != [])
  {
    var rest := s.events[1..];
    match s.events[0]
    case Ack(sequence, transferred) =>
      if !s.finishSent && s.inFlight[0] == Pending(sequence, transferred) then s.(events := rest, inFlight := s.inFlight[1..])
      else s.(events := rest, server := Failure)
    case Complete(size) =>
      s.(events := rest, server := if s.finishSent && size == expected then Success else Failure)
  }

  function Next(s: State, step: Step, frames: seq<Bytes>): State
    requires Enabled(s, step, frames)
  {
    match step
    case SendFrame =>
      var transferred := s.transferred + |frames[s.sent]|;
      s.(wire := s.wire + [Data(s.sent, frames[s.sent])], inFlight := s.inFlight + [Pending(s.sent, transferred)],
         sent := s.sent + 1, transferred := transferred)
    case SendFinish => s.(control := s.control + [Finish], finishSent := true)
    case Deliver => Delivered(s, s.wire[0]).(wire := s.wire[1..])
    case DeliverControl => Delivered(s, s.control[0]).(control := s.control[1..])
    case Receive => Received(s, Total(frames))
    case Return => Returned(s)
    case TakeReply => Taken(s, Total(frames))
  }

  // ----- the pipeline

  /** The i-th message of a complete upload, and the reply it gets. */
  function MessageAt(frames: seq<Bytes>, i: nat): Message {
    if i < |frames| then Data(i, frames[i]) else Finish
  }

  function ReplyAt(frames: seq<Bytes>, i: nat): Reply {
    if i < |frames| then Ack(i, UpTo(frames, i)) else Complete(Total(frames))
  }

  predicate Messages(frames: seq<Bytes>, from: nat, queue: seq<Message>) {
    forall i | 0 <= i < |queue| :: queue[i] == MessageAt(frames, from + i)
  }

  predicate Replies(frames: seq<Bytes>, from: nat, queue: seq<Reply>) {
    forall i | 0 <= i < |queue| :: queue[i] == ReplyAt(frames, from + i)
  }

  /** Counters along the pipeline, in messages: written, handled by the agent, taken by the server. */
  function Written(s: State): nat {
    s.sent + if s.finishSent then 1 else 0
  }

  function Handled(s: State): nat {
    s.next + if s.agent.Success? then 1 else 0
  }

  function TakenCount(s: State): int {
    Handled(s) - |s.back| - |s.events|
  }

  ghost predicate PipesOk(s: State, frames: seq<Bytes>) {
    && TakenCount(s) >= 0
    && Written(s) == Handled(s) + |s.inbox| + |s.wire| + |s.control|
    && (s.control != [] ==> s.finishSent)
    && Messages(frames, Handled(s), s.inbox)
    && Messages(frames, Handled(s) + |s.inbox|, s.wire)
    && Messages(frames, Handled(s) + |s.inbox| + |s.wire|, s.control)
    && Replies(frames, TakenCount(s) + |s.events|, s.back)
    && Replies(frames, TakenCount(s), s.events)
  }

  ghost predicate ServerOk(s: State, frames: seq<Bytes>) {
    && TakenCount(s) >= 0
    && s.sent <= |frames| && s.transferred == Total(frames[..s.sent])
    && !s.server.Failure? && |s.inFlight| <= TRANSFER_WINDOW
    && (if s.server.Success? then TakenCount(s) == |frames| + 1 else TakenCount(s) <= |frames|)
    && (s.finishSent ==> s.sent == |frames| && s.inFlight == [])
    && (!s.server.Success? ==> IsWindow(s.inFlight, frames[..s.sent], TakenCount(s)))
    && (s.server.Success? ==> s.finishSent)
  }

  ghost predicate AgentOk(s: State, frames: seq<Bytes>) {
    && s.next <= |frames| && s.file == Concat(frames[..s.next])
    && !s.agent.Failure? && (s.agent.Success? ==> s.next == |frames|)
    && !s.dropped
  }

  ghost predicate Inv(s: State, frames: seq<Bytes>) {
    PipesOk(s, frames) && ServerOk(s, frames) && AgentOk(s, frames)
  }

  lemma StartOk(frames: seq<Bytes>)
    ensures Inv(Start(), frames)
  {
  }

  // ----- every step keeps the invariant

  lemma SendFrameOk(s: State, frames: seq<Bytes>)
    requires Inv(s, frames) && Enabled(s, SendFrame, frames)
    ensures Inv(Next(s, SendFrame, frames), frames)
  {
    hide Total, Concat, UpTo;
    var t := Next(s, SendFrame, frames);
    assert frames[..t.sent] == frames[..s.sent] + [frames[s.sent]];
    UpToLast(frames[..s.sent], frames[s.sent]);
    WindowGrows(s.inFlight, frames[..s.sent], TakenCount(s), frames[s.sent]);
  }

  lemma SendFinishOk(s: State, frames: seq<Bytes>)
    requires Inv(s, frames) && Enabled(s, SendFinish, frames)
    ensures Inv(Next(s, SendFinish, frames), frames)
  {
    hide Total, Concat, UpTo;
  }

  /** The agent's queue never refuses a message, and the finish message overtakes no frame: when it is
      under way nothing else is. */
  lemma InboxHasRoom(s: State, frames: seq<Bytes>)
    requires Inv(s, frames) && (s.wire != [] || s.control != [])
    ensures |s.inbox| < 4 == AGENT_QUEUE
    ensures s.control != [] ==> s.wire == [] && s.inbox == []
  {
    hide Total, Concat, UpTo, Messages, Replies;
  }

  /** The server's queue never drops an event. */
  lemma EventsHaveRoom(s: State, frames: seq<Bytes>)
    requires Inv(s, frames)
    ensures |s.events| + |s.back| <= 5 < 12 == EVENT_QUEUE
  {
    hide Total, Concat, UpTo, Messages, Replies;
  }

  lemma DeliverOk(s: State, frames: seq<Bytes>)
    requires Inv(s, frames) && Enabled(s, Deliver, frames)
    ensures Inv(Next(s, Deliver, frames), frames)
  {
    hide Total, Concat, UpTo, IsWindow;
    InboxHasRoom(s, frames);
    assert s.wire[0] == MessageAt(frames, Handled(s) + |s.inbox|);
  }

  lemma DeliverControlOk(s: State, frames: seq<Bytes>)
    requires Inv(s, frames) && Enabled(s, DeliverControl, frames)
    ensures Inv(Next(s, DeliverControl, frames), frames)
  {
    hide Total, Concat, UpTo, IsWindow;
    InboxHasRoom(s, frames);
    assert s.control[0] == MessageAt(frames, Handled(s) + |s.inbox| + |s.wire|);
  }

  lemma ReturnOk(s: State, frames: seq<Bytes>)
    requires Inv(s, frames) && Enabled(s, Return, frames)
    ensures Inv(Next(s, Return, frames), frames)
  {
    hide Total, Concat, UpTo, IsWindow;
    EventsHaveRoom(s, frames);
    assert s.back[0] == ReplyAt(frames, TakenCount(s) + |s.events|);
  }

  lemma ReceiveOk(s: State, frames: seq<Bytes>)
    requires Inv(s, frames) && Enabled(s, Receive, frames)
    ensures Inv(Next(s, Receive, frames), frames)
  {
    hide Total, Concat, UpTo, IsWindow;
    assert s.inbox[0] == MessageAt(frames, Handled(s));
    if s.next < |frames| {
      var before, part := frames[..s.next], frames[s.next];
      assert frames[..s.next + 1] == before + [part];
      UpToLast(before, part);
      UpToStable(before + [part], frames, s.next);
      PrefixTotal(before + [part], frames);
      ConcatLast(before, part);
    } else {
      assert frames[..s.next] == frames;
    }
  }

  lemma ConcatLast(parts: seq<Bytes>, part: Bytes)
    ensures Concat(parts + [part]) == Concat(parts) + part
    ensures Total(parts) == |Concat(parts)|
  {
    assert (parts + [part])[..|parts|] == parts;
  }

  lemma TakeReplyOk(s: State, frames: seq<Bytes>)
    requires Inv(s, frames) && Enabled(s, TakeReply, frames)
    ensures Inv(Next(s, TakeReply, frames), frames)
  {
    hide Total, Concat, UpTo;
    var taken := TakenCount(s);
    assert s.events[0] == ReplyAt(frames, taken);
    if !s.finishSent {
      assert s.inFlight[0] == Pending(taken, UpTo(frames[..s.sent], taken));
      UpToStable(frames[..s.sent], frames, taken);
      WindowShrinks(s.inFlight, frames[..s.sent], taken);
    }
  }

  lemma StepOk(s: State, step: Step, frames: seq<Bytes>)
    requires Inv(s, frames) && Enabled(s, step, frames)
    ensures Inv(Next(s, step, frames), frames)
  {
    hide Inv, Next, Enabled;
    match step
    case SendFrame => SendFrameOk(s, frames);
    case SendFinish => SendFinishOk(s, frames);
    case Deliver => DeliverOk(s, frames);
    case DeliverControl => DeliverControlOk(s, frames);
    case Receive => ReceiveOk(s, frames);
    case Return => ReturnOk(s, frames);
    case TakeReply => TakeReplyOk(s, frames);
  }

  // ----- whole runs

  /** The state after a list of steps, None when one of them is not possible in its place. */
  function Run(steps: seq<Step>, frames: seq<Bytes>): Option<State> {
    if steps == [] then Some(Start())
    else
      var before, last := Run(steps[..|steps| - 1], frames), steps[|steps| - 1];
      if before.Some? && Enabled(before.value, last, frames) then Some(Next(before.value, last, frames)) else None
  }

  /** How far every message of the upload has come: written, accepted, handled, its reply accepted and taken. */
  function Progress(s: State): int {
    Written(s) + (Written(s) - |s.wire| - |s.control|) + Handled(s) + (Handled(s) - |s.back|) + TakenCount(s)
  }

  lemma ReceiveAdvances(s: State, frames: seq<Bytes>)
    requires Inv(s, frames) && Enabled(s, Receive, frames)
    ensures Progress(Next(s, Receive, frames)) == Progress(s) + 1
  {
    hide Total, Concat, UpTo, Messages, Replies, IsWindow;
    ReceiveOk(s, frames);
  }

  lemma StepAdvances(s: State, step: Step, frames: seq<Bytes>)
    requires Inv(s, frames) && Enabled(s, step, frames)
    ensures Progress(Next(s, step, frames)) == Progress(s) + 1
  {
    hide Total, Concat, UpTo, Messages, Replies, IsWindow, Inv, Received;
    if step.Receive? {
      ReceiveAdvances(s, frames);
    }
    if step.Deliver? || step.DeliverControl? {
      InboxHasRoom(s, frames);
    }
    if step.Return? {
      EventsHaveRoom(s, frames);
    }
  }

  lemma ProgressIsBounded(s: State, frames: seq<Bytes>)
    requires Inv(s, frames)
    ensures Progress(s) <= 5 * (|frames| + 1)
    ensures Progress(s) == 5 * (|frames| + 1) ==> s.server.Success?
  {
    hide Total, Concat, UpTo, Messages, Replies;
  }

  /** In every run nothing fails, nothing is dropped, and the number of steps is the progress made. */
  lemma {:induction false} EveryRunIsOk(steps: seq<Step>, s: State, frames: seq<Bytes>)
    requires Run(steps, frames) == Some(s)
    ensures Inv(s, frames) && Progress(s) == |steps|
  {
    hide Inv, Enabled, Next, Progress;
    if steps == [] {
      StartOk(frames);
      StartProgress();
    } else {
      var front, last := steps[..|steps| - 1], steps[|steps| - 1];
      var before := Run(front, frames).value;
      EveryRunIsOk(front, before, frames);
      StepOk(before, last, frames);
      StepAdvances(before, last, frames);
    }
  }

  lemma StartProgress()
    ensures Progress(Start()) == 0
  {
  }

  /** Neither side fails, no acknowledgement is dropped or refused, whatever the interleaving. */
  lemma NothingGoesWrong(steps: seq<Step>, s: State, frames: seq<Bytes>)
    requires Run(steps, frames) == Some(s)
    ensures !s.server.Failure? && !s.agent.Failure? && !s.dropped
    ensures |s.inFlight| <= 4 && |s.inbox| <= 4 && |s.events| <= 5
  {
    hide Total, Concat, UpTo, Messages, Replies, IsWindow;
    EveryRunIsOk(steps, s, frames);
    EventsHaveRoom(s, frames);
    InboxIsShort(s, frames);
  }

  lemma InboxIsShort(s: State, frames: seq<Bytes>)
    requires Inv(s, frames)
    ensures |s.inbox| + |s.wire| + |s.control| <= AGENT_QUEUE
  {
    hide Total, Concat, UpTo, Messages, Replies;
  }

  /** When the server reports success the agent has committed exactly the bytes of the frames. */
  lemma SuccessMeansDelivered(steps: seq<Step>, s: State, frames: seq<Bytes>)
    requires Run(steps, frames) == Some(s) && s.server.Success?
    ensures s.agent.Success? && s.file == Concat(frames)
  {
    hide Total, Concat, UpTo, Messages, Replies, IsWindow;
    EveryRunIsOk(steps, s, frames);
    assert frames[..|frames|] == frames;
  }

  /** The protocol cannot get stuck: while the server has not succeeded some step is possible. */
  lemma NeverStuck(s: State, frames: seq<Bytes>)
    requires Inv(s, frames) && !s.server.Success?
    ensures exists step :: Enabled(s, step, frames)
  {
    hide Total, Concat, UpTo, Messages, Replies;
    if s.wire != [] {
      assert Enabled(s, Deliver, frames);
    } else if s.control != [] {
      assert Enabled(s, DeliverControl, frames);
    } else if s.back != [] {
      assert Enabled(s, Return, frames);
    } else if s.inbox != [] {
      AgentStillRuns(s, frames);
      assert Enabled(s, Receive, frames);
    } else if s.events != [] {
      assert Enabled(s, TakeReply, frames);
    } else if s.sent < |frames| {
      assert Enabled(s, SendFrame, frames);
    } else {
      assert Enabled(s, SendFinish, frames);
    }
  }

  lemma AgentStillRuns(s: State, frames: seq<Bytes>)
    requires Inv(s, frames) && s.inbox != []
    ensures s.agent.Running?
  {
    hide Total, Concat, UpTo, Messages, Replies;
  }

  /** A run has at most five steps per message, and one that has gone as far as it can has delivered the file. */
  lemma EveryRunDelivers(steps: seq<Step>, s: State, frames: seq<Bytes>)
    requires Run(steps, frames) == Some(s)
    ensures |steps| <= 5 * (|frames| + 1)
    ensures (forall step :: !Enabled(s, step, frames)) ==> s.server.Success? && s.file == Concat(frames)
  {
    hide Enabled, Inv, Concat, Progress;
    EveryRunIsOk(steps, s, frames);
    ProgressIsBounded(s, frames);
    if !s.server.Success? {
      NeverStuck(s, frames);
    } else {
      SuccessMeansDelivered(steps, s, frames);
    }
  }

  /** However the request body was split, a successful upload leaves exactly its bytes with the agent. */
  lemma TheBodyArrives(steps: seq<Step>, s: State, body: Body)
    requires Run(steps, Frames(body)) == Some(s)
    ensures (forall step :: !Enabled(s, step, Frames(body))) ==> s.server.Success?
    ensures s.server.Success? ==> s.agent.Success? && s.file == Content(body)
  {
    hide Enabled, Concat, Frames, Content;
    EveryRunDelivers(steps, s, Frames(body));
    FramesAreTheBody(body);
    if s.server.Success? {
      SuccessMeansDelivered(steps, s, Frames(body));
    }
  }
}
