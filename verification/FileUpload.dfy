/** The sliding-window upload loop of backend/src/files.rs (admin_upload_file, wait_upload_ack). */
module FileUpload {
  import opened Wrappers
  import opened FileFrames

  const TRANSFER_WINDOW: nat := 4

  /** What arrives from the agent. */
  datatype Event =
    | UploadReady
    | TransferAck(sequence: nat, transferred: nat)
    | TransferComplete(size: nat)
    | OtherResponse
    | ErrorResponse
    | Disconnected
    | DownloadChunk

  datatype Outcome =
    | Done
    | PayloadTooLarge
    | BodyUnreadable
    | LengthMismatch
    | Timeout
    | AgentError
    | AgentDisconnected
    | Unexpected
    | BadAcknowledgement
    | WrongSize

  /** What the upload did, in order: frames sent, acknowledgements accepted, the finish message. */
  datatype Note = Sent(frame: Bytes) | Acked(sequence: nat, transferred: nat) | Finished

  // ----- the body and its frames

  function Concat(parts: seq<Bytes>): Bytes {
    if parts == [] then [] else Concat(parts[..|parts| - 1]) + parts[|parts| - 1]
  }

  function Total(parts: seq<Bytes>): (n: nat)
    ensures n == |Concat(parts)|
  {
    if parts == [] then 0 else Total(parts[..|parts| - 1]) + |parts[|parts| - 1]|
  }

  /** The frames of one piece of the request body. */
  function Cut(piece: Bytes): seq<Bytes> {
    if piece == [] then []
    else if |piece| <= CHUNK_SIZE then [piece]
    else [piece[..CHUNK_SIZE]] + Cut(piece[CHUNK_SIZE..])
  }

  /** The bytes of the parts up to and including number i. */
  function UpTo(parts: seq<Bytes>, i: nat): nat
    requires i < |parts|
  {
    Total(parts[..i + 1])
  }

  lemma UpToStable(parts: seq<Bytes>, more: seq<Bytes>, i: nat)
    requires i < |parts| && parts <= more
    ensures UpTo(more, i) == UpTo(parts, i)
  {
    assert more[..i + 1] == parts[..i + 1];
  }

  lemma UpToLast(parts: seq<Bytes>, part: Bytes)
    ensures UpTo(parts + [part], |parts|) == Total(parts + [part]) == Total(parts) + |part|
  {
    var more := parts + [part];
    assert more[..|parts| + 1] == more && more[..|parts|] == parts;
  }

  /** The body as it streams in; None is a read error. */
  type Body = seq<Option<Bytes>>

  function Frames(body: Body): seq<Bytes> {
    if body == [] then []
    else Frames(body[..|body| - 1]) + (if body[|body| - 1].Some? then Cut(body[|body| - 1].value) else [])
  }

  predicate Readable(body: Body) {
    forall k | 0 <= k < |body| :: body[k].Some?
  }

  function Content(body: Body): Bytes {
    if body == [] then []
    else Content(body[..|body| - 1]) + (if body[|body| - 1].Some? then body[|body| - 1].value else [])
  }

  lemma {:induction false} ConcatAdds(a: seq<Bytes>, b: seq<Bytes>)
    ensures Concat(a + b) == Concat(a) + Concat(b)
  {
    if b == [] {
      assert a + b == a;
    } else {
      var front := b[..|b| - 1];
      assert (a + b)[..|a + b| - 1] == a + front;
      ConcatAdds(a, front);
      assert Concat(a) + Concat(b) == Concat(a) + Concat(front) + b[|b| - 1];
    }
  }

  lemma ConcatOne(part: Bytes)
    ensures Concat([part]) == part
  {
    assert [part][..0] == [];
  }

  lemma {:induction false} CutIsExact(piece: Bytes)
    ensures Concat(Cut(piece)) == piece
    ensures forall k | 0 <= k < |Cut(piece)| :: 0 < |Cut(piece)[k]| <= 262144
    ensures forall k | 0 <= k < |Cut(piece)| - 1 :: |Cut(piece)[k]| == 262144
  {
    hide Concat;
    if piece == [] {
      EmptyConcat();
    } else if |piece| <= CHUNK_SIZE {
      ConcatOne(piece);
    } else {
      var head, rest := piece[..CHUNK_SIZE], piece[CHUNK_SIZE..];
      CutIsExact(rest);
      assert Cut(piece) == [head] + Cut(rest);
      ConcatOne(head);
      ConcatAdds([head], Cut(rest));
      assert head + rest == piece;
    }
  }

  lemma EmptyConcat()
    ensures Concat([]) == []
  {
  }

  /** However the body is split, its frames are non-empty, at most 256 KiB long, and concatenate to it. */
  lemma {:induction false} FramesAreTheBody(body: Body)
    ensures Concat(Frames(body)) == Content(body)
    ensures forall k | 0 <= k < |Frames(body)| :: 0 < |Frames(body)[k]| <= 262144
  {
    if body == [] {
    } else {
      var front, last := body[..|body| - 1], body[|body| - 1];
      FramesAreTheBody(front);
      if last.Some? {
        CutIsExact(last.value);
        ConcatAdds(Frames(front), Cut(last.value));
      } else {
        assert Frames(body) == Frames(front) && Content(body) == Content(front);
      }
    }
  }

  lemma {:induction false} FramesGrow(body: Body, k: nat)
    requires k <= |body|
    ensures Frames(body[..k]) <= Frames(body)
  {
    if k == |body| {
      assert body[..k] == body;
    } else {
      FramesGrow(body[..|body| - 1], k);
      assert body[..|body| - 1][..k] == body[..k];
    }
  }

  // ----- what a log shows

  function Data(frame: Bytes): Bytes {
    if Decode(frame).Some? then Decode(frame).value.data else []
  }

  /** The payloads sent, in order. */
  function SentOf(log: seq<Note>): seq<Bytes> {
    if log == [] then []
    else SentOf(log[..|log| - 1]) + (if log[|log| - 1].Sent? then [Data(log[|log| - 1].frame)] else [])
  }

  function Acks(log: seq<Note>): nat {
    if log == [] then 0 else Acks(log[..|log| - 1]) + if log[|log| - 1].Acked? then 1 else 0
  }

  /** Each entry is right at its place: frames carry this request's id and are numbered from 0, non-empty,
      at most 256 KiB, and never more than four are unacknowledged; the i-th acknowledgement names frame i
      and the bytes of the frames up to it; the finish message comes once, after every acknowledgement. */
  predicate Orderly(log: seq<Note>, id: RequestId) {
    log == []
    || (var before, note := log[..|log| - 1], log[|log| - 1];
        && Orderly(before, id)
        && Fits(before, note, id))
  }

  predicate Fits(before: seq<Note>, note: Note, id: RequestId) {
    && Finished !in before
    && match note
       case Sent(frame) =>
         && |SentOf(before)| - Acks(before) < TRANSFER_WINDOW
         && Decode(frame) == Some(Chunk(id, |SentOf(before)|, Data(frame)))
         && 0 < |Data(frame)| <= CHUNK_SIZE
       case Acked(sequence, transferred) =>
         && sequence == Acks(before) < |SentOf(before)|
         && transferred == UpTo(SentOf(before), sequence)
       case Finished =>
         Acks(before) == |SentOf(before)|
  }

  lemma Extend(log: seq<Note>, note: Note, id: RequestId)
    requires Orderly(log, id) && Fits(log, note, id)
    ensures Orderly(log + [note], id)
    ensures SentOf(log + [note]) == SentOf(log) + (if note.Sent? then [Data(note.frame)] else [])
    ensures Acks(log + [note]) == Acks(log) + (if note.Acked? then 1 else 0)
    ensures Finished in log + [note] <==> note.Finished?
  {
    assert (log + [note])[..|log|] == log;
  }

  // ----- the loop

  /** A frame not yet acknowledged: its number and the bytes up to its end. */
  datatype Pending = Pending(sequence: nat, transferred: nat)

  predicate IsWindow(inFlight: seq<Pending>, sent: seq<Bytes>, acks: nat) {
    && |inFlight| + acks == |sent|
    && forall i | 0 <= i < |inFlight| :: inFlight[i] == Pending(acks + i, UpTo(sent, acks + i))
  }

  ghost predicate Tracks(log: seq<Note>, id: RequestId, inFlight: seq<Pending>, sequence: nat, transferred: nat) {
    && Orderly(log, id) && Finished !in log
    && sequence == |SentOf(log)| <= transferred == Total(SentOf(log))
    && |inFlight| <= TRANSFER_WINDOW
    && IsWindow(inFlight, SentOf(log), Acks(log))
  }

  lemma Begin(id: RequestId)
    ensures Tracks([], id, [], 0, 0) && SentOf([]) == []
  {
  }

  lemma WindowGrows(inFlight: seq<Pending>, sent: seq<Bytes>, acks: nat, data: Bytes)
    requires IsWindow(inFlight, sent, acks)
    ensures IsWindow(inFlight + [Pending(|sent|, Total(sent) + |data|)], sent + [data], acks)
    ensures Total(sent + [data]) == Total(sent) + |data|
  {
    hide UpTo, Total;
    var more := sent + [data];
    UpToLast(sent, data);
    forall i | 0 <= i < |inFlight| ensures inFlight[i] == Pending(acks + i, UpTo(more, acks + i)) {
      UpToStable(sent, more, acks + i);
    }
  }

  lemma WindowShrinks(inFlight: seq<Pending>, sent: seq<Bytes>, acks: nat)
    requires IsWindow(inFlight, sent, acks) && inFlight != []
    ensures IsWindow(inFlight[1..], sent, acks + 1)
  {
    hide UpTo;
    assert forall i | 0 <= i < |inFlight| - 1 :: inFlight[1..][i] == inFlight[i + 1];
  }

  lemma AfterSend(log: seq<Note>, id: RequestId, inFlight: seq<Pending>, sequence: nat, transferred: nat, data: Bytes)
    requires Tracks(log, id, inFlight, sequence, transferred) && |inFlight| < TRANSFER_WINDOW
    requires 0 < |data| <= CHUNK_SIZE && transferred < TWO_64
    ensures var frame := Layout(Chunk(id, sequence, data));
            && Tracks(log + [Sent(frame)], id, inFlight + [Pending(sequence, transferred + |data|)], sequence + 1, transferred + |data|)
            && SentOf(log + [Sent(frame)]) == SentOf(log) + [data]
  {
    hide Layout, Decode, Orderly;
    var frame := Layout(Chunk(id, sequence, data));
    DecodeInvertsEncode(Chunk(id, sequence, data));
    Extend(log, Sent(frame), id);
    WindowGrows(inFlight, SentOf(log), Acks(log), data);
  }

  lemma AfterAck(log: seq<Note>, id: RequestId, inFlight: seq<Pending>, sequence: nat, transferred: nat)
    requires Tracks(log, id, inFlight, sequence, transferred) && inFlight != []
    ensures Tracks(log + [Acked(inFlight[0].sequence, inFlight[0].transferred)], id, inFlight[1..], sequence, transferred)
    ensures SentOf(log + [Acked(inFlight[0].sequence, inFlight[0].transferred)]) == SentOf(log)
  {
    hide Decode, Orderly, UpTo, Total;
    WindowShrinks(inFlight, SentOf(log), Acks(log));
    var note := Acked(inFlight[0].sequence, inFlight[0].transferred);
    Extend(log, note, id);
    assert SentOf(log + [note]) == SentOf(log);
    assert Acks(log + [note]) == Acks(log) + 1;
    assert IsWindow(inFlight[1..], SentOf(log + [note]), Acks(log + [note]));
  }

  lemma AfterFinish(log: seq<Note>, id: RequestId, sequence: nat, transferred: nat)
    requires Tracks(log, id, [], sequence, transferred)
    ensures Orderly(log + [Finished], id) && SentOf(log + [Finished]) == SentOf(log) && Finished in log + [Finished]
  {
    hide Decode, Orderly;
    Extend(log, Finished, id);
  }

  /** wait_response: why an event is not a usable response. */
  function Refusal(e: Event): Option<Outcome> {
    match e
    case ErrorResponse => Some(AgentError)
    case Disconnected => Some(AgentDisconnected)
    case DownloadChunk => Some(Unexpected)
    case _ => None
  }

  /** wait_upload_ack: takes the next event and the head of the window. */
  method WaitUploadAck(events: seq<Event>, at: nat, inFlight: seq<Pending>) returns (failure: Option<Outcome>, next: nat, window: seq<Pending>)
    requires at <= |events|
    ensures at <= next <= |events|
    ensures failure.None? <==> at < |events| && inFlight != [] && events[at] == TransferAck(inFlight[0].sequence, inFlight[0].transferred)
    ensures failure.None? ==> next == at + 1 && window == inFlight[1..]
    ensures failure.Some? ==> failure.value in {Timeout, AgentError, AgentDisconnected, Unexpected, BadAcknowledgement}
  {
    window := inFlight;
    if at == |events| {
      return Some(Timeout), at, window;
    }
    next := at + 1;
    failure := Refusal(events[at]);
    if failure.Some? {
      return;
    }
    match events[at]
    case TransferAck(sequence, transferred) =>
      if inFlight == [] {
        return Some(Unexpected), next, window;
      }
      window := inFlight[1..];
      if sequence != inFlight[0].sequence || transferred != inFlight[0].transferred {
        failure := Some(BadAcknowledgement);
      }
    case _ =>
      failure := Some(Unexpected);
  }

  // ----- the loop against its answers

  /** The acknowledgements taken so far are the agent's answers, in order. */
  predicate AcksMatch(events: seq<Event>, sent: seq<Bytes>, acks: nat) {
    && acks <= |sent| && acks < |events|
    && forall i | 0 <= i < acks :: events[1 + i] == TransferAck(i, UpTo(sent, i))
  }

  ghost predicate Going(log: seq<Note>, id: RequestId, inFlight: seq<Pending>, sequence: nat, transferred: nat,
                        events: seq<Event>, at: nat, messages: nat) {
    && Tracks(log, id, inFlight, sequence, transferred)
    && at == 1 + Acks(log) && messages == 1 + sequence
    && AcksMatch(events, SentOf(log), Acks(log))
  }

  /** What it takes for an upload to succeed: a readable body of the declared and allowed size, a
      connection that lasts, and an agent that acknowledges every frame in turn and confirms the size. */
  ghost predicate Succeeds(body: Body, declared: nat, maxBytes: nat, events: seq<Event>, link: nat) {
    var frames := Frames(body);
    && Readable(body) && Total(frames) == declared <= maxBytes
    && link >= |frames| + 2
    && |events| >= |frames| + 2 && events[0] == UploadReady
    && AcksMatch(events, frames, |frames|)
    && events[|frames| + 1] == TransferComplete(declared)
  }

  lemma StepAck(log: seq<Note>, id: RequestId, inFlight: seq<Pending>, sequence: nat, transferred: nat,
                events: seq<Event>, at: nat, messages: nat)
    requires Going(log, id, inFlight, sequence, transferred, events, at, messages) && inFlight != []
    requires at < |events| && events[at] == TransferAck(inFlight[0].sequence, inFlight[0].transferred)
    ensures var more := log + [Acked(inFlight[0].sequence, inFlight[0].transferred)];
            && SentOf(more) == SentOf(log)
            && Going(more, id, inFlight[1..], sequence, transferred, events, at + 1, messages)
  {
    hide Orderly, SentOf, Acks, Total;
    AfterAck(log, id, inFlight, sequence, transferred);
    AcksExtend(log, Acked(inFlight[0].sequence, inFlight[0].transferred));
  }

  lemma AcksExtend(log: seq<Note>, note: Note)
    ensures Acks(log + [note]) == Acks(log) + (if note.Acked? then 1 else 0)
  {
    assert (log + [note])[..|log|] == log;
  }

  lemma StepSend(log: seq<Note>, id: RequestId, inFlight: seq<Pending>, sequence: nat, transferred: nat,
                 events: seq<Event>, at: nat, messages: nat, data: Bytes)
    requires Going(log, id, inFlight, sequence, transferred, events, at, messages) && |inFlight| < TRANSFER_WINDOW
    requires 0 < |data| <= CHUNK_SIZE && transferred < TWO_64
    ensures var more := log + [Sent(Layout(Chunk(id, sequence, data)))];
            && SentOf(more) == SentOf(log) + [data]
            && Going(more, id, inFlight + [Pending(sequence, transferred + |data|)], sequence + 1, transferred + |data|,
                     events, at, messages + 1)
  {
    hide Orderly, SentOf, Acks, Total, Layout;
    AfterSend(log, id, inFlight, sequence, transferred, data);
    AcksExtend(log, Sent(Layout(Chunk(id, sequence, data))));
    AcksStillMatch(events, SentOf(log), SentOf(log) + [data], Acks(log));
  }

  lemma AcksStillMatch(events: seq<Event>, sent: seq<Bytes>, more: seq<Bytes>, acks: nat)
    requires AcksMatch(events, sent, acks) && sent <= more
    ensures AcksMatch(events, more, acks)
  {
    hide UpTo;
    forall i | 0 <= i < acks ensures UpTo(more, i) == UpTo(sent, i) {
      UpToStable(sent, more, i);
    }
  }

  /** A window that is not acknowledged properly belongs to no successful upload. */
  lemma RefusedAck(log: seq<Note>, id: RequestId, inFlight: seq<Pending>, sequence: nat, transferred: nat,
                   events: seq<Event>, at: nat, messages: nat, body: Body, declared: nat, maxBytes: nat, link: nat)
    requires Going(log, id, inFlight, sequence, transferred, events, at, messages) && inFlight != []
    requires SentOf(log) <= Frames(body)
    requires at == |events| || events[at] != TransferAck(inFlight[0].sequence, inFlight[0].transferred)
    ensures !Succeeds(body, declared, maxBytes, events, link)
  {
    hide Orderly, SentOf, Acks, Total, Frames, UpTo;
    var acks := Acks(log);
    assert inFlight[0] == Pending(acks, UpTo(SentOf(log), acks));
    UpToStable(SentOf(log), Frames(body), acks);
  }

  lemma {:induction false} TotalGrows(parts: seq<Bytes>, k: nat)
    requires k <= |parts|
    ensures Total(parts[..k]) <= Total(parts)
  {
    if k == |parts| {
      assert parts[..k] == parts;
    } else {
      TotalGrows(parts[..|parts| - 1], k);
      assert parts[..|parts| - 1][..k] == parts[..k];
    }
  }

  lemma PrefixTotal(sent: seq<Bytes>, frames: seq<Bytes>)
    requires sent <= frames
    ensures Total(sent) <= Total(frames)
  {
    TotalGrows(frames, |sent|);
  }

  lemma NextPiece(body: Body, k: nat)
    requires k < |body| && body[k].Some?
    ensures Frames(body[..k + 1]) == Frames(body[..k]) + Cut(body[k].value)
  {
    assert body[..k + 1][..k] == body[..k];
  }

  lemma CutNext(piece: Bytes, offset: nat, end: nat)
    requires offset < |piece| && end == (if offset + CHUNK_SIZE < |piece| then offset + CHUNK_SIZE else |piece|)
    ensures Cut(piece[offset..]) == [piece[offset..end]] + Cut(piece[end..])
  {
    var rest := piece[offset..];
    if |rest| <= CHUNK_SIZE {
      assert piece[end..] == [];
      assert rest == piece[offset..end];
    } else {
      assert rest[..CHUNK_SIZE] == piece[offset..offset + CHUNK_SIZE];
      assert rest[CHUNK_SIZE..] == piece[offset + CHUNK_SIZE..];
    }
  }

  lemma CutEnd(piece: Bytes)
    ensures Cut(piece[|piece|..]) == []
  {
  }

  lemma StartGoing(id: RequestId, events: seq<Event>)
    requires |events| > 0
    ensures Going([], id, [], 0, 0, events, 1, 1) && SentOf([]) == []
  {
    Begin(id);
  }

  lemma GoingMeans(log: seq<Note>, id: RequestId, inFlight: seq<Pending>, sequence: nat, transferred: nat,
                   events: seq<Event>, at: nat, messages: nat)
    requires Going(log, id, inFlight, sequence, transferred, events, at, messages)
    ensures Orderly(log, id) && Finished !in log
    ensures sequence == |SentOf(log)| == |inFlight| + Acks(log) && transferred == Total(SentOf(log))
    ensures at == 1 + Acks(log) && messages == 1 + sequence
    ensures AcksMatch(events, SentOf(log), Acks(log))
  {
    hide Orderly, SentOf, Acks, Total, AcksMatch;
  }

  lemma NextFrame(sent: seq<Bytes>, data: Bytes, rest: seq<Bytes>, body: Body, k: nat)
    requires k < |body| && sent + ([data] + rest) == Frames(body[..k + 1])
    ensures sent + [data] + rest == Frames(body[..k + 1])
    ensures sent + [data] <= Frames(body) && Total(sent) + |data| <= Total(Frames(body))
  {
    hide Frames;
    FramesGrow(body, k + 1);
    assert sent + [data] + rest == sent + ([data] + rest);
    PrefixTotal(sent + [data], Frames(body));
    UpToLast(sent, data);
  }

  lemma Shorter(sent: seq<Bytes>, rest: seq<Bytes>, body: Body, k: nat)
    requires k <= |body| && sent + rest == Frames(body[..k])
    ensures sent <= Frames(body)
  {
    FramesGrow(body, k);
  }

  lemma Fails(body: Body, declared: nat, maxBytes: nat, events: seq<Event>, link: nat)
    requires declared > maxBytes || events == [] || events[0] != UploadReady || !Readable(body)
             || Total(Frames(body)) != declared || link < |Frames(body)| + 2
    ensures !Succeeds(body, declared, maxBytes, events, link)
  {
  }

  /** Once everything is acknowledged, success hangs on the agent's last word. */
  lemma LastWord(log: seq<Note>, id: RequestId, sequence: nat, transferred: nat, events: seq<Event>, at: nat, messages: nat,
                 body: Body, maxBytes: nat, link: nat)
    requires Going(log, id, [], sequence, transferred, events, at, messages) && messages < link
    requires SentOf(log) == Frames(body) && Readable(body) && transferred <= maxBytes && events != [] && events[0] == UploadReady
    ensures Succeeds(body, transferred, maxBytes, events, link) <==> at < |events| && events[at] == TransferComplete(transferred)
  {
    hide Orderly, SentOf, Acks, Total, Frames;
  }

  /** admin_upload_file from the size check on. `events` is what the agent answers, in order, a missing
      answer being a timeout; `link` is how many messages the connection takes before it closes. */
  method Upload(id: RequestId, body: Body, declared: nat, maxBytes: nat, events: seq<Event>, link: nat)
    returns (outcome: Outcome, log: seq<Note>)
    requires declared < TWO_64
    ensures Orderly(log, id)
    ensures SentOf(log) <= Frames(body) && Total(SentOf(log)) <= declared
    ensures outcome == Done <==> Succeeds(body, declared, maxBytes, events, link)
    ensures outcome == Done ==> Finished in log
    ensures Finished in log ==> Readable(body) && SentOf(log) == Frames(body) && Total(Frames(body)) == declared
  {
    hide Orderly, SentOf, Acks, Tracks, Frames, Cut, Total, AcksMatch, Layout, Going, Succeeds, Readable;
    log := [];
    LogIsEmpty(id);
    if declared > maxBytes || link == 0 || events == [] || events[0] != UploadReady {
      Fails(body, declared, maxBytes, events, link);
    }
    if declared > maxBytes {
      return PayloadTooLarge, log;
    }
    if link == 0 {
      return AgentDisconnected, log;
    }
    if events == [] {
      return Timeout, log;
    }
    if Refusal(events[0]).Some? {
      return Refusal(events[0]).value, log;
    }
    if events[0] != UploadReady {
      return Unexpected, log;
    }
    var at: nat, messages: nat := 1, 1;
    var inFlight: seq<Pending>, sequence: nat, transferred: nat := [], 0, 0;
    StartGoing(id, events);
    var k := 0;
    NoFrames(body);
    while k < |body|
      invariant k <= |body| && at <= |events| && messages <= link
      invariant Going(log, id, inFlight, sequence, transferred, events, at, messages)
      invariant SentOf(log) == Frames(body[..k]) && transferred <= declared
      invariant Readable(body[..k])
    {
      Shorter(SentOf(log), [], body, k);
      GoingMeans(log, id, inFlight, sequence, transferred, events, at, messages);
      ReadableSoFar(body, k);
      if body[k].None? {
        Fails(body, declared, maxBytes, events, link);
        return BodyUnreadable, log;
      }
      var piece := body[k].value;
      var offset := 0;
      NextPiece(body, k);
      assert piece[0..] == piece;
      while offset < |piece|
        invariant offset <= |piece| && at <= |events| && messages <= link
        invariant Going(log, id, inFlight, sequence, transferred, events, at, messages)
        invariant SentOf(log) + Cut(piece[offset..]) == Frames(body[..k + 1]) && transferred <= declared
      {
        Shorter(SentOf(log), Cut(piece[offset..]), body, k + 1);
        while |inFlight| >= TRANSFER_WINDOW
          invariant at <= |events| && SentOf(log) <= Frames(body)
          invariant Going(log, id, inFlight, sequence, transferred, events, at, messages)
          invariant SentOf(log) + Cut(piece[offset..]) == Frames(body[..k + 1])
          decreases |inFlight|
        {
          GoingMeans(log, id, inFlight, sequence, transferred, events, at, messages);
          var failure, next, window := WaitUploadAck(events, at, inFlight);
          if failure.Some? {
            RefusedAck(log, id, inFlight, sequence, transferred, events, at, messages, body, declared, maxBytes, link);
            return failure.value, log;
          }
          StepAck(log, id, inFlight, sequence, transferred, events, at, messages);
          log := log + [Acked(inFlight[0].sequence, inFlight[0].transferred)];
          at, inFlight := next, window;
        }
        var end := if offset + CHUNK_SIZE < |piece| then offset + CHUNK_SIZE else |piece|;
        var data := piece[offset..end];
        CutNext(piece, offset, end);
        GoingMeans(log, id, inFlight, sequence, transferred, events, at, messages);
        NextFrame(SentOf(log), data, Cut(piece[end..]), body, k);
        transferred := transferred + |data|;
        if transferred > declared || transferred > maxBytes || messages == link {
          Fails(body, declared, maxBytes, events, link);
        }
        if transferred > declared || transferred > maxBytes {
          return PayloadTooLarge, log;
        }
        if messages == link {
          return AgentDisconnected, log;
        }
        var frame := Encode(id, sequence, data);
        StepSend(log, id, inFlight, sequence, transferred - |data|, events, at, messages, data);
        messages := messages + 1;
        log := log + [Sent(frame.value)];
        inFlight := inFlight + [Pending(sequence, transferred)];
        sequence := sequence + 1;
        offset := end;
      }
      CutEnd(piece);
      k := k + 1;
    }
    assert body[..k] == body;
    GoingMeans(log, id, inFlight, sequence, transferred, events, at, messages);
    if transferred != declared {
      Fails(body, declared, maxBytes, events, link);
      return LengthMismatch, log;
    }
    while inFlight != []
      invariant at <= |events|
      invariant Going(log, id, inFlight, sequence, transferred, events, at, messages)
      invariant SentOf(log) == Frames(body)
      decreases |inFlight|
    {
      GoingMeans(log, id, inFlight, sequence, transferred, events, at, messages);
      var failure, next, window := WaitUploadAck(events, at, inFlight);
      if failure.Some? {
        RefusedAck(log, id, inFlight, sequence, transferred, events, at, messages, body, declared, maxBytes, link);
        return failure.value, log;
      }
      StepAck(log, id, inFlight, sequence, transferred, events, at, messages);
      log := log + [Acked(inFlight[0].sequence, inFlight[0].transferred)];
      at, inFlight := next, window;
    }
    GoingMeans(log, id, inFlight, sequence, transferred, events, at, messages);
    if messages == link {
      Fails(body, declared, maxBytes, events, link);
      return AgentDisconnected, log;
    }
    LastWord(log, id, sequence, transferred, events, at, messages, body, maxBytes, link);
    FinishLog(log, id, sequence, transferred, events, at, messages);
    log := log + [Finished];
    if at == |events| {
      return Timeout, log;
    }
    if Refusal(events[at]).Some? {
      return Refusal(events[at]).value, log;
    }
    match events[at]
    case TransferComplete(size) =>
      outcome := if size == declared then Done else WrongSize;
    case _ =>
      outcome := Unexpected;
  }

  lemma FinishLog(log: seq<Note>, id: RequestId, sequence: nat, transferred: nat, events: seq<Event>, at: nat, messages: nat)
    requires Going(log, id, [], sequence, transferred, events, at, messages)
    ensures Orderly(log + [Finished], id) && SentOf(log + [Finished]) == SentOf(log) && Finished in log + [Finished]
  {
    hide Orderly, SentOf, Acks, Total, AcksMatch;
    AfterFinish(log, id, sequence, transferred);
  }

  lemma LogIsEmpty(id: RequestId)
    ensures Orderly([], id) && SentOf([]) == [] && Total([]) == 0
  {
  }

  lemma ReadableSoFar(body: Body, k: nat)
    requires k < |body| && Readable(body[..k])
    ensures body[k].None? ==> !Readable(body)
    ensures body[k].Some? ==> Readable(body[..k + 1])
  {
    assert forall i | 0 <= i < k :: body[..k][i] == body[i];
  }

  lemma NoFrames(body: Body)
    ensures Frames(body[..0]) == [] && Readable(body[..0])
  {
  }

  // ----- what an orderly log says

  /** At no moment are more than four frames unacknowledged. */
  lemma {:induction false} WindowIsKept(log: seq<Note>, id: RequestId, k: nat)
    requires Orderly(log, id) && k <= |log|
    ensures Acks(log[..k]) <= |SentOf(log[..k])| <= Acks(log[..k]) + 4
  {
    if k < |log| {
      assert log[..|log| - 1][..k] == log[..k];
      WindowIsKept(log[..|log| - 1], id, k);
    } else {
      assert log[..k] == log;
      if k > 0 {
        var before := log[..k - 1];
        assert before[..k - 1] == before;
        WindowIsKept(before, id, k - 1);
      }
    }
  }

  /** Before the finish message everything sent was acknowledged, and a finished upload carried
      exactly the body. */
  lemma FinishedUploadIsTheBody(log: seq<Note>, id: RequestId, body: Body)
    requires Orderly(log, id) && Finished in log && SentOf(log) == Frames(body)
    ensures log[|log| - 1] == Finished && Acks(log) == |SentOf(log)|
    ensures Concat(SentOf(log)) == Content(body)
  {
    FramesAreTheBody(body);
    assert log == log[..|log| - 1] + [log[|log| - 1]];
  }
}
