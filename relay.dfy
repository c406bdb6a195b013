/**
 * The upload task spawned by the upload handler, as a sequential procedure: it waits for the
 * download client's ready signal (or the 300 s timeout), then forwards the upload body's data
 * frames into the bounded channel until the body ends, a read fails or the download client
 * has gone away, and emits exactly one outcome.
 *
 * `Pump` and `RelayTask` are the reference definitions of what the task sends and reports;
 * `RunRelay` is the loop itself, proved against them.
 */
module Relay {
  import opened Wrappers
  import opened Mpsc
  import opened Oneshot

  newtype byte = b: int | 0 <= b < 256

  /** Slots of the channel between the upload task and the download response. */
  const Capacity: nat := 16

  /** One result of polling the upload body: a data frame, any other frame (trailers), or a read error. */
  datatype Frame = Data(bytes: seq<byte>) | NonData | ReadErr(error: string)

  /** What travels on the channel: `Ok(bytes)` or the in-band `Err(error)` marker. */
  datatype Item = Chunk(bytes: seq<byte>) | ErrorMarker(error: string)

  /** The value sent on the completion signal: `Ok(())` or `Err(message)`. */
  datatype Outcome = Completed | Failed(reason: string)

  /** How the task's wait for the ready signal ends. */
  datatype WaitOutcome = Ready | ChannelDropped | TimedOut

  /** What one run of the task did: the items the channel accepted, the frames read, the outcome. */
  datatype RelayRun = RelayRun(sent: seq<Item>, read: nat, outcome: Outcome)

  const ReadyDroppedMessage: string := "Ready channel dropped"
  const TimeoutMessage: string := "Timeout waiting for download client"

  function StreamErrorMessage(error: string): string
  {
    "Stream error: " + error
  }

  /**
   * The wait on the ready receiver, taken at the moment the task resolves it: a fired signal
   * means ready, a dropped sender ends the wait with an error, and a signal still pending can
   * only be ended by the 300 s timeout.
   */
  function WaitReady(state: ReadyState): (w: WaitOutcome)
    ensures w == Ready <==> state == Fired
    ensures w == TimedOut <==> state == Pending
  {
    match state
    case Fired => Ready
    case SenderDropped => ChannelDropped
    case Pending => TimedOut
  }

  /** The chunks carried by the data frames of `body`, in order. */
  function DataItems(body: seq<Frame>): (items: seq<Item>)
    ensures |items| <= |body|
  {
    if body == [] then []
    else (if body[0].Data? then [Chunk(body[0].bytes)] else []) + DataItems(body[1..])
  }

  /** The bytes of the upload: the data frames' bytes, concatenated. */
  function Payload(body: seq<Frame>): seq<byte>
  {
    if body == [] then []
    else (if body[0].Data? then body[0].bytes else []) + Payload(body[1..])
  }

  /** The bytes a download response streams for a sequence of items (chunks only). */
  function Bytes(items: seq<Item>): seq<byte>
  {
    if items == [] then []
    else (if items[0].Chunk? then items[0].bytes else []) + Bytes(items[1..])
  }

  ghost predicate NoReadErr(body: seq<Frame>)
  {
    forall i :: 0 <= i < |body| ==> !body[i].ReadErr?
  }

  /** One send used up: `room` counts the sends the channel still accepts, `None` for unbounded. */
  function Dec(room: Option<nat>): Option<nat>
  {
    if room.Some? && room.value > 0 then Some(room.value - 1) else room
  }

  /**
   * The forwarding loop after readiness. `room` is the number of sends that succeed before the
   * receiver is found dropped (`None`: the download client never goes away).
   */
  function Pump(body: seq<Frame>, room: Option<nat>): (r: RelayRun)
    ensures body == [] <==> r.read == 0
    ensures r.read <= |body|
    ensures |r.sent| <= r.read
    decreases |body|
  {
    if body == [] then RelayRun([], 0, Completed)
    else
      match body[0]
      case NonData =>
        var rest := Pump(body[1..], room);
        RelayRun(rest.sent, rest.read + 1, rest.outcome)
      case Data(bytes) =>
        if room == Some(0) then RelayRun([], 1, Completed)
        else
          var rest := Pump(body[1..], Dec(room));
          RelayRun([Chunk(bytes)] + rest.sent, rest.read + 1, rest.outcome)
      case ReadErr(error) =>
        RelayRun(if room == Some(0) then [] else [ErrorMarker(error)], 1, Failed(StreamErrorMessage(error)))
  }

  /** The whole task: the ready wait, then the forwarding loop. */
  function RelayTask(wait: WaitOutcome, body: seq<Frame>, room: Option<nat>): RelayRun
  {
    match wait
    case Ready => Pump(body, room)
    case ChannelDropped => RelayRun([], 0, Failed(ReadyDroppedMessage))
    case TimedOut => RelayRun([], 0, Failed(TimeoutMessage))
  }

  // ---------------------------------------------------------------------------------------
  // Properties of the reference definitions

  /** Readiness never reached: nothing is read or sent, and the failure names the cause. */
  lemma {:induction false} NotReadySendsNothing(wait: WaitOutcome, body: seq<Frame>, room: Option<nat>)
    requires wait != Ready
    ensures RelayTask(wait, body, room).sent == [] && RelayTask(wait, body, room).read == 0
    ensures RelayTask(wait, body, room).outcome ==
            Failed(if wait == TimedOut then TimeoutMessage else ReadyDroppedMessage)
  {
  }

  /** `Pump` on a body that starts with `frame`. */
  lemma {:induction false} PumpCons(frame: Frame, rest: seq<Frame>, room: Option<nat>)
    ensures var step := Step(frame, room);
            Pump([frame] + rest, room) ==
            if step.stop.Some? then RelayRun(step.sent, 1, step.stop.value)
            else Then(step.sent, 1, Pump(rest, After(frame, room)))
  {
    assert ([frame] + rest)[0] == frame && ([frame] + rest)[1..] == rest;
  }

  lemma {:induction false} NoReadErrTail(body: seq<Frame>)
    requires body != [] && NoReadErr(body)
    ensures !body[0].ReadErr? && NoReadErr(body[1..])
  {
    var tail := body[1..];
    assert !body[0].ReadErr?;
    forall i | 0 <= i < |tail| ensures !tail[i].ReadErr? { assert tail[i] == body[i + 1]; }
  }

  /** Body read to the end with room for every chunk: all data frames arrive, in order, and the task succeeds. */
  lemma {:induction false} PumpDeliversAllData(body: seq<Frame>, room: Option<nat>)
    requires NoReadErr(body)
    requires room.None? || |DataItems(body)| <= room.value
    ensures Pump(body, room) == RelayRun(DataItems(body), |body|, Completed)
  {
    if body != [] {
      NoReadErrTail(body);
      var tail := body[1..];
      assert body == [body[0]] + tail;
      PumpCons(body[0], tail, room);
      PumpDeliversAllData(tail, After(body[0], room));
    }
  }

  /**
   * The download client is gone when the data frame after `pre` is sent: the send fails, the
   * loop stops without reading `post`, and the task still reports success.
   */
  lemma {:induction false} PumpStopsAtFailedSend(pre: seq<Frame>, bytes: seq<byte>, post: seq<Frame>, room: Option<nat>)
    requires NoReadErr(pre)
    requires room == Some(|DataItems(pre)|)
    ensures Pump(pre + [Data(bytes)] + post, room) == RelayRun(DataItems(pre), |pre| + 1, Completed)
  {
    if pre == [] {
      PumpCons(Data(bytes), post, room);
      assert pre + [Data(bytes)] + post == [Data(bytes)] + post;
    } else {
      NoReadErrTail(pre);
      var tail := pre[1..];
      assert pre + [Data(bytes)] + post == [pre[0]] + (tail + [Data(bytes)] + post);
      PumpCons(pre[0], tail + [Data(bytes)] + post, room);
      PumpStopsAtFailedSend(tail, bytes, post, After(pre[0], room));
    }
  }

  /**
   * A read error after `pre`: the chunks of `pre` are followed by one error marker (when the
   * channel still takes it), nothing after the error is read, and the task fails.
   */
  lemma {:induction false} PumpReadError(pre: seq<Frame>, error: string, post: seq<Frame>, room: Option<nat>)
    requires NoReadErr(pre)
    requires room.None? || |DataItems(pre)| <= room.value
    ensures Pump(pre + [ReadErr(error)] + post, room) ==
            RelayRun(DataItems(pre) + (if room == Some(|DataItems(pre)|) then [] else [ErrorMarker(error)]),
                     |pre| + 1, Failed(StreamErrorMessage(error)))
  {
    if pre == [] {
      PumpCons(ReadErr(error), post, room);
      assert pre + [ReadErr(error)] + post == [ReadErr(error)] + post;
    } else {
      NoReadErrTail(pre);
      var tail := pre[1..];
      var next := After(pre[0], room);
      assert pre + [ReadErr(error)] + post == [pre[0]] + (tail + [ReadErr(error)] + post);
      var head := if pre[0].Data? then [Chunk(pre[0].bytes)] else [];
      assert DataItems(pre) == head + DataItems(tail);
      assert Step(pre[0], room) == StepResult(head, None);
      PumpCons(pre[0], tail + [ReadErr(error)] + post, room);
      PumpReadError(tail, error, post, next);
      var marker := if room == Some(|DataItems(pre)|) then [] else [ErrorMarker(error)];
      assert marker == if next == Some(|DataItems(tail)|) then [] else [ErrorMarker(error)];
      assert head + (DataItems(tail) + marker) == DataItems(pre) + marker;
    }
  }

  /** Without a read error the loop always reports success, also when the download client leaves early. */
  lemma {:induction false} PumpWithoutReadErrorCompletes(body: seq<Frame>, room: Option<nat>)
    requires NoReadErr(body)
    ensures Pump(body, room).outcome == Completed
  {
    if body != [] {
      NoReadErrTail(body);
      assert body == [body[0]] + body[1..];
      PumpCons(body[0], body[1..], room);
      PumpWithoutReadErrorCompletes(body[1..], After(body[0], room));
    }
  }

  /** Without a read error, whatever the room, the loop sends a prefix of the upload's chunks. */
  lemma {:induction false} PumpSendsDataPrefix(body: seq<Frame>, room: Option<nat>)
    requires NoReadErr(body)
    ensures Pump(body, room).sent <= DataItems(body)
  {
    if body != [] {
      NoReadErrTail(body);
      var tail := body[1..];
      assert body == [body[0]] + tail;
      PumpCons(body[0], tail, room);
      PumpSendsDataPrefix(tail, After(body[0], room));
      var rest := Pump(tail, After(body[0], room)).sent;
      var head := if body[0].Data? then [Chunk(body[0].bytes)] else [];
      assert DataItems(body) == head + DataItems(tail);
      assert Pump(body, room).sent == [] || Pump(body, room).sent == head + rest;
    }
  }

  lemma {:induction false} BytesAppend(a: seq<Item>, b: seq<Item>)
    ensures Bytes(a + b) == Bytes(a) + Bytes(b)
  {
    if a == [] {
      assert a + b == b;
    } else {
      assert (a + b)[0] == a[0] && (a + b)[1..] == a[1..] + b;
      BytesAppend(a[1..], b);
    }
  }

  /** The chunks of the data frames carry exactly the upload's bytes: what the download streams is the payload. */
  lemma {:induction false} DataItemsCarryPayload(body: seq<Frame>)
    ensures Bytes(DataItems(body)) == Payload(body)
  {
    if body != [] {
      var head := if body[0].Data? then [Chunk(body[0].bytes)] else [];
      BytesAppend(head, DataItems(body[1..]));
      DataItemsCarryPayload(body[1..]);
    }
  }

  // ---------------------------------------------------------------------------------------
  // The task as a procedure over the channel

  /**
   * The sends the channel accepts before one fails, when the download client reads `hangUp`
   * items and then disconnects (`None`: it reads to the end). The client reads only while the
   * task is blocked on a full channel; a client that disconnects before reading anything
   * leaves no room, otherwise the full buffer plus the items it read, less the one whose
   * receipt was its last act.
   */
  function InitialRoom(hangUp: Option<nat>): Option<nat>
  {
    match hangUp
    case None => None
    case Some(k) => if k == 0 then Some(0) else Some(k + Capacity - 1)
  }

  /**
   * The channel together with what the download client has received so far (`written`):
   * while the receiver is open every accepted item is either written or buffered; once closed,
   * the client read exactly `hangUp` items, a prefix of what was accepted.
   */
  ghost predicate Linked(ch: Channel<Item>, written: seq<Item>, hangUp: Option<nat>)
    reads ch
  {
    && ch.Valid() && ch.capacity == Capacity
    && (ch.receiverOpen ==> ch.accepted == written + ch.queue)
    && (ch.receiverOpen && hangUp.Some? ==> |written| < hangUp.value)
    && (!ch.receiverOpen ==> hangUp == Some(|written|) && written <= ch.accepted)
  }

  /** The sends still accepted from this state on. */
  ghost function Room(ch: Channel<Item>, written: seq<Item>, hangUp: Option<nat>): Option<nat>
    reads ch
    requires Linked(ch, written, hangUp)
  {
    if !ch.receiverOpen then Some(0)
    else if hangUp.None? then None
    else Some(Capacity + hangUp.value - 1 - |ch.accepted|)
  }

  /**
   * The download response takes the oldest buffered item and writes it to the client; a client
   * that has now read all it wanted disconnects, dropping the receiver.
   */
  method ClientReceives(ch: Channel<Item>, hangUp: Option<nat>, written: seq<Item>) returns (written': seq<Item>)
    requires Linked(ch, written, hangUp) && ch.receiverOpen && ch.queue != []
    modifies ch
    ensures Linked(ch, written', hangUp) && ch.accepted == old(ch.accepted)
    ensures written' == written + [old(ch.queue)[0]]
    ensures ch.receiverOpen ==> ch.queue == old(ch.queue)[1..]
    ensures ch.receiverOpen <==> hangUp != Some(|written'|)
  {
    var taken := ch.Recv();
    written' := written + [taken];
    if hangUp == Some(|written'|) {
      ch.CloseReceiver();
    }
  }

  /**
   * `tx.send(item).await`: when the channel is full the task is parked while the download client
   * takes the oldest item (and disconnects if that was its last one); the send then succeeds
   * unless the receiver is gone.
   */
  method BlockingSend(ch: Channel<Item>, item: Item, hangUp: Option<nat>, written: seq<Item>)
    returns (ok: bool, written': seq<Item>)
    requires Linked(ch, written, hangUp)
    modifies ch
    ensures Linked(ch, written', hangUp)
    ensures ok == (old(Room(ch, written, hangUp)) != Some(0))
    ensures ch.accepted == if ok then old(ch.accepted) + [item] else old(ch.accepted)
    ensures Room(ch, written', hangUp) == Dec(old(Room(ch, written, hangUp)))
  {
    written' := written;
    var r := ch.TrySend(item);
    if r == Full {
      written' := ClientReceives(ch, hangUp, written);
      r := ch.TrySend(item);
    }
    ok := r == Queued;
  }

  /** `Then(done, i, rest)`: a run whose first `i` frames sent `done` and whose remainder behaves as `rest`. */
  function Then(done: seq<Item>, i: nat, rest: RelayRun): RelayRun
  {
    RelayRun(done + rest.sent, i + rest.read, rest.outcome)
  }

  lemma {:induction false} ThenThen(done: seq<Item>, i: nat, step: seq<Item>, rest: RelayRun)
    ensures Then(done, i, Then(step, 1, rest)) == Then(done + step, i + 1, rest)
  {
    assert done + (step + rest.sent) == (done + step) + rest.sent;
  }

  /** What handling one frame does: the items it sends, and the outcome when it ends the loop. */
  datatype StepResult = StepResult(sent: seq<Item>, stop: Option<Outcome>)

  function Step(frame: Frame, room: Option<nat>): StepResult
  {
    match frame
    case NonData => StepResult([], None)
    case Data(bytes) =>
      if room == Some(0) then StepResult([], Some(Completed)) else StepResult([Chunk(bytes)], None)
    case ReadErr(error) =>
      StepResult(if room == Some(0) then [] else [ErrorMarker(error)], Some(Failed(StreamErrorMessage(error))))
  }

  /** The room left after handling a frame that did not end the loop. */
  function After(frame: Frame, room: Option<nat>): Option<nat>
  {
    if frame.Data? then Dec(room) else room
  }

  /** `Pump` unfolded at position `i`: one step, then either the stop or the rest of the body. */
  lemma {:induction false} PumpAt(body: seq<Frame>, i: nat, room: Option<nat>)
    requires i < |body|
    ensures var step := Step(body[i], room);
            Pump(body[i..], room) ==
            if step.stop.Some? then RelayRun(step.sent, 1, step.stop.value)
            else Then(step.sent, 1, Pump(body[i + 1..], After(body[i], room)))
  {
    assert body[i..][0] == body[i] && body[i..][1..] == body[i + 1..];
  }

  /** The body of the loop for one frame: a blocking send of its chunk or of the error marker. */
  method ForwardFrame(frame: Frame, ch: Channel<Item>, hangUp: Option<nat>, written: seq<Item>)
    returns (stop: Option<Outcome>, written': seq<Item>)
    requires Linked(ch, written, hangUp)
    modifies ch
    ensures Linked(ch, written', hangUp)
    ensures var step := Step(frame, old(Room(ch, written, hangUp)));
            stop == step.stop && ch.accepted == old(ch.accepted) + step.sent
    ensures stop.None? ==> Room(ch, written', hangUp) == After(frame, old(Room(ch, written, hangUp)))
  {
    written' := written;
    match frame {
      case NonData =>
        stop := None;
      case Data(bytes) =>
        var ok;
        ok, written' := BlockingSend(ch, Chunk(bytes), hangUp, written);
        stop := if ok then None else Some(Completed);
      case ReadErr(error) =>
        var markerQueued;
        markerQueued, written' := BlockingSend(ch, ErrorMarker(error), hangUp, written);
        stop := Some(Failed(StreamErrorMessage(error)));
    }
  }

  /**
   * The `while let` loop of the task, after readiness: forwards each data frame with a
   * blocking send, skips other frames, stops with success at the first failed send, and on a
   * read error pushes the error marker and fails.
   */
  method Forward(body: seq<Frame>, ch: Channel<Item>, hangUp: Option<nat>)
    returns (outcome: Outcome, read: nat, written: seq<Item>)
    requires Linked(ch, [], hangUp) && ch.accepted == []
    modifies ch
    ensures Linked(ch, written, hangUp)
    ensures var run := Pump(body, InitialRoom(hangUp));
            outcome == run.outcome && read == run.read && ch.accepted == run.sent
  {
    written := [];
    assert Room(ch, written, hangUp) == InitialRoom(hangUp);
    var i := 0;
    while i < |body|
      invariant 0 <= i <= |body|
      invariant Linked(ch, written, hangUp)
      invariant Pump(body, InitialRoom(hangUp)) == Then(ch.accepted, i, Pump(body[i..], Room(ch, written, hangUp)))
    {
      ghost var room := Room(ch, written, hangUp);
      ghost var done := ch.accepted;
      PumpAt(body, i, room);
      var stop;
      stop, written := ForwardFrame(body[i], ch, hangUp, written);
      if stop.Some? {
        return stop.value, i + 1, written;
      }
      ThenThen(done, i, Step(body[i], room).sent, Pump(body[i + 1..], After(body[i], room)));
      i := i + 1;
    }
    assert body[i..] == [];
    return Completed, |body|, written;
  }

  /**
   * The spawned upload task. `ready` is the task's ready receiver, `body` the frames the upload
   * body yields, `ch` the channel whose receiver the download response holds, `hangUp` how
   * many items the download client reads before disconnecting (`Some(0)`: it has already gone).
   * Returns the outcome sent on the completion signal, the number of frames read and what the
   * download client received while the task ran.
   */
  method RunRelay(ready: ReadySignal, body: seq<Frame>, ch: Channel<Item>, hangUp: Option<nat>)
    returns (outcome: Outcome, read: nat, written: seq<Item>)
    requires Linked(ch, [], hangUp) && ch.accepted == []
    modifies ch
    ensures Linked(ch, written, hangUp)
    ensures var run := RelayTask(WaitReady(ready.state), body, InitialRoom(hangUp));
            outcome == run.outcome && read == run.read && ch.accepted == run.sent
  {
    match WaitReady(ready.state) {
      case ChannelDropped =>
        outcome, read, written := Failed(ReadyDroppedMessage), 0, [];
      case TimedOut =>
        outcome, read, written := Failed(TimeoutMessage), 0, [];
      case Ready =>
        outcome, read, written := Forward(body, ch, hangUp);
    }
  }

  /**
   * After the task has ended (its sender dropped), the download response streams what is left
   * in the channel until it is empty or the client disconnects.
   */
  method DrainDownload(ch: Channel<Item>, hangUp: Option<nat>, written: seq<Item>) returns (all: seq<Item>)
    requires Linked(ch, written, hangUp)
    modifies ch
    ensures Linked(ch, all, hangUp) && ch.accepted == old(ch.accepted)
    ensures all <= ch.accepted && (hangUp.Some? ==> |all| <= hangUp.value)
    ensures hangUp.None? ==> all == ch.accepted
    ensures hangUp.Some? ==>
              all == ch.accepted[..if hangUp.value < |ch.accepted| then hangUp.value else |ch.accepted|]
  {
    all := written;
    while ch.receiverOpen && ch.queue != []
      invariant Linked(ch, all, hangUp) && ch.accepted == old(ch.accepted)
      decreases |ch.queue|
    {
      all := ClientReceives(ch, hangUp, all);
    }
    if ch.receiverOpen {
      assert all == ch.accepted[..|ch.accepted|];
    } else {
      assert all == ch.accepted[..|all|];
    }
  }

  /**
   * The channel's whole life once the download client has fired the ready signal: the client
   * may disconnect, or its handler may have dropped the receiver, before the first chunk
   * (`hangUp == Some(0)`); the task runs, and the download response streams what is left. The
   * client receives the task's chunks in order, all of them unless it disconnects and never
   * more than it reads; with no read error the task succeeds, and the bytes received are then
   * the upload's bytes whenever the client stays.
   */
  method Transfer(ready: ReadySignal, body: seq<Frame>, ch: Channel<Item>, hangUp: Option<nat>)
    returns (outcome: Outcome, received: seq<Item>)
    requires ready.state == Fired
    requires ch.Valid() && ch.capacity == Capacity && ch.queue == [] && ch.accepted == []
    requires !ch.receiverOpen ==> hangUp == Some(0)
    modifies ch
    ensures received <= Pump(body, InitialRoom(hangUp)).sent
    ensures hangUp.Some? ==> |received| <= hangUp.value
    ensures hangUp.Some? ==>
              var sent := Pump(body, InitialRoom(hangUp)).sent;
              received == sent[..if hangUp.value < |sent| then hangUp.value else |sent|]
    ensures hangUp.None? ==> received == Pump(body, InitialRoom(hangUp)).sent
    ensures outcome == Pump(body, InitialRoom(hangUp)).outcome
    ensures NoReadErr(body) ==> outcome == Completed
    ensures NoReadErr(body) && hangUp.None? ==> Bytes(received) == Payload(body)
  {
    if hangUp == Some(0) && ch.receiverOpen {
      ch.CloseReceiver();
    }
    var read, written;
    outcome, read, written := RunRelay(ready, body, ch, hangUp);
    assert ch.accepted == Pump(body, InitialRoom(hangUp)).sent;
    received := DrainDownload(ch, hangUp, written);
    if NoReadErr(body) {
      PumpWithoutReadErrorCompletes(body, InitialRoom(hangUp));
      if hangUp.None? {
        PumpDeliversAllData(body, None);
        DataItemsCarryPayload(body);
      }
    }
  }
}
