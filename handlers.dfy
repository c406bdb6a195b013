/**
 * The download and upload handlers over the registry, and whole exchanges composed from them.
 * Each handler authenticates first; a request that fails the check never reaches the registry.
 * The upload handler is split at its await points: `UploadAccept` (register), the spawned task
 * (`Relay.RunRelay`), and `FinishUpload` (cleanup and the response once the outcome is known).
 */
module Handlers {
  import opened Wrappers
  import opened Mpsc
  import opened Oneshot
  import opened Relay
  import opened Http
  import opened Auth
  import opened Registry

  const ConflictMessage: string := "An upload is already in progress for this filename"
  const NotFoundMessage: string := "No active upload stream for this file"
  const UploadOkMessage: string := "Upload completed successfully"
  const UploadTaskFailedMessage: string := "Upload task failed"

  /** What the upload handler's completion receiver yields: the task's outcome, or the task died without sending one. */
  datatype TaskResult = Finished(outcome: Outcome) | TaskFailed

  /**
   * What a download request gets back: a response, or nothing at all when building the
   * response panics (the connection is closed and the handler's values are dropped).
   */
  datatype DownloadReply = Answered(response: Response) | Aborted

  function ContentDisposition(name: string): string
  {
    "attachment; filename=\"" + name + "\""
  }

  /** The `Content-Disposition` value is a valid header value exactly when the file name is one. */
  lemma {:induction false} ContentDispositionOk(name: string)
    ensures HeaderValueOk(ContentDisposition(name)) <==> HeaderValueOk(name)
  {
    HeaderValueOkAppend("attachment; filename=\"", name);
    HeaderValueOkAppend("attachment; filename=\"" + name, "\"");
    assert HeaderValueOk("attachment; filename=\"") && HeaderValueOk("\"");
  }

  /** The upload handler's response once the completion receiver has resolved. */
  function UploadResponse(task: TaskResult): (r: Response)
    ensures r.status == StatusOk <==> task == Finished(Completed)
    ensures r.status == StatusBadRequest <==> task.Finished? && task.outcome.Failed?
    ensures r.status == StatusInternalServerError <==> task == TaskFailed
    ensures task.Finished? && task.outcome.Failed? ==> r.body == Text("Upload failed: " + task.outcome.reason)
    ensures r.headers == [TextPlain] && r.body.Text?
  {
    match task
    case Finished(Completed) => Response(StatusOk, [TextPlain], Text(UploadOkMessage))
    case Finished(Failed(error)) => Response(StatusBadRequest, [TextPlain], Text("Upload failed: " + error))
    case TaskFailed => Response(StatusInternalServerError, [TextPlain], Text(UploadTaskFailedMessage))
  }

  /**
   * The download handler's claim: remove the session under `name`, if any, in one critical
   * section, then take its ready sender out and fire it. Only a session no longer registered
   * is ever signalled.
   */
  method ClaimSession(reg: StreamRegistry, name: string) returns (claimed: Option<Session>)
    requires reg.Valid()
    modifies reg, reg.ReadyTxs()
    ensures reg.Valid()
    ensures reg.streams == old(reg.streams) - {name}
    ensures claimed.Some? <==> name in old(reg.streams)
    ensures claimed.Some? ==>
              && claimed.value == old(reg.streams)[name]
              && claimed.value.readyTx.Some? && claimed.value.readyTx.value.state == Fired
              && claimed.value.readyTx.value !in reg.ReadyTxs()
  {
    ghost var before := reg.streams;
    claimed := reg.Remove(name);
    if claimed.Some? {
      var session := claimed.value;
      var ready := session.readyTx.value;
      assert ready in old(reg.ReadyTxs());
      assert forall other :: other in reg.streams ==> reg.streams[other].readyTx != session.readyTx by {
        forall other | other in reg.streams ensures reg.streams[other].readyTx != session.readyTx {
          assert other in before && other != name;
        }
      }
      ready.Send();
    }
  }

  /**
   * `download_handler`: authenticate, claim the session by removing it, fire its ready signal,
   * and answer with a body streamed from the session's channel. When the file name is not a
   * valid header value the response builder rejects the `Content-Disposition` header and the
   * handler panics after the claim: no response is sent, and the session's receiver is dropped.
   */
  method DownloadHandler(reg: StreamRegistry, config: AuthConfig, oracles: Oracles, header: Option<string>, name: string)
    returns (reply: DownloadReply)
    requires reg.Valid()
    requires name in reg.streams ==> reg.streams[name].receiver.Valid()
    modifies reg, reg.ReadyTxs(), if name in reg.streams then {reg.streams[name].receiver} else {}
    ensures reg.Valid()
    ensures CheckRequest(config, oracles, header).Err? ==>
              && reply == Answered(AuthErrorResponse(CheckRequest(config, oracles, header).error))
              && reg.streams == old(reg.streams)
              && (name in old(reg.streams) ==> unchanged(old(reg.streams)[name].receiver))
    ensures CheckRequest(config, oracles, header).Ok? && name !in old(reg.streams) ==>
              && reply == Answered(Response(StatusNotFound, [], Text(NotFoundMessage)))
              && reg.streams == old(reg.streams)
    ensures CheckRequest(config, oracles, header).Ok? && name in old(reg.streams) ==>
              var session := old(reg.streams)[name];
              && reg.streams == old(reg.streams) - {name}
              && session.readyTx.value.state == Fired
              && session.readyTx.value !in reg.ReadyTxs()
              && session.receiver.Valid() && session.receiver.accepted == old(session.receiver.accepted)
    ensures CheckRequest(config, oracles, header).Ok? && name in old(reg.streams) && HeaderValueOk(ContentDisposition(name)) ==>
              var session := old(reg.streams)[name];
              && reply == Answered(Response(StatusOk, [HeaderField("Content-Disposition", ContentDisposition(name))],
                                            Stream(session.receiver)))
              && session.receiver.receiverOpen == old(session.receiver.receiverOpen)
              && session.receiver.queue == old(session.receiver.queue)
    ensures CheckRequest(config, oracles, header).Ok? && name in old(reg.streams) && !HeaderValueOk(ContentDisposition(name)) ==>
              var session := old(reg.streams)[name];
              && reply == Aborted
              && !session.receiver.receiverOpen && session.receiver.queue == []
  {
    var auth := CheckRequest(config, oracles, header);
    if auth.Err? {
      return Answered(AuthErrorResponse(auth.error));
    }
    var claimed := ClaimSession(reg, name);
    if claimed.None? {
      return Answered(Response(StatusNotFound, [], Text(NotFoundMessage)));
    }
    var session := claimed.value;
    var disposition := ContentDisposition(name);
    if !HeaderValueOk(disposition) {
      session.receiver.CloseReceiver();
      return Aborted;
    }
    reply := Answered(Response(StatusOk, [HeaderField("Content-Disposition", disposition)], Stream(session.receiver)));
  }

  /**
   * The upload handler up to the spawn: authenticate, create the channel (capacity 16) and the
   * ready signal, and register them under `name` unless the name is taken (409).
   */
  method UploadAccept(reg: StreamRegistry, config: AuthConfig, oracles: Oracles, header: Option<string>, name: string)
    returns (r: Result<Session, Response>)
    requires reg.Valid()
    modifies reg
    ensures reg.Valid()
    ensures CheckRequest(config, oracles, header).Err? ==>
              && r == Err(AuthErrorResponse(CheckRequest(config, oracles, header).error))
              && reg.streams == old(reg.streams)
    ensures CheckRequest(config, oracles, header).Ok? && name in old(reg.streams) ==>
              && r == Err(Response(StatusConflict, [TextPlain], Text(ConflictMessage)))
              && reg.streams == old(reg.streams)
    ensures CheckRequest(config, oracles, header).Ok? && name !in old(reg.streams) ==>
              && r.Ok?
              && reg.streams == old(reg.streams)[name := r.value]
              && fresh(r.value.receiver) && r.value.readyTx.Some? && fresh(r.value.readyTx.value)
              && r.value.readyTx.value.state == Pending
              && r.value.receiver.Valid() && r.value.receiver.capacity == Capacity
              && r.value.receiver.queue == [] && r.value.receiver.receiverOpen && r.value.receiver.accepted == []
  {
    var auth := CheckRequest(config, oracles, header);
    if auth.Err? {
      return Err(AuthErrorResponse(auth.error));
    }
    var channel := new Channel<Item>(Capacity);
    var ready := new ReadySignal();
    var session := Session(channel, Some(ready));
    var registered := reg.Register(name, session);
    if registered.Err? {
      return Err(Response(StatusConflict, [TextPlain], Text(ConflictMessage)));
    }
    r := Ok(session);
  }

  /**
   * The upload handler after the completion receiver resolves: on every outcome it removes
   * `name` from the registry (whatever session is registered under it now, dropping that
   * session's ready sender) and maps the outcome to 200, 400 or 500.
   */
  method FinishUpload(reg: StreamRegistry, name: string, task: TaskResult) returns (resp: Response)
    requires reg.Valid()
    modifies reg, reg.ReadyTxs()
    ensures reg.Valid()
    ensures reg.streams == old(reg.streams) - {name}
    ensures name in old(reg.streams) ==> old(reg.streams)[name].readyTx.value.state == SenderDropped
    ensures resp == UploadResponse(task)
  {
    ghost var before := reg.streams;
    var removed := reg.Remove(name);
    if removed.Some? && removed.value.readyTx.Some? {
      var ready := removed.value.readyTx.value;
      assert removed.value == before[name];
      assert ready in old(reg.ReadyTxs());
      assert forall other :: other in reg.streams ==> reg.streams[other].readyTx != Some(ready) by {
        forall other | other in reg.streams ensures reg.streams[other].readyTx != Some(ready) {
          assert other in before && other != name;
        }
      }
      ready.DropSender();
    }
    resp := UploadResponse(task);
  }
}
