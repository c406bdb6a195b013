/**
 * Whole exchanges between uploading and downloading clients, run one critical section or task
 * step at a time in one order the concurrent server allows.
 */
module Exchanges {
  import opened Wrappers
  import opened Mpsc
  import opened Oneshot
  import opened Relay
  import opened Http
  import opened Auth
  import opened Registry
  import opened Handlers

  lemma {:induction false} AddThenRemove(m: map<string, Session>, name: string, session: Session)
    requires name !in m
    ensures m[name := session] - {name} == m
    ensures m - {name} == m
  {
  }

  /**
   * An upload is accepted under `name` and a download for `name` claims it, firing the ready
   * signal. The download answers 200 over the fresh channel when the name is a valid header
   * value; otherwise its handler panics and the receiver is dropped. The name is free again.
   */
  method AcceptThenClaim(reg: StreamRegistry, config: AuthConfig, oracles: Oracles,
                         uploadHeader: Option<string>, downloadHeader: Option<string>, name: string)
    returns (session: Session, download: DownloadReply)
    requires reg.Valid() && name !in reg.streams
    requires CheckRequest(config, oracles, uploadHeader).Ok? && CheckRequest(config, oracles, downloadHeader).Ok?
    modifies reg, reg.ReadyTxs()
    ensures reg.Valid() && reg.streams == old(reg.streams)
    ensures session.readyTx.Some? && session.readyTx.value.state == Fired
    ensures fresh(session.receiver) && session.receiver.Valid() && session.receiver.capacity == Capacity
    ensures session.receiver.queue == [] && session.receiver.accepted == []
    ensures session.receiver.receiverOpen <==> HeaderValueOk(name)
    ensures HeaderValueOk(name) ==>
              download == Answered(Response(StatusOk, [HeaderField("Content-Disposition", ContentDisposition(name))],
                                            Stream(session.receiver)))
    ensures !HeaderValueOk(name) ==> download == Aborted
  {
    ghost var before := reg.streams;
    var accepted := UploadAccept(reg, config, oracles, uploadHeader, name);
    session := accepted.value;
    AddThenRemove(before, name, session);
    download := DownloadHandler(reg, config, oracles, downloadHeader, name);
    ContentDispositionOk(name);
  }

  /**
   * An upload followed by a matching download. The download client reads `hangUp` items and
   * disconnects, or reads to the end. When the file name is a valid header value, the client
   * gets 200 and the chunks of the upload in order; with no read error and no disconnect it
   * receives exactly the uploaded bytes. Otherwise the download handler panics after claiming
   * the session: the client gets no response and no data, yet the upload, whose first send
   * finds the receiver gone, still reports success. Either way the upload succeeds whenever the
   * body has no read error, and afterwards the name is free again.
   */
  method UploadThenDownload(reg: StreamRegistry, config: AuthConfig, oracles: Oracles,
                            uploadHeader: Option<string>, downloadHeader: Option<string>,
                            name: string, body: seq<Frame>, hangUp: Option<nat>)
    returns (upload: Response, download: DownloadReply, received: seq<Item>)
    requires reg.Valid() && name !in reg.streams
    requires CheckRequest(config, oracles, uploadHeader).Ok? && CheckRequest(config, oracles, downloadHeader).Ok?
    modifies reg, reg.ReadyTxs()
    ensures reg.Valid() && reg.streams == old(reg.streams)
    ensures NoReadErr(body) ==> upload.status == StatusOk
    ensures HeaderValueOk(name) ==> download.Answered? && download.response.status == StatusOk
    ensures HeaderValueOk(name) ==> received <= Pump(body, InitialRoom(hangUp)).sent
    ensures HeaderValueOk(name) && hangUp.None? ==> received == Pump(body, InitialRoom(hangUp)).sent
    ensures HeaderValueOk(name) && NoReadErr(body) && hangUp.None? ==> Bytes(received) == Payload(body)
    ensures HeaderValueOk(name) && NoReadErr(body) ==> received <= DataItems(body)
    ensures !HeaderValueOk(name) ==> download == Aborted && received == []
  {
    ghost var before := reg.streams;
    var session;
    session, download := AcceptThenClaim(reg, config, oracles, uploadHeader, downloadHeader, name);
    var client := if download.Aborted? then Some(0) else hangUp;
    var outcome;
    outcome, received := Transfer(session.readyTx.value, body, session.receiver, client);
    upload := FinishUpload(reg, name, Finished(outcome));
    assert before - {name} == before;
    if NoReadErr(body) {
      PumpSendsDataPrefix(body, InitialRoom(client));
    }
  }

  /**
   * An upload is accepted under `name` and nobody claims it: its task's ready wait ends by the
   * timeout, without sending anything. The session is still registered.
   */
  method AcceptThenTimeOut(reg: StreamRegistry, config: AuthConfig, oracles: Oracles,
                           header: Option<string>, name: string, body: seq<Frame>)
    returns (session: Session, outcome: Outcome)
    requires reg.Valid() && name !in reg.streams
    requires CheckRequest(config, oracles, header).Ok?
    modifies reg
    ensures reg.Valid() && reg.streams == old(reg.streams)[name := session]
    ensures outcome == Failed(TimeoutMessage)
    ensures fresh(session.receiver) && session.receiver.Valid() && session.receiver.accepted == []
    ensures session.readyTx.Some? && fresh(session.readyTx.value)
  {
    var accepted := UploadAccept(reg, config, oracles, header, name);
    assert accepted.Ok?;
    session := accepted.value;
    assert session.readyTx.value.state == Pending && Linked(session.receiver, [], None);
    assert reg.Valid() && reg.streams == old(reg.streams)[name := session];
    assert WaitReady(session.readyTx.value.state) == TimedOut;
    var read, written;
    outcome, read, written := RunRelay(session.readyTx.value, body, session.receiver, None);
  }

  /**
   * An upload nobody downloads: the ready wait ends by the timeout, the upload fails with 400
   * and the timeout message, and its name is released.
   */
  method UploadWithoutDownloader(reg: StreamRegistry, config: AuthConfig, oracles: Oracles,
                                 header: Option<string>, name: string, body: seq<Frame>)
    returns (upload: Response)
    requires reg.Valid() && name !in reg.streams
    requires CheckRequest(config, oracles, header).Ok?
    modifies reg, reg.ReadyTxs()
    ensures reg.Valid() && reg.streams == old(reg.streams)
    ensures upload == Response(StatusBadRequest, [TextPlain], Text("Upload failed: " + TimeoutMessage))
  {
    ghost var before := reg.streams;
    var session, outcome := AcceptThenTimeOut(reg, config, oracles, header, name, body);
    AddThenRemove(before, name, session);
    upload := FinishUpload(reg, name, Finished(outcome));
  }

  /**
   * A download that arrives after the upload's ready wait has timed out but before the upload
   * handler's cleanup. It still finds the session and claims it; its ready signal reaches no
   * one. It gets 200 over a channel the finished task never sent on, while the upload fails
   * with the timeout, and its cleanup finds the name already gone.
   */
  method DownloadAfterTimeout(reg: StreamRegistry, config: AuthConfig, oracles: Oracles,
                              uploadHeader: Option<string>, downloadHeader: Option<string>,
                              name: string, body: seq<Frame>)
    returns (upload: Response, download: DownloadReply)
    requires reg.Valid() && name !in reg.streams
    requires CheckRequest(config, oracles, uploadHeader).Ok? && CheckRequest(config, oracles, downloadHeader).Ok?
    modifies reg, reg.ReadyTxs()
    ensures reg.Valid() && reg.streams == old(reg.streams)
    ensures upload == Response(StatusBadRequest, [TextPlain], Text("Upload failed: " + TimeoutMessage))
    ensures HeaderValueOk(name) ==>
              && download.Answered? && download.response.status == StatusOk && download.response.body.Stream?
              && download.response.body.receiver.accepted == []
  {
    ghost var before := reg.streams;
    var session, outcome := AcceptThenTimeOut(reg, config, oracles, uploadHeader, name, body);
    AddThenRemove(before, name, session);
    download := DownloadHandler(reg, config, oracles, downloadHeader, name);
    ContentDispositionOk(name);
    upload := FinishUpload(reg, name, Finished(outcome));
  }

  /**
   * An upload whose session was removed by someone else's cleanup: its ready sender is gone, so
   * its task fails at once, its own cleanup finds nothing, and a download for its name gets 404.
   */
  method OrphanedUpload(reg: StreamRegistry, config: AuthConfig, oracles: Oracles, header: Option<string>,
                        name: string, session: Session, body: seq<Frame>)
    returns (upload: Response, lateDownload: DownloadReply)
    requires reg.Valid() && name !in reg.streams
    requires CheckRequest(config, oracles, header).Ok?
    requires session.readyTx.Some? && session.readyTx.value.state == SenderDropped
    requires Linked(session.receiver, [], None) && session.receiver.accepted == []
    modifies reg, reg.ReadyTxs(), session.receiver
    ensures upload == Response(StatusBadRequest, [TextPlain], Text("Upload failed: " + ReadyDroppedMessage))
    ensures lateDownload == Answered(Response(StatusNotFound, [], Text(NotFoundMessage)))
  {
    var outcome, read, written := RunRelay(session.readyTx.value, body, session.receiver, None);
    upload := FinishUpload(reg, name, Finished(outcome));
    lateDownload := DownloadHandler(reg, config, oracles, header, name);
  }

  /**
   * Upload A registers `name`, a download claims it, and upload B registers the same name:
   * the registry now holds B's fresh session under `name`.
   */
  method ClaimThenReregister(reg: StreamRegistry, config: AuthConfig, oracles: Oracles,
                             header: Option<string>, name: string)
    returns (second: Session)
    requires reg.Valid() && name !in reg.streams
    requires CheckRequest(config, oracles, header).Ok?
    modifies reg, reg.ReadyTxs()
    ensures reg.Valid() && reg.streams == old(reg.streams)[name := second]
    ensures fresh(second.receiver) && second.readyTx.Some? && fresh(second.readyTx.value)
    ensures Linked(second.receiver, [], None) && second.receiver.accepted == []
  {
    var first, download := AcceptThenClaim(reg, config, oracles, header, header, name);
    var b := UploadAccept(reg, config, oracles, header, name);
    second := b.value;
  }

  /**
   * The cleanup after an upload removes by name. Upload A is claimed by a download; upload B
   * then registers the same name; when A's completion receiver resolves, whatever the result,
   * its cleanup removes B's session. B's task then finds its ready sender dropped and B fails
   * with 400, and a download arriving for B gets 404.
   */
  method SecondUploadLostToFirstCleanup(config: AuthConfig, oracles: Oracles, header: Option<string>,
                                        name: string, firstResult: TaskResult, secondBody: seq<Frame>)
    returns (first: Response, second: Response, lateDownload: DownloadReply)
    requires CheckRequest(config, oracles, header).Ok?
    ensures first == UploadResponse(firstResult)
    ensures second == Response(StatusBadRequest, [TextPlain], Text("Upload failed: " + ReadyDroppedMessage))
    ensures lateDownload == Answered(Response(StatusNotFound, [], Text(NotFoundMessage)))
  {
    var reg := new StreamRegistry();
    var b := ClaimThenReregister(reg, config, oracles, header, name);
    first := FinishUpload(reg, name, firstResult);
    second, lateDownload := OrphanedUpload(reg, config, oracles, header, name, b, secondBody);
  }
}
