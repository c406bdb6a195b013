# beam relay core in Dafny

beam pairs an uploading HTTP client with a downloading HTTP client by file name. The upload
body is streamed straight into the download response through a bounded channel of 16 slots,
and nothing is stored on disk. This project models the rendezvous core of `src/lib.rs`:

- **Stream registry.** This is the shared map from file name to a pending upload session
  (`Registry.StreamRegistry`, with a `map<string, Session>` field).
  - An upload registers its session, or gets 409 when the name is taken.
  - A download claims a session by removing it, then fires the session's one-shot ready
    signal. It gets 404 when nothing is registered under the name.
  - Whatever its task reports, the upload removes its name again when it finishes.
  - The dashboard lists the names.
- **Relay coordinator.** This is the spawned upload task.
  - It waits for the ready signal. The wait ends one of three ways: the signal fires, its
    sender is dropped, or the 300 s timeout passes.
  - It then forwards the data frames of the upload body into the channel (`Mpsc.Channel`),
    using blocking sends.
  - It stops with success when the download client has gone away.
  - On a read error it pushes an in-band error marker and fails.
  - It reports exactly one outcome, which the upload handler maps to 200, 400 or 500.
- **Credential check.** This is HTTP Basic authentication against one configured username and
  its stored Argon2 hash, followed by the 401/500 error responses.

The relay is specified twice:
- by a recursive reference function, `Relay.Pump`: what is sent, how many frames are read, and
  the outcome;
- by the loop itself, `Relay.Forward`/`Relay.RunRelay`, proved against `Pump` over a channel
  object.

Lemmas about `Pump` state what the task promises: all data arrives in order, a send that fails
stops the task, and a read error pushes one marker. `Exchanges` composes the handlers into whole
exchanges.

The concurrent server is modelled under one schedule:
- Each registry critical section is one atomic step.
- The download client gets a turn only when the task's send finds the channel full (it then
  takes one item), and it drains the rest once the task has ended.
- The download client is described by `hangUp`, the number of items it reads before it
  disconnects (`None`: it reads to the end; `Some(0)`: it is gone before the first send).
- Under this schedule the channel accepts no send for `Some(0)`, `k + 16 - 1` sends for
  `Some(k)` with `k > 0` (`Relay.InitialRoom`), and every send for `None`.

Behaviours of the code that the model keeps as they are:
- A download that arrives while no upload is registered under its name gets 404. The two sides
  do not pair in either order; the upload must come first.
- The upload cleanup removes the registry entry **by name**, after every outcome. A later
  upload under the same name can therefore lose its session to an earlier upload's cleanup
  (`Exchanges.SecondUploadLostToFirstCleanup`).
- Between the timeout of an upload's ready wait and that upload's cleanup, a download can still
  claim the session. For a name that is a valid header value it gets 200 over a channel
  nothing is ever sent on, while the upload gets 400 (`Exchanges.DownloadAfterTimeout`).
- The download handler builds its `Content-Disposition` header from the file name. A name that
  is not a valid header value (a control character other than a tab, or DEL) makes the response
  builder fail after the session has been claimed and its ready signal sent. The handler then
  panics, so no response is sent and the receiver is dropped. Under the modelled schedule the
  upload task's first send fails. In any interleaving the client gets nothing, and when the
  body has no read error the upload still reports success (`Exchanges.UploadThenDownload`).
- Authentication is a static username and password only.

## Model

| member | source | states |
|---|---|---|
| `Mpsc.Channel.constructor` | src/lib.rs:250 | `mpsc::channel(16)`: an empty, open channel with the given capacity that has accepted nothing |
| `Mpsc.Channel.TrySend` | src/lib.rs:300 | one send attempt gives `Closed` when the receiver is dropped, `Full` when the buffer holds `capacity` items, otherwise `Queued`; only `Queued` appends the item, to the buffer and to the history of accepted items |
| `Mpsc.Channel.Recv` | src/lib.rs:222-223 | with an item buffered, the receiver takes the oldest one and the buffer keeps the rest; the history is unchanged |
| `Mpsc.Channel.CloseReceiver` | src/lib.rs:222-223 | dropping the receiver discards the buffer; later sends fail |
| `Oneshot.ReadySignal.constructor` | src/lib.rs:251 | a new ready signal is pending |
| `Oneshot.ReadySignal.Send` | src/lib.rs:216-217 | sending consumes the sender: possible only while pending, and afterwards the signal has fired |
| `Oneshot.ReadySignal.DropSender` | src/lib.rs:84-87 | dropping a session that still holds its sender ends the wait with a dropped sender |
| `Relay.WaitReady` | src/lib.rs:278-292 | the wait is ready exactly when the signal fired, and times out exactly when it is still pending; a dropped sender is the remaining case |
| `Relay.DataItems` | src/lib.rs:298-304 | the chunks forwarded from a body are no more than its frames |
| `Relay.Pump` | src/lib.rs:296-317 | the loop reads at least one frame of a non-empty body and none of an empty one; it never reads past the body and sends at most one item per frame read |
| `Relay.NotReadySendsNothing` | src/lib.rs:278-292 | when the wait ends by timeout or by a dropped sender, nothing is read or sent, and the task fails with "Timeout waiting for download client" or "Ready channel dropped" |
| `Relay.PumpDeliversAllData` | src/lib.rs:296-305 | a body without read errors, when the channel has room for all its chunks, is read to the end; the chunks of its data frames are sent in order, with non-data frames skipped, and the task completes |
| `Relay.PumpStopsAtFailedSend` | src/lib.rs:300-303 | when the download client is gone at the send of a data frame, the loop stops after that frame; the chunks sent are exactly those of the earlier frames, nothing later is read, and the outcome is success |
| `Relay.PumpReadError` | src/lib.rs:306-311 | a read error after error-free frames sends their chunks and then one error marker (dropped if the receiver is already gone); nothing after the error is read, and the task fails with "Stream error: " and the error |
| `Relay.PumpSendsDataPrefix` | src/lib.rs:296-317 | without a read error, whatever the room left in the channel, the task sends a prefix of the upload's data chunks, in order |
| `Relay.PumpWithoutReadErrorCompletes` | src/lib.rs:296-317 | without a read error the task always reports success, also when the download client leaves early |
| `Relay.DataItemsCarryPayload` | tests/integration_test.rs:43-44 | the forwarded chunks carry exactly the bytes of the upload's data frames, concatenated |
| `Relay.ClientReceives` | src/lib.rs:222-223 | the download response writes the oldest buffered item to its client; the receiver is dropped exactly when the client has read its last item |
| `Relay.BlockingSend` | src/lib.rs:300 | `tx.send(..).await`: the send succeeds exactly when the room left is not zero; on success the item is appended to what the channel accepted and the room shrinks by one |
| `Relay.ForwardFrame` | src/lib.rs:297-313 | handling one frame sends and stops exactly as one step of `Pump` does: skip a non-data frame, send a chunk or stop with success, or send the marker and fail |
| `Relay.Forward` | src/lib.rs:296-317 | the `while let` loop yields the outcome and the frame count of `Pump`, and the channel accepts exactly `Pump`'s items |
| `Relay.RunRelay` | src/lib.rs:277-318 | the whole task (ready wait, then forwarding) agrees with the reference definition `RelayTask` on outcome, frames read and items accepted |
| `Relay.DrainDownload` | src/lib.rs:222-223 | after the task ends, the client receives every accepted item, or exactly its first `k` items when it disconnects after `k`; it never receives more than it reads |
| `Relay.Transfer` | src/lib.rs:277-318 | once the download has fired the ready signal, the client receives a prefix of `Pump`'s items, all of them when it stays and exactly the first `k` (or all, if fewer were sent) when it disconnects after `k`. The outcome is `Pump`'s. A body without read errors completes, and a client that stays receives exactly the upload's bytes |
| `Auth.ExtractBasicAuth` | src/lib.rs:113-124 | a missing header or one that does not decode is `Unauthorized`; otherwise the decoded credentials are returned |
| `Auth.AuthenticateUser` | src/lib.rs:126-151 | a wrong username or an empty password is `Unauthorized`; `Internal` happens exactly for the right user with a non-empty password and a stored hash that does not parse; `Ok` happens exactly when in addition the hash parses and the password verifies |
| `Auth.CheckRequest` | src/lib.rs:196-203 | the check at the head of both handlers: a missing or undecodable header is `Unauthorized` without looking at any credentials; otherwise the result is exactly `AuthenticateUser`'s decision on the decoded credentials |
| `Auth.AuthErrorResponse` | src/lib.rs:95-111 | `Unauthorized` becomes 401 carrying `WWW-Authenticate: Basic realm="beam"`, `Internal` becomes 500 without it |
| `Auth.HashConsultedLast` | src/lib.rs:130-148 | for a wrong username or an empty password the result does not depend on the hash parser or the verifier |
| `Registry.StreamRegistry.constructor` | src/lib.rs:57-62 | the registry starts empty |
| `Registry.StreamRegistry.Register` | src/lib.rs:254-271 | a taken name is a conflict and leaves the map as it was; otherwise exactly that name is added with the session and every other entry is kept |
| `Registry.StreamRegistry.Remove` | src/lib.rs:205-214 | removal of `name` returns its session exactly when it was present and keeps every other entry |
| `Registry.StreamRegistry.ListActive` | src/lib.rs:153-155 | the dashboard's list holds every registered name exactly once and nothing else |
| `Handlers.UploadResponse` | src/lib.rs:320-333 | status 200 exactly for success, 400 exactly for a reported failure (body "Upload failed: " and the reason), 500 exactly when the task died without reporting; each is a text body with the `Content-Type: text/plain; charset=utf-8` header the framework adds to a status-and-text answer |
| `Handlers.ClaimSession` | src/lib.rs:205-218 | the session under `name`, if any, is removed with every other entry kept; its ready signal fires only after that, and it is no longer held by the registry |
| `Handlers.ContentDispositionOk` | src/lib.rs:227-229 | the `Content-Disposition` value is a valid header value exactly when the file name is one |
| `Handlers.DownloadHandler` | src/lib.rs:191-233 | an authentication failure gets its error response and changes neither the registry nor the registered session's channel; an unknown name gets 404 and leaves the registry as it was. Otherwise the session is removed and its ready signal fires. The response is 200 with `Content-Disposition` and a body streamed from the untouched channel when the header value is valid; otherwise the handler aborts with no response and the receiver is dropped |
| `Handlers.UploadAccept` | src/lib.rs:235-271 | an authentication failure gets its error response, and a taken name gets 409 with the plain-text content type; neither changes the registry. Otherwise a fresh empty 16-slot channel and a fresh pending ready signal are registered under the name, and every other entry is kept |
| `Handlers.FinishUpload` | src/lib.rs:320-333 | after any result of the task the name is gone from the registry; the session removed drops its ready sender; the response is `UploadResponse` of the result |
| `Exchanges.AcceptThenClaim` | src/lib.rs:205-271 | an accepted upload claimed by a download: the signal has fired, the name is free, and the download gets 200 over the fresh open channel, or aborts with the receiver dropped when the name is not a valid header value |
| `Exchanges.UploadThenDownload` | src/lib.rs:191-333 | an authorised upload with a download for its name. With a valid header name the download gets 200 and the chunks in order, and the bytes arrive unchanged when the client stays; without a read error, what it receives is a prefix of the upload's chunks even when it disconnects early. Otherwise the download aborts and receives nothing. Either way the upload gets 200 when the body has no read error, and the registry is back to where it was |
| `Exchanges.AcceptThenTimeOut` | src/lib.rs:254-292 | an accepted upload nobody claims: the task times out without sending anything, and the session is still registered |
| `Exchanges.UploadWithoutDownloader` | src/lib.rs:278-290 | an upload nobody downloads fails with 400 "Upload failed: Timeout waiting for download client" and releases its name |
| `Exchanges.DownloadAfterTimeout` | src/lib.rs:191-333 | a download that claims the session after the task timed out but before cleanup gets 200, for a name that is a valid header value, over a channel that never accepted anything; the upload fails with the timeout message, and the registry is back to where it was |
| `Exchanges.ClaimThenReregister` | src/lib.rs:205-271 | an upload registered under a name and claimed by a download leaves the name free, so a second upload registers a fresh session under it |
| `Exchanges.OrphanedUpload` | src/lib.rs:282-285 | an upload whose ready sender was dropped by another cleanup fails with 400 "Upload failed: Ready channel dropped", and a download for its name gets 404 |
| `Exchanges.SecondUploadLostToFirstCleanup` | src/lib.rs:320-333 | removal by name: the first upload's cleanup removes a second upload of the same name, which then fails with "Ready channel dropped" while a late download gets 404 |

## Left out

- The axum router, the TCP listener, `tokio::spawn` and `axum::serve` (src/lib.rs:21-48) are
  I/O and runtime wiring. `src/main.rs` only starts the process. Neither is part of this model.
- `RwLock` locking and the interleaving of concurrent tasks are not modelled. Each critical
  section on the registry is one atomic method call, and whole exchanges run in one order the
  server allows, as described above.
- Argon2 hashing, the random salt, PHC hash parsing and password verification are foreign
  cryptographic code. They are parameters (`Auth.Oracles`), and `AuthConfig::new`
  (src/lib.rs:71-81) is not modelled.
- Decoding of the Basic `Authorization` header (section 2 of RFC 7617) happens in a library.
  It is an oracle that parses or fails.
- The 300 s timeout is not a clock. A ready wait that resolves while the signal is still
  pending is the timeout.
- The HTML of the dashboard (src/lib.rs:157-188) is not modelled; only the list of names is.
- Logging through `tracing` is not modelled.
- The completion oneshot is not modelled as an object. Its value is the task's `Outcome`, and
  its dropped sender is `Handlers.TaskFailed`.
- The conversion of a channel item into a response body frame (src/lib.rs:223) is not
  modelled. `Relay.Bytes` reads the bytes of the chunks.
- Exchanges.SecondUploadLostToFirstCleanup: the first upload's task and download are not run;
  its completion result is a parameter, since every result leads to the same removal.
- The header-value rule (`Http.HeaderValueOk`) is the HTTP library's byte rule applied to
  characters; characters beyond ASCII are accepted, as their UTF-8 bytes are. What a panicking handler
  does to the connection beyond sending no response is not modelled.
- `tests/integration_test.rs` is used only for its content-equality assertion; its setup does
  not match the current server.
