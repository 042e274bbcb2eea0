# Medical image platform backend — a Dafny model

This project models the core of the backend of a medical image analysis platform, a
FastAPI service. The platform stores uploaded scans, starts mock AI analyses on them
and streams each analysis's progress to browser clients over WebSockets. The model
covers these parts:

- **The WebSocket connection manager** (`WebSocketManager`). It is a class whose
  fields are the registry of connected clients, in connection order, and the
  subscriptions of clients to analyses. Each of its methods is proved against a pure
  function on a `Registry` value. Sending is modelled as an outbox of deliveries. A
  parameter `failing` names the clients whose socket raises on send, and the manager
  disconnects those clients after a send.
- **The two WebSocket endpoints** (`WebSocketApi`):
  - the analysis endpoint: connect, the initial subscription, the receive loop, the
    message dispatcher and the disconnect;
  - the admin broadcast endpoint.
- **The analysis service** (`AnalysisService`):
  - `start_analysis`;
  - the staged mock analysis, with its progress updates, its sleeps and its simulated
    failures;
  - the crash handler.

  The random and clock inputs are gathered in a `Plan` parameter.
- **The analysis REST endpoints** (`AnalysisApi`): start, get, list and delete.
- **The images REST endpoints** (`ImagesApi`): upload validation, the stored file
  name and the upload itself, the list, and the delete guard.
- **The analysis record and its status enum** (`AnalysisModel`).
- **The request and response schemas** with their validators (`Schemas`).
- **Modality detection** from a file name (`ImageService`).
- **The settings** (`Config`), with the parsing of the CORS origins.

The database is a class `Store.Database` whose fields are value tables. Each table is
a map from id to row plus the insertion order. Its invariant `Consistent` says:

- each row is stored under its own id;
- stored paths are unique;
- every analysis refers to an existing image and model.

Shared helpers are `Text` (lower-casing, `os.path` splitting, strip, split/join,
decimal rendering), `Query` (filter, sort by creation time, offset/limit), `Seqs`,
`JsonValue`, `Messages` and `Wrappers`.

Two behaviours of the code are kept as written:

- Subscribing to an analysis id that does not exist is accepted and confirmed. The
  manager never looks the id up.
- A terminal status is not final. `_handle_analysis_error` overwrites the status of
  any record it is given. Deleting an analysis only cancels it when it is still
  running.

## Model

| member | source | states |
|---|---|---|
| WebSocketManager.ConnectionManager.constructor | backend/app/services/websocket_manager.py:20-24 | a new manager has no connections, no subscriptions and has sent nothing |
| WebSocketManager.ConnectionManager.Connect | backend/app/services/websocket_manager.py:26-36 | the new registry is `Connected(old, ws, c)`; the registry invariant is kept |
| WebSocketManager.ConnectReplaces | backend/app/services/websocket_manager.py:26-36 | after a connect the client maps to the new socket, the other sockets are unchanged, subscriptions and sends are untouched, a new client goes last in the order, and a reconnect keeps the order as it was |
| WebSocketManager.ConnectionManager.Disconnect | backend/app/services/websocket_manager.py:38-58 | the new registry is `DisconnectedAll(old, {c})`; the invariant is kept |
| WebSocketManager.ConnectionManager.RemoveFromEveryList | backend/app/services/websocket_manager.py:49-51 | the loop over all subscription lists removes the client from each list and changes nothing else |
| WebSocketManager.ConnectionManager.DisconnectEach | backend/app/services/websocket_manager.py:94-96 | disconnecting a list of clients one by one equals disconnecting the set of them |
| WebSocketManager.DisconnectCleansUp | backend/app/services/websocket_manager.py:38-58 | a disconnected client is in no connection, order or subscription list; no subscription list is left empty; every other client keeps its socket and its subscriptions |
| WebSocketManager.DropClientsTwice | backend/app/services/websocket_manager.py:45-56 | removing clients in two rounds equals removing them all at once |
| WebSocketManager.ConnectionManager.SendPersonalMessage | backend/app/services/websocket_manager.py:60-74 | the registry becomes `SentTo(old, [c], failing, msg)` |
| WebSocketManager.SentToOne | backend/app/services/websocket_manager.py:60-74 | an unknown client gets nothing; a failing client is disconnected; otherwise exactly one delivery to its socket is appended |
| WebSocketManager.ConnectionManager.WriteEach | backend/app/services/websocket_manager.py:86-92 | the send loop appends the fanout to the outbox and returns exactly the connected targets whose send failed, in order |
| WebSocketManager.ConnectionManager.SendAll | backend/app/services/websocket_manager.py:76-96 | the send-then-disconnect pattern equals `SentTo` |
| WebSocketManager.ConnectionManager.Broadcast | backend/app/services/websocket_manager.py:76-96 | the registry becomes `Broadcasted(old, msg, failing)` |
| WebSocketManager.BroadcastReachesAll | backend/app/services/websocket_manager.py:76-96 | a broadcast appends one delivery of the message per connected, non-failing client, in connection order, each to that client's socket, and keeps earlier sends |
| WebSocketManager.FanoutRecipients | backend/app/services/websocket_manager.py:86-92 | the recipients of a fanout are the connected targets minus the failing ones, in target order |
| WebSocketManager.FanoutSound | backend/app/services/websocket_manager.py:86-92 | every delivery goes to a connected, non-failing target, on its own socket, with the message sent |
| WebSocketManager.FanoutOnce | backend/app/services/websocket_manager.py:86-92 | a connected, non-failing target in a duplicate-free list receives the message exactly once |
| WebSocketManager.SendKeepsSurvivors | backend/app/services/websocket_manager.py:86-96 | after a send only the clients whose send failed lose their connection and subscriptions; with no failure nothing but the outbox changes |
| WebSocketManager.ConnectionManager.SubscribeToAnalysis | backend/app/services/websocket_manager.py:98-111 | the registry becomes `Subscribed(old, c, a)` |
| WebSocketManager.SubscribeOnce | backend/app/services/websocket_manager.py:98-111 | after subscribing the client is in the analysis's list exactly once; the other lists and the connections are unchanged |
| WebSocketManager.SubscribeIdempotent | backend/app/services/websocket_manager.py:104-106 | subscribing twice is the same as subscribing once |
| WebSocketManager.ConnectionManager.UnsubscribeFromAnalysis | backend/app/services/websocket_manager.py:113-124 | the registry becomes `Unsubscribed(old, c, a)` |
| WebSocketManager.UnsubscribeRemovesOnly | backend/app/services/websocket_manager.py:113-124 | unsubscribing removes just this client from just this list, keeps the (possibly empty) entry, and is a no-op when the client was not subscribed |
| WebSocketManager.ConnectionManager.SendAnalysisUpdate | backend/app/services/websocket_manager.py:126-158 | the registry becomes `Updated(old, a, data, failing)` |
| WebSocketManager.UpdateDelivers | backend/app/services/websocket_manager.py:126-158 | an update reaches exactly the connected, non-failing subscribers of the analysis, in subscription order, with the `analysis_update` message |
| WebSocketManager.NothingToSend | backend/app/services/websocket_manager.py:83-84 | a broadcast with no connections and an update of an analysis nobody follows change nothing |
| WebSocketManager.Stats | backend/app/services/websocket_manager.py:177-188 | the statistics count the connections and the subscribed analyses, and list every connected client once, in connection order |
| WebSocketManager.ConnectionManager.GetConnectionStats | backend/app/services/websocket_manager.py:177-188 | the same counts and the connected clients in connection order, read from the manager's fields |
| WebSocketApi.Classify | backend/app/api/websocket.py:75-140 | a subscribe or unsubscribe command always carries a non-empty id; a message that is not an object raises |
| WebSocketApi.HandleMessage | backend/app/api/websocket.py:75-140 | the dispatcher's new registry is `Handled(old, c, Classify(m), failing)` |
| WebSocketApi.HandleSubscribe | backend/app/api/websocket.py:92-106 | the subscribe branch's new registry is `Handled` of the subscribe command |
| WebSocketApi.HandleUnsubscribe | backend/app/api/websocket.py:108-117 | the unsubscribe branch's new registry is `Handled` of the unsubscribe command |
| WebSocketApi.EffectWellFormed | backend/app/api/websocket.py:75-140 | a command's own effect keeps the registry invariant and never touches connections or sends |
| WebSocketApi.HandledShape | backend/app/api/websocket.py:75-140 | handling a message appends at most one reply, to the sender only; unless that reply fails, the subscriptions are the command's effect and the connections are unchanged |
| WebSocketApi.FailedReplyDisconnects | backend/app/services/websocket_manager.py:70-74 | a reply that fails to send disconnects the sender and all of its subscriptions |
| WebSocketApi.SubscribeReplies | backend/app/api/websocket.py:92-106 | subscribe with an id subscribes the sender and confirms; without an id only the error "analysis_id required" is sent |
| WebSocketApi.UnsubscribeReplies | backend/app/api/websocket.py:108-117 | unsubscribe with an id removes the sender from that list and confirms; without an id nothing at all happens |
| WebSocketApi.QueriesOnlyReply | backend/app/api/websocket.py:119-140 | ping answers pong with the client's timestamp, status answers the connection statistics, any other type answers an unknown-type error; none changes the registry |
| WebSocketApi.ReceiveText | backend/app/api/websocket.py:47-63 | one received text frame turns the registry into `Received(old, c, parsed, failing)` |
| WebSocketApi.InvalidJsonReply | backend/app/api/websocket.py:54-58 | text that is not JSON gets the "Invalid JSON format" error and nothing else |
| WebSocketApi.ReceivedWellFormed | backend/app/api/websocket.py:47-63 | processing one frame, including a failing one, keeps the registry invariant |
| WebSocketApi.ReceiveLoopContinues | backend/app/api/websocket.py:47-63 | processing two batches of frames in a row equals processing them as one |
| WebSocketApi.OpenSubscribes | backend/app/api/websocket.py:32-44 | opening a connection registers the socket; a non-empty `analysis_id` query parameter subscribes the client and sends exactly the confirmation carrying the client id |
| WebSocketApi.OpenedWellFormed | backend/app/api/websocket.py:32-44 | opening keeps the registry invariant |
| WebSocketApi.AnalysisEndpoint | backend/app/api/websocket.py:12-72 | the whole session (open, the receive loop over the inputs, disconnect) produces `Session(old, ...)` |
| WebSocketApi.SessionLeavesNothing | backend/app/api/websocket.py:65-72 | when a session ends the client has no connection and no subscription left |
| WebSocketApi.AdminReceive | backend/app/api/websocket.py:153-193 | one admin frame yields `AdminStep(old, parsed, failing)`: the new registry and the reply |
| WebSocketApi.AdminBroadcastReaches | backend/app/api/websocket.py:163-184 | an object without `type` or `content` is answered "Invalid message format" and changes nothing; otherwise it is broadcast to every client and the reply counts the recipients |
| WebSocketApi.AdminRecipients | backend/app/api/websocket.py:170-177 | after an admin broadcast exactly the clients whose send failed are gone |
| WebSocketApi.AdminNonObject | backend/app/api/websocket.py:163-193 | non-JSON text is answered "Invalid JSON"; a value that is not an object changes nothing and gets another answer |
| WebSocketApi.AdminRepliesOnce | backend/app/api/websocket.py:153-193 | the admin loop answers every frame exactly once |
| WebSocketApi.AdminEndpoint | backend/app/api/websocket.py:144-198 | the admin session over the inputs produces `AdminAll(old, inputs, failing)` |
| AnalysisModel.ParseStatus | backend/app/models/analysis.py:16-27 | a parsed status value renders back to the same string |
| AnalysisModel.StatusValueRoundTrip | backend/app/models/analysis.py:16-27 | every status parses back from its value |
| AnalysisModel.CompletedIffNotRunning | backend/app/models/analysis.py:131-133 | a record is completed exactly when its status is not PENDING or ANALYZING, that is when it is COMPLETE, FAILED or CANCELLED |
| AnalysisModel.NewAnalysis | backend/app/models/analysis.py:40-103 | a new record carries its ids and requester, is PENDING at progress 0 and has no results, confidence, time or error |
| AnalysisModel.SetResults | backend/app/models/analysis.py:118-122 | storing results sets the payload and no other field |
| AnalysisModel.GetResults | backend/app/models/analysis.py:124-129 | reading results gives the stored payload, or an empty map when none is stored |
| AnalysisModel.SetThenGet | backend/app/models/analysis.py:118-129 | results read back after being stored are the ones stored |
| Schemas.RequiredString | backend/app/schemas/analysis.py:11-12 | a required string field is accepted exactly when present and a string, and yields that string |
| Schemas.OptionalString | backend/app/schemas/analysis.py:13 | an optional string field is accepted when absent, null or a string; absent or null yields none |
| Schemas.Priority | backend/app/schemas/analysis.py:14-21 | the priority defaults to "normal"; a given priority is accepted exactly when it is one of low, normal and high |
| Schemas.ParseRequestAccepts | backend/app/schemas/analysis.py:8-21 | a request body is accepted exactly when it is an object with string image and model ids, an optional string user id and a valid priority; a rejection carries at least one error |
| Schemas.ParseRequestReportsMissing | backend/app/schemas/analysis.py:11-12 | a missing image or model id is reported by name |
| Schemas.RequestRoundTrip | backend/app/schemas/analysis.py:8-21 | any request with a valid priority, written as JSON, parses back to itself |
| Schemas.ValidateResponse | backend/app/schemas/analysis.py:37-65 | a record is serialised exactly when its progress is in 0..100 and its confidence, if any, in 0..1; otherwise the endpoint answers 500 |
| Schemas.NewAnalysisValid | backend/app/schemas/analysis.py:37-65 | a freshly created record always passes the response validation |
| Config.ConstantsAgree | backend/app/config.py:29-41 | the upload limit is 52428800 bytes, the minimum processing time is below the maximum, and the five allowed extensions are lower-case and dotted |
| Config.CorsFields | backend/app/config.py:43-48 | a list passes through unchanged; a string gives one stripped origin per comma-separated field |
| Config.CorsSingle | backend/app/config.py:46-47 | a string without commas gives the one stripped origin |
| Config.CorsClean | backend/app/config.py:43-48 | every parsed origin is free of commas and of surrounding white space |
| Config.CorsRoundTrip | backend/app/config.py:43-48 | joining clean origins with commas and parsing them gives them back |
| Config.CorsParseStable | backend/app/config.py:43-48 | parsing the joined result of a parse gives the same origins |
| Config.CorsExample | backend/app/config.py:43-48 | "a, b" parses to the origins "a" and "b" |
| ImageService.DetectModality | backend/app/services/image_service.py:70-104 | the detected modality is none or one of CT, MRI, X-Ray, Ultrasound, PET, Mammography and DICOM |
| ImageService.FirstMatchWins | backend/app/services/image_service.py:84-98 | a rule's modality is detected exactly when its keywords occur in the lower-cased base name and no earlier rule's do |
| ImageService.RuleModalities | backend/app/services/image_service.py:87-98 | the six rules give six distinct modalities, none of them DICOM |
| ImageService.DicomOnlyAsFallback | backend/app/services/image_service.py:100-104 | DICOM is detected exactly when no keyword matches and the format is DICOM; otherwise no keyword and no DICOM format gives none |
| ImageService.CtFirst | backend/app/services/image_service.py:87-88 | a base name containing "ct" is always CT |
| ImageService.UsMeansUltrasound | backend/app/services/image_service.py:93-94 | "us" in a name that matches none of the earlier rules means Ultrasound |
| ImageService.DirectoryIgnored | backend/app/services/image_service.py:84 | the directory part of the path never influences the result |
| ImageService.KeywordsForeign | backend/app/services/image_service.py:87-98 | every keyword contains a letter that cannot occur in a stored upload name |
| ImageService.StoredPathNeverMatches | backend/app/services/image_service.py:84-104 | on a stored upload path (uuid plus allowed extension) detection gives DICOM or nothing |
| ImageService.StoredCtScanUnrecognised | backend/app/api/images.py:73-82 | "ct.png" by its own name is CT, yet its stored path is detected as nothing |
| ImageService.UploadModalityAsWritten | backend/app/services/image_service.py:53-58 | the upload's modality as written: detection on the stored path, none when the image could not be read |
| ImageService.UploadModality | backend/app/services/image_service.py:53-58 | the corrected modality: detection on the original file name, none when the image could not be read |
| ImagesApi.ValidateUpload | backend/app/api/images.py:53-68 | an absent or empty file name is a 400; otherwise the upload is accepted exactly when the lower-cased extension is allowed and a known, non-zero size is within the limit; acceptance yields that extension; a rejection is 400, or 413 with the size message |
| ImagesApi.ValidationOrder | backend/app/api/images.py:57-68 | the extension is checked before the size; a 413 implies an allowed extension; a size within the limit never changes the outcome |
| ImagesApi.ScanPngAccepted | backend/app/api/images.py:57-68 | "SCAN.PNG" is accepted as ".png" with an unknown or zero size and refused with 413 one byte over the limit |
| ImagesApi.GifRejected | backend/app/api/images.py:60-62 | a ".gif" file is refused with 400 |
| ImagesApi.TooLargeText | backend/app/api/images.py:64-68 | the size message reads "File too large. Maximum size: 52428800 bytes" |
| ImagesApi.MimeType | backend/app/api/images.py:89 | the stored MIME type is the given content type, or "application/octet-stream" when none is given |
| ImagesApi.NewImage | backend/app/api/images.py:85-96 | the new row keeps the original name, the stored path, the byte count, the uploader and the time, and the modality of the original name |
| ImagesApi.UploadReply | backend/app/api/images.py:109-120 | the response carries the image id and its download URL |
| ImagesApi.UploadConsistent | backend/app/api/images.py:73-103 | inserting an image under a fresh id and a fresh path keeps the database consistent |
| ImagesApi.UploadImage | backend/app/api/images.py:22-130 | a validation error is returned with nothing changed; a failure while saving answers 500 and leaves nothing behind; success inserts the row and the file and answers the upload response |
| ImagesApi.DeleteImage | backend/app/api/images.py:222-261 | an unknown image is a 404; an image with analyses is a 400; otherwise the row is removed and the file too, unless its removal raises, in which case the file stays and the reply is the same success; nothing changes on an error and the database stays consistent |
| ImagesApi.DeleteImageConsistent | backend/app/api/images.py:244-261 | removing an image with no analyses keeps every analysis's image reference valid, whether or not its file is removed |
| ImagesApi.DeleteGuard | backend/app/api/images.py:244-248 | the guard lets an image go exactly when no analysis refers to it; every analysis then still finds its image, and deleting an image the guard refuses would leave some analysis without its image |
| ImagesApi.ListImagesCorrect | backend/app/api/images.py:187-219 | the listed images are stored and match the filters, newest first, at most `limit` of them |
| ImagesApi.ListImagesMembers | backend/app/api/images.py:208-214 | without paging an image is listed exactly when it matches the filters |
| Query.FilterContents | backend/app/api/images.py:210-214 | a filter keeps exactly the matching rows, each as often as before |
| Query.SortDescCorrect | backend/app/api/images.py:208-214 | ordering by creation time newest first is sorted and a permutation |
| Query.WindowShape | backend/app/api/images.py:208-214 | offset/limit returns at most `limit` consecutive rows starting at `skip` |
| Query.WindowPages | backend/app/api/images.py:208-214 | two consecutive pages together are the page of twice the size |
| Query.ListingCorrect | backend/app/api/analysis.py:118-132 | a listing returns matching rows only, sorted, within the limit, and without paging all of them |
| Query.ListingMembers | backend/app/api/analysis.py:118-132 | without paging a row is listed exactly when it is stored and matches |
| Store.PutAnalysisConsistent | backend/app/services/analysis_service.py:59-65 | rewriting an analysis with the same id, image and model keeps the database consistent |
| Store.DeleteAnalysisConsistent | backend/app/api/analysis.py:222-223 | deleting an analysis keeps the database consistent |
| AnalysisService.StartCheckOrder | backend/app/services/analysis_service.py:47-56 | a start passes the checks exactly when the image exists and the model exists and is active; the image is checked first, then the model's existence |
| AnalysisService.StartAnalysis | backend/app/services/analysis_service.py:24-79 | a failed check returns its message with nothing changed; otherwise the new PENDING record is stored and announced to every client |
| AnalysisService.StageStep | backend/app/services/analysis_service.py:110-172 | the closed form of the stages agrees with running them one at a time |
| AnalysisService.RunAnalyzing | backend/app/services/analysis_service.py:110-143 | during the stages the record is ANALYZING at progress 5, 20, 40, 60, 80, 95, and nothing else changes |
| AnalysisService.ProgressGrows | backend/app/services/analysis_service.py:110-143 | progress strictly increases from stage to stage |
| AnalysisService.AfterSame | backend/app/services/analysis_service.py:110-143 | the stages never change the record's id, image or model |
| AnalysisService.FinalSame | backend/app/services/analysis_service.py:110-179 | neither does the end of the run |
| AnalysisService.RunCompletes | backend/app/services/analysis_service.py:156-172 | a successful run ends COMPLETE at 100 with the processing time, the results, and their confidence score (0.85 by default) |
| AnalysisService.RunFails | backend/app/services/analysis_service.py:146-150 | a simulated failure ends FAILED at progress 0 with one of the four scenario codes and messages, and results and confidence as they were (none for a new analysis) |
| AnalysisService.RunCrashes | backend/app/services/analysis_service.py:174-179 | an exception ends FAILED with SYSTEM_ERROR and "Unexpected error: " and the text, at the progress reached |
| AnalysisService.RunEndsTerminal | backend/app/services/analysis_service.py:82-179 | every run ends in a completed status |
| AnalysisService.RunUpdateCount | backend/app/services/analysis_service.py:82-179 | one update is sent per stage reached, plus one for a crash; an uninterrupted run's last update carries the final status |
| AnalysisService.RunKeepsResponseValid | backend/app/services/analysis_service.py:82-179 | a record that passes response validation still passes it at every stage and at the end |
| AnalysisService.SleepsAddUp | backend/app/services/analysis_service.py:123-143 | the five progress sleeps add up to the drawn total time, which lies between the configured minimum and maximum |
| AnalysisService.Notify | backend/app/services/analysis_service.py:113-120 | an update is sent through the manager when there is one |
| AnalysisService.HandleAnalysisError | backend/app/services/analysis_service.py:213-232 | an unknown id changes nothing; otherwise the record becomes FAILED with SYSTEM_ERROR and the subscribers are told |
| AnalysisService.Begin | backend/app/services/analysis_service.py:110-120 | the first stage stores and announces the ANALYZING record at 5% |
| AnalysisService.Advance | backend/app/services/analysis_service.py:129-143 | each progress stage stores and announces its record |
| AnalysisService.ProgressStep | backend/app/services/analysis_service.py:129-143 | one iteration advances a stage, or raises at the planned crash stage with nothing changed |
| AnalysisService.ProgressLoop | backend/app/services/analysis_service.py:129-143 | the loop sleeps as planned and either runs all stages or stops at the crash stage, with the store and the updates of the stages run |
| AnalysisService.SimulateFailure | backend/app/services/analysis_service.py:182-210 | a simulated failure stores and announces the FAILED record and keeps the database consistent |
| AnalysisService.Finish | backend/app/services/analysis_service.py:156-172 | completion stores and announces the COMPLETE record |
| AnalysisService.Interrupt | backend/app/services/analysis_service.py:174-179 | a crash turns the stages run so far into the final crashed record and its update |
| AnalysisService.InterruptedAt | backend/app/services/analysis_service.py:174-179 | a crashed run's final record and updates are those of the stages reached plus the crash |
| AnalysisService.RanToEnd | backend/app/services/analysis_service.py:146-172 | an uninterrupted run's final record and updates are those of all stages plus the outcome |
| AnalysisService.Conclude | backend/app/services/analysis_service.py:145-179 | the outcome stage ends the run with the final record and updates |
| AnalysisService.Run | backend/app/services/analysis_service.py:106-179 | the whole staged run stores the final record, sends all the updates and sleeps as planned |
| AnalysisService.RunConsistent | backend/app/services/analysis_service.py:106-179 | rewriting the record during a run keeps the database consistent |
| AnalysisService.MockAiAnalysis | backend/app/services/analysis_service.py:82-179 | an unknown id does nothing; otherwise the stored record becomes the run's final record and the subscribers receive every stage's update |
| AnalysisApi.WebsocketUrl | backend/app/api/analysis.py:52 | the progress URL is "/ws/analysis/" plus the user id, or "guest" |
| AnalysisApi.StartEndpointAsWritten | backend/app/api/analysis.py:33-39 | as written, every start request answers 500 |
| AnalysisApi.StartAlwaysFails | backend/app/api/analysis.py:33-39 | even a request whose image and model are valid answers 500, where the corrected endpoint succeeds |
| AnalysisApi.StartReply | backend/app/api/analysis.py:21-59 | a failed check answers 400 with its message; success answers the new id, PENDING and the progress URL |
| AnalysisApi.StartEndpoint | backend/app/api/analysis.py:21-59 | the corrected endpoint answers `StartReply` and stores and announces the new analysis only on success |
| AnalysisApi.GetAnalysis | backend/app/api/analysis.py:62-94 | an unknown id is a 404 "Analysis not found"; a stored record is returned when it validates and is a 500 otherwise |
| AnalysisApi.ListAnalysesCorrect | backend/app/api/analysis.py:97-137 | the listed analyses are stored, match the filters, validate, newest first, at most `limit`; the call fails with 500 exactly when some analysis of the page fails the response checks |
| AnalysisApi.ListAnalysesSucceeds | backend/app/api/analysis.py:134-137 | when every stored analysis passes the response checks, listing succeeds for any filters and paging |
| AnalysisApi.ListAnalysesMembers | backend/app/api/analysis.py:118-132 | without paging an analysis is listed exactly when it matches the filters |
| AnalysisApi.CancelForDelete | backend/app/api/analysis.py:209-219 | a running analysis is cancelled with USER_DELETED before deletion; a finished one is left as it is |
| AnalysisApi.DeletedIsFinal | backend/app/api/analysis.py:209-219 | the deleted record is always completed and keeps its ids |
| AnalysisApi.CancelUpdateOnlyWhenRunning | backend/app/api/analysis.py:209-219 | the cancellation update is sent only for a running analysis |
| AnalysisApi.DeleteAnalysis | backend/app/api/analysis.py:180-233 | an unknown id is a 404 with nothing changed; otherwise the row is deleted, a running one is cancelled first, and the deletion is broadcast |
| Text.Lower | backend/app/api/images.py:57 | lower-casing maps each character and keeps the length |
| Text.LowerIdempotent | backend/app/api/images.py:57 | lower-casing twice is lower-casing once |
| Text.Basename | backend/app/services/image_service.py:84 | the base name is the part after the last slash: it holds no slash, ends the path, and starts the path or follows a slash |
| Text.BasenameOfJoin | backend/app/services/image_service.py:84 | the base name of a directory joined with a name is the name |
| Text.SplitExtParts | backend/app/api/images.py:57 | splitting off the extension loses nothing, and the extension is empty or a single dotted suffix of the last path component |
| Text.SplitExtExamples | backend/app/api/images.py:57 | the extension of "SCAN.PNG" is ".PNG", of "archive.tar.gz" ".gz", and a leading-dot name or a name without a dot has none |
| Text.StripShape | backend/app/config.py:47 | stripping removes exactly the leading and trailing white space |
| Text.StripIdempotent | backend/app/config.py:47 | stripping twice is stripping once |
| Text.SplitJoin | backend/app/config.py:47 | joining the comma-separated fields gives back the text |
| Text.JoinSplit | backend/app/config.py:47 | splitting fields joined with a separator they do not contain gives them back |
| Text.DecimalRoundTrip | backend/app/api/images.py:67 | the decimal rendering of a number is a digit string without leading zero that reads back as the number |

## Left out

- The heartbeat (`send_heartbeat` and `heartbeat_task`, backend/app/services/websocket_manager.py:160-175 and 196-208) is not modelled. It is a timed loop and has no effect on the registry beyond a broadcast.
- Sockets, the network, asynchronous scheduling and concurrency between requests are not modelled. Every operation runs to completion on its own. A background task is modelled as a later call.
- `json.loads` is a parameter. A received frame is given as already parsed (`Some`) or as not JSON (`None`).
- uuids, the clock and `random` are parameters. The random draws of a mock run (total time, failure, scenario, crash) are gathered in a `Plan`.
- `_generate_mock_results` is not modelled. The results of a successful run are part of the `Plan`.
- Reading image files (`extract_metadata` with PIL and python-magic, lines 17-67 of backend/app/services/image_service.py) and `process_advanced_metadata` are not modelled. The outcome of reading is the `Metadata` parameter of an upload.
- `get_image`, `download_image` and `list_ai_models` are not modelled. They only read rows.
- Database failures are not modelled. File-system failures are modelled for the save of an upload (the `fault` parameter) and the removal of a deleted image's file (the `removeFails` parameter).
- The pydantic error texts are not modelled. A rejected request lists the failing fields as `FieldError` values.
- Text.Lower: lower-cases ASCII letters only; Python's `str.lower` covers all of Unicode.
- Query.SortDescCorrect: rows with equal creation times may come out in a different order than the database returns them.
- AnalysisService.Run: an exception in a stage is modelled only where a stage starts, after its sleep.
- WebSocketApi.Classify: an `analysis_id` that is a non-zero number or `true` is treated as a processing error. The source would subscribe under that non-string key. A list or object id raises in the source too (its membership test on the subscriptions fails), and the model answers it with the same processing error.
- The close code 1011 sent on a server error, and the `server_time` and `timestamp` fields of messages, are not modelled.
- The detail text of "Error processing message" replies is not modelled.

## Findings

| source | as written | input that shows it | evidently intended | confidence | as-written member | corrected member |
|---|---|---|---|---|---|---|
| backend/app/api/analysis.py:33-39 | `start_analysis` is called with a `websocket_manager=` keyword that `AnalysisService.start_analysis` (backend/app/services/analysis_service.py:24-30) does not accept, so the call raises and the endpoint answers 500 | any request, e.g. an existing image and an active model | the check results are answered as 400, and a valid request starts the analysis | not executed | AnalysisApi.StartEndpointAsWritten, AnalysisApi.StartAlwaysFails | AnalysisApi.StartEndpoint, AnalysisApi.StartReply |
| backend/app/services/image_service.py:84 | modality detection runs on the stored path, whose base name is a uuid plus the extension (backend/app/api/images.py:73-74, 82), so no keyword can ever match | an upload named "ct.png" | the modality is detected from the original file name ("ct.png" is CT) | not executed | ImageService.UploadModalityAsWritten, ImageService.StoredCtScanUnrecognised | ImageService.UploadModality (used by ImagesApi.NewImage) |

