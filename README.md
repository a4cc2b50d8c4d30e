# Online code editor: execution path and file store, modelled in Dafny

The system is a browser code editor with a Node server behind it. The
modelled core has three parts.

**Running code.** The browser hook (`useExecutionWebSocket`) sends
`execute`, `input` and `stop` requests over a WebSocket (`/ws/execute`).
Each connection on the server keeps a current execution id, an attached
stream and an echo flag, and forwards the program's output, errors and exit
to the client. Every message is tagged with the id of the execution it
belongs to. The Docker execution service does the work:

- it keeps one long-lived container per language in a pool;
- it adopts containers that already exist when it first starts;
- it deploys the code as the language's single source file under `/code`;
- it runs the language's command in an attached exec stream;
- it strips the hijack header from the stream's output;
- it tracks the active executions by session.

**Editor state.** Three Redux slices on the client: the editor
(`setCodeEditor`), the file list (`setFiles`, `updateFilename`,
`deleteFile`) and authentication (`setCredentials`, `logout`).

**Saved files.** The six file handlers (`createFile`, `getAllFiles`,
`getFileById`, `saveFile`, `deleteFile`, `renameFile`) work over a table of
files whose `filename` carries a unique index. `fileMiddleware` guards the
routes that work on a single file.

The modules and their files:

| module | file | what it holds |
|---|---|---|
| `Registry` | `registry.dfy` | `LANGUAGE_CONFIGS` and image-name matching |
| `OutputFilter` | `output_filter.dfy` | the global header removal |
| `DockerEngine` | `docker_engine.dfy` | the Docker daemon, as a class whose calls may fail |
| `ExecutionService` | `execution_service.dfy` | the service as a class over the engine |
| `Protocol` | `protocol.dfy` | the messages |
| `ExecutionSocket` | `execution_socket.dfy` | one server connection |
| `ExecutionClient` | `execution_client.dfy` | the browser hook |
| `Session` | `session.dfy` | the two sides composed |
| `CodeEditorSlice`, `FilesSlice`, `AuthSlice` | one file each | the client stores |
| `FileController` | `file_controller.dfy` | the file handlers |
| `FileMiddleware` | `file_middleware.dfy` | the route guard |

Each stateful object is a class whose fields mirror the source's variables.
Its methods are specified by a pure function of the old state, and the
properties are proved about those functions.

## Model

| member | source | states |
|---|---|---|
| Registry.KeyRoundTrip | server/services/dockerExecutionService.js:9-34 | Exactly the four keys python, javascript, c and cpp are registered, each for one language; every other key is unsupported |
| Registry.Lookup | server/services/dockerExecutionService.js:248-252 | A key is supported exactly when it is python, javascript, c or cpp, and then it names the language whose key it is |
| Registry.FirstMatch | server/services/dockerExecutionService.js:56-61 | The first candidate, in order, whose image name starts the image; every earlier candidate does not match |
| Registry.MatchLanguage | server/services/dockerExecutionService.js:56-61 | A container is claimed only for a language whose image name starts its image |
| Registry.MatchLanguageNone | server/services/dockerExecutionService.js:56-61 | A container stays unclaimed exactly when no language's image name starts its image |
| Registry.ImageNameIsBase | server/services/dockerExecutionService.js:57 | The recognised name of each language equals `image.split(":")[0]` of its configured image |
| Registry.OwnImageMatches | server/services/dockerExecutionService.js:57 | The image a language's containers are created from is recognised as that language's image |
| Registry.RediscoveredAs | server/services/dockerExecutionService.js:56-61 | A container created for a language is claimed for that same language on the next discovery, except that a C++ container is claimed for C |
| Registry.GccImagesAreC | server/services/dockerExecutionService.js:56-61 | Any image starting with `gcc`, whatever its tag, is claimed for C |
| Registry.NeverMatchesCpp | server/services/dockerExecutionService.js:56-61 | Discovery never claims a container for `cpp`, because `c` comes first and uses the same image name |
| Registry.CommandRunsDeployedFile | server/services/dockerExecutionService.js:233-246 | The archive's single file is `main.<fileExtension>`; every language's command runs `/code/main.<fileExtension>`, the file deployment writes |
| OutputFilter.StripHeaders | server/services/dockerExecutionService.js:302-305 | Header removal never lengthens a chunk |
| OutputFilter.StripOnlyDeletes | server/services/dockerExecutionService.js:302-305 | Header removal only deletes: every character it keeps was in the chunk, at least as often |
| OutputFilter.ForwardedChunk | server/services/dockerExecutionService.js:300-311 | A chunk is passed on exactly when something is left after header removal, and then what is left is passed on |
| OutputFilter.StripShortensIffHeader | server/services/dockerExecutionService.js:302-305 | Header removal never lengthens a chunk, and it shortens one exactly when the chunk contains the header |
| OutputFilter.HeaderFreeChunkUnchanged | server/services/dockerExecutionService.js:300-311 | A chunk without the header is forwarded verbatim, or not at all when it is empty |
| OutputFilter.SameLengthMeansUnchanged | server/services/dockerExecutionService.js:302-305 | If removal keeps the length, it keeps the chunk |
| OutputFilter.HeadersOnlyDropped | server/services/dockerExecutionService.js:300-311 | A chunk made only of repeated headers is dropped, so the handshake never reaches the client |
| OutputFilter.LeadingHeaderIgnored | server/services/dockerExecutionService.js:302-305 | A leading header does not change what is forwarded |
| OutputFilter.ShortUnchanged | server/services/dockerExecutionService.js:302-305 | A chunk shorter than the header comes through whole |
| DockerEngine.Engine.constructor | server/services/dockerExecutionService.js:3-6 | A daemon with the given containers, images and identifier counter, every container under an identifier already handed out |
| DockerEngine.Engine.ListContainers | server/services/dockerExecutionService.js:49 | A successful listing names every container once, with its image and state |
| DockerEngine.Engine.Inspect | server/services/dockerExecutionService.js:154 | A successful inspection reports the container's running and paused flags; a missing container cannot be inspected |
| DockerEngine.Engine.Start | server/services/dockerExecutionService.js:75 | Only a stopped container starts, and it is then running; a failed start changes nothing |
| DockerEngine.Engine.Unpause | server/services/dockerExecutionService.js:172 | Only a paused container unpauses, and it is then running |
| DockerEngine.Engine.Stop | server/services/dockerExecutionService.js:378 | On success the container is stopped; nothing else changes |
| DockerEngine.Engine.Remove | server/services/dockerExecutionService.js:379 | On success the container is gone; nothing else changes |
| DockerEngine.Engine.InspectImage | server/services/dockerExecutionService.js:113 | Succeeds only for an image present locally |
| DockerEngine.Engine.Pull | server/services/dockerExecutionService.js:118-135 | On success the image is present; containers are untouched |
| DockerEngine.Engine.CreateContainer | server/services/dockerExecutionService.js:201-215 | A new stopped container from a local image, under an identifier never used before |
| DockerEngine.Engine.ExecDetached | server/services/dockerExecutionService.js:270-276 | Only a running container accepts an exec |
| DockerEngine.Engine.PutArchive | server/services/dockerExecutionService.js:279-280 | On success the named file under the directory holds the content; nothing else changes |
| DockerEngine.Engine.ExecAttached | server/services/dockerExecutionService.js:283-295 | Only a running container accepts an attached exec; a new stream is handed out |
| ExecutionService.DiscoverStep | server/services/dockerExecutionService.js:56-99 | One listing entry never displaces a pooled language. A language the entry is claimed for is in the pool afterwards; any language it adds was claimed by the entry, under the entry's id |
| ExecutionService.Discover | server/services/dockerExecutionService.js:55-100 | Every pooled container is recorded under its own language; an empty listing adopts nothing |
| ExecutionService.DiscoverSound | server/services/dockerExecutionService.js:43-109 | Every adopted container was claimed for its language by a listing entry that was running or could be started |
| ExecutionService.DiscoverComplete | server/services/dockerExecutionService.js:55-100 | A language that some usable listing entry is claimed for ends up in the pool |
| ExecutionService.DiscoverFirstWins | server/services/dockerExecutionService.js:62-63 | The first usable entry claimed for a language is the one adopted; later ones are ignored |
| ExecutionService.DiscoverNeverCpp | server/services/dockerExecutionService.js:55-100 | Discovery never adopts a container for C++ |
| ExecutionService.ExitCodeOf | server/services/dockerExecutionService.js:316-328 | The reported exit code is the inspected process's code whenever there is one, and 0 when it is missing or cannot be inspected |
| ExecutionService.DockerExecutionService.constructor | server/services/dockerExecutionService.js:37-41 | No executions, an empty pool, not initialized |
| ExecutionService.DockerExecutionService.Initialize | server/services/dockerExecutionService.js:43-109 | Runs discovery once. A second call changes nothing. A failed listing leaves the pool empty and the service uninitialized. Otherwise the pool is the discovery of the listing, and every adopted container is running |
| ExecutionService.DockerExecutionService.AdoptAll | server/services/dockerExecutionService.js:55-100 | The loop over the listing builds exactly the discovered pool; every pooled container is running and no two languages share one |
| ExecutionService.DockerExecutionService.Adopt | server/services/dockerExecutionService.js:56-99 | One listing entry is adopted exactly as the discovery step says; the rest of the pool is kept |
| ExecutionService.DockerExecutionService.Claim | server/services/dockerExecutionService.js:63-93 | A claimed entry is started unless it is running, and pooled unless starting fails |
| ExecutionService.DockerExecutionService.GetOrCreateContainer | server/services/dockerExecutionService.js:139-231 | On success the pooled container for the language is running: the pooled one revived, or a newly created one from the language's image. Other languages' entries are kept |
| ExecutionService.DockerExecutionService.Revive | server/services/dockerExecutionService.js:149-191 | A stopped container is started and a paused one unpaused; one that cannot be inspected or revived is evicted from the pool |
| ExecutionService.DockerExecutionService.PullImageIfNeeded | server/services/dockerExecutionService.js:111-137 | On success the image is present locally; images are never lost |
| ExecutionService.DockerExecutionService.CreateLanguageContainer | server/services/dockerExecutionService.js:193-225 | A new container from the language's image, started and pooled, under a new identifier |
| ExecutionService.DockerExecutionService.ExecuteCode | server/services/dockerExecutionService.js:248-349 | An unknown language is refused with "Unsupported language: key" and changes nothing, neither the service nor the engine. Once initialized, other languages' pool entries are kept. On success the session is tracked in the language's running pooled container, and the code is the deployed file. Any other failure drops the session |
| ExecutionService.DockerExecutionService.Deploy | server/services/dockerExecutionService.js:268-295 | On success the code is the language's deployed file in the running container |
| ExecutionService.DockerExecutionService.OnStreamEnd | server/services/dockerExecutionService.js:313-330 | The session is no longer tracked, and the exit code is reported |
| ExecutionService.DockerExecutionService.OnStreamError | server/services/dockerExecutionService.js:332-338 | The session is no longer tracked, and the error's message is reported |
| ExecutionService.DockerExecutionService.StopExecution | server/services/dockerExecutionService.js:351-367 | The session is no longer tracked; the pool is untouched |
| ExecutionService.DockerExecutionService.Cleanup | server/services/dockerExecutionService.js:369-371 | The session is no longer tracked; the pool is untouched |
| ExecutionService.DockerExecutionService.ShutdownAll | server/services/dockerExecutionService.js:374-395 | Every pooled container is stopped and removed unless that fails. Containers outside the pool are untouched. The pool and the executions are cleared |
| Protocol.Text | server/websocket/websocket.js:41-47 | A request field as a template string renders it: an absent field as "undefined", JSON null as "null", a string as itself |
| Protocol.AdoptedId | server/websocket/websocket.js:94-95 | The execution id is the client's when it is truthy, otherwise a generated one; it is never empty |
| ExecutionSocket.Reject | server/websocket/websocket.js:41-57 | An error reply without an execution id is sent, and nothing else changes |
| ExecutionSocket.Begin | server/websocket/websocket.js:84-106 | The new execution is current and only `starting`, tagged with its id, is sent. The stream is cleared only when an execution was current, as the stop of the previous one does; from a consistent connection no stream is left |
| ExecutionSocket.StopCurrent | server/websocket/websocket.js:287-299 | No execution is current and no stream is attached; nothing is sent |
| ExecutionSocket.InputReceived | server/websocket/websocket.js:248-285 | Without a stream, an error reply. With one, the input and a newline are written to it, the echo flag is set and `input-sent` is sent |
| ExecutionSocket.OnMessage | server/websocket/websocket.js:19-58 | The following requests earn only an error reply: an `execute` without language or code, an unknown type (named as the template renders it), malformed text. A valid `execute` makes the adopted id current and sends `starting`, clearing the stream only when something was current. `input` goes to the input handler. `stop` leaves nothing current and replies `stopped`. Consistency is preserved |
| ExecutionSocket.Started | server/websocket/websocket.js:199-220 | `running` and `ready` are sent about the started execution, and its stream is attached only if it is still current (corrected) |
| ExecutionSocket.StartedAsWritten | server/websocket/websocket.js:199-220 | As written: `running` and `ready` are sent about the started execution and its stream is attached whatever is current; with nothing current that leaves an ownerless stream |
| ExecutionSocket.Failed | server/websocket/websocket.js:221-245 | `error` and `exit 1` are sent about the failed execution, which is cleared only if it is still current (corrected) |
| ExecutionSocket.FailedAsWritten | server/websocket/websocket.js:221-245 | As written: the connection is cleared whatever is current, and `error` and `exit 1` are tagged with the id that was current, not the failed one |
| ExecutionSocket.Stdout | server/websocket/websocket.js:114-149 | Output and a prompt hint are sent only while the execution is current; otherwise nothing changes |
| ExecutionSocket.Stderr | server/websocket/websocket.js:153-168 | An error is sent only while the execution is current; otherwise nothing changes |
| ExecutionSocket.Exited | server/websocket/websocket.js:171-198 | Only while the execution is current: it is cleared and `exit` is sent; otherwise nothing changes |
| ExecutionSocket.DeliverAll | server/websocket/websocket.js:114-198 | Stream callbacks only append to what was sent, write nothing to the stream, and at most end the current execution |
| ExecutionSocket.RetiredStaysSilent | server/websocket/websocket.js:114-198 | An execution that is not current never becomes current through stream callbacks, and nothing about it is sent any more |
| ExecutionSocket.AfterExitSilent | server/websocket/websocket.js:171-198 | After an execution's `exit`, no later callback sends anything about it |
| ExecutionSocket.SupersededFailureClearsNewer | server/websocket/websocket.js:221-245 | After `execute` A and `execute` B, a late failure of A, as written, clears B and is reported under B; the corrected completion reports it under A and leaves B current |
| ExecutionSocket.StoppedStartAttachesStream | server/websocket/websocket.js:199-201 | As written, a start that completes after `stop` attaches the stream, and it survives the next `execute`, so that run's input reaches the stopped program; the corrected completion leaves no stream and refuses the input |
| ExecutionSocket.Connection.constructor | server/websocket/websocket.js:15-17 | No current execution, no stream, echo flag off |
| ExecutionSocket.Connection.Receive | server/websocket/websocket.js:19-58 | The connection moves as the message switch says. A valid `execute` or a `stop` first stops the current execution in the service. A valid `execute` returns the id now pending. The service's pool and initialization are kept |
| ExecutionSocket.Connection.CompleteExecute | server/websocket/websocket.js:108-245 | Success and failure continue as the corrected completions. A failed known language leaves the execution untracked in the service |
| ExecutionSocket.Connection.StreamData | server/services/dockerExecutionService.js:300-311 | A chunk reaches the connection as stdout only when header removal leaves something |
| ExecutionSocket.Connection.StreamEnd | server/services/dockerExecutionService.js:313-330 | The service forgets the session, keeping its pool, and the connection reports the computed exit code |
| ExecutionSocket.Connection.StreamError | server/services/dockerExecutionService.js:332-338 | The service forgets the session, keeping its pool, and the connection reports the error |
| ExecutionSocket.Connection.Close | server/websocket/websocket.js:60-65 | The current execution, if any, is stopped in the service, whose pool and initialization are kept |
| ExecutionClient.AfterMessage | client/src/hooks/useExecutionWebSocket.js:73-124 | A message tagged with a truthy id other than the current one is dropped. Otherwise: output is appended; an error sets the flag and shows its data; `running` sets running; `exit` ends the execution with the completion banner; `input_required` sets waiting |
| ExecutionClient.Untagged | client/src/hooks/useExecutionWebSocket.js:75-81 | A message is kept exactly when it is one of the input's and has no truthy execution id |
| ExecutionClient.UntaggedAppend | client/src/hooks/useExecutionWebSocket.js:75-81 | The filter keeps order: it distributes over concatenation |
| ExecutionClient.HandleAll | client/src/hooks/useExecutionWebSocket.js:40-47 | Handling server messages in order never sends a request and never selects an execution; at most it ends the current one |
| ExecutionClient.IdleIgnoresTagged | client/src/hooks/useExecutionWebSocket.js:75-81 | With no current execution, every tagged message is dropped and none becomes current |
| ExecutionClient.ExitSilencesTagged | client/src/hooks/useExecutionWebSocket.js:106-113 | After an accepted `exit`, later tagged messages change nothing |
| ExecutionClient.AfterExecute | client/src/hooks/useExecutionWebSocket.js:126-149 | Only on an open socket: a new current id, output and error cleared, running, and an `execute` carrying the id sent |
| ExecutionClient.AfterSendInput | client/src/hooks/useExecutionWebSocket.js:151-163 | Only on an open socket: no longer waiting, and an `input` sent |
| ExecutionClient.AfterStop | client/src/hooks/useExecutionWebSocket.js:165-184 | Always idle with the stop banner shown; a `stop` carrying the old id is sent only on an open socket |
| ExecutionClient.AfterConnect | client/src/hooks/useExecutionWebSocket.js:24-31 | Nothing when the socket is open, otherwise a new socket that is connecting |
| ExecutionClient.AfterOpen | client/src/hooks/useExecutionWebSocket.js:33-37 | Connected, with the error cleared |
| ExecutionClient.AfterClose | client/src/hooks/useExecutionWebSocket.js:54-64 | Not connected, not running, and a reconnect scheduled |
| ExecutionClient.AfterReconnectTimer | client/src/hooks/useExecutionWebSocket.js:60-63 | The scheduled reconnect is consumed and a connection attempted |
| ExecutionClient.ExecutionSocketClient.constructor | client/src/hooks/useExecutionWebSocket.js:11-16 | Not connected, not running, no current execution |
| ExecutionClient.ExecutionSocketClient.HandleMessage | client/src/hooks/useExecutionWebSocket.js:73-124 | The hook's state moves as `AfterMessage` says |
| ExecutionClient.ExecutionSocketClient.ExecuteCode | client/src/hooks/useExecutionWebSocket.js:126-149 | The hook's state moves as `AfterExecute` says |
| ExecutionClient.ExecutionSocketClient.SendInput | client/src/hooks/useExecutionWebSocket.js:151-163 | The hook's state moves as `AfterSendInput` says |
| ExecutionClient.ExecutionSocketClient.StopExecution | client/src/hooks/useExecutionWebSocket.js:165-184 | The hook's state moves as `AfterStop` says |
| ExecutionClient.ExecutionSocketClient.Connect | client/src/hooks/useExecutionWebSocket.js:24-70 | The hook's state moves as `AfterConnect` says |
| ExecutionClient.ExecutionSocketClient.OnOpen | client/src/hooks/useExecutionWebSocket.js:33-37 | The hook's state moves as `AfterOpen` says |
| ExecutionClient.ExecutionSocketClient.OnClose | client/src/hooks/useExecutionWebSocket.js:54-64 | The hook's state moves as `AfterClose` says |
| ExecutionClient.ExecutionSocketClient.OnReconnectTimer | client/src/hooks/useExecutionWebSocket.js:60-63 | The hook's state moves as `AfterReconnectTimer` says |
| Session.TwoRuns | client/src/hooks/useExecutionWebSocket.js:126-149 | Two runs in a row: the browser tracks the second id, the server has sent `starting` for both, and the browser drops the first one's |
| Session.SupersededFailureEndsNewerRun | server/websocket/websocket.js:221-245 | As written, the browser takes a superseded run's failure for the newer run's end: it shows the completion banner, stops tracking it, and drops its `running` and `ready` |
| Session.SupersededFailureLeavesNewerRun | server/websocket/websocket.js:221-245 | With the corrected completion the browser drops the superseded run's failure, and the newer run runs, waiting for input |
| CodeEditorSlice.InitialEditor | client/src/redux/states/CodeEditorSlice.js:6-19 | Code for the four languages, JavaScript selected and shown |
| CodeEditorSlice.ApplyKey | client/src/redux/states/CodeEditorSlice.js:22-32 | `code` stores the code under the selected language; `language` selects and shows its stored code, or undefined; any other key sets that property. Sync is kept except by selecting a language with no stored code |
| CodeEditorSlice.ApplyPayload | client/src/redux/states/CodeEditorSlice.js:21-34 | An empty payload changes nothing; the properties afterwards are the old ones plus exactly the payload's keys other than `code` and `language` |
| CodeEditorSlice.LanguagesKept | client/src/redux/states/CodeEditorSlice.js:21-34 | No payload drops a language's stored code |
| CodeEditorSlice.SyncPreserved | client/src/redux/states/CodeEditorSlice.js:21-34 | The shown code stays the selected language's stored code through any payload that selects only stored languages |
| CodeEditorSlice.OtherKeysKeepCode | client/src/redux/states/CodeEditorSlice.js:30-31 | A payload without `code` or `language` leaves the code, the language and every language's code alone |
| CodeEditorSlice.OrderMatters | client/src/redux/states/CodeEditorSlice.js:22-33 | Keys apply in payload order: `{language, code}` and `{code, language}` store the code under different languages |
| CodeEditorSlice.CodeEditorStore.constructor | client/src/redux/states/CodeEditorSlice.js:6-19 | The initial editor |
| CodeEditorSlice.CodeEditorStore.SetCodeEditor | client/src/redux/states/CodeEditorSlice.js:21-34 | The loop over the payload's keys yields the keys applied in order |
| FilesSlice.FindFirst | client/src/redux/states/filesSlice.js:11 | The first position with the id, and no earlier one has it |
| FilesSlice.Renamed | client/src/redux/states/filesSlice.js:9-13 | Only the first file with the id is renamed; length, order and every other entry are kept; an absent id changes nothing |
| FilesSlice.Without | client/src/redux/states/filesSlice.js:14-17 | Exactly the files whose id differs are kept |
| FilesSlice.WithoutAppend | client/src/redux/states/filesSlice.js:14-17 | Filtering keeps order: it distributes over concatenation |
| FilesSlice.WithoutAbsent | client/src/redux/states/filesSlice.js:14-17 | Deleting an id that is not listed changes nothing |
| FilesSlice.WithoutIdempotent | client/src/redux/states/filesSlice.js:14-17 | Deleting twice is deleting once |
| FilesSlice.FilesStore.constructor | client/src/redux/states/filesSlice.js:5 | The list starts empty |
| FilesSlice.FilesStore.SetFiles | client/src/redux/states/filesSlice.js:7 | The list becomes the payload |
| FilesSlice.FilesStore.UpdateFilename | client/src/redux/states/filesSlice.js:9-13 | The list becomes the renamed list |
| FilesSlice.FilesStore.DeleteFile | client/src/redux/states/filesSlice.js:14-17 | The list becomes the filtered list |
| AuthSlice.Reduce | client/src/redux/states/authSlice.js:11-21 | After either action the store is not loading; `setCredentials` stores the user, `logout` clears it |
| AuthSlice.ReduceIdempotent | client/src/redux/states/authSlice.js:11-21 | Repeating an action changes nothing |
| AuthSlice.LoadingEndsForGood | client/src/redux/states/authSlice.js:3-21 | After any dispatch, loading has ended for good, and the state is what the last action alone makes of the initial state |
| AuthSlice.AuthStore.constructor | client/src/redux/states/authSlice.js:3-6 | Nobody signed in, loading |
| AuthSlice.AuthStore.SetCredentials | client/src/redux/states/authSlice.js:12-15 | The store moves as the reducer says |
| AuthSlice.AuthStore.Logout | client/src/redux/states/authSlice.js:17-20 | The store moves as the reducer says |
| FileController.FindById | server/controllers/fileController.js:40 | Text that is not an id fails with a cast error; an id yields its file or nothing |
| FileController.CreateOutcome | server/controllers/fileController.js:3-24 | A falsy name gives 400, and so does a name the requester already has. A name another user has gives 500. Otherwise 201: the requester's new file is stored under a new id with the default code when none is given, and only id and name are returned. The store stays consistent |
| FileController.LookupOutcome | server/controllers/fileController.js:36-53 | 404 before 403; 200 with the file exactly for an existing file of the requester; 500 for text that is not an id |
| FileController.SaveOutcome | server/controllers/fileController.js:55-70 | 404 for a missing file. Any existing file, whoever owns it, takes the body as its code when there is one, and is returned |
| FileController.DeleteOutcome | server/controllers/fileController.js:72-83 | 404 for a missing file. Any existing file, whoever owns it, is removed, and no other |
| FileController.RenameOutcome | server/controllers/fileController.js:85-101 | The name is checked before the lookup. Any existing file, whoever owns it, is renamed unless another file has that name, which gives 500 |
| FileController.CreatedIsReadable | server/controllers/fileController.js:3-53 | A file just created is read back by its author, under the returned id, with its name, code, author and time |
| FileController.DeletedIsGone | server/controllers/fileController.js:36-83 | A file just deleted is not found any more, by anyone |
| FileController.OtherAuthorsNameRefused | server/controllers/fileController.js:13-22 | A name only another user has passes the per-author check, then fails the save on the unique index |
| FileController.Insert | server/controllers/fileController.js:29 | Inserting an entry adds exactly that entry to the list |
| FileController.InsertKeepsSorted | server/controllers/fileController.js:29 | Insertion keeps a list sorted by creation time |
| FileController.InsertKeepsIdsDistinct | server/controllers/fileController.js:29 | Insertion of an unlisted id keeps ids distinct |
| FileController.FileCollection.constructor | server/models/File.js:10-30 | An empty, consistent file table |
| FileController.FileCollection.CreateFile | server/controllers/fileController.js:3-24 | The table and the answer are as `CreateOutcome` says |
| FileController.FileCollection.GetAllFiles | server/controllers/fileController.js:26-34 | 200 with exactly the requester's files, oldest first, each once |
| FileController.FileCollection.GetFileById | server/controllers/fileController.js:36-53 | The answer is as `LookupOutcome` says; nothing changes |
| FileController.FileCollection.SaveFile | server/controllers/fileController.js:55-70 | The table and the answer are as `SaveOutcome` says |
| FileController.FileCollection.DeleteFile | server/controllers/fileController.js:72-83 | The table and the answer are as `DeleteOutcome` says |
| FileController.FileCollection.RenameFile | server/controllers/fileController.js:85-101 | The table and the answer are as `RenameOutcome` says |
| FileMiddleware.Decide | server/middlewares/fileMiddleware.js:3-26 | `next` is called exactly for an existing file of the requester. Otherwise: 404 for a missing file or a cast error, 403 for another user's file, 500 for any other error |
| FileMiddleware.LookupIn | server/middlewares/fileMiddleware.js:7 | The lookup throws exactly for text that is not an id, and finds exactly the stored file |
| FileMiddleware.AgreesWithGetFileById | server/middlewares/fileMiddleware.js:3-26 | For a well-formed id, the guard forwards exactly where `getFileById` answers 200, and otherwise answers as it does |
| FileMiddleware.MalformedIdAnswersDiffer | server/middlewares/fileMiddleware.js:14-18 | For text that is not an id the two differ: the guard answers 404, `getFileById` answers 500 |
| FileMiddleware.Request.constructor | server/middlewares/fileMiddleware.js:3-7 | A request of the given user for the given `:id`, with `req.file` not yet set |
| FileMiddleware.Guard | server/middlewares/fileMiddleware.js:3-26 | Decides as `Decide` says; `req.file` is set whenever the lookup returns, even when the answer is 403 |

## Left out

- Docker, the network and the daemon are abstract. Every engine call may fail for reasons outside the model, and a failed call changes nothing. Each `await` of the service is one atomic step. Logging is left out.
- Streams are abstract handles. Exec uses `Tty: true`, so stdout and stderr arrive merged on one stream (server/services/dockerExecutionService.js:288-294); the model follows the code.
- Every execution deploys to the one `/code` directory of the language's shared container, as the code does; there is no per-session directory.
- ExitCodeOf: a missing or unknown exit code is reported as 0, as the code does (`ExitCode || 0`), not as 1.
- The exit callback's error branch (server/websocket/websocket.js:180-188) cannot be reached, because the service always reports exit with no error; it is not modelled.
- The "Unsupported language" branch of `getOrCreateContainer` cannot be reached, because `executeCode` refuses unknown languages first; `GetOrCreateContainer` takes a `Language`.
- Registry lookup is the JavaScript object index. Inherited keys such as `constructor` are treated as unknown languages.
- A container that is created but then fails to start is left in the engine, as in the code. Discovery skips a paused container whose start fails, because the engine refuses to start a paused container.
- The echo flag `ignoreNextOutput` is set by input and reset by output, but it changes no message; the model keeps it only as state.
- The catch around the input write (server/websocket/websocket.js:276-283) is left out. A stream write is a recorded `StdinWrite` and cannot fail.
- The hook dispatches `appendOutput` and `setEditorProperty`, which client/src/redux/states/CodeEditorSlice.js does not export. The client's output log and error flag are modelled as the hook's own state, as those names suggest.
- The client's execution id (`Date.now()`) and the server's generated id (`uuid`) are parameters.
- The unmount cleanup of the hook (client/src/hooks/useExecutionWebSocket.js:186-199) is left out.
- A request field is absent, JSON null or a string. Numbers, booleans, arrays and objects in a request field are left out.
- JSON parsing is left out. A message that does not parse is `Malformed`, with the parse error as its text.
- ApplyPayload: a payload may not carry the key `codeByLanguage`. That key would replace the whole table with an arbitrary value; no caller sends it.
- The editor's initial snippets (`CODE_SNIPPETS` of the client constants) are parameters; client/src/constants is not part of this model.
- Requests reach the file handlers with an authenticated user; the route wiring and the authentication middleware are not part of this model.
- Database failures other than a cast error on `:id` and a duplicate filename are left out, and so is `updatedAt`.
- A user's files are listed oldest first. The order of files created at the same moment is whatever the insertion gives.
- `saveFile` takes any JSON body as the file's code; a non-object body is not modelled.

## Findings

| source | as written | input that shows it | evidently intended | confidence | as-written member | corrected member |
|---|---|---|---|---|---|---|
| server/websocket/websocket.js:221-245 | When `executeCode` throws, the reply is tagged with the connection's current id, and the current execution is cleared unconditionally | `execute` A in "c" while `gcc:latest` is not local, then `execute` B in "python" while A's image pull is pending; the pull then fails with "cannot pull gcc:latest" | Tag the error and exit with the failed execution's own id, and clear only if it is still current | not executed | ExecutionSocket.FailedAsWritten, ExecutionSocket.SupersededFailureClearsNewer, Session.SupersededFailureEndsNewerRun | ExecutionSocket.Failed, Session.SupersededFailureLeavesNewerRun |
| server/websocket/websocket.js:201 | `containerStream = stream` runs whichever execution is current | `execute` A, then `stop` before A's call settles, A starts, then `execute` B, then `input` "x": "x\n" is written to A's program and `input-sent` is answered | Attach the stream only while A is current | not executed | ExecutionSocket.StartedAsWritten, ExecutionSocket.StoppedStartAttachesStream | ExecutionSocket.Started |
