# criu-coordinator, modelled in Dafny

criu-coordinator synchronises CRIU checkpoints and restores across a group of
processes or containers that depend on each other. The model covers five parts.

- **The coordination server** (`src/server.rs`, `src/server/client_status.rs`).
  - Each CRIU action hook opens one TCP connection. It sends an id, an action
    and a colon-separated list of dependencies.
  - The server registers the client and polls until every dependency is
    connected, then until every dependency is ready, and answers `ACK` or
    `timeout`.
  - On `post-dump`, a client raises its local-checkpoint flag. It then waits
    until each dependency has raised its own flag or has already left.
  - A Kubernetes helper (id `kubescr`, action `add-dependencies`) can store
    dependency lists on the server.
- **The client binary's action-hook entry** (`src/main.rs`, `src/logger.rs`).
  - The configuration file is looked up in the images directory, then in
    `/etc/criu`.
  - The streaming decision, logger initialisation and `u16` port parsing
    happen before the client is started.
- **Kubernetes container discovery and the coordinated checkpoint**
  (`src/k8s/discovery.rs`, `src/k8s/coordinator.rs`).
  - A label-selector filter and the flattening of pods into containers.
  - A dependency-first depth-first order of the containers.
  - A trigger-then-poll loop over that order.
- **Length-prefixed protobuf framing** (`src/pipeline/protobuf.rs`).
- **The end-to-end coordination scenarios** (`tests/coordination_logic.rs`),
  replayed on the server model.

How the server is modelled:

- The two mutex-protected maps are one immutable `Shared` value.
- One connection's handler is a `Session` with a program counter.
- Each critical section of `handle_client` is one atomic `Step`. A wait loop
  is a counter pair (dependency index, retries left) in the program counter,
  and each poll is one step.
- `ServerRuns.RunSession` feeds a handler an arbitrary sequence of shared
  states, one per step. These are the states other handlers leave behind.
  Because nothing is assumed about them, what is proved about a run holds
  under every interleaving of concurrent connections.

The model does not treat these parts of the code as it stands in the usual way:

- `ClientStatus::new` takes an operation, but `get_response_message` calls it
  with none. The model records a configurable `freshOperation`, which the
  server never reads.
- `ACTION_PRE_STREAMER` is used in `src/main.rs` but is not among the
  constants. The action name is a parameter (`preStreamer`) of the action
  functions.
- `AppError::Other` is used for logger failures but does not appear in
  `src/errors.rs`. The model keeps it as an error kind.
- The waits are not a barrier:
  - A dependency that is absent from the client map counts as "not yet
    connected/ready" in the pre-* waits.
  - In the post-dump wait it counts as "done".
  - The connection and readiness waits skip empty names; the post-dump wait
    does not.

## Model

| member | source | states |
|---|---|---|
| Common.JoinSplit | src/server.rs:239-241 | splitting a dependency string on ':' and joining the fields back with ':' gives the string again, so no character is lost or invented |
| Common.Split | src/server.rs:239-241 | a dependency string has one more field than it has ':' characters, and no field contains ':' (Common.JoinSplit and Common.SplitJoin make it the inverse of joining) |
| Common.PathJoin | src/logger.rs:92-95 | an absolute right-hand side replaces the base and an empty base contributes nothing; otherwise the result is the base, then a single '/' added exactly when the base does not already end in one, then the right-hand side |
| Status.New | src/server/client_status.rs:37-46 | a fresh status is connected, with ready, local-checkpoint and both network flags down, and records the given operation |
| Status.ClientStatus.SetReady | src/server/client_status.rs:56-58 | only `ready` takes the given value; every other flag and the operation are kept |
| Status.ClientStatus.SetLocalCheckpoint | src/server/client_status.rs:60-62 | raises the local-checkpoint flag and keeps every other field |
| Status.ClientStatus.SetNetworkLocked | src/server/client_status.rs:72-74 | raises the network-locked flag and keeps every other field |
| Status.ClientStatus.SetNetworkUnlocked | src/server/client_status.rs:80-82 | raises the network-unlocked flag and keeps every other field |
| Status.HistoryPreserves | src/server/client_status.rs:27-86 | after any sequence of the type's setters a status keeps its connection flag and operation, and a raised local-checkpoint or network flag stays raised |
| Status.CreatedStatusStaysConnected | src/server/client_status.rs:37-50 | every status ever created reports itself connected, whatever setters run later |
| Status.SetLocalCheckpointIdempotent | src/server/client_status.rs:60-62 | raising the local-checkpoint flag twice equals raising it once |
| Server.ResolveDependencies | src/server.rs:237-251 | a non-empty dependency text yields ':'-free fields that join back to the text; an empty text yields the stored list for the id, or nothing when none is stored |
| Server.ReadMessage | src/server.rs:222-261 | the request is dropped exactly when it is the helper's update without a JSON object; otherwise id and action are kept, the helper's map is carried whole, and any other request gets its resolved dependency list |
| Server.RegisterClient | src/server.rs:549-559 | an unknown id is inserted as a fresh status and answered ACK; a known id leaves the map unchanged and is answered "client already connected" |
| Server.StripSelf | src/server.rs:353-358 | the key never appears in the stored list, every other value keeps its multiplicity, and the kept values stay in the helper's order |
| Server.UpdateTable | src/server.rs:350-368 | every key of the helper's map gets its (last) list minus itself, replacing what was stored; every other key keeps its entry or its absence |
| Server.MarkClientReady | src/server.rs:169-173 | the handler's own entry becomes ready, nothing else changes, and a missing entry is not created |
| Server.MarkClientCheckpoint | src/server.rs:186-188 | the handler's own entry gets its local-checkpoint flag, nothing else changes, and a missing entry is not created |
| Server.BeginPostDump | src/server.rs:382-399 | an unknown id is answered "not connected"; an id whose checkpoint flag is set is answered "checkpoint is already created"; otherwise the flag is raised and the wait goes on |
| Server.Close | src/server.rs:575-594 | after post-stream, post-restore or post-dump the client is forgotten; after any other action the map is unchanged; no entry is ever added or altered |
| Server.Dispatch | src/server.rs:131-149 | the helper's update goes first, then post-dump, then post-restore (an immediate ACK), and every other action registers |
| Server.Open | src/server.rs:111-121 | a connection starts a handler exactly when its request is read; the new handler has sent nothing and keeps the request's id and action |
| Server.Satisfied | src/server.rs:276-281 | an absent dependency is still awaited by the connection and readiness waits but counts as done in the post-dump wait (src/server.rs:412-421); a present one satisfies a wait exactly when its connected, ready (src/server.rs:317-322) or local-checkpoint flag is up |
| Server.Poll | src/server.rs:263-300 | one poll moves to the next dependency, with fresh retries, exactly when the current one is satisfied (or, in the pre-* waits, is empty), as the loop's `break` and `continue` do; otherwise it spends a retry; with no retries left it gives up |
| Server.Step | src/server.rs:111-194 | one critical section keeps the request, sends at most one response, touches only the handler's own client entry, changes the table only for the helper's update, raises `ready` only after the connection wait, and closing forgets exactly the post-* clients |
| Server.StepDecreasesRank | src/server.rs:263-342 | every step of an unfinished handler lowers a bound on its remaining steps, whatever the shared state is |
| ServerRuns.RunKeepsMessage | src/server.rs:111-194 | however many steps a handler takes, its request never changes |
| ServerRuns.SessionFinishes | src/server.rs:263-447 | from any consistent handler state, `Rank` many steps under any interleaving finish the handler with a response sent |
| ServerRuns.EveryRequestAnswered | src/server.rs:111-194 | every request that is read is answered within 5 + 2·n·(max_retries + 2) + 2·max_retries of its handler's steps, under any interleaving |
| ServerRuns.ReadyAndAckOnlyAfterDependencies | src/server.rs:149-180 | a registering handler marks its client ready only after it has seen each non-empty dependency connected, and answers ACK only after it has also seen each one ready |
| ServerRuns.PostDumpAckOnlyAfterCheckpoints | src/server.rs:401-451 | a post-dump handler answers ACK only after it has seen each dependency either gone or holding a local checkpoint |
| ServerRuns.UnsatisfiedDependencyTimesOut | src/server.rs:273-297 | a dependency that fails its check at every one of its max_retries + 1 polls ends the whole wait with "timeout" (after readiness: sent before the pre-stream handshake), and the first max_retries polls only spend retries |
| ServerScenarios.LoneClientDumps | tests/coordination_logic.rs:120-129 | a lone client with no dependencies gets ACK for pre-dump and for post-dump, and is forgotten afterwards |
| ServerScenarios.MissingDependencyTimesOut | tests/coordination_logic.rs:142-150 | a dependency that never connects makes pre-dump answer "timeout" after the first check and five retries; the client stays registered and not ready |
| ServerScenarios.PassWait | src/server.rs:263-300 | a wait none of whose checked dependencies is missing takes one poll per dependency, spends no retry, changes no shared state, and ends where the handler goes on success |
| ServerScenarios.PreActionRound | src/server.rs:149-180 | a group of new clients naming only each other (or empty names) that registers, then passes the connection waits, then the readiness waits, all get ACK, and every member stays registered, ready and without a local checkpoint |
| ServerScenarios.PostDumpRound | src/server.rs:376-451 | a group of registered clients without local checkpoints, each naming members or unknown ids, that raises its checkpoints and then passes its waits, all get ACK and every member is forgotten |
| ServerScenarios.PairOpened | src/server.rs:229-258 | the requests "A" with "B" and "B" with "A" open handlers whose dependency lists are ["B"] and ["A"], placed where the action sends them |
| ServerScenarios.TripleOpened | src/server.rs:229-258 | the requests "A" with "B:C", "B" with "A:C", "C" with "A:B" open handlers whose dependency lists are the two other ids |
| ServerScenarios.PairDumps | tests/coordination_logic.rs:162-175 | two interdependent clients both get ACK for pre-dump and then for post-dump, and both are forgotten |
| ServerScenarios.PairRestores | tests/coordination_logic.rs:177-186 | two interdependent clients restoring on a fresh server both get ACK and end up ready |
| ServerScenarios.TripleDumps | tests/coordination_logic.rs:189-204 | three interdependent clients all get ACK for pre-dump and then for post-dump, and all three are forgotten |
| ServerScenarios.TripleRestores | tests/coordination_logic.rs:206-216 | three interdependent clients restoring on a server that knows none of them all get ACK and end up ready |
| ServerScenarios.TripleDumpsAndRestores | tests/coordination_logic.rs:218-237 | three interdependent clients get ACK for every pre-dump, post-dump and then pre-restore request |
| ServerScenarios.MalformedHelperUpdateDropped | src/server.rs:229-236 | a helper update whose dependencies are not a JSON object starts no handler |
| ServerScenarios.HelperSuppliesDependencies | src/server.rs:345-372 | the helper's update is answered ACK, and a later request with an empty dependency string waits for the stored list, which leaves out the client itself |
| Discovery.Constraint | src/k8s/discovery.rs:74-80 | a segment constrains the labels exactly when it holds a single '='; the key and value around that '=' rebuild the segment |
| Discovery.AllAdmit | src/k8s/discovery.rs:73-83 | the segment loop accepts exactly when every segment admits the labels |
| Discovery.MatchesLabels | src/k8s/discovery.rs:69-87 | a pod without labels never matches; a labelled pod matches exactly when every comma-separated segment admits its labels |
| Discovery.SingleSelector | src/k8s/discovery.rs:69-87 | the selector `key=value` matches exactly the pods whose label `key` equals `value` |
| Discovery.MalformedSegmentsIgnored | src/k8s/discovery.rs:74-75 | a selector none of whose segments has exactly one '=' matches every labelled pod |
| Discovery.PodEntries | src/k8s/discovery.rs:31-57 | a pod contributes one entry per container of its spec, in order, with its name, namespace and node ("" when missing), and nothing without a spec |
| Discovery.DiscoveredAppend | src/k8s/discovery.rs:30-58 | discovery of a concatenated pod list is the concatenation of the discoveries |
| Discovery.DiscoveredMembers | src/k8s/discovery.rs:30-58 | an entry is discovered exactly when some passing pod contributes it |
| Discovery.NoSelectorKeepsAll | src/k8s/discovery.rs:39-57 | without a selector the result has one entry per container of every pod that has a spec |
| Discovery.DiscoverContainers | src/k8s/discovery.rs:22-66 | the pod loop yields, in pod order, the entries of exactly the pods that pass the selector |
| Coordinator.NewApp | src/k8s/coordinator.rs:17-23 | a new application has its name, no containers and no dependencies |
| Coordinator.AddContainer | src/k8s/coordinator.rs:26-28 | the container is appended last; the containers already there and the map are kept |
| Coordinator.SetDependencies | src/k8s/coordinator.rs:31-33 | the dependency map is replaced wholesale; name and containers are kept |
| Coordinator.ContainerIds | src/k8s/coordinator.rs:82-83 | one "pod/container" id per container, in container order |
| Coordinator.Visit | src/k8s/coordinator.rs:60-79 | visiting only adds to the visited set, marks the id, and only appends to the order |
| Coordinator.VisitAll | src/k8s/coordinator.rs:72-76 | visiting a list marks every id of it and only appends to the order |
| Coordinator.VisitElems | src/k8s/coordinator.rs:60-79 | the ids a visit appends are exactly the ids it newly marks |
| Coordinator.VisitNoDup | src/k8s/coordinator.rs:60-79 | a visit appends no id twice and none already in the order |
| Coordinator.VisitClosed | src/k8s/coordinator.rs:60-79 | every dependency of an id a visit marks is marked too |
| Coordinator.CheckpointOrder | src/k8s/coordinator.rs:55-90 | the checkpoint order lists each id once, lists every container's id, and lists the dependencies of every id it lists |
| Coordinator.OrderIsReachable | src/k8s/coordinator.rs:55-90 | the order holds nothing outside any dependency-closed set that contains the containers' ids, so it is exactly what they reach |
| Coordinator.VisitPostOrder | src/k8s/coordinator.rs:60-79 | with an acyclic map, a visit appends each id after all its dependencies |
| Coordinator.OrderDependenciesFirst | src/k8s/coordinator.rs:55-90 | with an acyclic map every id comes after every id it depends on |
| Coordinator.FindContainer | src/k8s/coordinator.rs:97-101 | the result is the first container with the id; there is none exactly when no container has that id |
| Coordinator.PollStatus | src/k8s/coordinator.rs:109-131 | success exactly when some query before the tenth answers "completed" after only non-completed answers; the first failed query's error is returned; ten non-completed answers mean a timeout |
| Coordinator.CheckpointOne | src/k8s/coordinator.rs:95-133 | an id without a container fails with "Container not found: id"; otherwise the id succeeds exactly when its trigger succeeds and a status poll answers "completed" in time; a failing trigger's error and the first failed status query's error are passed on unchanged, and ten answers without "completed" fail with "Checkpoint failed or timed out for: id" |
| Coordinator.CoordinateCheckpoint | src/k8s/coordinator.rs:37-141 | the operation succeeds exactly when every id of the checkpoint order succeeds; otherwise it returns the error of the first failing id, and an id without a container always fails it |
| Protobuf.ReadBytesNext | src/pipeline/protobuf.rs:33-44 | nothing is returned when no byte is asked for or the stream is empty; a short stream is fatal; otherwise exactly the asked-for bytes are taken and the rest is left |
| Protobuf.DecodeEncodeU32 | src/pipeline/protobuf.rs:50 | every 32-bit value survives little-endian encoding and decoding |
| Protobuf.EncodeDecodeU32 | src/pipeline/protobuf.rs:50 | every four bytes survive little-endian decoding and re-encoding |
| Protobuf.PbReadNext | src/pipeline/protobuf.rs:46-57 | an empty stream ends; a partial prefix, a size of 10 KiB or more, a missing payload and a short payload each end the process; a complete frame takes 4 + size bytes and its outcome is the decoder's: the message, or the decoder's error passed on unchanged |
| Protobuf.ReadEncodedFrame | src/pipeline/protobuf.rs:46-57 | a well-formed frame followed by anything reads back as its message, 4 + its length bytes, and the stream after it |
| Protobuf.OversizeAborts | src/pipeline/protobuf.rs:50-51 | an announced size of 10 KiB or more ends the process whatever follows |
| Logger.Enabled | src/logger.rs:66-68 | error, warn and info records pass; debug and trace records do not |
| Logger.EnabledDownward | src/logger.rs:66-68 | a record that passes at some level also passes at every more severe level |
| Logger.SetLogFile | src/logger.rs:36-52 | the path "-" means standard output; any other path is a file of exactly that path |
| Logger.LogDestination | src/logger.rs:84-97 | "-" is standard output whatever the directory; an absolute name, or any name without an images directory, is used as is; a relative name is the file at the images directory joined with the name |
| Logger.DirectoryOnlyForRelativeNames | src/logger.rs:84-97 | for "-" or an absolute name the images directory does not change the destination |
| Logger.InitLogger | src/logger.rs:80-103 | initialisation succeeds exactly when the directory of a relative name can be created, the destination file (if any) opens and no logger was installed before; success installs the logger at the computed destination |
| App.ToStr | src/main.rs:64-73 | only `Other` prints as the empty string (besides an empty pre-streamer name); with a distinct pre-streamer name, each action constant is printed by exactly one variant |
| App.FromStr | src/main.rs:76-88 | parsing never fails: exactly the unrecognised names give `Other`, and exactly the pre-streamer name gives `PreStreamer` |
| App.ActionNameRoundTrip | src/main.rs:64-88 | a recognised action name survives parsing and printing; an unrecognised one prints as "" |
| App.ActionTypeRoundTrip | src/main.rs:64-88 | every action type but `Other` is recovered from its name |
| App.ConfigCandidates | src/main.rs:101-104 | two places are searched: criu-coordinator.json joined to the images directory first, then under /etc/criu |
| App.ConfigFromSettings | src/main.rs:125-157 | the file is rejected with "ID missing in config file" exactly when it has no id; otherwise every other key falls back to its default (127.0.0.1, 8080, "-", no dependencies) |
| App.LoadConfigFile | src/main.rs:96-157 | the first candidate that is a file is the one read: the images directory's file before /etc/criu, a broken one is a parse error with no fallback, and with neither present the configuration is not found; any accepted configuration comes from an existing, readable candidate |
| App.DefaultsForIdOnly | src/main.rs:125-157 | a file holding only an id yields every default |
| App.ParseU16 | src/main.rs:193-196 | a port parses exactly when it is an optional '+' then decimal digits worth less than 65536, to that value; the empty string is the only "empty" error; an overflow is reported once the digits read pass 65535, and an invalid digit only when the digits before it are still below 65536 |
| App.ScanDigits | src/main.rs:193-196 | the digit scan succeeds exactly on an all-digit string below 65536; it reports the first non-digit or the first prefix that overflows, whichever comes first |
| App.OverflowBeforeBadDigit | src/main.rs:193-196 | "65536x" is an overflow, while "6553x6" is an invalid digit |
| App.ShowNatValue | src/main.rs:193-196 | the decimal rendering of a number is read back as that number |
| App.ParseShownPort | src/main.rs:193-196 | every port number written in decimal parses back to itself |
| App.Streaming | src/main.rs:167-186 | pre-streamer streams; post-dump and pre-restore do not; other actions stop the hook early; pre-dump goes on only when the capture socket exists as a socket, and otherwise fails with a socket or I/O error |
| App.RunActionHook | src/main.rs:159-211 | checked in this order: the images-directory variable, the configuration, early return for other actions, the streaming check, the logger, the port; each failing step's error is the result (the socket or I/O error, the logger error, InvalidPort with the parse error), success without a call happens only for other actions, and when every step passes a call is made; a client call carries the configured address, id and dependencies, the parsed port and the images directory, and streams exactly for pre-streamer |
| App.RunMode | src/main.rs:258-264 | the hook runs exactly when the CRIU action variable is set, with its value |

## Left out

- Sockets, threads, the one-second sleeps between polls and the JSON
  parser are not modelled. A request arrives already parsed. Its fields are
  the strings `JsonValue::to_string` renders, so a request without a
  `dependencies` field carries the text "null". An unreadable, non-UTF-8 or
  non-JSON request is dropped like the helper's malformed update.
- `handle_pre_stream` and `wait_for_syn_response` (image transfer over the
  connection) are not modelled. Whether the client answers "SYN" is the
  handler's `synReply` input.
- `send_response` and `shutdown` panics on a broken connection are not
  modelled, and neither are the `print!` traces of the helper's update.
- `run_server`, `Server::new` and the accept loop are left out. The entry
  point calls `run_server` with two arguments where it takes three, and
  the retry budget is the model's `Config.maxRetries`.
- The CLI mode (`run_cli_mode`, `src/cli.rs`) and the client
  (`src/client.rs`) are not modelled. `App.RunActionHook` ends at the
  client call it would make.
- The streamer, CRIU, monitor and Unix-pipe pipeline files are not modelled,
  except for the framing in `src/pipeline/protobuf.rs`.
- The Kubernetes API client, `checkpoint.rs` and the HTTP calls are
  parameters of the model:
  - a pod list for discovery;
  - a trigger result and an answer per status query for the checkpoint loop.
- The two-second pause between status queries is not modelled.
- `coordinate_checkpoint`'s certificate and key arguments are not modelled.
- The configuration library is reduced to two inputs: whether a path is a
  file, and the string map a file deserialises to. The
  `build().unwrap()` panic on an unreadable file is not modelled.
- Error message texts of `ParseIntError`, `LoggerError`, `io::Error` and
  `AppError`'s `Display` are reduced to error kinds. The logger error keeps
  only the "LoggerError" label.
- The log record format, `log_panics`, the file mode 0600 and the maximum
  level setting are not modelled.
- Status.ClientStatus.SetReady: the server only ever passes `true`.
- Protobuf.PbReadNext: a process exit (`exit(-1)`, a failed assertion, the
  unwrap of a missing payload) is the `Abort` outcome, not a termination.
  An I/O error of the underlying reader is not modelled.
- Server.UpdateTable: the helper's map is modelled as string lists. A value
  that is not a JSON array (which `members()` reads as empty) and a member
  that is not a string (stored as its `to_string()` rendering, and never
  equal to the key) are not modelled.
- The Kubernetes helper script in `tests/` sends the action name
  "add_dependencies", while the server expects "add-dependencies". The
  model uses the server's name. As written, that script's update is treated
  as an ordinary request.
- The tests of `tests/coordination_logic.rs` run their clients as threads
  with sleeps in between. ServerScenarios replays each in one interleaving:
  every member registers, then every member passes its connection wait, and
  so on. Arbitrary interleavings are covered by the ServerRuns lemmas. The
  single-client restore tests are not replayed separately: a pre-restore
  request takes the same path as a pre-dump request.