# Verified models of the terminal, protocol and client cores

The repository drives coding agents on a daemon from desktop, mobile and command-line clients. This project
models the parts of it where state, parsing and order matter most, and proves what they promise.

- **Terminal input modes** (`InputModeSequences`, `InputModes`, `InputModeFeeds`, `InputModeEffects`,
  `TerminalInputMode`). The tracker reads terminal output in arbitrary chunks, recognises a few control sequences
  (section 5.4 of ECMA-48), keeps a stack of keyboard flags and three private modes, and prints a preamble that
  restores them. The class is proved against a reference that reads one character at a time; `InputModeEffects` writes
  out what each sequence does when it is fed. The code keeps text only from the last `ESC [`, so a chunk boundary
  between the two characters loses a sequence; the exact condition is part of the theorems.
- **The daemon connection** (`RequestLedger`, `Connection`, `ConnectionTheorems`, `ConnectionEffects`,
  `DaemonClient`). Status, reconnect timer and backoff, waiters, queued sends, ping probe and failure counter are one
  state machine over calls, transport callbacks, timers and inbound messages. `RequestLedger` is what the client holds
  together with a log of everything created, sent and settled; its books say that each item is settled once and held,
  with its timer, until then. `ConnectionTheorems` is about steps and runs; `ConnectionEffects` writes out what each
  event leaves: who is settled and how, what is on the wire, status and timers. `DaemonClient` is the class whose
  methods update the fields in place: its `Handle` is proved to do, for every event, what the state machine does, and
  `RunClient` carries the theorems over to every run of the class. Three disciplines hold up to one kind of event
  each. The theorems say which, and give a possible run that ends in it: a direct `connect` over an armed reconnect
  timer leaves the timer behind; a resubscription that throws before the flush leaves the queue behind; and a
  resubscription request that goes out before the flush overtakes the requests that were queued earlier.
- **File transfers** (`FileTransfer`): cutting a file into frames, and reassembling many interleaved reads under a byte
  budget.
- **The provider-snapshot codec** (`Json`, `SnapshotCodec`): models that offer equal thinking options share an entry of
  a table found by its JSON text (strings escaped as in section 7 of RFC 8259). That the text identifies the value is
  proved, not assumed.
- **Rolling metrics** (`RollingMetrics`, `RuntimeMetrics`): maps of counts and timing objects are closed into buckets,
  pruned and merged. They refine a plain log of records, with the aliasing of the timing objects made explicit.
- **The highlighter** (`Highlighter`): spans painted on a style map and cut into runs, line by line.
- **Smaller cores**: the terminal slot router (`TerminalStreamRouter`), the race for a ready provider snapshot
  (`ProvidersReady`), plugin references (`PluginSource`), branch slugs (`BranchSlug`) and native version numbers
  (`NativeVersion`). `Options` and `Text` hold what several modules share.

Classes carry the fields of the source and update them in place; a ghost function, mostly called `Contents`, gives
their value, and every method states its new value as a function of the old one. What the source promises is then
proved about those functions and about runs of them.

Assumptions about the environment:

- Listeners do not call back into the client while it handles an event. An event listener that throws skips the waiters
  of its message (`packages/client/src/daemon-client.ts:6394-6401`), which is here a message that no waiter accepts.
- A transport callback needs attached handlers and a timer fires only while armed. Attaching registers all handlers or
  none: handlers registered before one that throws (lines 1295-1371) are taken as gone.
- Whether building a transport, sending a message or resubscribing throws is a parameter of the event, as are the
  requests that resubscribing makes and the set of waiters that accept a message.
- Promise callbacks run before the next event: the waiter of a request whose send was refused, timed out or failed in
  the flush is cancelled (lines 1752-1764) within the event that settled the send.

`dafny verify dfyconfig.toml` checks the project.

## Model

| member | source | states |
|---|---|---|
| InputModeFeeds.ChunkInvariance | packages/protocol/src/terminal-input-mode.ts:80-120 | Feeding any list of chunks, none of whose boundaries separates ESC from `[`, ends in the same modes, stack and pending text, gives the same concatenated responses and reports a change alike, as one feed of the concatenation; both equal a character-by-character automaton that applies each complete sequence once, in order. |
| InputModeFeeds.CutIsHarmlessIff | packages/protocol/src/terminal-input-mode.ts:108-117 | Cutting the output after `a` makes no difference to any continuation if and only if `a` does not end in ESC. |
| InputModeFeeds.CutSequenceIsLost | packages/protocol/src/terminal-input-mode.ts:108-117 | Every sequence that is cut between ESC and `[` is lost: nothing changes, where the whole sequence takes effect. |
| InputModeFeeds.FeedIsReference | packages/protocol/src/terminal-input-mode.ts:80-120 | One feed, by repeated search over the kept text and the new text, is one pass of the automaton over the new text alone, from the state the kept text stands for. |
| InputModeFeeds.ChunksAreReference | packages/protocol/src/terminal-input-mode.ts:80-120 | A list of feeds is one pass of the automaton over the concatenation of the chunks. |
| InputModeSequences.TokenizeIsReadAll | packages/protocol/src/terminal-input-mode.ts:80-120 | Global search after the kept text finds what the automaton finds, in the same order, and the suffix kept for the next feed is what the automaton has read of an unfinished sequence. |
| InputModeSequences.MatchHereIsRendered | packages/protocol/src/terminal-input-mode.ts:24-27 | The anchored pattern matches exactly the texts that begin with a well-formed sequence, and reads that sequence. |
| InputModeSequences.FirstMatchIsLeftmost | packages/protocol/src/terminal-input-mode.ts:90-107 | The search skips no earlier match. |
| InputModeSequences.PatternIs | packages/protocol/src/terminal-input-mode.ts:24-27 | The same for the pattern written out character by character: the five prefixes, digits and semicolons, the final `u`, or `h` and `l` after `?`. |
| InputModeFeeds.PreambleRestores | packages/protocol/src/terminal-input-mode.ts:148-163 | Feeding the preamble of any modes to a fresh tracker gives no response, leaves nothing pending and reproduces flags and modes exactly, with an empty stack. |
| InputModeFeeds.RestoredAgreesAboveSnapshot | packages/protocol/src/terminal-input-mode.ts:148-202 | A tracker with nothing pending and the one restored from its preamble agree on state, pending text, changes and responses for every chunked continuation that never pops below the depth at the snapshot. |
| InputModeFeeds.RestoredAgreesAlwaysIff | packages/protocol/src/terminal-input-mode.ts:148-202 | They agree on every continuation whatsoever if and only if every flag on the stack is zero. |
| InputModeFeeds.PopsTell | packages/protocol/src/terminal-input-mode.ts:183-193 | Popping n entries from below the snapshot shows the n-th stacked flags on the original and zero on the restored tracker. |
| InputModes.PushPopRestores | packages/protocol/src/terminal-input-mode.ts:165-202 | A push, any sequences that keep the pushed entry, and a pop of as many entries as were pushed since restore flags and stack. |
| InputModes.RunAbove | packages/protocol/src/terminal-input-mode.ts:165-227 | The bottom of the stack is invisible, in state, changes and responses, to every run of sequences that never pops down to it. |
| InputModes.RunUpToZeros | packages/protocol/src/terminal-input-mode.ts:165-227 | A bottom of zeros is invisible to every run of sequences, pops below it included. |
| InputModeEffects.PrivateModes | packages/protocol/src/terminal-input-mode.ts:204-227 | Fed `ESC [ ? ... h` or `ESC [ ? ... l` with any parameters, a tracker turns exactly the modes mentioned among 9001, 1 and 2004 on or off, changes nothing else, answers nothing, and reports a change if and only if one of the three was different. |
| InputModeEffects.EachPrivateMode | packages/protocol/src/terminal-input-mode.ts:204-227 | The six sequences for one mode each, literally. |
| InputModeEffects.PushSetsFlags | packages/protocol/src/terminal-input-mode.ts:172-176 | `ESC [ > ... u` stacks the flags and sets the first parameter, or 1 without one; a change is reported if and only if the flags differ, here and below. |
| InputModeEffects.AssignSetsFlags | packages/protocol/src/terminal-input-mode.ts:177-181 | `ESC [ = ... u` sets the first parameter, or 0 without one, and 0 whenever the second is 0; the stack stays. |
| InputModeEffects.PopRestoresFlags | packages/protocol/src/terminal-input-mode.ts:182-188 | `ESC [ < ... u` pops as many entries as the first parameter says and at least one; the last one popped becomes the flags, or 0 if the stack was too short. |
| InputModeEffects.QueryAnswersFlags | packages/protocol/src/terminal-input-mode.ts:189-193 | `ESC [ ? ... u` answers `ESC [ ?`, the flags in decimal and `u`, and changes nothing. |
| InputModeEffects.BareSequenceIsIgnored | packages/protocol/src/terminal-input-mode.ts:194-196 | Without a prefix the final `u` has no effect. |
| InputModeEffects.EachFlagSequence | packages/protocol/src/terminal-input-mode.ts:165-202 | The sequences programs send, literally: push, push the default, assign, clear, query. |
| TerminalInputMode.TerminalInputModeTracker.constructor | packages/protocol/src/terminal-input-mode.ts:72-79 | A new tracker has default modes, an empty stack and nothing pending. |
| TerminalInputMode.TerminalInputModeTracker.Feed | packages/protocol/src/terminal-input-mode.ts:80-120 | The search loop over the mutable fields leaves the memory, the change flag and the responses of the reference feed. |
| TerminalInputMode.TerminalInputModeTracker.Reset | packages/protocol/src/terminal-input-mode.ts:122-129 | Resetting gives the memory of a new tracker. |
| TerminalInputMode.TerminalInputModeTracker.GetPreamble | packages/protocol/src/terminal-input-mode.ts:148-163 | The text built from the fields is the preamble whose restoring effect is proved. |
| TerminalInputMode.TerminalInputModeTracker.ApplyKittyKeyboardSequence | packages/protocol/src/terminal-input-mode.ts:165-202 | Push, set, pop loop and query have the effect on flags, stack, changes and responses that the runs are proved about. |
| TerminalInputMode.TerminalInputModeTracker.ApplyPrivateModeSequence | packages/protocol/src/terminal-input-mode.ts:204-227 | All modes named in one sequence are set or reset together, and a change is reported if one of them differed. |
| TerminalInputMode.ParsePrivateModeParams | packages/protocol/src/terminal-input-mode.ts:46-54 | The loop collects exactly the values of the parameters that are numerals. |
| Text.ParsePrintedDecimal | packages/protocol/src/terminal-input-mode.ts:30-54 | Reading a printed natural number gives the number back. |
| Text.PrintParsedDecimal | packages/protocol/src/terminal-input-mode.ts:148-152 | Printing the value of a numeral without a leading zero gives the numeral back. |
| Text.SplitThenJoin | packages/highlight/src/highlighter.ts:15-15 | Splitting a text on a separator loses nothing: the pieces have no separator and joining them gives the text. |
| ConnectionTheorems.RunKeeps | packages/client/src/daemon-client.ts:1198-1448 | In every run of calls, transport callbacks, timers and messages, the requests that resubscribing makes included: the fields stay consistent; every waiter, send and probe is created at most once and settled at most once; the live ones are exactly those created and not settled; a timer is armed exactly for live waiters with a timeout, queued sends and the probe; a send resolves if and only if it went on the wire, once; the n-th reconnect delay since the last connect is the n-th backoff delay; and a disconnected or disposed client holds nothing. |
| ConnectionTheorems.StepKeeps | packages/client/src/daemon-client.ts:1198-1448 | Every single event keeps each of these properties, and each of the timer and queue disciplines but for the one kind of event that breaks it. |
| ConnectionTheorems.TimerDisciplineIff | packages/client/src/daemon-client.ts:1198-1217 | A step keeps a reconnect timer from being armed outside the disconnected state if and only if it is not a `connect` call that starts dialling over an armed timer. |
| ConnectionTheorems.LostArmsTimer | packages/client/src/daemon-client.ts:6207-6276 | A possible run, from a new client, of a connection made and lost: it ends disconnected with a timer armed, where the next `connect` call is of the kind that breaks the discipline. |
| ConnectionTheorems.StaleTimerDropsConnection | packages/client/src/daemon-client.ts:1198-1217 | The same run continued: after that `connect` and an answer the client is connected with the old timer still armed, and its firing takes the client back to connecting. |
| ConnectionTheorems.RunTimers | packages/client/src/daemon-client.ts:6207-6276 | In every run without such a call and with reconnecting left enabled, a reconnect timer is armed if and only if the client is disconnected. |
| ConnectionTheorems.QueueDisciplineIff | packages/client/src/daemon-client.ts:6346-6359 | A step keeps sends queued only while connecting if and only if it is not a server-info message whose resubscription throws before a non-empty queue is flushed. |
| ConnectionTheorems.ThrowingLeavesQueue | packages/client/src/daemon-client.ts:6346-6359 | A possible run, from a new client, after which a connected client still has a queued request. |
| ConnectionTheorems.OrderIff | packages/client/src/daemon-client.ts:6346-6359 | While sends are queued only while connecting, a step keeps requests on the wire in the order in which they were made if and only if it is not a server-info message that puts a resubscription request on the wire while a queued request is still to follow. |
| ConnectionTheorems.ResubscriptionOvertakes | packages/client/src/daemon-client.ts:6346-6359 | A possible run, from a new client, in which a resubscription goes on the wire before a request that was made earlier. |
| ConnectionTheorems.RunCallersInOrder | packages/client/src/daemon-client.ts:1655-1719 | In every run in which no throwing resubscription leaves a queue behind, sends are queued only while connecting, the requests callers make go on the wire in the order in which they were made, queued ones included, and the resubscription requests do so among themselves. |
| ConnectionTheorems.RunInOrder | packages/client/src/daemon-client.ts:1655-1719 | If moreover no resubscription overtakes the queue, all requests go on the wire in the order in which they were made. |
| ConnectionTheorems.RunHoldsNothingWhenDown | packages/client/src/daemon-client.ts:1392-1424 | In every run a disconnected or disposed client holds no waiter, send or probe and has no timer armed for one. |
| ConnectionTheorems.CallDictationKeeps | packages/client/src/daemon-client.ts:3592-3640 | A dictation call, whose waits are cancelled when its one send fails, keeps every property; a client that is down and holds nothing still holds nothing afterwards. |
| ConnectionTheorems.MalformedRejectsTagged | packages/client/src/daemon-client.ts:6417-6428 | A malformed response with id r rejects each waiter tagged r once, settles no other, and leaves queue and probe alone. |
| ConnectionEffects.MalformedRejects | packages/client/src/daemon-client.ts:6004-6021 | And nothing else happens: the other waiters keep their places, no other field or count changes. |
| ConnectionEffects.MessageResolves | packages/client/src/daemon-client.ts:6337-6415 | A session message or a binary frame, and server info outside connecting, resolves every live waiter that accepts it, once, and removes it; every other waiter stays in its place; nothing else is settled, sent or created; the failure counter is zero and no other field changes. |
| ConnectionEffects.ServerInfoConnects | packages/client/src/daemon-client.ts:6346-6359 | Server info makes a connecting client connected, starts the backoff afresh, arms the heartbeat and clears the connect timer. Each resubscription is requested, and on the wire unless its send throws; then every queued message is on the wire once unless its send fails, and is rejected then; the waiters that accept are resolved, those of failed sends rejected, the others stay in place. A throwing resubscription skips all but the requests before it. |
| ConnectionEffects.RequestGoesOut | packages/client/src/daemon-client.ts:1655-1663 | A request of a connected client whose send works puts its message on the wire, and its waiter stays: the log grows by exactly four entries. |
| ConnectionEffects.RequestIsQueued | packages/client/src/daemon-client.ts:1665-1678 | A request made while connecting joins the end of the queue, and its waiter stays. |
| ConnectionEffects.RequestIsRefused | packages/client/src/daemon-client.ts:1680-1764 | Any other request, or one whose send throws, is rejected with its waiter, and leaves waiters and queue as they were. |
| ConnectionEffects.CancelRejects | packages/client/src/daemon-client.ts:6523-6556 | Cancelling a waiter, or its timeout, rejects it once if it is live, and does nothing else. |
| ConnectionEffects.SendTimesOut | packages/client/src/daemon-client.ts:1667-1675 | A queued send that times out is taken from its place in the queue and rejected once, and so is its waiter if it is live; nothing else happens. |
| ConnectionEffects.DictationWaits | packages/client/src/daemon-client.ts:3592-3640 | A dictation call of a connected client whose send works leaves its waits at the end of the waiters, and nothing else. |
| ConnectionEffects.DictationFails | packages/client/src/daemon-client.ts:3650-3795 | Any other dictation call creates and rejects each of its waits, and leaves everything held as it was. |
| ConnectionEffects.PingStarts | packages/client/src/daemon-client.ts:2007-2061 | A heartbeat or a latency call of a connected client without an outstanding ping starts one, with its timer; it counts for a heartbeat only. |
| ConnectionEffects.PingCannotBeSent | packages/client/src/daemon-client.ts:2007-2061 | If the ping cannot be sent it is rejected at once, and a heartbeat's first failure is counted. |
| ConnectionEffects.PingIsSkipped | packages/client/src/daemon-client.ts:2007-2061 | While a ping is outstanding, or the client is not connected, neither starts one. |
| ConnectionEffects.PingTimesOut | packages/client/src/daemon-client.ts:2033-2043 | The timeout of the outstanding ping rejects it, and counts if a heartbeat started it. |
| ConnectionEffects.PongResolves | packages/client/src/daemon-client.ts:6024-6033 | A pong resolves the outstanding ping and resets the failure counter. |
| ConnectionEffects.SecondHeartbeatLoses | packages/client/src/daemon-client.ts:6307-6320 | A heartbeat whose ping cannot be sent, with one failure counted, drops the transport and its timers and loses the connection, as below. |
| ConnectionEffects.SecondTimeoutLoses | packages/client/src/daemon-client.ts:6307-6320 | So does the timeout of a heartbeat's ping. |
| ConnectionEffects.TransportEvents | packages/client/src/daemon-client.ts:1295-1360 | A close, a specific error, and an opening whose hello cannot be sent lose the connection: the client is disconnected, every waiter, queued send and ping is rejected once and none is left, and a reconnect timer is armed and recorded if and only if reconnecting is enabled. A generic error only arms its timer. |
| ConnectionEffects.ConnectionTimers | packages/client/src/daemon-client.ts:1282-1345 | The delayed generic error loses a connection that is up or being made; the connect timeout drops the transport and loses one being made; otherwise each only clears itself. |
| ConnectionEffects.ConnectDials | packages/client/src/daemon-client.ts:1198-1372 | `connect` does nothing when disposed, connected or pending; otherwise it is pending, and dials unless the client is dialling. A dial that works has a transport, handlers and a connect timer and is connecting; one that fails loses the connection. |
| ConnectionEffects.EnsureConnectedDials | packages/client/src/daemon-client.ts:1426-1448 | `ensureConnected` clears an armed reconnect timer and dials, unless the client is disposed, connected or dialling. |
| ConnectionEffects.ReconnectTimerDials | packages/client/src/daemon-client.ts:6269-6275 | The reconnect timer clears itself and dials, unless the client is dialling. |
| ConnectionEffects.NewClientIsIdle | packages/client/src/daemon-client.ts:1104-1146 | A new client is idle, wants a connection, and has no transport, no timer and nothing held. |
| ConnectionEffects.CloseDisposes | packages/client/src/daemon-client.ts:1392-1424 | Closing disposes the client: no transport, no timer, nothing pending, everything held rejected once. |
| ConnectionEffects.SwitchesAndBeats | packages/client/src/daemon-client.ts:6199-6205 | Switching reconnecting off clears an armed timer and switching it on does not arm one; a finished heartbeat arms the next while connected; a malformed message that answers no request does nothing. |
| ConnectionTheorems.RunLiveness | packages/client/src/daemon-client.ts:6307-6320 | In every run the failure counter is the number of heartbeat failures since the last accepted inbound message or teardown; it is below 2; and if the next event is such a failure and the number is 1 the connection is torn down and the client is disconnected or disposed, and otherwise no teardown happens. A heartbeat failure is a heartbeat whose new ping cannot be sent, or the timeout of the outstanding probe of a heartbeat. |
| ConnectionTheorems.StepLiveness | packages/client/src/daemon-client.ts:6024-6071 | Accepted messages and binary frames reset the failure counter, heartbeat failures raise it or tear down, and no other event touches it. |
| ConnectionTheorems.ProbeWasStarted | packages/client/src/daemon-client.ts:2007-2061 | In every run the outstanding probe was started by an earlier event of the run: by a heartbeat if it counts, by a latency call if it does not. |
| ConnectionTheorems.CountedFailureIsHeartbeats | packages/client/src/daemon-client.ts:2007-2088 | Every failure that counts is a heartbeat's: its own ping could not be sent, or a probe timed out that an earlier heartbeat of the run started. |
| ConnectionTheorems.LatencyNeverCounts | packages/client/src/daemon-client.ts:2007-2061 | In every run, a probe that a latency call started never becomes one that counts, whichever heartbeats share it, and its timeout leaves counter, connection and reconnect timer as they are. |
| ConnectionTheorems.NoHeartbeatNoFailure | packages/client/src/daemon-client.ts:2007-2061 | In every run in which no heartbeat starts a probe, the counter stays zero and nothing is torn down, whatever is measured. |
| ConnectionTheorems.RunBackoff | packages/client/src/daemon-client.ts:6263-6276 | In every run the first delay armed since the last connect is the smaller of base and maximum, and each next one the smaller of twice the one before and the maximum; they do not decrease. |
| ConnectionTheorems.DelayGrows | packages/client/src/daemon-client.ts:6263-6276 | Backoff delays do not decrease and never exceed the maximum. |
| ConnectionTheorems.DisposedIsFinal | packages/client/src/daemon-client.ts:1392-1424 | No continuation of any run brings a disposed client back. |
| ConnectionTheorems.ConnectKeeps | packages/client/src/daemon-client.ts:1198-1372 | `connect`, with a working, throwing or half-attached transport, keeps everything but the discipline of the reconnect timer, and that too when none is armed. |
| ConnectionTheorems.EnsureConnectedKeeps | packages/client/src/daemon-client.ts:1426-1448 | `ensureConnected` keeps every property, the discipline of the reconnect timer included. |
| ConnectionTheorems.ScheduleKeeps | packages/client/src/daemon-client.ts:6207-6244 | Losing the connection keeps every property and ends disconnected or disposed. |
| RequestLedger.SettleWaitersBalanced | packages/client/src/daemon-client.ts:6404-6438 | Settling any selection of waiters keeps the books of waiters, sends, probes and timers balanced. |
| RequestLedger.FlushQueueBalanced | packages/client/src/daemon-client.ts:1688-1706 | Flushing settles every queued send once, whichever of them fail, and clears exactly their timers. |
| RequestLedger.FlushKeepsOrder | packages/client/src/daemon-client.ts:1688-1706 | The messages a flush puts on the wire are those of the queue that do not fail, in queue order. |
| RequestLedger.TimeOutSendBalanced | packages/client/src/daemon-client.ts:1667-1675 | A queued send that times out leaves the queue and is rejected once. |
| RequestLedger.RequestBalanced | packages/client/src/daemon-client.ts:1721-1766 | A request, sent at once, queued or refused, keeps the books balanced. |
| RequestLedger.UnsentRequestLeavesNothing | packages/client/src/daemon-client.ts:1757-1764 | A request that could not be sent leaves neither a waiter nor a queued send behind. |
| RequestLedger.RejectAllBalanced | packages/client/src/daemon-client.ts:6228-6231 | Rejecting everything on loss or close settles each held item once. |
| RequestLedger.DictateBalanced | packages/client/src/daemon-client.ts:3650-3795 | A dictation call keeps the books balanced and the queue alone, and if its send fails the waiters are those from before it. |
| RequestLedger.ResubscribeEachBalanced | packages/client/src/daemon-client.ts:6350-6356 | The requests that resubscribing makes, sent or refused, keep the books balanced. |
| RequestLedger.ResubscribeEachInOrder | packages/client/src/daemon-client.ts:6350-6356 | They keep the order among callers' requests and among resubscriptions. |
| RequestLedger.FlushedInOrderIff | packages/client/src/daemon-client.ts:6350-6357 | Resubscribing and then flushing keeps the order of all requests if and only if no resubscription is sent or every queued send fails. |
| DaemonClient.DaemonClient.ResolveWaiters | packages/client/src/daemon-client.ts:6404-6415 | The loop settles exactly the waiters whose predicate accepts the message, in order. |
| DaemonClient.DaemonClient.RejectWaitersForRequestId | packages/client/src/daemon-client.ts:6417-6428 | The loop rejects exactly the waiters tagged with the id. |
| DaemonClient.DaemonClient.ClearWaiters | packages/client/src/daemon-client.ts:6430-6438 | Every waiter is rejected and none is left. |
| DaemonClient.DaemonClient.Cancel | packages/client/src/daemon-client.ts:6523-6556 | Cancelling or timing out settles the waiter if it is still live and does nothing otherwise. |
| DaemonClient.DaemonClient.FlushPendingSendQueue | packages/client/src/daemon-client.ts:1688-1706 | The flush loop settles the queue in order. |
| DaemonClient.DaemonClient.RejectPendingSendQueue | packages/client/src/daemon-client.ts:1711-1719 | The loop rejects the queue and clears its timers. |
| DaemonClient.DaemonClient.OnSendTimeout | packages/client/src/daemon-client.ts:1668-1675 | The timeout removes one send from wherever it is in the queue and rejects it and its request. |
| DaemonClient.DaemonClient.StartDictation | packages/client/src/daemon-client.ts:3592-3640 | The waits of a dictation call are created one by one, and all cancelled if the send fails. |
| DaemonClient.DaemonClient.Resubscribe | packages/client/src/daemon-client.ts:6350-6356 | The loop makes the resubscription requests one by one. |
| DaemonClient.DaemonClient.Handle | packages/client/src/daemon-client.ts:1198-1448 | Every event the client can meet, in any state with balanced books, does to the fields what the state machine does, for which the theorems are proved. |
| DaemonClient.RunClient | packages/client/src/daemon-client.ts:1104-1448 | A new client driven through any possible list of events ends with balanced books, delays that start at the base and double up to the maximum, the failure counter below 2 and, if it is disconnected or disposed, no waiter, queued send or probe. |
| FileTransfer.UploadRoundTrips | packages/client/src/daemon-client.ts:4679-4709 | For every byte string and positive chunk size, the frames of an upload complete a pending read without a budget, or within it, with exactly those bytes and one answer, whatever starts, frames and ends of other reads come between them. |
| FileTransfer.CompletesIffChunksFit | packages/client/src/daemon-client.ts:6116-6163 | Without a byte budget, with a budget of zero or with one that the announced size does not exceed, a transfer completes if and only if its chunks fit the announced size, with their concatenation padded by zeros; otherwise the copy overruns and the transfer stays active. Other reads' starts, frames and ends may be interleaved in any way. |
| FileTransfer.OverBudgetEndsTooLarge | packages/client/src/daemon-client.ts:6117-6140 | A transfer whose announced size exceeds a positive budget is answered "File is too large to display" and completes nothing, with other reads interleaved in any way. |
| FileTransfer.BudgetIsKept | packages/client/src/daemon-client.ts:6117-6124 | After every run of starts, frames and ends of reads, an active transfer whose announced size exceeds its positive budget holds no chunk. |
| FileTransfer.ReadsDoNotInterfere | packages/client/src/daemon-client.ts:6090-6164 | However the starts, frames and ends of any number of reads are interleaved, a read's maps and answers depend only on the operations on its own id. |
| FileTransfer.ReadReturnsUpload | packages/client/src/daemon-client.ts:4529-4562 | From its start to its end, with other reads in between, a read without a budget or within it returns the uploaded bytes with mime type, size, path, modification time, revision and the kind that mime type and encoding decide, and leaves nothing behind in the three maps. |
| FileTransfer.TraceLeftIff | packages/client/src/daemon-client.ts:4546-4561 | A read that ends takes what was completed for it unless it failed, and leaves something behind if and only if it failed after its bytes had arrived. |
| FileTransfer.PiecesRejoin | packages/client/src/daemon-client.ts:4691-4700 | The pieces of a file, for every chunk size, join to the file. |
| FileTransfer.PieceIs | packages/client/src/daemon-client.ts:4691-4700 | Piece i is the bytes from i times the chunk size on, as many as the chunk size, or what is left. |
| FileTransfer.FlattenAt | packages/client/src/daemon-client.ts:1005-1013 | Byte k of a chunk comes after all bytes of the chunks before it. |
| FileTransfer.StrayFramesAreIgnored | packages/client/src/daemon-client.ts:6091-6113 | A begin for a read that is not pending, and a chunk or end without a begin, change nothing. |
| FileTransfer.ConcatByteChunks | packages/client/src/daemon-client.ts:1005-1013 | The copy loop yields the chunks' bytes in a zeroed array of the given size, and fails if and only if they do not fit. |
| FileTransfer.UploadFrames | packages/client/src/daemon-client.ts:4679-4707 | The upload loop sends a begin frame, the pieces in order and an end frame. |
| FileTransfer.FileReads.constructor | packages/client/src/daemon-client.ts:1131-1133 | A new client has no pending, active or completed read. |
| FileTransfer.FileReads.StartRead | packages/client/src/daemon-client.ts:4535-4536 | A read becomes pending under its id. |
| FileTransfer.FileReads.HandleFileTransferFrame | packages/client/src/daemon-client.ts:6090-6164 | The handler's map updates are the transitions the transfers are proved about. |
| FileTransfer.FileReads.FinishRead | packages/client/src/daemon-client.ts:4546-4561 | The end of a read takes the completed result, unless it failed, and forgets the rest. |
| SnapshotCodec.CompactExpands | packages/protocol/src/provider-snapshot-codec.ts:69-119 | For every entry list, expanding the compact form never misses an index and gives the entries with each model's provider replaced by its entry's. |
| SnapshotCodec.RoundTripIff | packages/protocol/src/provider-snapshot-codec.ts:69-119 | The round trip is exact if and only if every model already has its entry's provider. |
| SnapshotCodec.TableIsCanonical | packages/protocol/src/provider-snapshot-codec.ts:55-66 | The table holds exactly the thinking sets in use, pairwise distinct, in order of first use. |
| SnapshotCodec.SharedIffEqual | packages/protocol/src/provider-snapshot-codec.ts:55-66 | Two models carry the same reference, none included, if and only if they use equal thinking sets, options and default alike, or neither offers options. |
| SnapshotCodec.EarlierIsStable | packages/protocol/src/provider-snapshot-codec.ts:69-82 | Compacting more entries never changes the table or the compact entries of those before. |
| SnapshotCodec.CompactInvertsExpandIff | packages/protocol/src/provider-snapshot-codec.ts:69-119 | A compact snapshot survives expansion and compaction if and only if it is canonical: no missing index, no default beside a reference, and the table in order of first use. |
| SnapshotCodec.CompactIsCanonical | packages/protocol/src/provider-snapshot-codec.ts:69-82 | Every compact form is canonical. |
| SnapshotCodec.CompactIsIdempotent | packages/protocol/src/provider-snapshot-codec.ts:69-119 | Compacting what was expanded gives the same compact form. |
| SnapshotCodec.ExpandsIff | packages/protocol/src/provider-snapshot-codec.ts:84-119 | Expansion fails if and only if some model refers outside the table, and the error is a place outside it that one of the models refers to. |
| SnapshotCodec.SameKeyIffSame | packages/protocol/src/provider-snapshot-codec.ts:28-30 | Two thinking sets have the same key if and only if they are equal. |
| Json.SameTextIffSame | packages/protocol/src/provider-snapshot-codec.ts:28-30 | Two JSON values print the same text if and only if they are the same value. |
| SnapshotCodec.ThinkingTable.Intern | packages/protocol/src/provider-snapshot-codec.ts:55-66 | Looking up by key and appending otherwise returns the set's place and adds it at the end only when it is new. |
| SnapshotCodec.ThinkingTable.CompactModel | packages/protocol/src/provider-snapshot-codec.ts:32-67 | A model's compact form refers to its set in the table as it then is. |
| SnapshotCodec.CompactModels | packages/protocol/src/provider-snapshot-codec.ts:74-79 | The loop over models compacts each against the table that the loop leaves. |
| SnapshotCodec.CompactEntry | packages/protocol/src/provider-snapshot-codec.ts:73-80 | An entry without models is untouched; otherwise its models are compacted. |
| SnapshotCodec.CompactProviderSnapshot | packages/protocol/src/provider-snapshot-codec.ts:69-82 | The nested loops with their growing table give the compact form defined against the complete table. |
| RollingMetrics.FlushReportsWindow | packages/client/src/daemon-client-runtime-metrics.ts:46-160 | After any run whose clock does not go back, a flush reports if and only if it is final or a message or frame was recorded in a batch that ended inside the window; the report counts the records of those batches directly, each once, and carries their number, the rolling window (the one asked for if positive, else a minute), the smaller of the window and the age, and the final flag. |
| RollingMetrics.TotalsAreConserved | packages/client/src/daemon-client-runtime-metrics.ts:113-160 | In every such run the expired batches, the stored buckets and the current bucket add up to everything recorded. |
| RollingMetrics.RunMeans | packages/client/src/daemon-client-runtime-metrics.ts:113-144 | After any run whose clock does not go back, the current bucket is the fold of the records since the last closed batch, and the stored buckets are the folds of the batches inside the window. |
| RollingMetrics.PruneIsWindowIff | packages/client/src/daemon-client-runtime-metrics.ts:139-144 | Dropping old buckets from the front keeps exactly those inside the window if and only if no bucket that has left it stands behind one inside. |
| RollingMetrics.MergeIsFold | packages/client/src/daemon-client-runtime-metrics.ts:175-233 | Merging two totals is counting the records of both. |
| RollingMetrics.CountsMean | packages/client/src/daemon-client-runtime-metrics.ts:57-76 | In the totals of a list of records, the count of messages, frames, events and agents under a name is the number of such records with that name, and there is one if and only if there is such a record. |
| RollingMetrics.BytesMean | packages/client/src/daemon-client-runtime-metrics.ts:57-76 | The bytes under a key are the sum over the messages of that name and the frames whose kind, after `binary:`, is the key. |
| RollingMetrics.TimingsMean | packages/client/src/daemon-client-runtime-metrics.ts:179-196 | The timing under a key has the number, the sum and the largest of the handler times of those records. |
| RollingMetrics.FrameWork | packages/client/src/daemon-client-runtime-metrics.ts:72-76 | Bytes and timing under `binary:` and a kind are those of the frames of that kind together with the messages of exactly that name. |
| RollingMetrics.MessageWork | packages/client/src/daemon-client-runtime-metrics.ts:57-61 | Bytes and timing under a name without that prefix are those of the messages of the name alone. |
| RollingMetrics.JournalIsComplete | packages/client/src/daemon-client-runtime-metrics.ts:57-76 | The batches and the open records are everything recorded, in order. |
| RollingMetrics.ActiveIffClosable | packages/client/src/daemon-client-runtime-metrics.ts:113-118 | The current bucket counts as active if and only if a message or binary frame was recorded in it: agent-stream records alone never close it. |
| RuntimeMetrics.DaemonClientRuntimeMetrics.constructor | packages/client/src/daemon-client-runtime-metrics.ts:46-55 | A positive window is used, any other is the default; nothing is recorded. |
| RuntimeMetrics.DaemonClientRuntimeMetrics.RecordMessage | packages/client/src/daemon-client-runtime-metrics.ts:57-61 | Recording updates the current maps and timing objects only; stored buckets keep their values. |
| RuntimeMetrics.DaemonClientRuntimeMetrics.RecordAgentStream | packages/client/src/daemon-client-runtime-metrics.ts:63-70 | Recording an agent event counts its type and its agent. |
| RuntimeMetrics.DaemonClientRuntimeMetrics.RecordBinaryFrame | packages/client/src/daemon-client-runtime-metrics.ts:72-76 | Recording a frame counts its kind, and its bytes and time under the binary key. |
| RuntimeMetrics.DaemonClientRuntimeMetrics.ConsumeCurrentBucket | packages/client/src/daemon-client-runtime-metrics.ts:113-137 | The closed bucket has the current totals in objects of its own, and the current maps are empty afterwards. |
| RuntimeMetrics.DaemonClientRuntimeMetrics.PruneBuckets | packages/client/src/daemon-client-runtime-metrics.ts:139-144 | The loop drops the buckets that have left the window. |
| RuntimeMetrics.DaemonClientRuntimeMetrics.AggregateBuckets | packages/client/src/daemon-client-runtime-metrics.ts:146-160 | The aggregate is the merge of the stored buckets in new objects; no stored bucket changes. |
| RuntimeMetrics.DaemonClientRuntimeMetrics.Flush | packages/client/src/daemon-client-runtime-metrics.ts:78-111 | A flush closes, prunes and reports as specified, on the mutable maps. |
| RuntimeMetrics.MergeCountMap | packages/client/src/daemon-client-runtime-metrics.ts:209-213 | The merge loop adds counts key by key, in any order of keys. |
| RuntimeMetrics.MergeHandlerTimingMap | packages/client/src/daemon-client-runtime-metrics.ts:215-233 | The merge loop changes only the target's objects and shares none with the source. |
| RuntimeMetrics.CloneHandlerTimingMap | packages/client/src/daemon-client-runtime-metrics.ts:198-207 | The copy has equal timings in new objects. |
| RuntimeMetrics.JoinHandlerTiming | packages/client/src/daemon-client-runtime-metrics.ts:179-196 | Adds to the timing of a key in place, or creates it. |
| Highlighter.TextIsPreserved | packages/highlight/src/highlighter.ts:7-64 | The tokens of every line spell the line, and the lines joined by newlines are the text. |
| Highlighter.CharacterStyles | packages/highlight/src/highlighter.ts:22-29 | Every character's token has the name of the span with the largest index among those that cover the character's offset in the whole text, and no style if none does. |
| Highlighter.HighlightingIsUnique | packages/highlight/src/highlighter.ts:7-64 | The result is determined: maximal runs of equal style, line by line. |
| Highlighter.TokensAreUnique | packages/highlight/src/highlighter.ts:31-61 | A text with given character styles has one cut into non-empty tokens whose neighbours differ. |
| Highlighter.EmptyTokenIff | packages/highlight/src/highlighter.ts:37-41 | A line has an empty token if and only if it is empty. |
| Highlighter.HighlightCode | packages/highlight/src/highlighter.ts:7-64 | With and without a parser, the loops yield, for every line, the runs of the styles that the spans give its characters. |
| Highlighter.BuildStyleMap | packages/highlight/src/highlighter.ts:22-29 | The painting loops leave at every offset the style of the last span that covers it; spans may run past the end. |
| Highlighter.TokeniseLine | packages/highlight/src/highlighter.ts:43-59 | The run loop cuts a line into its maximal runs. |
| Highlighter.LineOffsets | packages/highlight/src/highlighter.ts:31-61 | Character k of line i is the character at the line's start plus k. |
| Highlighter.HighlightLine | packages/highlight/src/highlighter.ts:66-69 | Highlighting a line gives the tokens of its first line. |
| TerminalStreamRouter.RouteIffAssigned | packages/client/src/terminal-stream-router.ts:27-56 | For every run over non-empty ids, a frame on a slot goes to a terminal if and only if the terminal was given the slot and no later operation gave the slot to another, moved the terminal, removed it or cleared the slots. |
| TerminalStreamRouter.RunIsInverse | packages/client/src/terminal-stream-router.ts:27-56 | After every such run the two maps are each other's inverse. |
| TerminalStreamRouter.AssignKeepsInverseIff | packages/client/src/terminal-stream-router.ts:27-40 | An assignment keeps the maps inverse if and only if it does not take a slot from the terminal with the empty id. |
| TerminalStreamRouter.RemoveKeepsInverse | packages/client/src/terminal-stream-router.ts:42-51 | Removing a terminal keeps the maps inverse. |
| TerminalStreamRouter.EmptyIdBreaksRouting | packages/client/src/terminal-stream-router.ts:27-40 | With an empty id, a terminal that nothing moved can lose its slot. |
| TerminalStreamRouter.InputSlotRoutesBack | packages/client/src/terminal-stream-router.ts:58-87 | A frame on the slot that a terminal's input uses goes to that terminal, and only then. |
| TerminalStreamRouter.Router.SetSlot | packages/client/src/terminal-stream-router.ts:27-40 | The map updates are those of the proved assignment. |
| TerminalStreamRouter.Router.RemoveTerminal | packages/client/src/terminal-stream-router.ts:42-51 | The map updates are those of the proved removal. |
| TerminalStreamRouter.Router.ClearSlots | packages/client/src/terminal-stream-router.ts:53-56 | Both maps are emptied. |
| TerminalStreamRouter.Router.EncodeInput | packages/client/src/terminal-stream-router.ts:58-85 | Input and resize messages become frames on the terminal's slot; without a slot, or for other messages, there is none. |
| TerminalStreamRouter.Router.HandleFrame | packages/client/src/terminal-stream-router.ts:87-122 | An event is emitted if and only if the slot routes to a terminal and the opcode is output, restore or a snapshot that decodes; it carries that terminal and that payload. |
| ProvidersReady.SettlesAsDecided | packages/client/src/index.ts:854-922 | For every interleaving of updates, reply, failure and timeout, with non-empty reply ids, the wait settles once, with the decision of the first event that makes one, as read off the history alone; or not at all. |
| ProvidersReady.SettlesAtMostOnce | packages/client/src/index.ts:861-876 | No run settles twice, a settled wait has neither subscription nor timeout, and the request is answered once. |
| ProvidersReady.NoLostWakeUp | packages/client/src/index.ts:879-919 | A wait whose reply was ready, was overtaken by a ready update that was the latest for its directory, or was followed by a ready update for its directory has settled. |
| ProvidersReady.ResolvesReady | packages/client/src/index.ts:865-919 | A resolution has no entry whose status is `loading`, carries the reply's id and directory, and comes from the reply or an update that arrived. |
| ProvidersReady.ReadyIff | packages/client/src/index.ts:887-908 | Ready means that no entry has the status `loading`. |
| ProvidersReady.TimeoutNamesLoading | packages/client/src/index.ts:890-902 | A timeout rejects with the providers whose last seen status is `loading`, in order, separated by comma and space, or with the message for no such names. |
| ProvidersReady.WakesIffIdGiven | packages/client/src/index.ts:879-888 | A ready update after a loading reply settles the wait if and only if the reply's id is not empty. |
| ProvidersReady.ProvidersReadyWait.constructor | packages/client/src/index.ts:843-860 | An old host is refused; otherwise the wait subscribes and arms its timeout. |
| ProvidersReady.ProvidersReadyWait.Finish | packages/client/src/index.ts:861-876 | The first settlement cleans up; later ones do nothing. |
| ProvidersReady.ProvidersReadyWait.HandleUpdate | packages/client/src/index.ts:879-888 | Updates are buffered by directory before the reply, and checked against it afterwards. |
| ProvidersReady.ProvidersReadyWait.HandleReply | packages/client/src/index.ts:904-919 | The reply settles, or a ready buffered update for its directory does. |
| ProvidersReady.ProvidersReadyWait.HandleFailure | packages/client/src/index.ts:920-920 | A failed request rejects the wait. |
| ProvidersReady.ProvidersReadyWait.HandleTimeout | packages/client/src/index.ts:890-902 | The timeout rejects with the names of the providers last seen loading. |
| PluginSource.FormatUndoesParse | packages/protocol/src/plugin-source-reference.ts:6-40 | Formatting a parsed reference gives the reference back, for every string. |
| PluginSource.ParseUndoesFormatIff | packages/protocol/src/plugin-source-reference.ts:6-40 | For a portable path, parsing the formatted pair gives the pair back if and only if the source is neither a URL without a slash after its scheme nor, without a scheme, a user and host with no later colon or white space. |
| PluginSource.ParseTakesPathIff | packages/protocol/src/plugin-source-reference.ts:6-28 | A reference parses into a source and a path if and only if it is the two joined by a colon, the path is portable and the source can take one, both written out character by character; otherwise all of it is the source. |
| PluginSource.PortableIff | packages/protocol/src/plugin-source-reference.ts:41-46 | A path is portable if and only if it is `.`, or has no colon and no segment between slashes and backslashes that is empty, `.` or `..`. |
| PluginSource.FormatIs | packages/protocol/src/plugin-source-reference.ts:30-39 | Formatting joins source and path by a colon, and refuses a path that is not portable. |
| PluginSource.ScpColonIff | packages/protocol/src/plugin-source-reference.ts:22-26 | The pattern for user, host and colon has one match at most, and this is where it ends. |
| BranchSlug.SlugIsAccepted | packages/protocol/src/branch-slug.ts:45-61 | For every input and every lower-casing a slug has at most 50 characters and no slash, and is empty or accepted by the validator. |
| BranchSlug.ValidIff | packages/protocol/src/branch-slug.ts:5-38 | A slug is valid if and only if it has 1 to 100 characters from a-z, 0-9, hyphen and slash, no hyphen at an end and no two in a row; otherwise the error is the first that applies. |
| BranchSlug.LongSlugIsCut | packages/protocol/src/branch-slug.ts:51-60 | A slug of more than 50 characters is cut at its last hyphen among the first 50 if that is past index 25, and after 50 characters otherwise; a shorter one is not cut. |
| BranchSlug.OwnSlugIff | packages/protocol/src/branch-slug.ts:5-61 | A string is its own slug if and only if it is empty or accepted, at most 50 characters long and without a slash. |
| BranchSlug.SlugifyIsIdempotent | packages/protocol/src/branch-slug.ts:45-61 | The slug of a slug is the slug. |
| BranchSlug.FullSlugIsWords | packages/protocol/src/branch-slug.ts:45-49 | Before it is cut, a slug is the maximal runs of letters and digits of the lower-cased input, in order, with one hyphen between any two. |
| BranchSlug.SlugKeepsLetters | packages/protocol/src/branch-slug.ts:45-61 | The letters and digits of a slug are a prefix of those of the lower-cased input, and all of them unless the slug was cut. |
| NativeVersion.BuildNumbersFollowVersions | packages/app/native-release-version.js:10-49 | Over accepted versions iOS build numbers are ordered exactly as the versions, betas below their stable release, and equal only for equal versions. |
| NativeVersion.CodeDecodes | packages/app/native-release-version.js:28-28 | Android codes decode to major, minor and patch. |
| NativeVersion.BuildNumberDecodes | packages/app/native-release-version.js:38-39 | A build number decodes to the Android code and the beta number, or 999 for a stable release. |
| NativeVersion.FdroidCodesAre | packages/app/native-release-version.js:51-57 | The four ABI codes are ten times the Android code plus 1, 2, 3 and 4. |
| NativeVersion.ErrorsAre | packages/app/native-release-version.js:21-26 | Minor or patch over 999 is refused first, a beta number outside 1 to 998 next. |
| NativeVersion.CodesFollowCores | packages/app/native-release-version.js:28-28 | Android codes are ordered exactly as the cores. |
| NativeVersion.FdroidCodesSeparate | packages/app/native-release-version.js:51-57 | F-Droid codes are equal only for the same core and ABI, and every code of a lower core is below every code of a higher one. |
| NativeVersion.AcceptedIff | packages/app/native-release-version.js:21-42 | Which versions are accepted, the bounds of every derived code, and that the last safe-integer check never fails. |

## Left out

- ConnectionTheorems.RunTimers: stated for runs without a `connect` that dials over an armed timer and without switching
  reconnecting on or off; TimerDisciplineIff is the exact condition for a step, and a run that fails is given.
- ConnectionTheorems.RunCallersInOrder: stated for runs in which no throwing resubscription leaves a queue behind;
  QueueDisciplineIff is the exact condition for a step, and a run that fails is given.
- ConnectionTheorems.RunInOrder: stated for runs in which moreover no resubscription overtakes a queued request, because
  the code lets it; OrderIff is the exact condition for a step, and a run that fails is given.
- TerminalStreamRouter.RouteIffAssigned: stated for non-empty terminal ids, because the displacement test treats the
  empty string as no terminal; the step that breaks is characterised exactly and a run that fails is given.
- ProvidersReady.SettlesAsDecided: stated for non-empty reply ids, because the wait treats an empty id as no reply yet;
  exactly when that matters is a lemma of its own.
- RollingMetrics.FlushReportsWindow: stated for clocks that do not go back between flushes, because pruning stops at
  the first bucket inside the window; which orders of buckets that spoils is a lemma of its own.
- FileTransfer.UploadFrames: needs a positive chunk size; the loop of the source does not end on any other.
- BranchSlug.SlugifyIsIdempotent: lower-casing is any function that leaves strings over a-z, 0-9 and the hyphen alone.
- Floating point: keyboard flags, version components, sizes, delays, times and JSON numbers are integers, so rounding,
  infinities and negative zero are not modelled.
- The regular-expression engine: each pattern is a function or predicate on strings. Where a pattern is searched for
  or ambiguous to read, lemmas characterise its matches.
- Characters are Unicode scalar values, so lone surrogates and the escapes JSON prints for them do not occur.
- Values that JSON leaves out or changes in printing (undefined properties, functions, dates) are not JSON values here.
- When the promise returned by `connect` is settled, beyond whether one is pending.
- The round-trip times that probes report; a late pong resolves whichever probe is current.
- Waiter predicates that throw, and re-entrant listeners.
- Inbound blobs and undecodable text, which the client drops, and notifications that only carry a snapshot hash.
- What messages say; messages sent without a request's waiter, the dictation messages and some resubscriptions among
  them, which are never queued and are not on the modelled wire; provider snapshot pausing.
- The race between the waits of one dictation call, which ends in cancelling the others: cancelling is an event here.
- The wire encoding of file and terminal frames, whose contents are datatypes here, and of the uploaded metadata.
- Checkout, agent and terminal calls over the request core, message schemas, logging and tracing.
- Which twenty entries a metrics report shows and how it rounds them; a report carries the whole aggregate.
- Parsers and their choice by file name: the highlighter takes any list of spans, or none.
- The listeners of the terminal router, whose exceptions are swallowed: an event is returned instead.
- Reading a version string, and the printed application version.
- Naming the event type of an agent-stream message: the type is given, with the prefix of timeline items.
- The Electron shell, mobile and web interfaces, the relay, encryption, audio and automation.
