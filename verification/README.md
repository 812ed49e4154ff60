# Dafny models of the voice device, its gateway, its job service and its WebSocket client

This project models the parts of the repository where a bug would lose, cut, duplicate or interleave
something, and proves what they promise for all inputs, all runs or all interleavings.

* **The WebSocket client** (`components/esp_websocket_client/esp_websocket_client.c`).
  `ClientModel` is the client as threads: its task, any number of senders, and the locks of either build
  (one `lock`, or `lock` and `tx_lock`), one step per lock operation, shared access or transport call.
  `ClientLocks` proves the lock discipline, `ClientWire` that frame runs do not interleave, `ClientEvents`,
  `ClientPrompt` and `ClientTwoLocks` what the connection events mean, `ClientConnections` on which
  connection a frame goes out, and `ClientAborts` what the end of a connection leads to. `ClientCauses` traces
  every frame, abort and attempt back to the event that calls for it, `ClientLaps` bounds every lap of the task
  and the time to its end, and `ClientResponses` says what the task and a sender do when left alone. `ReconnectWait` is the interruptible
  wait, `KeepAlive` the ping/pong timers, `Framing` the fragmenting send loop, and `Reassembly` the chunking
  receive loop together with the test endpoint's accumulator.
* **Store-and-forward audio** (`src/main.cpp`, `ws_server.py`). `MuLaw` is the codec, encoder and decoder,
  `Capture` the recording path into flash, `Device` the main loop with its upload machine, `Gateway` the
  connection handler, `UploadProtocol` the two together over connections that drop at any point,
  `TruncatedUpload` a run of theirs, `UploadProgress` how an upload starts over, completes and ends, `ButtonLaws`
  when a recording starts, goes on and ends, and `FirmwareHealth` the timer that confirms an OTA image.
* **The job orchestrator** (`m1_service`). `Jobs` is the table, the worker and the POST route, `JobRuns`
  their runs with crashes and restarts, and `JobHistory` where what a row says comes from and in which order
  jobs are admitted and taken.
* **The display path** (`ws_server.py`, `src/main.cpp`). `OledFit` is the wrapping of a reply, `DisplayPath`
  the JSON printer, the firmware's scanner, its routing and its line splitter.

`Basics` holds shared vocabulary. Code that works by changing things is a class or a method here, proved
against a function of its state; the lemmas are about that function and its runs. Check everything with
`dafny verify dfyconfig.toml`.

## Where the step functions come from

(`esp_websocket_client.c` and `autobahn_testee.c` are the client and its test endpoint, under
`components/esp_websocket_client` and its `tests/autobahn-testsuite/testee/main`.)

| functions | source |
|---|---|
| `ClientModel.TaskWorks`, `TaskLocks`, `TaskRoams` | esp_websocket_client.c:1076-1163, 1167-1452 |
| `ClientModel.SenderMove`, `Write` | esp_websocket_client.c:692-784, 1546 |
| `ClientModel.AbortedLink`, `AbortedLog` | esp_websocket_client.c:261-297 |
| `ReconnectWait.TaskStep`, `Step` | esp_websocket_client.c:1325-1333, 1396-1416, 1668-1691, 551-552 |
| `KeepAlive.Checked` | esp_websocket_client.c:1279-1323 |
| `Framing.Frames` | esp_websocket_client.c:731-775 |
| `Reassembly.Accumulate`, `Append` | autobahn_testee.c:183-319 |
| `Device.UploadPass`, `ButtonPass`, `OtaPass`, `MicTestPass`, `Looped` | src/main.cpp:108-154, 448-743 |
| `Gateway.Handle` | ws_server.py:163-212 |
| `UploadProtocol.Step` | src/main.cpp:102-154, 263-275; ws_server.py:145-220 |
| `Jobs.Posted`, `Submitted`, `Recovered`, `Dequeued`, `SttReturned`, `AgentReturned`, `Shown` | m1_service/app.py:73-106, m1_service/worker.py:58-131 |
| `OledFit.Rows`, `Clip`, `FitRows` | ws_server.py:275-310 |
| `DisplayPath.Escape`, `JsonValue`, `RouteOf` | ws_server.py:264-272, src/main.cpp:208-228, 276-290 |

## What turned out false of the code

Each of these is proved with the exact condition under which the promise holds.

* *One end per connection.* With two locks, a sender whose write fails gives `tx_lock` before it takes `lock`
  for its abort. If the task aborts and finishes its reconnect wait in between, the sender finds state INIT,
  not WAIT_TIMEOUT, and reports DISCONNECTED again (`ClientTwoLocks.EndReportedTwice`), even when the connected
  check and the send are one step. `ClientEvents.EndsBetweenConnections` gives the exact count for every run:
  one, plus one per such late abort. With one lock and a prompt check it is exactly one.
* *Whole recordings.* The upload takes any read of nothing for the end of the file, so a flash read that comes
  back empty in the middle truncates the submitted file, and the recording is then removed from flash
  (`TruncatedUpload.TruncatedFileIsSubmitted`). A submitted file is the whole recording iff no such read ended
  its upload (`UploadProtocol.SubmittedIsWholeIff`); what is there is in order and not duplicated in any case.
* *One connection per call.* With two locks the task may reconnect while a sender is between two frames, and
  the rest of the call goes out on the new connection (`ClientTwoLocks.CallStraddlesConnections`). In either
  build two frames are on different connections iff a CONNECTED was reported between them
  (`ClientConnections.StraddlesIffReconnected`), which a single lock excludes within a call
  (`ClientWire.SingleLockSendsOnOneConnection`).
* *Reassembly.* The accumulator hands an empty frame out on its own, so a fragmented message comes back whole
  iff none of its frames is empty (`Reassembly.ReassembledIff`); in particular never a message ended with
  `esp_websocket_client_send_fin`. And a message of several frames over the limit is not merely dropped: its last
  frame, read in one piece, comes out as a message of its own (`Reassembly.LongMessageLeaks`); such a message
  comes back whole iff it is within the limit (`Reassembly.WholeIffWithinLimit`).
* *A stalled write.* The send loop returns 0, not a negative number, when the transport accepts nothing of a
  non-empty frame: any data on a stuck transport does it (`Framing.StallReturnsZero`). A failed call is negative
  iff the failing write did not stall (`Framing.NegativeIffBroken`), so a caller can rely on the sign iff it
  sends no data (`Framing.FailuresAreNegativeIffEmpty`). The close call relies on it, which is right for a close
  without a body and wrong for one with a status code.
* *Display texts.* The firmware looks for `"ota"` before `"display"`, so a display message whose text is `ota`
  or ends in a quote and `ota` is taken for an OTA request (`DisplayPath.Routing`). The scanner gives the text
  back iff it has no backslash and no control character other than newline (`DisplayPath.JsonRoundTrip`).
* *0x7F.* The mu-law code 0x7F (minus zero) decodes to 0 and comes back as 0xFF (`MuLaw.EncodeDecode`).
* *The validation timer.* It never confirms early (`FirmwareHealth.ValidOnlyAfterStable`) but can confirm late:
  when the first pass of a good stretch reads the 32-bit counter as 0, which the code takes for "not started"
  (`FirmwareHealth.LateFromZero`), or when no pass runs for a whole counter period
  (`FirmwareHealth.LateAfterPeriod`). `FirmwareHealth.MarkedIffDue` says exactly when a stretch confirms.

## Model

| member | source | states |
|---|---|---|
| `ClientLocks.RunKeepsLocks` | components/esp_websocket_client/esp_websocket_client.c:692-784 | In every state of every run of either lock build, with any number of senders, the recorded owner of `lock` and of `tx_lock` is exactly the thread that stands between a take and its give |
| `ClientLocks.NoDeadlock` | components/esp_websocket_client/esp_websocket_client.c:1113-1147 | A thread that waits for a mutex finds it free, or held by a thread that can run, or (`tx_lock` only) held by one that waits for `lock`, whose holder can run; chains end after two threads |
| `ClientLocks.HoldersWaitDownward` | components/esp_websocket_client/esp_websocket_client.c:1285-1309 | The holder of `lock` waits for nothing and can run; the holder of `tx_lock` waits at most for `lock` |
| `ClientLocks.HolderGetsOn` | components/esp_websocket_client/esp_websocket_client.c:731-783 | A thread that still holds a mutex after its own step is strictly nearer to giving it, on every path; steps of others do not take it farther away |
| `ClientLocks.HeldBriefly` | components/esp_websocket_client/esp_websocket_client.c:1191-1366 | In any run, a thread that keeps a mutex from one state to another took at most its rank many steps of its own in between: nine for the task, frames left plus three for a sender |
| `ClientLocks.NothingRetained` | components/esp_websocket_client/esp_websocket_client.c:777-783 | A sender that has returned and a task between two turns hold neither mutex |
| `ClientLocks.AbortHoldsLock` | components/esp_websocket_client/esp_websocket_client.c:255-297 | Whenever abort_connection runs, in whichever thread and from whichever of its seven call sites, its caller owns `lock` |
| `ClientLocks.OnlyAbortsDisconnect` | components/esp_websocket_client/esp_websocket_client.c:283 | A DISCONNECTED is reported by nothing but an abort, and names the state the abort found |
| `ClientWire.FrameRunsDoNotInterleave` | components/esp_websocket_client/esp_websocket_client.c:731-775 | In every run of either build, everything on the wire between two frames of one send call is a frame of that call by the same thread; PING, PONG and CLOSE of the task never come in between |
| `ClientWire.SingleLockSendsOnOneConnection` | components/esp_websocket_client/esp_websocket_client.c:719-724 | With a single lock the frames of one send call all go out on one connection |
| `ClientWire.SuccessIsComplete` | components/esp_websocket_client/esp_websocket_client.c:731-775 | In every run of either build, a send call leaves its frame loop with success iff all the frames it set out to send are on the wire |
| `ClientWire.RunKeepsWire` | components/esp_websocket_client/esp_websocket_client.c:1336-1363 | The invariant behind both: call numbers are fresh, a writing call's frames are the last on the wire, calls are contiguous |
| `ClientWire.OneWriter` | components/esp_websocket_client/esp_websocket_client.c:1292-1301 | A thread about to write is the only writer: it excludes every sender inside its frame loop |
| `ClientEvents.ConnectionsAreSeparated` | components/esp_websocket_client/esp_websocket_client.c:1249-1260 | In every run of either build, a DISCONNECTED, CLOSED or FINISH stands between any two CONNECTED |
| `ClientEvents.EndsBetweenConnections` | components/esp_websocket_client/esp_websocket_client.c:261-297 | Between a CONNECTED and the next BEFORE_CONNECT without a FINISH there is one DISCONNECTED or CLOSED plus one for every sender abort that found the client back in INIT; so exactly one iff there was no such abort |
| `ClientEvents.RunKeepsEvents` | components/esp_websocket_client/esp_websocket_client.c:1418-1447 | The invariant behind both: the state of the client, the place of the task and the tally of its events agree after every step |
| `ClientPrompt.ExactlyOneEnd` | components/esp_websocket_client/esp_websocket_client.c:708-724 | Single-lock build, connected check and send in one step: exactly one DISCONNECTED or CLOSED between a CONNECTED and the next BEFORE_CONNECT unless a FINISH intervenes |
| `ClientTwoLocks.EndReportedTwice` | components/esp_websocket_client/esp_websocket_client.c:743-763 | The same claim is false with two locks: a run in which the sender gives `tx_lock` after a failed write, the task aborts and sits out its wait, and the sender's own abort then reports the end a second time |
| `ClientTwoLocks.CallStraddlesConnections` | components/esp_websocket_client/esp_websocket_client.c:714-718 | And a run of the two-lock build in which the first frame of a call is on one connection and the second on the next |
| `ClientConnections.StraddlesIffReconnected` | components/esp_websocket_client/esp_websocket_client.c:731-775 | In every run of either build, two frames, of one call or not, are on different connections iff a CONNECTED was reported between the steps that wrote them |
| `ClientConnections.FrameWritten` | components/esp_websocket_client/esp_websocket_client.c:740-741 | Every frame on the wire was written in one step, on the connection of that moment, after exactly the frames before it |
| `ClientAborts.NoReconnectAfterEnd` | components/esp_websocket_client/esp_websocket_client.c:274-280 | In every run with automatic reconnect disabled, no attempt or connection is reported after a DISCONNECTED until a BEGIN or FINISH has been; the same after a CLOSED with reconnecting after a close disabled |
| `ClientAborts.AbortLeads` | components/esp_websocket_client/esp_websocket_client.c:272-280 | An abort of a live or scheduled connection closes the transport; with automatic reconnect `run` is as before and the state is WAIT_TIMEOUT, without it `run` is false and the state UNKNOWN |
| `ClientAborts.LateAbortIsNothing` | components/esp_websocket_client/esp_websocket_client.c:266-270 | Any other abort changes neither the connection nor the log |
| `ClientAborts.CloseLeads` | components/esp_websocket_client/esp_websocket_client.c:1427-1440 | The end of a close: WAIT_TIMEOUT on a closed transport with the CLOSE mark lifted, or down for good |
| `ClientAborts.RunsUntilStopped` | components/esp_websocket_client/esp_websocket_client.c:274-276 | In every run, the client stops running only by a stop, or in the step that reports an end it does not reconnect after |
| `ClientCauses.ControlCameFrom` | components/esp_websocket_client/esp_websocket_client.c:1113-1147 | In every run of either build, each PING, PONG or CLOSE of the task on the wire was called for by one earlier step (a connected turn with no CLOSE sent and the interval over; a PING read; a closing turn with no CLOSE sent), the task did nothing else in between, and the frame went out on an open transport in the state it belongs to |
| `ClientCauses.FrameCameFrom` | components/esp_websocket_client/esp_websocket_client.c:692-775 | In every run, each frame of a sender belongs to a call that thread made while the client was connected, is a CLOSE iff it was a close call, and went out on an open transport |
| `ClientCauses.CallIff` | components/esp_websocket_client/esp_websocket_client.c:704-707 | A call goes on to its lock exactly while the client is connected, and otherwise does nothing |
| `ClientCauses.CloseSentCameFrom` | components/esp_websocket_client/esp_websocket_client.c:1534-1546 | In every run, that a CLOSE was sent is noted only after the same thread sent one: the task in CLOSING, or a sender in a close call whose frames were all written or whose write stalled |
| `ClientCauses.AbortCameFrom` | components/esp_websocket_client/esp_websocket_client.c:1208-1221 | In every run, the task aborts only for its cause: a refused connect, a missing PONG, a failed poll, a failed read, or a PONG it could not get `tx_lock` for |
| `ClientCauses.CauseLeadsToAbort` | components/esp_websocket_client/esp_websocket_client.c:1373-1391 | And every such cause does lead to the abort: from then on the task is on its way to it until it makes it |
| `ClientCauses.AttemptAfterWait` | components/esp_websocket_client/esp_websocket_client.c:1325-1333 | In every run, the state leaves WAIT_TIMEOUT only for INIT in a turn that found the wait over, or for UNKNOWN at the end of the task |
| `ClientLaps.LapsAreShort` | components/esp_websocket_client/esp_websocket_client.c:1191-1443 | In every run of either build, whatever the transport, the timers and the other threads do, the task is back at the top of its loop, or at its end, within 28 steps of its own |
| `ClientLaps.StopsInTime` | components/esp_websocket_client/esp_websocket_client.c:1445-1452 | In every run, a client that does not run is down within 27 steps of its task, from anywhere in the loop |
| `ClientLaps.StoppedStays` | components/esp_websocket_client/esp_websocket_client.c:1191 | In every run, a client that was stopped runs again only by a new start, which reports BEGIN |
| `ClientResponses.PingGoesOut` | components/esp_websocket_client/esp_websocket_client.c:1280-1322 | A connected client with a PING due puts one PING frame on the wire and goes on to the check of the PONG, in either build |
| `ClientResponses.PingIsAnswered` | components/esp_websocket_client/esp_websocket_client.c:1113-1147 | A PING that was read is answered by one PONG frame |
| `ClientResponses.PongIsMissed` | components/esp_websocket_client/esp_websocket_client.c:1316-1321 | A missing PONG closes the connection and reports it |
| `ClientResponses.CloseIsEchoed` | components/esp_websocket_client/esp_websocket_client.c:1334-1365 | A CLOSE that was read, after a poll or after a connect, is echoed by one CLOSE frame on the next turn |
| `ClientResponses.ClosedThenWaits` | components/esp_websocket_client/esp_websocket_client.c:1427-1435 | With reconnecting after a close, the connection then ends in CLOSED and WAIT_TIMEOUT |
| `ClientResponses.ClosedThenFinishes` | components/esp_websocket_client/esp_websocket_client.c:1436-1452 | Without it, in CLOSED, FINISH and the end of the task |
| `ClientResponses.StopIsObeyed` | components/esp_websocket_client/esp_websocket_client.c:1445-1452 | A stopped client at the top of its loop reports FINISH, closes its transport and is down in four steps |
| `ClientResponses.FirstReadThenPolls` | components/esp_websocket_client/esp_websocket_client.c:1262-1278 | A new connection is polled, after the data that came with the answer to the upgrade has been read |
| `ClientResponses.RedirectTriesAgain` | components/esp_websocket_client/esp_websocket_client.c:1224-1245 | A redirect is followed on the next turn, in INIT still |
| `ClientResponses.ReconnectsAfterWait` | components/esp_websocket_client/esp_websocket_client.c:1325-1333 | A client whose wait is over makes a new connection of the next number in eleven steps, with a BEFORE_CONNECT and a CONNECTED |
| `ClientResponses.PollReads` | components/esp_websocket_client/esp_websocket_client.c:1372-1392 | Data waiting is read under the lock, a failed poll goes to the abort |
| `ClientResponses.BrokenReadAborts` | components/esp_websocket_client/esp_websocket_client.c:1388-1391 | A failed read, and any read of a closed transport, closes the connection and reports it |
| `ClientResponses.CallAlone` | components/esp_websocket_client/esp_websocket_client.c:692-784 | A call left alone puts exactly its frames on the wire, all of its connection, leaves both mutexes as they were, reports nothing, and notes a sent CLOSE iff it is a close call |
| `ClientResponses.FailedCallAborts` | components/esp_websocket_client/esp_websocket_client.c:742-768 | A call whose write fails closes the connection under `lock`, reports it once and leaves both mutexes free |
| `ClientResponses.StalledCloseMarks` | components/esp_websocket_client/esp_websocket_client.c:1541-1546 | A close call whose write stalls aborts as well, and takes the CLOSE for sent |
| `ReconnectWait.NoLostWakeup` | components/esp_websocket_client/esp_websocket_client.c:1396-1416 | Under every interleaving, a sleeping task sleeps on the current timeout, or WAKEUP_BIT is set, or a setter is between its write and its set-bit; and a stopped client has its stop bit set or about to be |
| `ReconnectWait.WakesInTime` | components/esp_websocket_client/esp_websocket_client.c:1668-1691 | With no setter or stopper half done, the sleep ends by one kernel tick after the current timeout has run out, or as soon as the client is stopped |
| `ReconnectWait.NeverLeavesEarly` | components/esp_websocket_client/esp_websocket_client.c:1325-1333 | The task leaves the wait only when the timeout it last read, in the locked check it leaves from, has elapsed since the wait began |
| `ReconnectWait.RunKeepsInv` | components/esp_websocket_client/esp_websocket_client.c:1404-1410 | Every run keeps the invariant: what was read for the sleep is fresh or a wake-up is on its way, and the deadline is less than a tick before and at most a tick past the timeout |
| `ReconnectWait.LeavesIff` | components/esp_websocket_client/esp_websocket_client.c:1326-1332 | In every run, the locked check leaves the wait iff the timeout it read is not positive or has elapsed since the wait began |
| `ReconnectWait.LeavesInTime` | components/esp_websocket_client/esp_websocket_client.c:1325-1333 | So the task does leave: once the current timeout and a tick have passed with no setter half done, it is out of the wait after nine steps of its own |
| `ReconnectWait.FinishesIff` | components/esp_websocket_client/esp_websocket_client.c:1191 | It gives the wait up iff it finds the client stopped at the top of its loop |
| `ReconnectWait.SleepsIff` | components/esp_websocket_client/esp_websocket_client.c:1400-1416 | It sleeps iff part of the timeout it read is left |
| `ReconnectWait.SleepsOn` | components/esp_websocket_client/esp_websocket_client.c:1405-1414 | And unless a bit wakes it, until less than a kernel tick of that timeout is left |
| `ReconnectWait.WokenBySetter` | components/esp_websocket_client/esp_websocket_client.c:1397 | No stale wake-up: a WAKEUP_BIT that wakes the task was set after the task cleared it for this sleep |
| `ReconnectWait.SleepGoesBy` | components/esp_websocket_client/esp_websocket_client.c:1399-1400 | A sleep goes by a timeout read after the bit was cleared, and by a `run` found true after that |
| `KeepAlive.KeepAliveTimers.CheckPing` | components/esp_websocket_client/esp_websocket_client.c:1279-1323 | One iteration of the ping branch: its PING, its timers and its verdict, including the early exit when `tx_lock` is not obtained |
| `KeepAlive.KeepAliveTimers.OnPong` | components/esp_websocket_client/esp_websocket_client.c:1148-1149 | A PONG ends the wait and touches nothing else |
| `KeepAlive.KeepAliveTimers.OnConnected` | components/esp_websocket_client/esp_websocket_client.c:1249-1256 | A new connection ends the wait and touches nothing else |
| `KeepAlive.TimersRememberPing` | components/esp_websocket_client/esp_websocket_client.c:1310-1313 | After any run the two timer fields hold exactly the stamp of the oldest unanswered PING of this connection; with the timeout off they hold nothing |
| `KeepAlive.AbortIffOverdue` | components/esp_websocket_client/esp_websocket_client.c:1316-1321 | In any run, an iteration aborts iff the timeout is on and the oldest unanswered PING was stamped more than the timeout ago |
| `KeepAlive.AbortNeedsOldPing` | components/esp_websocket_client/esp_websocket_client.c:1281-1321 | So no PONG_TIMEOUT without a PING sent on this connection more than pingpong_timeout_sec ago and no PONG since, and never when it is 0 |
| `KeepAlive.TickIsLastAttempt` | components/esp_websocket_client/esp_websocket_client.c:1282-1283 | After any run the ping timer holds the time noted by the last iteration that found a PING due, with or without the lock |
| `KeepAlive.PingSentIff` | components/esp_websocket_client/esp_websocket_client.c:1282-1306 | After any run, an iteration sends exactly one PING iff more than the interval it reads has passed since the last attempt and the lock was obtained |
| `KeepAlive.AttemptsAreSpaced` | components/esp_websocket_client/esp_websocket_client.c:1282-1283 | Two attempts are more than the interval apart, whatever PONGs and connections come in between |
| `Framing.Transport.SendRaw` | components/esp_websocket_client/esp_websocket_client.c:740-741 | The n-th transport write puts one whole frame on the wire, stalls at nothing, or breaks with a negative result, as the environment's n-th outcome says; an empty frame cannot stall |
| `Framing.Client.SendWithExactOpcode` | components/esp_websocket_client/esp_websocket_client.c:692-784 | For every transport: without connection or lock -1 and nothing written; otherwise exactly the frames up to the first failing write, and the length or what that write returned; with anything to send, the result is the length iff all the frames of the message were added to the wire |
| `Framing.Client.SendFrames` | components/esp_websocket_client/esp_websocket_client.c:731-775 | The loop alone, which terminates: frames up to the first failing write, and its result |
| `Framing.Client.SendWithOpcode` | components/esp_websocket_client/esp_websocket_client.c:1608-1611 | The same with FIN requested, failures included: the length iff all the frames were added to the wire |
| `Framing.NegativeIffBroken` | components/esp_websocket_client/esp_websocket_client.c:740-743 | A failed call returns a negative number iff the write that failed did not stall, and 0 iff it did |
| `Framing.FailuresAreNegativeIffEmpty` | components/esp_websocket_client/esp_websocket_client.c:740-743 | Over all transports, failures of a call are always negative iff it sends no data |
| `Framing.StallReturnsZero` | components/esp_websocket_client/esp_websocket_client.c:740-743 | The failing input: any data, on a transport that accepts nothing; no frame goes out and the call returns 0 |
| `Framing.FramesAreACut` | components/esp_websocket_client/esp_websocket_client.c:731-775 | Section 5.4 of RFC 6455: the payloads concatenate to the data, each fits the buffer and all but the last fill it, the first frame has the opcode, the others are continuations, FIN is on exactly the last iff requested; no frame only for no data and no opcode |
| `Framing.Client.SendInParts` | components/esp_websocket_client/esp_websocket_client.c:1583-1606 | text_partial, any number of cont_msg, then fin, by a caller that stops at the first call that does not return its length: exactly the partial-send frames up to the first failing write, and success iff all of them |
| `Framing.PartialSendIsOneMessage` | components/esp_websocket_client/esp_websocket_client.c:1583-1606 | Those frames are one well-formed text message whose payload is the concatenation of the parts, for every buffer size and with empty parts |
| `Reassembly.Recv` | components/esp_websocket_client/esp_websocket_client.c:1084-1111 | The read loop dispatches, for some sizes of its reads, reads of nothing included, exactly the chunks of the frame in order, each within the buffer |
| `Reassembly.Accumulator.HandleData` | components/esp_websocket_client/tests/autobahn-testsuite/testee/main/autobahn_testee.c:183-319 | One DATA event moves the accumulator's buffer and counters, and hands a message out, exactly as the value-level Accumulate says, over any state and for any size limit |
| `Reassembly.Accumulator.AppendChunk` | components/esp_websocket_client/tests/autobahn-testsuite/testee/main/autobahn_testee.c:269-319 | The second half: size checks, growth, copy, and the hand-out at the end of the last frame |
| `Reassembly.Accumulator.Grow` | components/esp_websocket_client/tests/autobahn-testsuite/testee/main/autobahn_testee.c:276-287 | realloc keeps what was received |
| `Reassembly.Reassembled` | components/esp_websocket_client/tests/autobahn-testsuite/testee/main/autobahn_testee.c:193-319 | Any well-formed message of non-empty frames, cut by arbitrary reads and interspersed with control frames, is handed out once if it is within the limit, whole, with the first frame's opcode |
| `Reassembly.ReassembledIff` | components/esp_websocket_client/tests/autobahn-testsuite/testee/main/autobahn_testee.c:222-252 | A well-formed message comes back as itself iff it is a single frame or none of its frames is empty |
| `Reassembly.SendReceiveRoundTrip` | components/esp_websocket_client/esp_websocket_client.c:731-775 | What this client sends with any transmit buffer is reassembled from any read sizes as the same message |
| `Reassembly.PartialSendIsNotReassembled` | components/esp_websocket_client/esp_websocket_client.c:1603-1606 | A message ended by the empty frame of send_fin is never handed out whole |
| `Reassembly.EmptyFrameHandedOut` | components/esp_websocket_client/tests/autobahn-testsuite/testee/main/autobahn_testee.c:230-252 | An empty data frame bypasses the accumulator and is handed out on its own |
| `Reassembly.WholeIffWithinLimit` | components/esp_websocket_client/tests/autobahn-testsuite/testee/main/autobahn_testee.c:269-275 | A message of several non-empty frames is handed out whole iff it is within the limit |
| `Reassembly.LongMessageLeaks` | components/esp_websocket_client/tests/autobahn-testsuite/testee/main/autobahn_testee.c:269-275 | Over the limit it is not merely dropped: a stream on which its last frame comes out as a message of its own |
| `Reassembly.FrameOverLimit` | components/esp_websocket_client/tests/autobahn-testsuite/testee/main/autobahn_testee.c:255-262 | A single frame over the limit is dropped whole, unless it is read in one piece |
| `Reassembly.StrayContinuation` | components/esp_websocket_client/tests/autobahn-testsuite/testee/main/autobahn_testee.c:240-252 | A continuation with no message begun is dropped, unless it is final and read in one piece |
| `MuLaw.LinearToMuLaw` | src/main.cpp:72-89 | The mask loop computes the code whose segment is the unique e with 2^(e+7) <= biased magnitude < 2^(e+8) |
| `MuLaw.MulawToPcm16` | ws_server.py:36-50 | The in-place decoder fills its buffer with the little-endian decoding of every code |
| `MuLaw.DecodeStep` | ws_server.py:40-46 | Sign, segment and mantissa of the inverted code give the 16-bit sample |
| `MuLaw.ErrorBound` | src/main.cpp:72-89 | For every sample of magnitude up to 32635 the decoded error is at most 2^(e+2) in segment e |
| `MuLaw.Monotone` | src/main.cpp:72-89 | Decode after encode is monotone over all 16-bit samples |
| `MuLaw.EncodeDecode` | src/main.cpp:72-89 | Encode undoes decode on every byte except 0x7F, which becomes 0xFF |
| `MuLaw.DecodeEncodeDecode` | ws_server.py:36-50 | Decode, encode, decode is decode |
| `MuLaw.PcmBytesAppend` | ws_server.py:36-50 | Decoding chunk by chunk equals decoding the whole |
| `MuLaw.PcmBytesSample` | ws_server.py:45-50 | The i-th 16-bit little-endian sample of the decoded bytes is the decoded i-th code, sign included |
| `MuLaw.RecordingFidelity` | ws_server.py:36-50 | Through both ends, every unclipped sample of a recording of any length is in the PCM file within its segment's error |
| `MuLaw.DecodeIsStandard` | ws_server.py:36-50 | The decoder's values are those of tables 2a and 2b of G.711, times four, for every code |
| `MuLaw.EncodeIff` | src/main.cpp:72-89 | A sample gets segment e and step m iff its clipped magnitude lies between the standard's decision values of that step |
| `Capture.Recorder.FlushAudioBuffer` | src/main.cpp:61-70 | Appends what flash accepts of the buffer, empties it, and reports whether all of it was stored |
| `Capture.Recorder.QueueAudioSamples` | src/main.cpp:91-100 | When the flash takes whole writes, the stream in flash and RAM grows by exactly the codes of the samples; with any flash the index is below 1024 between calls and the counter is the file length |
| `Capture.Recorder.CaptureBlock` | src/main.cpp:649-675 | When the flash takes whole writes, one I2S read of 0 to 512 slots adds exactly the gained, encoded samples after the start-up drop; with any flash the drop count and the counter are right |
| `Capture.Recorder.Record` | src/main.cpp:586-594 | For any split of the stream into reads and complete writes, the closed file is the raw stream minus its first 4096 samples, gained, saturated and encoded; the byte counter is the file length, also with short writes |
| `Capture.RecordedAppend` | src/main.cpp:655-663 | What a block adds depends on the stream before it only through the samples still to be dropped |
| `Capture.RecordingOfMicrophone` | src/main.cpp:655-669 | End to end, against the raw I2S slots: byte i of the file decodes, in units of 16384 slot steps, to within its segment's error and one rounding step of raw slot 4096 + i, for every slot that does not clip; and the file has no other bytes |
| `Capture.GainIs` | src/main.cpp:664-669 | The gain of every slot: 16384 slot steps to a sample step, rounded down, saturated at 16 bits |
| `Capture.LoudIsClipped` | src/main.cpp:664-669 | A slot past the clip level is recorded as the loudest code of its sign |
| `Capture.StartupIsDropped` | src/main.cpp:655-663 | Of the first 4096 samples nothing is recorded |
| `Device.Firmware.ProcessAudioUpload` | src/main.cpp:108-154 | One pass of IDLE/START/DATA/STOP: at most one frame, and the next state for every outcome of open, read and send, with a read of nothing taken for the end of the file wherever it happens |
| `Device.Firmware.EndRecording` | src/main.cpp:514-524 | Flush, close, stop, and START iff anything was captured |
| `Device.Firmware.HandlePress` | src/main.cpp:575-623 | Debounce, start and release |
| `Device.Firmware.HandleButton` | src/main.cpp:550-575 | The whole button part, with the Wi-Fi loss branch and the 15 s limit |
| `Device.Firmware.HandleMicTest` | src/main.cpp:704-743 | The microphone test shares I2S with a recording without ending it |
| `Device.Firmware.HandleOta` | src/main.cpp:490-524 | A failed OTA stops I2S only; a successful one reboots |
| `Device.Firmware.Loop` | src/main.cpp:448-743 | One pass of the loop over the device's state and the frame it hands to the socket |
| `Device.LoopKeepsOk` | src/main.cpp:448-743 | Every pass keeps: recording iff the file is open, recording implies upload IDLE and counter = file length, a pending upload has a non-empty file and a position inside it |
| `Device.RecordingExcludesUpload` | src/main.cpp:575-581 | In every state any sequence of passes can reach, a recording in progress means no upload is pending |
| `Device.PendingUploadIsUntouched` | src/main.cpp:550-647 | While an upload is pending, button, Wi-Fi loss, limit, OTA and microphone test leave the file, the upload and its position alone and start no recording |
| `Device.RemovedOnlyAfterStop` | src/main.cpp:143-152 | The upload changes the file only by removing it in STOP when mic_stop is accepted |
| `Device.StopsAtNothing` | src/main.cpp:130-136 | It gets to STOP only from DATA by a read of nothing, which leaves bytes unread iff it was an empty read before the end of the file |
| `UploadProgress.LostSendStartsOver` | src/main.cpp:102-106 | In every run, an upload pass that loses the connection leaves the upload in START with no read position and the flash file unchanged |
| `UploadProgress.PendingUntilAccepted` | src/main.cpp:108-154 | In every run, a pending upload ends only by an accepted mic_stop, which empties flash, by a START whose file does not open, or by a reboot |
| `UploadProgress.UploadEndsIff` | src/main.cpp:108-154 | And in the first two cases it does end: iff connected, and in STOP with an accepted send or in START with a file that does not open |
| `UploadProgress.UndisturbedUploadCompletes` | src/main.cpp:108-154 | Left alone, any upload completes within as many passes as the file has bytes and three: IDLE, the file gone, one mic_start, exactly its bytes in order, one mic_stop |
| `UploadProgress.ChunkIsNext` | src/main.cpp:130-141 | Each frame of audio is the next 1 to 1024 bytes of the file, and all of 1024 or the rest if the read is whole |
| `ButtonLaws.GoesOnIff` | src/main.cpp:550-647 | A recording goes on iff Wi-Fi is up, the button down, and less than 15000 ms have passed on the 32-bit counter; then one block more is in the file |
| `ButtonLaws.EndKeepsRecording` | src/main.cpp:514-524 | Its end keeps everything captured, and the upload follows iff that is not empty |
| `ButtonLaws.StartsIff` | src/main.cpp:575-610 | A pass starts a recording, on an empty file, iff armed, not timed out, no upload pending, Wi-Fi up, the button down for more than 100 ms by its noted time, and file and I2S available, unless the read after it takes 15 s |
| `ButtonLaws.PressIsNoted` | src/main.cpp:575-610 | A press is noted by its first pass, waited on for 100 ms, and one that cannot start leaves an empty file or none and is noted anew |
| `ButtonLaws.StartIsDebounced` | src/main.cpp:556-583 | In every run, a recording starts more than 100 ms after a pass that saw the press, the button down in every pass since, and after the button was seen up since boot |
| `ButtonLaws.TimeoutNeedsRelease` | src/main.cpp:575-623 | In every run, after a timeout or Wi-Fi loss nothing is recorded until the button has been seen up with Wi-Fi up, or a reboot |
| `ButtonLaws.TestLasts` | src/main.cpp:704-743 | A microphone test lasts until its time is over, and owns I2S unless a recording does |
| `ButtonLaws.OtaStops` | src/main.cpp:490-524 | A failed update stops I2S and nothing else, a successful one keeps only the flash |
| `Gateway.Handler.OnMessage` | ws_server.py:163-212 | One message moves the connection's locals, the files and the submissions exactly as Handle says |
| `Gateway.AudioStore.Append` | ws_server.py:193 | Append mode creates the file or adds to it and touches no other |
| `Gateway.HandleFollows` | ws_server.py:163-212 | Refinement: after any history, with either codec in each recording and identifies anywhere, the current file holds the decoding by its own codec of exactly the bytes since the last mic_start, and the routing is that of the last identify |
| `Gateway.SubmitsIff` | ws_server.py:198-212 | After any history, a message submits a file iff it is a mic_stop, the last identify was of the routed device, there has been a mic_start, and its file is not empty; and then exactly the file of the last mic_start |
| `Gateway.HandleFrame` | ws_server.py:163-197 | A message changes no file but the open one that is current after it |
| `UploadProtocol.SubmittedIsWhatWasRead` | src/main.cpp:102-154 | In every run, with drops, silent reconnects, leaked sends and restarts anywhere, every file handed to the orchestrator was ended by a mic_stop of its own connection and recording number, and holds from then on the decoding of what that upload had read of the flash file of that moment, from its beginning, each byte once; the flash file was a whole recording, and the file is handed over once |
| `UploadProtocol.SubmittedIsWholeIff` | src/main.cpp:130-141 | That is the whole recording iff the read that ended the upload, the only one that returned nothing, did not do so before the end of the file |
| `UploadProtocol.SubmittedIsWhole` | src/main.cpp:102-154 | Corollary: in a run without empty reads before the end of the file, every submitted file is the decoding of the whole recording in flash at its mic_stop |
| `UploadProtocol.LastRead` | src/main.cpp:130-141 | An upload in STOP got there by a read of nothing, and its file and position have not changed since |
| `TruncatedUpload.TruncatedFileIsSubmitted` | src/main.cpp:131-152 | A run with one empty read in the middle of the file: a truncated file is submitted, and the recording is removed from flash |
| `UploadProtocol.RecordingsWereInFlash` | src/main.cpp:586-647 | What counts as a recording: it was the whole flash file at the moment a recording ended |
| `UploadProtocol.FlashKeptUntilAccepted` | src/main.cpp:141-152 | The flash file of a pending upload changes only in the pass whose mic_stop was accepted, and that mic_stop is on the connection |
| `UploadProtocol.DeliveredStopSubmits` | ws_server.py:196-212 | A delivered mic_stop of an identified connection with an open recording submits one file with exactly the pending bytes decoded, or none if there are none |
| `UploadProtocol.SubmittedStays` | ws_server.py:163-212 | A submitted file stays submitted and unchanged for ever |
| `UploadProtocol.RunKeepsInv` | ws_server.py:163-212 | Every run keeps: each connection's session follows the delivered prefix, and every mic_stop sent ends what an upload had read or stands on a connection that never had a mic_start |
| `FirmwareHealth.Validator.Check` | src/main.cpp:475-488 | One pass of the validation timer on the 32-bit counter |
| `FirmwareHealth.ValidOnlyAfterStable` | src/main.cpp:475-488 | Marked valid only after a true 60 s or more in which every pass was online, whatever the wrap-around |
| `FirmwareHealth.MarkedIffDue` | src/main.cpp:475-488 | Exactly when: an unbroken online stretch marks the firmware iff one of its passes finds the counter 60 s past the first reading of the stretch that is not 0 |
| `FirmwareHealth.StableIsMarked` | src/main.cpp:475-488 | So any pass 60 s into an online stretch marks it, unless a whole counter period went by or the stretch began at counter value 0 |
| `FirmwareHealth.LateFromZero` | src/main.cpp:475-488 | A run that is 60 s online and not marked, because its first pass reads 0; one more pass in between and it is marked a millisecond late |
| `FirmwareHealth.LateAfterPeriod` | src/main.cpp:475-488 | A run that is a whole counter period online and not marked, because its two passes read the same value |
| `Jobs.JobStore.GetByRecording` | m1_service/store.py:135-140 | Finds the row of a recording iff there is one |
| `Jobs.JobStore.CreateJob` | m1_service/store.py:83-112 | Inserts a received row, or leaves the table alone and returns the row the key already has |
| `Jobs.JobStore.SetStatus` | m1_service/store.py:114-125 | Overwrites status, transcript, reply and error of one row and keeps keys unique |
| `Jobs.JobStore.ListRecoverable` | m1_service/store.py:149-156 | Lists exactly the unfinished jobs, each once |
| `Jobs.Service.Submit` | m1_service/worker.py:58-68 | Counts and queues the job iff there is room, otherwise changes nothing |
| `Jobs.Service.Recover` | m1_service/worker.py:70-85 | Re-queues the unfinished jobs up to the bound, from an empty process |
| `Jobs.Service.Post` | m1_service/app.py:73-106 | The route: validate, find, resolve, insert, submit, or mark failed |
| `Jobs.Service.TakeJob` | m1_service/worker.py:87-105 | From the queue to the STT call, or straight to failed without audio |
| `Jobs.Service.OnTranscript` | m1_service/worker.py:106-119 | After STT: failed, done with an empty transcript, or working |
| `Jobs.Service.OnReply` | m1_service/worker.py:119-131 | After the agent: failed, or displaying with transcript and reply |
| `Jobs.Service.FinishShowing` | m1_service/worker.py:124-127 | displaying becomes done with the same transcript and reply |
| `JobRuns.RunKeepsInv` | m1_service/worker.py:70-96 | Every run of POSTs, turns, crashes and restarts keeps the agreement of table and process |
| `JobRuns.DurableAgreesWithVolatile` | m1_service/worker.py:58-96 | At every suspension point the recoverable rows are exactly the jobs queued or in hand, without duplicates, and their number is `active`, within the bound |
| `JobRuns.QueueNeverFull` | m1_service/worker.py:62-68 | A job that passes the `active` test always finds room: QueueFull is never raised |
| `JobRuns.RecoveryNeverBreaks` | m1_service/worker.py:72-85 | Recovery takes every listed job: its early exits are never reached |
| `JobRuns.FinishedRowsAreFrozen` | m1_service/store.py:114-125 | A done or failed row is the same in every later state, across crashes and restarts |
| `JobRuns.StatusMovesForward` | m1_service/worker.py:98-127 | Between two takes of a job its status never goes back |
| `JobRuns.OneJobPerRecording` | m1_service/app.py:81-88 | A recording keeps its job: posting it again at any later time changes nothing and answers with that job |
| `JobRuns.SttStartsOnce` | m1_service/worker.py:98-106 | Within one process start no job is handed to STT twice |
| `JobRuns.RowsAreShaped` | m1_service/worker.py:98-131 | Every row has the shape its status dictates, and recordings are unique |
| `JobHistory.TranscriptCameFrom` | m1_service/worker.py:108-118 | In every run, the transcript in a job's row, or in the worker's hands, is what STT returned for that job in its current attempt |
| `JobHistory.ReplyCameFrom` | m1_service/worker.py:119-126 | In every run, the reply in a job's row, or being shown, is what the agent returned for that job in its current attempt |
| `JobHistory.ErrorCameFrom` | m1_service/worker.py:104-131 | In every run, an error code is the one STT or the agent failed that job with, io_error for a row without audio, or queue_full for a job refused at the bound |
| `JobHistory.PathCameFrom` | m1_service/app.py:81-96 | In every run, a row's recording and audio path are those of the POST that created it, the first for that recording |
| `JobHistory.AdmittedIff` | m1_service/app.py:73-106 | In every reachable state: 422 iff the codec is bad; else the known job of the recording; else 400 iff the path is bad; else 409 iff the unfinished jobs have reached the bound; else a new unfinished job at the end of the queue |
| `JobHistory.TakenIff` | m1_service/worker.py:98-108 | In every run, a job taken is handed to STT iff its row names an audio file, and failed otherwise |
| `JobHistory.FirstInFirstOut` | m1_service/worker.py:58-90 | In every run, within one process, a job is not taken before another that stood before it in the queue |
| `JobHistory.RecoveredFits` | m1_service/worker.py:70-85 | Recovery with any list and bound takes the first jobs of the list, as many as fit |
| `OledFit.FitOled` | ws_server.py:275-310 | The wrapping loop equals: hard-wrap every source line, then clip |
| `OledFit.JoinMarked` | ws_server.py:306-310 | Its last step adds an ellipsis to the last row iff rows were cut and it has none |
| `OledFit.WrapIsHardWrap` | ws_server.py:283-301 | A hard wrap loses nothing, fills every row but the last and never ends in an empty row |
| `OledFit.FitShows` | ws_server.py:275-310 | For any text and screen of at least one row and column: as many true rows as fit; when rows were cut the last one is the true row if that ends in an ellipsis, else as much of it as leaves room for one, and an ellipsis; all rows fit |
| `OledFit.CutIsPrefix` | ws_server.py:306-310 | So a cut screen ends in an ellipsis, and the rest of its last row is a beginning of the true one |
| `OledFit.RowsAreWraps` | ws_server.py:283-301 | The true rows are the wraps of the source lines, one after the other |
| `OledFit.UncutLosesNothing` | ws_server.py:275-310 | Output that was not cut keeps every character |
| `OledFit.FitIdempotent` | ws_server.py:275-310 | Fitting is idempotent |
| `DisplayPath.JsonStringValue` | src/main.cpp:208-228 | The hand-written scanner with its two in-place replacements computes JsonValue, with the same failures |
| `DisplayPath.JsonRoundTrip` | src/main.cpp:208-228 | Scanning the gateway's JSON gives the text back iff it has no backslash and no control character other than newline; quotes and newlines at either end included |
| `DisplayPath.ScanDisplayJson` | src/main.cpp:208-228 | What scanning gives for any text at all: nothing if it ends in a backslash, else the text with its other escapes left in |
| `DisplayPath.Routing` | src/main.cpp:276-290 | A printed display message goes to the display branch unless its text is ota or ends in "ota, when it goes to the OTA branch |
| `DisplayPath.DrawText` | src/main.cpp:299-315 | The splitter draws the first four non-blank trimmed lines at heights 14, 26, 38, 50 |
| `DisplayPath.CleanFit` | ws_server.py:275-310 | Fitting a clean text gives a clean text |
| `DisplayPath.CleanTextReachesScreen` | src/main.cpp:290-315 | A clean, routed text is drawn as its first four non-blank trimmed lines |
| `DisplayPath.ReplyReachesScreen` | ws_server.py:264-310 | End to end: a clean reply, fitted, printed, routed and scanned, is drawn as exactly the non-blank trimmed rows of the fitted text |
| `DisplayPath.PrintsStandardJson` | ws_server.py:264-272 | For every text, what the gateway prints reads back as the text by the string grammar of section 7 of RFC 8259 |
| `DisplayPath.ScanIff` | src/main.cpp:208-228 | On any message whatever, the scanner finds a value iff there is a first quoted key, a colon after it, a quote after white space and an unescaped quote after that, and gives what is between with its two escapes undone |
| `DisplayPath.RouteIff` | src/main.cpp:276-311 | Any message: OTA iff it has "ota" anywhere, else display iff it has "display", else the test iff it has "mic_test" |
| `DisplayPath.TrimIs` | src/main.cpp:299-315 | Trimming takes exactly the six ASCII white-space characters off both ends |
| `DisplayPath.NonBlankIs` | src/main.cpp:299-315 | The lines kept of a concatenation are those of its parts in order, and of one line its trimmed form unless that is empty |
| `DisplayPath.DrawnAt` | src/main.cpp:299-315 | Line i of the first four is drawn at 14 + 12 i, and no more than four are |

## Left out

- ClientModel: a stop before a new task has set `run`, event handlers that call back into the client, destroying the client, changing its URI, and the order of data frames after a CLOSE frame; the code guarantees nothing there.
- ClientModel: a start before the old task has ended. The start call tests only the state, which an abort without automatic reconnect and the CLOSED branch set to UNKNOWN while the task still runs; a second task may then exist, and the event protocol need not hold. The model starts a task only when there is none.
- ClientModel: an abort is one step, as is a whole read of a frame; both run under `lock`. The three status bits it needs are one flag, and the writes of `run` and `state` at the start of the task are one step.
- ClientModel: how long a lock wait or a poll lasts; a wait with a timeout may end without the lock at any time, so progress is stated as who can run, not when.
- ClientModel: the transport writes a frame whole or fails, and I/O on a closed transport fails; connecting, TLS, redirect parsing, buffer allocation (except that it may fail before a send) and error messages are left to the environment.
- ClientResponses: is about the task, or a sender, alone: no mutex is held against it and its writes succeed unless stated. What other threads may do meanwhile is left to the theorems about runs; how long another thread may hold a mutex is ClientLocks.HeldBriefly.
- ClientLaps.StopsInTime: counts steps of the task, not time, and says nothing about whether a step that waits for a mutex can be taken; that is ClientLocks.NoDeadlock.
- ClientPrompt.ExactlyOneEnd: is about the single-lock build, because the two-lock build does not have the property; the exact count for both builds is EndsBetweenConnections.
- ReconnectWait.NeverLeavesEarly: covers one wait of the task, from its start to its end; a later wait is a new run.
- KeepAlive.AbortIffOverdue: times are unbounded milliseconds of the 64-bit clock, and the overflow of the 32-bit product of seconds and 1000 is not modelled.
- Framing.Client.SendWithExactOpcode: takes the outcome of the lock wait and of the buffer allocation as a parameter and leaves the abort after a failed write, and the state it changes, to ClientModel; a NULL data argument with a positive length is not modelled, lengths are never negative.
- Reassembly.Recv: a read may return nothing with bytes left, but only finitely often, so that the loop ends; the frame's header does not change between reads, and the PONG and CLOSE handling after the loop is in ClientModel and KeepAlive.
- Reassembly.Accumulator.HandleData: allocations succeed, opcodes are those of the event, and the echo that follows a completed message is left out.
- Capture.Recorder.QueueAudioSamples: says what is in the file only when flash accepts whole writes; with short writes only the byte counter is claimed.
- MuLaw.LinearToMuLaw: bit operations on one mask bit and on aligned fields are written as division and remainder.
- Device: the clock is read twice per pass, file system calls either work or fail as a whole, the byte counter is unbounded, and what a recording adds to flash is a parameter here (Capture says what it is).
- Device.RemovedOnlyAfterStop: does not say that the whole file had been read, because the code does not ensure it; StopsAtNothing says when it had.
- Device.RecordingExcludesUpload: the Wi-Fi portal, the OTA download, drawing and the corner rotation are left out, and a reboot is possible only after an OTA.
- UploadProgress.UndisturbedUploadCompletes: is about passes of the upload alone that find the connection up, the file readable and the send accepted; what a disturbance does is LostSendStartsOver and PendingUntilAccepted.
- ButtonLaws.GoesOnIff: times are those of the 32-bit counter, as in the code, so a press or a recording longer than a counter period is seen modulo that period; which blocks the flash accepts is a parameter.
- Gateway: a file is named by its connection and its number on it; the wall-clock second in the real name is dropped, so two connections never share a file. Device routing is one flag set by identify. The command queue, its flush to overlapping connections and the stdin commands are left out.
- Gateway.Handler.OnMessage: a mic_stop without an open recording hands over the last file of the connection again, as in the code; UploadProtocol shows that this device never sends one.
- UploadProtocol.SubmittedIsWhole: is about runs without empty reads before the end of the file, because with one the code submits a truncated file; SubmittedIsWholeIff covers every run.
- UploadProtocol.SubmittedIsWhatWasRead: a recording may be lost (after a silent reconnect) or submitted twice under two files (after a delivered mic_stop whose send returned false); neither is excluded, because the code allows both.
- Jobs: store operations succeed, job ids are fresh, the transcript comes stripped, error codes are strings; path resolution is a parameter, and timestamps, device and session ids are dropped. Cancelling the worker is a crash.
- Jobs.Service.Recover: runs before the first POST of a process, as at a fresh start; stopping and starting one Worker object, and crashes between two commits inside one POST, are left out. The order in which the table lists jobs is arbitrary.
- OledFit.FitOled: characters are code points; their width on the screen is not modelled.
- DisplayPath: characters stand for the UTF-8 bytes of the firmware's strings, spaces are the ASCII ones on both sides, and the message arrives whole.
- DisplayPath.PrintsStandardJson: the reader takes the two-character escapes, and four-digit escapes below D800; the others are left out, because the printer never writes one.
- DisplayPath.ReplyReachesScreen: assumes a clean reply, because other texts are not given back by the scanner; ScanDisplayJson says what is.
- Not modelled at all: `src/lwip_ws.*`, `src/websocket.*`, `src/button.*`, `src/mic_i2s.*`, `src/oled_display.*`, `src/wifi_manager.*`, the STT and agent providers, the status polling of the gateway, animations, and test and report scripts.
