# Verification of the cTrader API client

A Dafny model of the parts of the client that have to be right whatever the
network and the scheduler do, with proofs about every run. It covers

- the reconnection machinery and the table of in-flight requests
  (`connection/protocol.py`, `supervisor.py`, `transport.py`), the heartbeat and
  the reader loop;
- session recovery, checks of reported disconnects, token rotation and the
  account store (`auth/`);
- the record of standing market data subscriptions against the session the
  server holds (`api/market_data.py`);
- the length-prefixed framing of the byte stream, and the write lock.

## How it is built

The client is single-threaded: a stretch of code between two `await`s runs
undisturbed, and anything may happen at an `await`. Each such stretch is one
step of a state machine (`Next`), enabled when the coroutine it belongs to can
run (`Enabled`). A run is any legal sequence of steps (`Legal`, `Exec`): which
coroutine moves, what each connect, send, reply, listener and probe does, and
how far the clock moves are all left open. Histories (`log`, `trace`, `marks`,
`reports`) are kept by the model alone; theorems about runs are theorems about
them.

Objects that the program updates in place are classes with the same fields. Each
method of theirs is proved to take exactly the step of the state machine it
stands for (`Model() == Next(old(Model()), ...)`), or to leave exactly the state
a specification function computes, so what is proved of the machines holds of
the methods. The loops of `read_exact`, the reader, the refresher and the replay
are loops here too, with invariants.

| files | subject |
|---|---|
| `Link`, `LinkProofs`, `LinkTheorems` | the reconnection state machine, its invariant, what it promises |
| `MessageIds`, `Calls`, `CallTheorems` | correlation of requests and replies |
| `Readers` | the reader tasks and their cancel scope |
| `Protocol` | the protocol object, tied to these machines |
| `Reader`, `Heartbeat` | the two loops that detect a lost link |
| `Framing`, `Wire` | frames, streams in chunks, the write lock |
| `Sessions`, `SessionStore`, `Windows` | the account store, its object, refresh windows |
| `Backoff`, `Recovery`, `RecoveryProofs`, `BusyLoop`, `CheckProofs`, `RestoreProofs`, `Waits`, `RecoveryTheorems`, `SessionRecovery` | session recovery and its object |
| `Collections` | sequences as collections |
| `Replies` | what the client reads in an answer |
| `StalePairs` | recovery against token rotation |
| `Refresh`, `Manager` | token rotation, and the auth manager |
| `Subscriptions`, `MarketData`, `Agreement` | standing subscriptions and the server session |

`dafny verify dfyconfig.toml` checks everything.

## What the proofs turned up

- A detector that is cancelled while it reports a loss leaves `_reconnecting` up.
  If the same protocol is then served again, no drop is ever reconnected:
  `LinkTheorems.DeadDetectorStrands`, with the run in
  `LinkTheorems.ServedAgainAfterDeadDetector`. `LinkTheorems.NoReportIsLost`
  holds for every run in which no detector died, and
  `LinkTheorems.ReportsAreServedIff` that this is exact. It takes no cancellation: a
  reader that exits while the heartbeat is still reporting a loss to a listener
  that suspends lets `serve` return. The detector then spawns on a task group that
  is gone, and the client is torn down by that error, with nothing having been
  cancelled (`LinkTheorems.ServeReturnsUnderDetector`).
- A call that a failure has woken can still return a reply: if the protocol
  is served again and one arrives before it resumes
  (`CallTheorems.ReplyAcrossServes`); in no other case
  (`CallTheorems.ReplyAfterFailureIff`).
- A recovery that is answered after a token rotation writes the invalidated pair
  back over the new one (`StalePairs.DeadPairReturns`). A new pair is safe exactly
  if no pass under way has taken the old one into its queue or snapshot
  (`StalePairs.PairIsSafeIff`).
- An attempt that fails after its account was flagged anew counts on from the old
  count (`Waits.OldFailureCountsOn`); otherwise the count is of the failures since
  the flag (`Waits.CountIsOfFailuresIff`).
- With a policy whose `min_wait` or `max_wait` is not positive, an account that
  fails at once keeps the recovery loop turning without the clock moving
  (`BusyLoop.BusyLoopWithoutWait`); otherwise it cannot (`BusyLoop.NoBusyLoop`).
- `auth/store.py:27-30` promises that a failed save is retried at the next check.
  The code stores the new expiry before it saves, so a check asks again exactly
  if that expiry is within the buffer by then (`Refresh.FailedSaveIsRetriedIff`);
  for the usual pair it does not (`Refresh.FailedSaveIsNotRetried`).
- Unsubscribing spots keeps the trendbars of the symbol on record. A server that
  wants spots before trendbars then refuses the replay half-way
  (`Subscriptions.OrphanedTrendbarBlocksReplay`); it accepts the whole replay
  exactly if each trendbar has its spots (`Subscriptions.ReplayIsAcceptedIff`).
- A trendbar that the user unsubscribes while a replay has it on its list is
  subscribed again (`Agreement.TakenBackDuringReplay`); otherwise what is on record
  is what was asked for (`Agreement.IntentStands`, `Agreement.NothingUnaskedFor`).
- The size limit of a frame is checked by the reader only
  (`Framing.LimitIsOneSided`), and a write cancelled part-way through a frame can
  make the peer read a message nobody sent (`Wire.CutWriteCorrupts`). Frames stay
  whole exactly if neither happens (`Wire.FramesStayWholeIff`).
- The heartbeat is gone after the first loss it reports itself. Its loop returns,
  `serve` ends with it, and the `restart` of the reconnection finds no task group
  and spawns nothing: a link that falls silent after that is never reported
  (`Heartbeat.UnwatchedAfterOwnReport`, `Heartbeat.EndedForGood`). Silence is
  reported exactly if the last restart found the monitor being served
  (`Heartbeat.SilenceIsReportedIff`).
- A restart of the heartbeat before the last one's loop has run leaves two loops
  alive (`Heartbeat.HurriedRestartLeavesTwo`); otherwise there is at most one
  (`Heartbeat.OneLoopIff`). The supervisor never restarts that fast: it takes a
  caller from outside.

## Model

| member | source | states |
|---|---|---|
| `LinkTheorems.NoReportIsLost` | src/ctrader_api_client/connection/protocol.py:464-557 | every drop report accepted while running is followed by a pass that begins after it and connects, unless the reconnection in flight is still bound to begin one (redo flag, or task before its loop top); for every run until cancellation is requested in which no detector died on its way in |
| `LinkTheorems.ReportsAreServedIff` | src/ctrader_api_client/connection/protocol.py:464-557 | in a running protocol with no cancellation requested, a report accepted in this serve is served or bound to be exactly if no detector has died before it could spawn the task |
| `LinkTheorems.DeadDetectorStrands` | src/ctrader_api_client/connection/protocol.py:466-479 | the exact other half: after a detector died before spawning the task the flag is up for good, and no pass, connection or notice follows in any continuation |
| `LinkTheorems.ServedAgainAfterDeadDetector` | src/ctrader_api_client/connection/protocol.py:151-177 | a concrete run reaches that state: cancelled while reporting, served again, next drop accepted and never served |
| `LinkTheorems.ServeReturnsUnderDetector` | src/ctrader_api_client/connection/protocol.py:154-164 | a concrete run without any cancellation reaches it too: the reader reports and exits while the heartbeat is still telling a listener, serve returns, and the detector has no task group to spawn on |
| `LinkTheorems.SingleReconnection` | src/ctrader_api_client/connection/protocol.py:466-479 | at most one task is inside the reconnection code, and the flag is up exactly while one is; after a dead detector it is up with none |
| `LinkTheorems.ReportIsAcceptedIff` | src/ctrader_api_client/connection/protocol.py:464-477 | in every run, a report made while the protocol is running is accepted, and asks the reconnection under way to go round again; one made later changes nothing |
| `LinkTheorems.NoticesAlternate` | src/ctrader_api_client/connection/supervisor.py:98-124 | from each serve until cancellation, every listener is told lost, restored, lost, ... strictly in turn, through redo passes and raising listeners |
| `LinkTheorems.AbandonsExactly` | src/ctrader_api_client/connection/protocol.py:546-586 | with a budget n > 0 the client gives up exactly on the nth failed connect of one pass, with the expected error, and raises; with no limit never |
| `LinkTheorems.NeverLingers` | src/ctrader_api_client/connection/protocol.py:612-627 | no state exists in which the budget is used up and the client has not given up |
| `LinkTheorems.DisabledNeverConnects` | src/ctrader_api_client/connection/protocol.py:583-608 | a budget of 0 never attempts a connection and never raises the abandon error |
| `LinkTheorems.ReconnectingComesToAnEnd` | src/ctrader_api_client/connection/protocol.py:514-557 | failed connects aside, the reconnection code takes at most 2n + 5 steps per report for n listeners: it cannot go round on its own |
| `LinkTheorems.AlwaysAWayOn` | src/ctrader_api_client/connection/protocol.py:514-557 | a task inside the reconnection code always has an enabled step of its own |
| `ProtocolObject.Transport.Connect` | src/ctrader_api_client/connection/transport.py:78-101 | returns at once if connected; otherwise ends connected or raises the one expected error, and is connected exactly if it returned |
| `ProtocolObject.Transport.Close` | src/ctrader_api_client/connection/transport.py:114-116 | the stream is cleared before its teardown is awaited, and there is a teardown exactly if there was a stream |
| `ProtocolObject.Protocol.HandleDisconnect` | src/ctrader_api_client/connection/protocol.py:464-477 | takes exactly the report step: ignored when stopped, recorded as a redo when one is in flight, otherwise the only way into a reconnection; requests untouched |
| `ProtocolObject.Protocol.CallListener` | src/ctrader_api_client/connection/protocol.py:481-493 | the next listener is told and failures of the previous one are swallowed |
| `ProtocolObject.Protocol.SpawnReconnection` | src/ctrader_api_client/connection/protocol.py:479 | the detector hands over to the task it spawns, or dies if the task group is gone |
| `ProtocolObject.Protocol.BeginPass` | src/ctrader_api_client/connection/protocol.py:515-532 | the top of the loop: the redo flag lowered, the reader that has begun cancelled and its scope cleared, the transport dropped |
| `ProtocolObject.Protocol.TransportClosed` | src/ctrader_api_client/connection/protocol.py:529-534 | however the teardown of the old transport ends, the pass goes on to connect; only a budget of 0 gives up there |
| `ProtocolObject.Protocol.ConnectAttempted` | src/ctrader_api_client/connection/protocol.py:612-641 | a connect that returns adds one new reader to those alive and moves on to the fan-out; one that fails retries or gives up |
| `ProtocolObject.Protocol.AttemptFailed` | src/ctrader_api_client/connection/protocol.py:546-557 | a failed connect retries within the budget or gives up and wakes every pending request in the same step |
| `ProtocolObject.Protocol.FanOutDone` | src/ctrader_api_client/connection/protocol.py:537-557 | after the fan-out: done, or report the second loss and go round again |
| `ProtocolObject.Protocol.ServeExits` | src/ctrader_api_client/connection/protocol.py:160-164 | leaving serve stops the protocol, drops the task group and the reader scope, and fails every pending request, in one step |
| `Readers.OneReaderIff` | src/ctrader_api_client/connection/protocol.py:518-522 | in every run two readers are never alive at once exactly as long as no reader that a pass could not cancel is left when that pass connects |
| `Readers.BegunReadersAreAlone` | src/ctrader_api_client/connection/protocol.py:629-631 | a reader that always begins before the next pass is always the only one |
| `Readers.LiveLinkIsRead` | src/ctrader_api_client/connection/protocol.py:629-631 | in every run, each time the link goes live exactly one reader is added, never alive before, and it stays alive until it ends or the next pass begins |
| `Readers.PassCancelsTheLastBegun` | src/ctrader_api_client/connection/protocol.py:520-522 | a pass cancels the reader that was last to begin, and no other |
| `CallTheorems.AnswersAreCorrelated` | src/ctrader_api_client/connection/protocol.py:198-232 | a call returns (or raises) only a message bearing its own id, that arrived after the call registered and was the last to arrive for it |
| `CallTheorems.AnsweredOnce` | src/ctrader_api_client/connection/protocol.py:198-232 | no message answers two calls and no call ends twice |
| `CallTheorems.EachMessageGoesToOnePlace` | src/ctrader_api_client/connection/protocol.py:393-402 | a message goes into a slot exactly if the call it names is in flight, and to the event handlers otherwise |
| `CallTheorems.BlankIdsGoToHandlers` | src/ctrader_api_client/connection/protocol.py:396 | a message with no id is never taken for a reply |
| `CallTheorems.IdsAreNumbered` | src/ctrader_api_client/_internal/messages.py:231-235 | the nth call of a run, and no other, carries the decimal form of n |
| `MessageIds.DecimalInjective` | src/ctrader_api_client/_internal/messages.py:235 | decimal strings of different counters differ |
| `MessageIds.ClientMessageIdGenerator.NextId` | src/ctrader_api_client/_internal/messages.py:231-235 | the counter goes up by one and its decimal form is the id |
| `CallTheorems.NoCallerIsStranded` | src/ctrader_api_client/connection/protocol.py:211-232 | once the pending requests have been failed, each slot is set and its waiter, when it resumes, is told the connection closed, even with a reply stored; no new call gets in |
| `CallTheorems.ReplyAfterFailureIff` | src/ctrader_api_client/connection/protocol.py:160-164 | in every run, serves again included: a call registered before a failure whose event is set when it resumes after it ends in a reply exactly if, since that failure, the protocol was served again and is not down, and a reply arrived that no later failure overwrote |
| `CallTheorems.NoStoredReplySurvives` | src/ctrader_api_client/connection/protocol.py:211-232 | whatever a call registered before a failure returns after it arrived after it; a reply stored before its waiter resumed is never returned |
| `CallTheorems.WakeEndsWith` | src/ctrader_api_client/connection/protocol.py:211-227 | for every run and every call that wakes: it ends with the reply last delivered to it, raised if it is an error response and returned otherwise, if the protocol is not down and no failure overwrote that reply; in every other case because the connection closed |
| `CallTheorems.EndingsAreCaused` | src/ctrader_api_client/connection/protocol.py:205-232 | a call times out, fails to send or is cancelled exactly by the step of that name, and every ending removes its slot |
| `CallTheorems.ResumesWithReplyIff` | src/ctrader_api_client/connection/protocol.py:211-232 | read off the log: a call that ended from its event ended in a reply exactly if the protocol was not down and one was delivered that no failure overwrote |
| `CallTheorems.ReplyAcrossServes` | src/ctrader_api_client/connection/protocol.py:151-164 | the failing case as a run: the protocol is served again and a reply arrives before the waiter that the failure woke resumes |
| `CallTheorems.NoReplyAfterFailure` | src/ctrader_api_client/connection/protocol.py:579-592 | between a failure and the next serve no call, whenever registered, ends in a reply |
| `ProtocolObject.Protocol.SendRequest` | src/ctrader_api_client/connection/protocol.py:195-203 | registers a fresh slot under a fresh id, or refuses when not running, as the call machine says |
| `ProtocolObject.Protocol.DispatchMessage` | src/ctrader_api_client/connection/protocol.py:393-402 | resolves exactly the slot the message names, or leaves every slot alone |
| `ProtocolObject.Protocol.FailPending` | src/ctrader_api_client/connection/protocol.py:588-592 | every pending slot is set and holds the connection error; the loop over the table changes no other |
| `Reader.ReaderLoop` | src/ctrader_api_client/connection/protocol.py:322-380 | stops at the first turn that ends it and reports the link lost exactly if that turn is a framing error, a dead stream or the tenth faulty read in a row, and the protocol is still running; a closed transport is no report |
| `Reader.DispatchedIff` | src/ctrader_api_client/connection/protocol.py:328-333 | a message is dispatched exactly if its own read succeeded, whatever goes wrong around it |
| `Reader.EndsMeans` | src/ctrader_api_client/connection/protocol.py:326-380 | the reader ends, and has lost the link, at exactly the turns the except clauses name, the tenth faulty read in a row among them |
| `Reader.PausedIff` | src/ctrader_api_client/connection/protocol.py:376-380 | a pause follows exactly each faulty read that does not end the reader |
| `Reader.DispatchedInOrder` | src/ctrader_api_client/connection/protocol.py:328-333 | dispatches and pauses come in the order of the reads, one each |
| `Heartbeat.SilenceIsMeasured` | src/ctrader_api_client/connection/heartbeat.py:122-134 | a link is reported silent only after a silence in (T, T + I], with no message inside it, and only if T > 0 |
| `Heartbeat.HeardIsNeverReported` | src/ctrader_api_client/connection/heartbeat.py:126-134 | a link whose uncorrelated messages are at most T apart is never reported silent, in any run |
| `Heartbeat.TimerRunsFromLastHeard` | src/ctrader_api_client/connection/heartbeat.py:105-112 | in every run, the inactivity timer runs from the last message heard, or the start or last restart |
| `Heartbeat.StepsEveryInterval` | src/ctrader_api_client/connection/heartbeat.py:122-146 | a loop takes each step one interval after the one before, and goes on unless it finds the link silent for longer than the timeout or cannot send |
| `Heartbeat.SilenceIsReportedIff` | src/ctrader_api_client/connection/heartbeat.py:71-108 | in every run, once the link has been silent for more than T + I a report has been made since the last restart exactly if that restart found the monitor still being served; and then no later than that |
| `Heartbeat.EndedForGood` | src/ctrader_api_client/connection/heartbeat.py:75-108 | a monitor that has ended has no loop and makes no report ever after, whatever restarts it |
| `Heartbeat.UnwatchedAfterOwnReport` | src/ctrader_api_client/connection/heartbeat.py:122-146 | for every interval and timeout: the one loop reports and returns, the monitor ends, the restart spawns nothing, and the link may then be silent for any length of time unreported |
| `Heartbeat.OneLoopIff` | src/ctrader_api_client/connection/heartbeat.py:97-107 | there is never more than one loop exactly as long as each restart finds the loop of the one before begun |
| `Heartbeat.HurriedRestartLeavesTwo` | src/ctrader_api_client/connection/heartbeat.py:102-107 | a caller that restarts before the first loop has run is left with two, of which one can be cancelled |
| `Heartbeat.HeartbeatManager.Restart` | src/ctrader_api_client/connection/heartbeat.py:102-107 | takes the restart step: the visible loop is cancelled, the timer reset, and a loop spawned only if the monitor has a task group |
| `Heartbeat.HeartbeatManager.ServeExits` | src/ctrader_api_client/connection/heartbeat.py:75-80 | with no loop left the task group, the scope and the handlers go |
| `Heartbeat.HeartbeatManager.Wake` | src/ctrader_api_client/connection/heartbeat.py:123-146 | takes the wake step, and reports exactly if the loop ends |
| `Framing.FrameRoundTrip` | src/ctrader_api_client/_internal/serialization.py:28-84 | bytes parse as a payload with a rest exactly if they are the frame of a readable payload followed by that rest |
| `Framing.FailsExactly` | src/ctrader_api_client/_internal/serialization.py:49-84 | reading fails exactly on a frame cut short or a length above the limit, each with its own error |
| `Framing.LimitIsOneSided` | src/ctrader_api_client/_internal/serialization.py:28-30 | a payload above the limit is framed and sent, and refused by the reader |
| `Framing.StreamRoundTrip` | src/ctrader_api_client/_internal/serialization.py:60-84 | the payloads read off a stream are exactly those whose frames it starts with, in order, down to bytes that begin no frame |
| `Framing.ReadExact` | src/ctrader_api_client/_internal/serialization.py:46-57 | whatever the chunking, takes exactly the bytes asked for and leaves the rest, or reports how many came; ends because the bytes remaining shrink |
| `Framing.ReadFramedMessage` | src/ctrader_api_client/_internal/serialization.py:75-84 | what is read and what is left is the parse of the bytes, independent of the chunks |
| `Framing.ReadStream` | src/ctrader_api_client/connection/protocol.py:325-336 | reading messages until reading fails yields exactly what the bytes parse as, and ends as the parse does |
| `Framing.AnyChunkingReadsBack` | src/ctrader_api_client/_internal/serialization.py:60-84 | the frames of readable payloads, received in any chunks, are read by that loop as those payloads and no others |
| `Wire.FramesStayWholeIff` | src/ctrader_api_client/connection/protocol.py:206-209 | on one connection, under every interleaving of senders, whenever the lock is free the wire parses as exactly the payloads taken, in lock order, if and only if no sender was cut short mid-frame and no payload was above the limit |
| `Wire.FramesStayWhole` | src/ctrader_api_client/connection/protocol.py:278-282 | and while a frame is being written, as the payloads before it |
| `Wire.CutWriteCorrupts` | src/ctrader_api_client/connection/protocol.py:280-282 | the worst case of the failing half, as a run: a sender cut short after the prefix makes the next frame read as its payload |
| `Sessions.StoreRefinesSets` | src/ctrader_api_client/auth/_session.py:160-210 | the store is three disjoint sets covering the held accounts, each operation moves accounts as stated on the sets, and rescheduling moves none |
| `Sessions.ApplyWellFormed` | src/ctrader_api_client/auth/_session.py:160-210 | every operation keeps keys unique and equal to the account id of their credentials |
| `Sessions.ListedOldestFirst` | src/ctrader_api_client/auth/_session.py:131-158 | under every operation sequence accounts are listed by when they were first inserted since they were last absent |
| `SessionStoreObject.SessionStore.FlagForRecovery` | src/ctrader_api_client/auth/_session.py:193-198 | newly flags a held account not yet awaiting, and says whether it did |
| `SessionStoreObject.SessionStore.RescheduleRecovery` | src/ctrader_api_client/auth/_session.py:206-210 | a late reschedule never creates an awaiting session |
| `SessionStoreObject.SessionStore.InvalidateAll` | src/ctrader_api_client/auth/_session.py:182-184 | every session goes, every credential and the order stay |
| `Windows.WaitersAreReleased` | src/ctrader_api_client/auth/_session.py:110-129 | a waiter can resume exactly when the window it found open has closed, and closing one releases all its waiters |
| `Windows.WaitsForTheWindow` | src/ctrader_api_client/auth/_session.py:110-129 | on the events of any run: a task waits exactly if a window was open when it came to, and can resume exactly if a window on that account has ended since |
| `RecoveryProofs.NoLostWakeUp` | src/ctrader_api_client/auth/_recovery.py:346-378 | in every run a blocked loop has its event set, or wakes no later than everything it has to attend to, or has nothing to attend to; timed waits are strictly positive |
| `RecoveryProofs.DueMeansAwake` | src/ctrader_api_client/auth/_recovery.py:346-378 | whenever the loop is blocked and an account or the application is due, the loop can run |
| `BusyLoop.NoBusyLoop` | src/ctrader_api_client/auth/_recovery.py:346-409 | with positive waits the steps the loop can take before the clock or another task moves are bounded, from every reachable state |
| `BusyLoop.MovesUnlessBlocked` | src/ctrader_api_client/auth/_recovery.py:346-409 | the loop is blocked, ended, or has a step to take |
| `BusyLoop.BusyLoopWithoutWait` | src/ctrader_api_client/auth/_recovery.py:251-264 | with a wait that is not positive one failing account keeps the loop turning for any number of steps, the clock standing still |
| `Waits.BackoffIsBounded` | src/ctrader_api_client/auth/_recovery.py:251-286 | in every reachable state an awaiting account is (0, 0) or has attempts and a time at most max_wait away; the application likewise |
| `Waits.WaitsDouble` | src/ctrader_api_client/auth/_recovery.py:251-264 | in every run, an account whose count is n > 0 is next tried at its last failure plus min_wait doubled n - 1 times, capped at max_wait; one that has not failed at once |
| `Waits.CountIsOfFailuresIff` | src/ctrader_api_client/auth/_recovery.py:255-264 | all along a run, that count is the number of failures since the account was last flagged, exactly as long as no attempt fails that was taken up under another count before the flag |
| `Waits.OldFailureCountsOn` | src/ctrader_api_client/auth/_recovery.py:380-409 | a concrete run in which one does: the account is flagged anew during an attempt, whose failure then counts for two |
| `Waits.AppWaitsDouble` | src/ctrader_api_client/auth/_recovery.py:283-309 | in every run, a pending application has failed n > 0 times since its recovery was armed and is next tried at its last failure plus min_wait doubled n - 1 times, capped |
| `RecoveryTheorems.TurnServes` | src/ctrader_api_client/auth/_recovery.py:346-378 | in every run a turn waits for the application exactly until its time or tries it, and otherwise tries exactly the accounts that are due, oldest first, waits exactly until the earliest, or waits to be flagged |
| `RecoveryTheorems.AuthorizedExactlyWhen` | src/ctrader_api_client/auth/_recovery.py:380-409 | an account comes to be authorized exactly on an accepted answer, on already logged in to the recovery loop, or by another task |
| `RecoveryTheorems.AnnouncedAsAnswered` | src/ctrader_api_client/auth/_recovery.py:401-402 | in every run the loop announces an account as ready, its subscriptions replayed, exactly when the server accepted it and its settling went well, and without a replay exactly when it was logged in already |
| `RecoveryTheorems.LostLinkClearsAll` | src/ctrader_api_client/auth/_recovery.py:197-198 | a lost link leaves every account held, none with a session, and no application pending |
| `RecoveryTheorems.FailedAppFlagsAll` | src/ctrader_api_client/auth/_recovery.py:218-228 | a reconnection that fails to get the application back leaves every account awaiting recovery, the application pending after one failure, and the loop woken |
| `RecoveryTheorems.ShutdownClearsAll` | src/ctrader_api_client/auth/_recovery.py:93-97 | leaving serve clears every session and ends the loop for good |
| `Backoff.DelayGrowsToCap` | src/ctrader_api_client/auth/_recovery.py:251-253 | delays never shrink and never exceed max_wait |
| `Backoff.DelayReachesCap` | src/ctrader_api_client/auth/_recovery.py:251-253 | with a positive min_wait the delay is max_wait from an explicit attempt on |
| `Backoff.DelayPositive` | src/ctrader_api_client/auth/_recovery.py:251-253 | a delay is positive exactly if both bounds are |
| `CheckProofs.ProbesAreOfAuthorized` | src/ctrader_api_client/auth/_recovery.py:142-152 | no probe is sent for an account not held as authorized |
| `CheckProofs.AnnouncedIffRefused` | src/ctrader_api_client/auth/_recovery.py:151-184 | in every run a disconnect is announced exactly when a probe of that account has just been refused with an error that is not about the token |
| `CheckProofs.ChecksAreSilentUnlessAnnounced` | src/ctrader_api_client/auth/_recovery.py:142-170 | any number of checks leaves sessions, events and the loop alone for as long as nothing is announced, and sets the event once something is |
| `CheckProofs.DisconnectsAreSound` | src/ctrader_api_client/auth/_recovery.py:142-184 | each announced disconnect follows a probe of that account refused with a non-token API error, begun while the account was authorized, with nothing else about it in between |
| `CheckProofs.OneCheckAtATime` | src/ctrader_api_client/auth/_recovery.py:146-170 | at most one check per account, and one exactly while it is marked as verifying |
| `CheckProofs.CheckIsOverWhen` | src/ctrader_api_client/auth/_recovery.py:151-170 | in every run, a check is over and its account unmarked exactly when its probe ends unrefused, its announcement is out, or it is cancelled |
| `RestoreProofs.SnapshotIsEveryAccount` | src/ctrader_api_client/auth/_recovery.py:233 | the snapshot is every account held, oldest first |
| `RestoreProofs.ReportsPartitionTheSnapshot` | src/ctrader_api_client/auth/_recovery.py:230-249 | restored and failed accounts partition the snapshot, each in its order, in every run |
| `RestoreProofs.ReportSaysWhatHappened` | src/ctrader_api_client/auth/_recovery.py:233-249 | on the events of any run: an account is reported as restored exactly if the server accepted it since the link came back and its settling went well, and as failed exactly otherwise |
| `SessionRecoveryObject.SessionRecovery.Turn` | src/ctrader_api_client/auth/_recovery.py:346-378 | one turn of the loop takes exactly the step of the recovery machine |
| `SessionRecoveryObject.SessionRecovery.EstablishAnswered` | src/ctrader_api_client/auth/_recovery.py:380-409 | each reply to an attempt takes the step of the recovery machine: authorized and settling, authorized and announced, or put off |
| `SessionRecoveryObject.SessionRecovery.ProbeAnswered` | src/ctrader_api_client/auth/_recovery.py:151-170 | only a refusal flags the account, wakes the loop and announces |
| `SessionRecoveryObject.SessionRecovery.ArmAppAuthRecovery` | src/ctrader_api_client/auth/_recovery.py:266-281 | every held account is flagged, the application deferred, the loop woken |
| `SessionRecoveryObject.SoonestOf` | src/ctrader_api_client/auth/_recovery.py:376 | the least next attempt of the queue |
| `SessionRecoveryObject.SelectDue` | src/ctrader_api_client/auth/_recovery.py:369-373 | exactly the accounts due, in order |
| `Refresh.RotationIsOneShot` | src/ctrader_api_client/auth/_refresh.py:148-207 | between 1 and the allowed number of requests, all with the token held at the start, none after a pair; stored before saved, saved before presented; the window is opened first and left last |
| `Refresh.RotationRunsItsCourse` | src/ctrader_api_client/auth/_refresh.py:151-200 | asks exactly as long as the answer is an error worth asking again after and the policy allows; stores, saves and presents exactly when it should; fails unless the pair was accepted |
| `Refresh.StoreHoldsTheLivePairIff` | src/ctrader_api_client/auth/_refresh.py:180-205 | for every script and whatever other tasks write at each await: the store holds the new pair at the end exactly if it was accepted or the last of those writes after its arrival, if any, left it there |
| `Refresh.NoPairChangesNothing` | src/ctrader_api_client/auth/_refresh.py:172-207 | without a new pair the refresh has failed and the store is exactly as other tasks have left it |
| `Refresh.CheckAsksIff` | src/ctrader_api_client/auth/_refresh.py:112-128 | a check opens a window and sends a request for exactly the accounts that were expiring, as they were when it began, and are still held when their turn comes |
| `Refresh.FailedSaveIsRetriedIff` | src/ctrader_api_client/auth/_refresh.py:180-191 | a refresh that gets a pair and fails to save it has failed and been announced, and a later check sends another request exactly if the new expiry is within the buffer by then |
| `Refresh.FailedSaveIsNotRetried` | src/ctrader_api_client/auth/_refresh.py:183-191 | a concrete one-hour pair: the next check does nothing at all |
| `StalePairs.PairIsSafeIff` | src/ctrader_api_client/auth/_recovery.py:363-409 | from every reachable state: a pair just stored survives every run of the recovery exactly if no queue and no reconnect snapshot under way carries other credentials for the account |
| `StalePairs.PairIsKeptIff` | src/ctrader_api_client/auth/_recovery.py:233-237 | within any one run: it is held throughout exactly if the server never accepts, nor finds authorized already, such other credentials |
| `StalePairs.DeadPairReturns` | src/ctrader_api_client/auth/_recovery.py:380-402 | a concrete run: a recovery answered after a rotation writes the invalidated pair back, marked authorized |
| `Refresh.CheckKeepsOneWindow` | src/ctrader_api_client/auth/_refresh.py:112-128 | a check never has two windows open and leaves none |
| `Refresh.TokenRefresher.TryRefresh` | src/ctrader_api_client/auth/_refresh.py:151-205 | the retry loop does exactly the attempts and leaves exactly the store specified, with other tasks writing to the store at every await |
| `Refresh.TokenRefresher.RefreshAccount` | src/ctrader_api_client/auth/_refresh.py:139-210 | one account: the specified trace and store, the window left on every path |
| `Refresh.TokenRefresher.CheckAll` | src/ctrader_api_client/auth/_refresh.py:112-128 | each account held at the start is looked at with its credentials as they then were, refreshed if expiring, its failure announced |
| `Manager.AuthManager.Establish` | src/ctrader_api_client/auth/manager.py:217-241 | each outcome exactly on its reply, already logged in told apart from other refusals; marks authorized only on acceptance, then replays, then announces as ready; a token refresh does neither; failures leave the store alone |
| `Manager.AuthManager.ProbeSession` | src/ctrader_api_client/auth/manager.py:264-278 | dead exactly on a refusal that is not about the token; the same reading of a reply that the checks of reported disconnects go by |
| `Manager.AuthManager.RemoveAccount` | src/ctrader_api_client/auth/manager.py:280-298 | a removed account takes its standing subscriptions along, so nothing is replayed for it |
| `Agreement.RecordAgreesWithServer` | src/ctrader_api_client/api/market_data.py:133-163 | in every run of calls, lost sessions, renewals and replays the server holds no more than the record, and a live session whose replays are over holds all of it unless one of them failed |
| `Agreement.NextReplayRestores` | src/ctrader_api_client/api/market_data.py:141-142 | from every reachable state the next session whose replay is accepted throughout ends up holding exactly the record, which has not changed |
| `Subscriptions.RequestsChange` | src/ctrader_api_client/api/market_data.py:201-373 | each of the six accepted requests adds what it names or takes it away, and touches nothing else |
| `Agreement.CallTakesEffect` | src/ctrader_api_client/api/market_data.py:196-231 | an accepted call takes effect on the record and at the server, a refused one on neither |
| `Agreement.IntentStands` | src/ctrader_api_client/api/market_data.py:141-142 | in every run what the user has asked for stays on record until an accepted call takes it back, through lost sessions, renewals and failed replays |
| `Agreement.NothingUnaskedFor` | src/ctrader_api_client/api/market_data.py:147-160 | in every run nothing comes on record that no accepted call asked for, unless a replay was already carrying it |
| `Agreement.TakenBackDuringReplay` | src/ctrader_api_client/api/market_data.py:156-157 | the failing case: a trendbar unsubscribed while a replay has it listed is subscribed again |
| `Subscriptions.EachItemOnceInOrder` | src/ctrader_api_client/api/market_data.py:151-160 | a replay asks for every standing item and for none twice: all spots in one request first, each trendbar once, all depth in one request last |
| `Subscriptions.ReplayIsAcceptedIff` | src/ctrader_api_client/api/market_data.py:155-157 | a server that rejects duplicates and spot-less trendbars accepts a replay exactly if each trendbar has its spots, and is then as recorded |
| `Subscriptions.OrphanedTrendbarBlocksReplay` | src/ctrader_api_client/api/market_data.py:231 | an unsubscription of spots can make the next replay fail before depth |
| `MarketData.MarketDataAPI.Restore` | src/ctrader_api_client/api/market_data.py:147-163 | sends the replay up to and including the first refusal, reports that refusal and only that, and leaves the record of every account as it was |
| `MarketData.MarketDataAPI.RestoreTrendbars` | src/ctrader_api_client/api/market_data.py:156-157 | the loop over the sorted trendbars |
| `MarketData.MarketDataAPI.SubscribeSpots` | src/ctrader_api_client/api/market_data.py:196-201 | the record gains the symbols if and only if the request is accepted |
| `MarketData.MarketDataAPI.UnsubscribeSpots` | src/ctrader_api_client/api/market_data.py:226-231 | the record loses the symbols if and only if the request is accepted |
| `MarketData.MarketDataAPI.SubscribeTrendbars` | src/ctrader_api_client/api/market_data.py:268-273 | likewise for one trendbar |
| `MarketData.MarketDataAPI.UnsubscribeTrendbars` | src/ctrader_api_client/api/market_data.py:301-306 | likewise for one trendbar |
| `MarketData.MarketDataAPI.SubscribeDepth` | src/ctrader_api_client/api/market_data.py:338-343 | likewise for depth |
| `MarketData.MarketDataAPI.UnsubscribeDepth` | src/ctrader_api_client/api/market_data.py:368-373 | likewise for depth |
| `MarketData.MarketDataAPI.Forget` | src/ctrader_api_client/api/market_data.py:131 | afterwards a replay for the account is empty |

## Left out

- Sockets, TLS, protobuf encoding, the wall clock, logging, and the internals of the task and retry libraries: each is an outcome the environment chooses. A retry loop is its attempts; the waits between them are not timed.
- The readers have a machine of their own, and are not part of the reconnection machine, where any task may report at any time and `serve` may return whenever no reconnection task is left: more runs than there are, so what is proved of all of them holds. Which listeners there are is fixed for a run.
- The heartbeat's restart inside the supervisor's fan-out is taken not to raise, as it has nothing in it that could.
- Fairness: runs are arbitrary, so liveness is stated as what is enabled and how much work is left, not as what must eventually be scheduled.
- LinkTheorems.NoReportIsLost: requires that no detector died while reporting; `LinkTheorems.ReportsAreServedIff` shows that this is exactly when it holds.
- LinkTheorems.NoticesAlternate: speaks of the stretch from a serve to the next request for cancellation; a cancelled fan-out leaves its listeners half told.
- Serving a protocol again while a detector of the serve before is still reporting: the code allows it, and the detector would then spawn its reconnection on the new task group; runs of the reconnection machine serve again only when no task is inside the reconnection code.
- Wire.FramesStayWholeIff: is about one connection; a sender cut short on one does not cut the next, which has a stream of its own. Senders are modelled on values: a lock, a holder and the bytes it has left. While a frame is being written only the sound half is stated (`Wire.FramesStayWhole`), because a second sender's bytes may complete a frame that was cut.
- Agreement.RecordAgreesWithServer: takes a request and its answer as one step, so a request accepted whose answer is lost to a timeout is not covered; nor are removal of an account while its replay runs and a session found authorized already, whose subscriptions the code itself says were not re-applied. A session is taken to begin empty.
- MarketData.MarketDataAPI.Restore: runs undisturbed; what other calls do between its requests is covered by the agreement theorem, on values. The record holds a set of values for each account where the client shares one mutable object.
- Refresh.RotationIsOneShot: assumes that saving does not itself raise an API error, which the retry loop would take for a failed request.
- Refresh.FailedSaveIsRetriedIff: is about a pair that no other task replaces while it is being saved, and an account that is still held when the check reaches it; `Refresh.StoreHoldsTheLivePairIff` and `Refresh.CheckAsksIff` have no such condition.
- Heartbeat.SilenceIsReportedIff: sleeps are exact and sends take no time, and the clock moves only when no loop is waiting for its first step. The monitor is served once in a run.
- Backoff.DelayReachesCap: arithmetic is exact; the floating-point overflow after about a thousand failures is not modelled.
- Manager.AuthManager.Establish: one call without interruption; its awaits are separate steps in the recovery machine and the refresher.
- The settling of a recovered account (replay and announcement) is one step of the recovery machine; publishing an event is taken not to fail. Sessions are recovered for one serve of the monitor.
- SessionRecoveryObject.SessionRecovery.CheckDisconnect: begins after the wait for a refresh to settle, which is `Windows.WaitersAreReleased`.
- The class of a response (`Protocol.request`), event routing, message registries, model conversions, the other API namespaces, configuration and wiring: field copying, or finite tables.
