# Ably realtime channel and connection, modelled in Dafny

This project models two parts of the Ably Python realtime client.

- The **realtime channel** (`RealtimeChannel`). This is its attach/detach state machine over INITIALIZED, ATTACHING, ATTACHED, DETACHING, DETACHED, SUSPENDED and FAILED. It covers:
  - `_notify_state`, the one place a state changes;
  - the pending-state timer with its 408 / 90007 timeouts;
  - `_check_pending_state`, which sends ATTACH or DETACH only on a CONNECTED connection;
  - the `attach()` and `detach()` guards and awaits;
  - the ATTACH and DETACH frames;
  - inbound ATTACHED, DETACHED and MESSAGE frames;
  - the `subscribe` / `unsubscribe` argument dispatch;
  - the flag bits with `has_flag`.
- The **realtime connection** (`RealtimeConnection`). This is its lifecycle:
  - `connect()`, which creates a single "connected" future and has every concurrent caller join it;
  - the read loop, where a CONNECTED frame (action 4) resolves that future, and an ERROR frame (action 9) whose `nonfatal` is exactly `false` fails it;
  - `close()`, which always ends CLOSED.

Each core has two parts:
- a **specification module** (`ChannelSpec`, `ConnectionSpec`). It defines the whole object state as a datatype, one pure step function per operation, and the invariant every reachable state keeps.
- a **class** (`Channel.RealtimeChannel`, `Connection.RealtimeConnection`). Its fields are the object's fields, and its methods update them in place. Every method ensures that the new state is the matching step of the specification applied to the old state.

The properties are lemmas about the step functions. `ChannelProperties` holds the channel ones; `ConnectionSpec` and `Flags` hold their own. Some lemmas are about one step, and some are proved by induction over whole runs of inputs.

Async calls are cut at their awaits:
- `attach()` either finishes or returns `AwaitChange(mark)`. `mark` is the index, in the internal state emitter's log, of the record that will wake it. `AwaitAttach` finishes the call from that record.
- `detach()` can also return `AwaitConnect`, for the case where it first awaits the connection's `connect()`. `DetachAfterConnect` continues from there.
- `connect()` returns `AwaitFuture(id, owner)`, and `ResumeConnect` finishes it once future `id` has settled.

The channel reads the connection's state as an input value. The connection itself declares only INITIALIZED, CONNECTING, CONNECTED, CLOSING and CLOSED. The channel also tests DISCONNECTED and FAILED, so the shared enumeration carries those too. `ConnectionSpec.Inv` keeps the connection within the five states it declares.

Run-level results proved here:
- **Channel.** In every channel reached from a fresh one by the modelled inputs, the resume flag is set exactly while ATTACHED. That flag is cleared when leaving ATTACHED: every modelled step leaves ATTACHED only for DETACHING or FAILED. So no ATTACH frame sent in such a run carries `ATTACH_RESUME` (`ChannelProperties.ReachableInv`). The modelled inputs are attach, detach, subscribe, unsubscribe, inbound frames, timer expiry and the pending check. They do not include the public `state` setter, or calls of `_notify_state` from outside the channel. The setter does escape the result: setting an ATTACHED channel to ATTACHING, then running the pending check, sends ATTACH with `ATTACH_RESUME` (`ChannelProperties.SetterThenCheckSendsAttachResume`).
- **Connection.** `close()` during a pending connect, followed by a new `connect()`, leaves the first caller's future unsettled for good (`ConnectionSpec.CloseThenConnectAbandonsFuture`).

## Model

| member | source | states |
|---|---|---|
| Errors.RaiseReason | ably/realtime/realtime_channel.py:129-130 | `raise state_change.reason` raises that Ably error when there is one, and something other than an Ably error (a TypeError) when the reason is missing |
| Flags.ValueIsPowerOfTwo | ably/realtime/realtime_channel.py:28-39 | every flag's value is 2 to the power of its bit position (0, 1, 2, 4, 5, 16, 17, 18, 19) |
| Flags.BitIndexInjective | ably/realtime/realtime_channel.py:28-39 | no two flags share a bit |
| Flags.BitAndPow2 | ably/realtime/realtime_channel.py:42-43 | masking a word with a single flag value isolates exactly that bit of the word |
| Flags.BitAnd | ably/realtime/realtime_channel.py:42-43 | Python's `&` on non-negative integers; the result never exceeds either operand |
| Flags.HasFlag | ably/realtime/realtime_channel.py:42-43 | `has_flag(flags, F)`, i.e. `(flags & F) > 0`, holds exactly when F's own bit is set in `flags` |
| Flags.SingleFlagWord | ably/realtime/realtime_channel.py:28-43 | a word holding one flag tests positive for that flag and for no other |
| Flags.NoFlagInZero | ably/realtime/realtime_channel.py:335-336 | an absent or zero flags word has no flag set |
| ChannelSpec.StartTimer | ably/realtime/realtime_channel.py:403-410 | afterwards a timer runs, and nothing else about the channel changes |
| ChannelSpec.ClearTimer | ably/realtime/realtime_channel.py:412-415 | afterwards no timer runs, and nothing else about the channel changes |
| ChannelSpec.Notify | ably/realtime/realtime_channel.py:362-384 | after `_notify_state(s)` the state is `s` and no timer is running; the name, the sent frames, the message deliveries and the listener registrations are untouched |
| ChannelSpec.RequestState | ably/realtime/realtime_channel.py:357-360 | `_request_state(s)` ends in state `s`; it adds one `(old, s)` record when `s` is new and none otherwise; it sends at most one frame, and exactly one when the connection is CONNECTED and `s` is ATTACHING or DETACHING |
| ChannelSpec.AttachFrame | ably/realtime/realtime_channel.py:132-146 | the ATTACH frame names the channel; it has flags exactly when the resume flag is set, and they are ATTACH_RESUME; it has the serial exactly when a non-empty one is stored |
| ChannelSpec.DetachFrame | ably/realtime/realtime_channel.py:198-207 | the DETACH frame names the channel and carries neither flags nor serial |
| ChannelSpec.CheckPending | ably/realtime/realtime_channel.py:389-401 | the pending check never changes the state, the resume flag, the serial or either emitter's records; it only arms the timer and sends |
| ChannelSpec.TimeoutPendingState | ably/realtime/realtime_channel.py:417-424 | an ATTACHING channel times out to SUSPENDED and a DETACHING one to ATTACHED, neither sending a frame; in any other state nothing changes |
| ChannelSpec.TimerFires | ably/realtime/realtime_channel.py:405-408 | after the timer's callback no timer runs and nothing was sent; the state changes exactly when a request was pending |
| ChannelSpec.AttachStep | ably/realtime/realtime_channel.py:94-127 | `attach()` returns at once exactly when the channel is ATTACHED or the connection state is not attachable, and then changes nothing; otherwise the channel is ATTACHING and the call waits for the next internal record; listeners and deliveries are untouched |
| ChannelSpec.AttachOutcome | ably/realtime/realtime_channel.py:127-130 | `attach()` raises exactly when the awaited change moved to SUSPENDED or FAILED, and then raises that change's reason |
| ChannelSpec.DetachStep | ably/realtime/realtime_channel.py:149-188 | a raising `detach()` changes nothing; a returning one changes nothing, except that SUSPENDED becomes DETACHED; otherwise the channel is DETACHING, and the call first awaits `connect()` exactly when the connection is CONNECTING, or else waits for the next internal record |
| ChannelSpec.DetachAfterConnect | ably/realtime/realtime_channel.py:184-188 | a failed `connect()` makes `detach()` raise that failure; a successful one makes it wait on the next internal state change |
| ChannelSpec.DetachOutcome | ably/realtime/realtime_channel.py:188-196 | `detach()` succeeds exactly when the awaited change reached DETACHED; it raises "superseded" (90000 / 409 as written) when the change reached ATTACHING, and otherwise raises the change's reason |
| ChannelSpec.ParseSubscribeArgs | ably/realtime/realtime_channel.py:239-250 | the arguments are accepted exactly when they are `(event string, truthy callable)` or `(callable, ...)`; accepted arguments yield that event (or none) and that listener; a rejected list raises IndexError exactly when it is empty or a lone string (the missing element is indexed), and ValueError otherwise, although the docstring promises ValueError for all |
| ChannelSpec.ParseUnsubscribeArgs | ably/realtime/realtime_channel.py:290-304 | as for subscribe, and additionally an empty argument list is accepted with neither event nor listener; a rejected list raises IndexError exactly when it is a lone string, and ValueError otherwise |
| ChannelSpec.SubscribeStep | ably/realtime/realtime_channel.py:210-262 | bad arguments raise their error and change nothing; good ones register exactly one `On(event, listener)` |
| ChannelSpec.OffCall | ably/realtime/realtime_channel.py:308-316 | no listener means removing all listeners; a listener with an event removes that pairing; a listener alone is removed from every event |
| ChannelSpec.UnsubscribeStep | ably/realtime/realtime_channel.py:265-316 | `unsubscribe` succeeds exactly when its arguments parse; only the listener registrations change, by exactly one appended call on success and none on error |
| ChannelSpec.ResumedFlag | ably/realtime/realtime_channel.py:327-336 | the `resumed` value of an ATTACHED frame is the RESUMED bit (bit 2) of its flags, and false when the flags are absent or zero |
| ChannelSpec.ErrorReason | ably/realtime/realtime_channel.py:328-333 | an exception exists exactly when the frame has an error, and it carries the error's message, status code and code |
| ChannelSpec.OnMessage | ably/realtime/realtime_channel.py:318-355 | an inbound frame never sends, never touches listener registrations, and only completes a pending request (ATTACHING to ATTACHED, DETACHING to DETACHED), if it changes the state at all; only MESSAGE frames deliver messages |
| ChannelSpec.Deliveries | ably/realtime/realtime_channel.py:352-355 | one delivery per message, in order, each under that message's own name |
| ChannelProperties.NotifySameStateOnlyClearsTimer | ably/realtime/realtime_channel.py:365-368 | notifying the current state only disarms the timer: no record, no change to serial or resume flag |
| ChannelProperties.NotifyEmitsOneChange | ably/realtime/realtime_channel.py:380-384 | a real transition emits exactly one `(previous, new, resumed, reason)` record to the public emitter (under the new state) and the same record to the internal emitter |
| ChannelProperties.NotifyResumeAndSerial | ably/realtime/realtime_channel.py:370-378 | on a transition the resume flag becomes true on ATTACHED and false on DETACHING or FAILED, and the serial is dropped on DETACHED, SUSPENDED or FAILED; in every other case each keeps its value |
| ChannelProperties.AttachFrameContents | ably/realtime/realtime_channel.py:132-146 | an ATTACH frame names the channel; it has flags exactly when the resume flag is set, and those flags hold ATTACH_RESUME and no other flag; it has a serial exactly when a non-empty one is stored, and then it is that serial |
| ChannelProperties.CheckPendingWaitsForConnection | ably/realtime/realtime_channel.py:389-394 | on a connection that is not CONNECTED the pending check changes nothing |
| ChannelProperties.CheckPendingSendsOneFrame | ably/realtime/realtime_channel.py:396-401 | on a CONNECTED connection, ATTACHING arms the timer and sends one ATTACH, DETACHING arms it and sends one DETACH, and any other state changes nothing |
| ChannelProperties.StartTimerIdempotent | ably/realtime/realtime_channel.py:403-410 | starting the timer leaves one armed; starting it again changes nothing |
| ChannelProperties.TimerExpiry | ably/realtime/realtime_channel.py:403-424 | on expiry ATTACHING becomes SUSPENDED and DETACHING becomes ATTACHED, each with a 408 / 90007 timeout reason and without sending; in any other state expiry only disarms the timer |
| ChannelProperties.AttachWhenAttachedIsNoOp | ably/realtime/realtime_channel.py:108-110 | `attach()` on an ATTACHED channel returns without changing anything |
| ChannelProperties.AttachRejectsConnectionState | ably/realtime/realtime_channel.py:112-122 | otherwise, unless the connection is CONNECTING, CONNECTED or DISCONNECTED, `attach()` raises 90001 / 400 and changes nothing |
| ChannelProperties.AttachJoinsPendingAttach | ably/realtime/realtime_channel.py:124-127 | `attach()` on an ATTACHING channel requests nothing and waits for the next state change |
| ChannelProperties.AttachRequestsAttaching | ably/realtime/realtime_channel.py:124-127 | from any other state on a CONNECTED connection, `attach()` moves to ATTACHING with one record, arms the timer, sends exactly one ATTACH and waits on the record after it |
| ChannelProperties.ConcurrentAttachesShareOneRequest | ably/realtime/realtime_channel.py:108-127 | two `attach()` calls in a row act as one: the second changes nothing and waits on the same record, and at most one ATTACH is sent |
| ChannelProperties.DetachOrder | ably/realtime/realtime_channel.py:164-188 | `detach()` takes its branches in order: a CLOSING or FAILED connection raises 90001 / 400; INITIALIZED and DETACHED return; SUSPENDED goes to DETACHED without a frame; FAILED raises with status 90001 and code 400, as written; anything else requests DETACHING and awaits `connect()` first when the connection is CONNECTING |
| ChannelProperties.DetachSendsOneDetach | ably/realtime/realtime_channel.py:198-207 | detaching an ATTACHED channel on a CONNECTED connection emits one record, arms the timer and sends exactly one DETACH, which carries no flags and no serial |
| ChannelProperties.InboundSerialOverwrites | ably/realtime/realtime_channel.py:321-324 | a non-empty inbound serial replaces the stored one |
| ChannelProperties.InboundWithoutSerialKeepsIt | ably/realtime/realtime_channel.py:321-324 | a missing or empty inbound serial leaves the stored one unless the frame causes a transition that drops it |
| ChannelProperties.AttachedWhileAttachedIsUpdate | ably/realtime/realtime_channel.py:338-342 | ATTACHED on an ATTACHED channel without RESUMED emits one "update" record from ATTACHED to ATTACHED carrying the frame's error; with RESUMED it emits nothing; it is never a state change |
| ChannelProperties.AttachedWhileAttachingAttaches | ably/realtime/realtime_channel.py:343-344 | ATTACHED on an ATTACHING channel moves it to ATTACHED with the frame's resumed flag and sets the resume flag |
| ChannelProperties.UnsolicitedAcksIgnored | ably/realtime/realtime_channel.py:345-351 | ATTACHED in any other state, and DETACHED in any state but DETACHING, change nothing but the serial |
| ChannelProperties.DetachedWhileDetachingDetaches | ably/realtime/realtime_channel.py:347-349 | DETACHED on a DETACHING channel moves it to DETACHED and drops the serial |
| ChannelProperties.MessageFrameDelivers | ably/realtime/realtime_channel.py:352-355 | a MESSAGE frame emits every message in order under its own name; the result is exactly the channel with the serial update and those deliveries appended, so nothing else changes |
| ChannelProperties.SubscribeRegistersThenAttaches | ably/realtime/realtime_channel.py:239-262 | a valid `subscribe` registers exactly its callable listener (under its event, or for all events) and then behaves as `attach()`; invalid arguments raise and change nothing |
| ChannelProperties.UnsubscribeForms | ably/realtime/realtime_channel.py:290-316 | `unsubscribe()` removes all listeners, `unsubscribe(listener)` removes that listener from every event, and `unsubscribe(event, listener)` removes that one pairing |
| ChannelProperties.InitInv | ably/realtime/realtime_channel.py:77-89 | a fresh channel satisfies the channel invariant |
| ChannelProperties.NotifyPreservesInv | ably/realtime/realtime_channel.py:362-384 | `_notify_state` keeps the invariant whenever it does not leave ATTACHED for a state other than DETACHING or FAILED |
| ChannelProperties.CheckPendingPreservesInv | ably/realtime/realtime_channel.py:389-401 | the pending check keeps the invariant |
| ChannelProperties.AttachPreservesInv | ably/realtime/realtime_channel.py:94-127 | `attach()` keeps the invariant |
| ChannelProperties.DetachPreservesInv | ably/realtime/realtime_channel.py:149-188 | `detach()` keeps the invariant |
| ChannelProperties.OnMessagePreservesInv | ably/realtime/realtime_channel.py:318-355 | handling any inbound frame keeps the invariant |
| ChannelProperties.TimerPreservesInv | ably/realtime/realtime_channel.py:403-424 | the timer's expiry keeps the invariant |
| ChannelProperties.ApplyPreservesInv | ably/realtime/realtime_channel.py:94-424 | every input to the channel (attach, detach, subscribe, unsubscribe, a frame, a timer expiry, a pending check) keeps the invariant |
| ChannelProperties.RunPreservesInv | ably/realtime/realtime_channel.py:94-424 | any sequence of inputs keeps the invariant |
| ChannelProperties.ReachableInv | ably/realtime/realtime_channel.py:362-384 | in every reachable channel: the timer runs only while ATTACHING or DETACHING; the resume flag is set exactly while ATTACHED; the internal records form one chain of real changes from INITIALIZED to the current state; the public emitter got the same records in the same order, apart from "update" records; every sent frame is for this channel and carries no flags |
| ChannelProperties.SetterThenCheckSendsAttachResume | ably/realtime/realtime_channel.py:438-440 | from an ATTACHED channel, the public setter to ATTACHING followed by the pending check on a CONNECTED connection sends one ATTACH whose flags are ATTACH_RESUME |
| ChannelProperties.RunKeepsName | ably/realtime/realtime_channel.py:426-430 | no input changes the channel's name |
| ChannelProperties.RestingChannelStaysQuiet | ably/realtime/realtime_channel.py:318-424 | an INITIALIZED, DETACHED, SUSPENDED or FAILED channel keeps its state, sends nothing and emits no state change under any frames, timer expiries, pending checks and unsubscribes |
| Channel.RealtimeChannel.constructor | ably/realtime/realtime_channel.py:77-89 | a new channel is INITIALIZED, with no timer, no resume flag, no serial, no records, and satisfies the invariant |
| Channel.RealtimeChannel.StartStateTimer | ably/realtime/realtime_channel.py:403-410 | arms the timer unless one is running |
| Channel.RealtimeChannel.ClearStateTimer | ably/realtime/realtime_channel.py:412-415 | disarms the timer |
| Channel.RealtimeChannel.NotifyState | ably/realtime/realtime_channel.py:362-384 | performs `ChannelSpec.Notify` in place |
| Channel.RealtimeChannel.RequestState | ably/realtime/realtime_channel.py:357-360 | notifies the state, then runs the pending check |
| Channel.RealtimeChannel.SetState | ably/realtime/realtime_channel.py:438-440 | the public setter assigns the state and nothing else |
| Channel.RealtimeChannel.AttachImpl | ably/realtime/realtime_channel.py:132-146 | appends exactly the frame `ChannelSpec.AttachFrame` describes, and changes nothing else |
| Channel.RealtimeChannel.DetachImpl | ably/realtime/realtime_channel.py:198-207 | appends exactly one DETACH for the channel, and changes nothing else |
| Channel.RealtimeChannel.CheckPendingState | ably/realtime/realtime_channel.py:389-401 | performs `ChannelSpec.CheckPending` in place and keeps the invariant |
| Channel.RealtimeChannel.TimeoutPendingState | ably/realtime/realtime_channel.py:417-424 | performs the timeout transitions of `ChannelSpec.TimeoutPendingState` |
| Channel.RealtimeChannel.TimerFires | ably/realtime/realtime_channel.py:405-408 | the armed timer's callback forgets the timer, then times out the pending state, and keeps the invariant |
| Channel.RealtimeChannel.Attach | ably/realtime/realtime_channel.py:94-127 | performs `ChannelSpec.AttachStep` and keeps the invariant |
| Channel.RealtimeChannel.AwaitAttach | ably/realtime/realtime_channel.py:127-130 | finishes `attach()` from the record it waited for, as `ChannelSpec.AttachOutcome` |
| Channel.RealtimeChannel.Detach | ably/realtime/realtime_channel.py:149-188 | performs `ChannelSpec.DetachStep` and keeps the invariant |
| Channel.RealtimeChannel.DetachAfterConnect | ably/realtime/realtime_channel.py:184-188 | raises a failed `connect()`'s error, or waits on the next internal record |
| Channel.RealtimeChannel.AwaitDetach | ably/realtime/realtime_channel.py:188-196 | finishes `detach()` from the record it waited for, as `ChannelSpec.DetachOutcome` |
| Channel.RealtimeChannel.Subscribe | ably/realtime/realtime_channel.py:210-262 | performs `ChannelSpec.SubscribeStep` and keeps the invariant |
| Channel.RealtimeChannel.Unsubscribe | ably/realtime/realtime_channel.py:265-316 | performs `ChannelSpec.UnsubscribeStep` and keeps the invariant |
| Channel.RealtimeChannel.EmitMessages | ably/realtime/realtime_channel.py:354-355 | the loop appends exactly `ChannelSpec.Deliveries` of the messages to the message emitter's log, and changes nothing else |
| Channel.RealtimeChannel.OnMessage | ably/realtime/realtime_channel.py:318-355 | performs `ChannelSpec.OnMessage` in place and keeps the invariant |
| ConnectionSpec.Connect | ably/realtime/connection.py:27-40 | after `connect()` starts, the connection is CONNECTED if it was, and CONNECTING otherwise; an awaited future is the pending one; the call owns that future exactly when it started the attempt; at most one future is added, and the earlier ones are kept |
| ConnectionSpec.ResumeConnect | ably/realtime/connection.py:35-41 | the resumed `connect()` succeeds exactly when its future resolved; it changes no future and no websocket, and can only set CONNECTED |
| ConnectionSpec.Close | ably/realtime/connection.py:43-49 | `close()` ends CLOSED, never leaves an open websocket, and leaves futures and tasks alone |
| ConnectionSpec.TransportOpened | ably/realtime/connection.py:51-53 | the websocket is open, and nothing else changes |
| ConnectionSpec.HandleFrame | ably/realtime/connection.py:57-74 | a frame never changes the state, the websocket or the tasks; it can only clear the pending future, and it leaves every future other than the pending one as it was |
| ConnectionSpec.ConnectWhenConnected | ably/realtime/connection.py:28-29 | `connect()` on a CONNECTED connection returns at once and changes nothing |
| ConnectionSpec.ConnectJoinsPendingAttempt | ably/realtime/connection.py:31-35 | `connect()` while CONNECTING with a pending future awaits that future, creates nothing and does not own it |
| ConnectionSpec.ConnectStartsOneAttempt | ably/realtime/connection.py:36-40 | from any other state `connect()` moves to CONNECTING, creates exactly one new future and one connect task, and owns that future |
| ConnectionSpec.ConnectIsIdempotent | ably/realtime/connection.py:27-40 | a second `connect()` right after a first changes nothing, starts no task, and awaits the same future (or returns as the first did) |
| ConnectionSpec.ConnectedOnlyAfterSuccess | ably/realtime/connection.py:35-41 | after the await only the owning call sets CONNECTED, and only when the future succeeded; a failed future raises its auth error and leaves the state alone |
| ConnectionSpec.FailedAttemptThenConnectReturns | ably/realtime/connection.py:27-74 | after an attempt failed by a fatal ERROR the connection stays CONNECTING with no future, and a later `connect()` returns at once without awaiting |
| ConnectionSpec.ConnectedFrameResolvesPending | ably/realtime/connection.py:62-67 | a CONNECTED frame resolves the pending future and clears it; with none pending it changes nothing |
| ConnectionSpec.ErrorFrameFailsPending | ably/realtime/connection.py:68-74 | an ERROR frame whose `nonfatal` is exactly `false` fails the pending future with an auth error built from the frame's message, status code and code, and clears it; any other ERROR frame changes nothing |
| ConnectionSpec.OtherFramesIgnored | ably/realtime/connection.py:57-74 | frames with any other action change nothing |
| ConnectionSpec.CloseEndsClosed | ably/realtime/connection.py:43-49 | `close()` always ends CLOSED, closes the websocket when there is one, and leaves the futures alone |
| ConnectionSpec.InitInv | ably/realtime/connection.py:20-25 | a fresh connection satisfies the connection invariant |
| ConnectionSpec.ApplyPreservesInv | ably/realtime/connection.py:27-74 | every input keeps the connection in a declared state, with one connect task per future and a pending future that is the newest and unsettled |
| ConnectionSpec.RunPreservesInv | ably/realtime/connection.py:27-74 | any sequence of inputs keeps that invariant |
| ConnectionSpec.ReachableInv | ably/realtime/connection.py:27-74 | every reachable connection satisfies the invariant; in particular it has started exactly one connect task per future |
| ConnectionSpec.ApplyKeepsOtherFuture | ably/realtime/connection.py:57-74 | no input changes the result of a future that is not the pending one, or makes it pending again |
| ConnectionSpec.SettledFutureIsFinal | ably/realtime/connection.py:57-74 | once a future is no longer pending its result never changes: each future settles at most once, and one dropped unsettled never settles |
| ConnectionSpec.CloseThenConnectAbandonsFuture | ably/realtime/connection.py:27-49 | `connect()`, `close()`, `connect()` creates a second future, and the first one stays unsettled whatever happens afterwards |
| Connection.RealtimeConnection.constructor | ably/realtime/connection.py:20-25 | a new connection is INITIALIZED, with no future and no websocket |
| Connection.RealtimeConnection.Connect | ably/realtime/connection.py:27-40 | performs `ConnectionSpec.Connect` in place and keeps the invariant |
| Connection.RealtimeConnection.ResumeConnect | ably/realtime/connection.py:35-41 | performs `ConnectionSpec.ResumeConnect` and keeps the invariant |
| Connection.RealtimeConnection.Close | ably/realtime/connection.py:43-49 | performs `ConnectionSpec.Close` and keeps the invariant |
| Connection.RealtimeConnection.TransportOpened | ably/realtime/connection.py:51-53 | records the websocket `connect_impl` opened |
| Connection.RealtimeConnection.HandleFrame | ably/realtime/connection.py:57-74 | performs one pass of the read loop's body, as `ConnectionSpec.HandleFrame`, and keeps the invariant |

## Left out

- Websocket I/O, `asyncio` tasks and futures, JSON decoding and the scheduling of awaits are not modelled. Awaits are cut into separate steps, and frames arrive as already-decoded values.
- The timer's duration (`realtime_request_timeout`) is not modelled. The timer is an armed flag plus an expiry input.
- Message decoding (`Message.from_encoded_array`) is not modelled. A MESSAGE frame carries already-decoded messages.
- The internals of `EventEmitter` are not modelled. Emitters are append-only logs of what was emitted or registered. Listener invocation and `once_async` registration are not modelled; the awaited record is the one at the recorded index.
- Logging is left out: `log.warn`/`log.fatal` branches change no state.
- The REST `Channel` base class and `_send_message`'s task creation are left out. A sent frame is appended to the `sent` log.
- The test files are not part of this model.
- The channel reads `connection.state` in `attach`/`detach` and `connection.connection_manager.state` in `_check_pending_state`. Both are one input value here, because the connection manager is not part of this model.
- `realtime.connect()` is not part of this model. `DetachAfterConnect` takes its outcome as an input.
- The enumeration integers of the channel protocol actions are not part of this model. These actions are abstract constructors; the connection's actions 4 and 9 are literal.
- Frame flags are non-negative integers. An absent `flags` key and `0` are both falsy, and both are modelled as `0`.
- ChannelSpec.OnMessage: `resumed` stays `None` when the flags are falsy. The model records it as `false` (equally falsy).
- ConnectionSpec.HandleFrame: an ERROR frame without an `error` object or without `nonfatal` raises a KeyError in the read loop. The model always has an error value, so this is not captured.
- ConnectionSpec.Close: the CLOSING state held while the websocket closes is collapsed into the same step as CLOSED. A concurrent observer during that await is not modelled.
- Calls of `_notify_state` (and the other underscore methods) from outside the channel are not run inputs. The run-level channel results cover only the public calls, inbound frames, timer expiry and the pending check.
- Channel.RealtimeChannel.SetState: the public setter can break the channel invariant. It is therefore not one of the run inputs, and the other methods only promise the invariant when it held before (`old(Valid()) ==> Valid()`).
- Error messages render the channel state by its enumeration value (`"attaching"`). The Python rendering of `str`-mixin enums in f-strings is not modelled.
- The read loop never routes channel frames to channels. Channel frames are a separate input of the channel, as `_on_message` receives them.
