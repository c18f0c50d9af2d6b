/** The channel attach/detach state machine as pure steps over a record of the
    channel's state, the frames it has sent and the records it has emitted. */
module ChannelSpec {
  import opened Wrappers
  import opened Errors
  import opened Protocol
  import Flags
  import CS = ConnectionSpec

  datatype ChannelState =
    | Initialized | Attaching | Attached | Detaching | Detached | Suspended | Failed

  /** The enumeration value of each state, as error messages render it. */
  function StateValue(s: ChannelState): string {
    match s
    case Initialized => "initialized"
    case Attaching => "attaching"
    case Attached => "attached"
    case Detaching => "detaching"
    case Detached => "detached"
    case Suspended => "suspended"
    case Failed => "failed"
  }

  /** `ChannelStateChange`: one record per transition (or per "update"). */
  datatype StateChange = StateChange(
    previous: ChannelState,
    current: ChannelState,
    resumed: bool,
    reason: Option<AblyError>)

  /** The event a record is emitted under on the public emitter. */
  datatype Event = StateEvent(state: ChannelState) | Update

  datatype Emission = Emission(event: Event, change: StateChange)

  /** One emission on the data-message emitter, keyed by the message's name. */
  datatype Delivery = Delivery(event: Option<string>, message: DataMessage)

  /** A positional argument of `subscribe`/`unsubscribe`: a string, or any other
      object with its truthiness and whether it is a function or coroutine function. */
  datatype Arg = Str(s: string) | Obj(id: nat, truthy: bool, callable: bool)

  /** A call on the data-message emitter's registration interface. */
  datatype EmitterCall =
    | On(onEvent: Option<string>, onListener: Arg)
    | OffAll
    | OffEvent(offEvent: string, offListener: Arg)
    | OffListener(listener: Arg)

  /** The channel's state, with append-only logs of the frames it sent (`sent`),
      the records on its public emitter (`public`) and on its internal
      state emitter (`internal`, each emitted under its `current` state), the
      data messages it emitted (`deliveries`) and its listener registrations. */
  datatype Chan = Chan(
    name: string,
    state: ChannelState,
    attachResume: bool,
    serial: Option<string>,
    timerArmed: bool,
    sent: seq<OutboundFrame>,
    public: seq<Emission>,
    internal: seq<StateChange>,
    deliveries: seq<Delivery>,
    listenerCalls: seq<EmitterCall>)

  /** What an `async` channel call does next: return with an outcome, await the
      next internal state change (the one at index `mark` of `internal`), or
      first await the connection's `connect()`. */
  datatype Call = Done(outcome: Outcome) | AwaitChange(mark: nat) | AwaitConnect

  datatype Step = Step(next: Chan, call: Call)

  const ATTACH_TIMEOUT: AblyError := AblyError("Channel attach timed out", 408, 90007)
  const DETACH_TIMEOUT: AblyError := AblyError("Channel detach timed out", 408, 90007)
  const DETACH_SUPERSEDED: AblyError :=
    AblyError("Detach request superseded by a subsequent attach request", 90000, 409)
  const DETACH_FAILED_CHANNEL: AblyError := AblyError("Unable to detach; channel state = failed", 90001, 400)

  function InvalidAttach(s: ChannelState): AblyError {
    AblyError("Unable to attach; channel state = " + StateValue(s), 400, 90001)
  }

  function InvalidDetach(s: ChannelState): AblyError {
    AblyError("Unable to detach; channel state = " + StateValue(s), 400, 90001)
  }

  function Init(name: string): Chan {
    Chan(name, Initialized, false, None, false, [], [], [], [], [])
  }

  // ---- the pending-state timer ----

  /** `__start_state_timer`: afterwards a timer runs, and nothing else changes. */
  function StartTimer(c: Chan): (r: Chan)
    ensures r.timerArmed && r.(timerArmed := c.timerArmed) == c
  {
    if c.timerArmed then c else c.(timerArmed := true)
  }

  /** `__clear_state_timer`: afterwards no timer runs, and nothing else changes. */
  function ClearTimer(c: Chan): (r: Chan)
    ensures !r.timerArmed && r.(timerArmed := c.timerArmed) == c
  {
    c.(timerArmed := false)
  }

  // ---- the state-setting primitive ----

  /** `_notify_state(s, reason, resumed)`. */
  function Notify(c: Chan, s: ChannelState, reason: Option<AblyError>, resumed: bool): (r: Chan)
    ensures r.state == s && !r.timerArmed
    ensures r.name == c.name && r.sent == c.sent
    ensures r.deliveries == c.deliveries && r.listenerCalls == c.listenerCalls
  {
    var cleared := ClearTimer(c);
    if s == c.state then cleared
    else
      var change := StateChange(c.state, s, resumed, reason);
      cleared.(
        state := s,
        attachResume :=
          if s == Attached then true
          else if s == Detaching || s == Failed then false
          else c.attachResume,
        serial := if s == Detached || s == Suspended || s == Failed then None else c.serial,
        public := c.public + [Emission(StateEvent(s), change)],
        internal := c.internal + [change])
  }

  // ---- outgoing frames ----

  /** `_attach_impl`'s ATTACH frame. */
  function AttachFrame(c: Chan): (f: OutboundFrame)
    ensures f.action == AttachAction && f.channel == c.name
    ensures f.flags.Some? <==> c.attachResume
    ensures f.flags.Some? ==> f.flags.value == Flags.Value(Flags.AttachResume)
    ensures f.channelSerial.Some? <==> Truthy(c.serial)
    ensures f.channelSerial.Some? ==> f.channelSerial == c.serial
  {
    OutboundFrame(
      AttachAction,
      c.name,
      if c.attachResume then Some(Flags.Value(Flags.AttachResume)) else None,
      if Truthy(c.serial) then c.serial else None)
  }

  /** `_detach_impl`'s DETACH frame. */
  function DetachFrame(c: Chan): (f: OutboundFrame)
    ensures f.action == DetachAction && PlainControlFrame(c.name, f)
  {
    OutboundFrame(DetachAction, c.name, None, None)
  }

  /** `_check_pending_state` against the given connection state. */
  function CheckPending(c: Chan, conn: CS.ConnectionState): (r: Chan)
    ensures r.state == c.state && r.internal == c.internal && r.public == c.public
    ensures r.serial == c.serial && r.attachResume == c.attachResume
  {
    if conn != CS.Connected then c
    else if c.state == Attaching then
      var t := StartTimer(c);
      t.(sent := t.sent + [AttachFrame(t)])
    else if c.state == Detaching then
      var t := StartTimer(c);
      t.(sent := t.sent + [DetachFrame(t)])
    else c
  }

  /** `_request_state(s)`. */
  function RequestState(c: Chan, s: ChannelState, conn: CS.ConnectionState): (r: Chan)
    ensures r.state == s
    ensures s != c.state ==> r.internal == c.internal + [StateChange(c.state, s, false, None)]
    ensures s == c.state ==> r.internal == c.internal
    ensures |c.sent| <= |r.sent| <= |c.sent| + 1 && r.sent[..|c.sent|] == c.sent
    ensures |r.sent| == |c.sent| + 1 <==> conn == CS.Connected && (s == Attaching || s == Detaching)
  {
    CheckPending(Notify(c, s, None, false), conn)
  }

  /** `__timeout_pending_state`. */
  function TimeoutPendingState(c: Chan, conn: CS.ConnectionState): (r: Chan)
    ensures c.state == Attaching ==> r.state == Suspended && r.sent == c.sent
    ensures c.state == Detaching ==> r.state == Attached && r.sent == c.sent
    ensures c.state != Attaching && c.state != Detaching ==> r == c
  {
    if c.state == Attaching then Notify(c, Suspended, Some(ATTACH_TIMEOUT), false)
    else if c.state == Detaching then Notify(c, Attached, Some(DETACH_TIMEOUT), false)
    else CheckPending(c, conn)
  }

  /** The armed timer's callback: forget the timer, then time out the pending state. */
  function TimerFires(c: Chan, conn: CS.ConnectionState): (r: Chan)
    requires c.timerArmed
    ensures !r.timerArmed && r.sent == c.sent
    ensures r.state != c.state <==> c.state == Attaching || c.state == Detaching
  {
    TimeoutPendingState(ClearTimer(c), conn)
  }

  // ---- attach ----

  predicate AttachableConnection(conn: CS.ConnectionState) {
    conn == CS.Connecting || conn == CS.Connected || conn == CS.Disconnected
  }

  /** `attach()` up to its await on the internal state emitter. */
  function AttachStep(c: Chan, conn: CS.ConnectionState): (st: Step)
    ensures st.call.Done? <==> c.state == Attached || !AttachableConnection(conn)
    ensures st.call.Done? ==> st.next == c
    ensures st.call.AwaitChange? ==> st.next.state == Attaching && st.call.mark == |st.next.internal|
    ensures !st.call.AwaitConnect?
    ensures st.next.listenerCalls == c.listenerCalls && st.next.deliveries == c.deliveries
  {
    if c.state == Attached then Step(c, Done(Success))
    else if !AttachableConnection(conn) then Step(c, Done(Raised(Ably(InvalidAttach(c.state)))))
    else
      var n := if c.state != Attaching then RequestState(c, Attaching, conn) else c;
      Step(n, AwaitChange(|n.internal|))
  }

  /** The rest of `attach()`, given the state change it was woken by. */
  function AttachOutcome(change: StateChange): (o: Outcome)
    ensures o.Raised? <==> change.current == Suspended || change.current == Failed
    ensures o.Raised? ==> o.error == RaiseReason(change.reason)
  {
    if change.current == Suspended || change.current == Failed then Raised(RaiseReason(change.reason))
    else Success
  }

  // ---- detach ----

  /** `detach()` up to its first await. */
  function DetachStep(c: Chan, conn: CS.ConnectionState): (st: Step)
    ensures st.call.Done? && st.call.outcome.Raised? ==> st.next == c
    ensures st.call.Done? && st.call.outcome.Success? ==>
      st.next == c || (c.state == Suspended && st.next.state == Detached)
    ensures !st.call.Done? ==> st.next.state == Detaching
    ensures st.call.AwaitConnect? <==> !st.call.Done? && conn == CS.Connecting
    ensures st.call.AwaitChange? ==> st.call.mark == |st.next.internal|
  {
    if conn == CS.Closing || conn == CS.Failed then Step(c, Done(Raised(Ably(InvalidDetach(c.state)))))
    else if c.state == Initialized || c.state == Detached then Step(c, Done(Success))
    else if c.state == Suspended then Step(Notify(c, Detached, None, false), Done(Success))
    else if c.state == Failed then Step(c, Done(Raised(Ably(DETACH_FAILED_CHANNEL))))
    else
      var n := RequestState(c, Detaching, conn);
      Step(n, if conn == CS.Connecting then AwaitConnect else AwaitChange(|n.internal|))
  }

  /** `detach()` after the connection's `connect()` settled with `connected`:
      it raises that failure, or goes on to await the next internal change. */
  function DetachAfterConnect(c: Chan, connected: Outcome): (call: Call)
    ensures connected.Raised? ==> call == Done(connected)
    ensures connected.Success? ==> call == AwaitChange(|c.internal|)
  {
    if connected.Raised? then Done(connected) else AwaitChange(|c.internal|)
  }

  /** The rest of `detach()`, given the state change it was woken by. */
  function DetachOutcome(change: StateChange): (o: Outcome)
    ensures o.Success? <==> change.current == Detached
    ensures change.current == Attaching ==> o == Raised(Ably(DETACH_SUPERSEDED))
    ensures change.current != Detached && change.current != Attaching ==>
      o == Raised(RaiseReason(change.reason))
  {
    if change.current == Detached then Success
    else if change.current == Attaching then Raised(Ably(DETACH_SUPERSEDED))
    else Raised(RaiseReason(change.reason))
  }

  // ---- subscribe / unsubscribe ----

  predicate IsCallableOrCoroutine(a: Arg) {
    a.Obj? && a.callable
  }

  predicate ArgTruthy(a: Arg) {
    match a
    case Str(s) => s != ""
    case Obj(_, truthy, _) => truthy
  }

  /** The event and listener an argument list selects, or the error it raises. */
  datatype Parsed = Parsed(event: Option<string>, listener: Option<Arg>) | ParseError(error: Error)

  /** `subscribe`'s argument dispatch: `(event, listener)` or `(listener)`. */
  function ParseSubscribeArgs(args: seq<Arg>): (r: Parsed)
    ensures r.Parsed? <==>
      (|args| >= 2 && args[0].Str? && ArgTruthy(args[1]) && IsCallableOrCoroutine(args[1]))
      || (|args| >= 1 && IsCallableOrCoroutine(args[0]))
    ensures r.Parsed? && args[0].Str? ==> r == Parsed(Some(args[0].s), Some(args[1]))
    ensures r.Parsed? && !args[0].Str? ==> r == Parsed(None, Some(args[0]))
    ensures r.ParseError? ==> r.error.IndexError? || r.error.ValueError?
    ensures r.ParseError? ==> (r.error.IndexError? <==> |args| == 0 || (args[0].Str? && |args| < 2))
  {
    if |args| == 0 then ParseError(IndexError)
    else if args[0].Str? then
      if |args| < 2 then ParseError(IndexError)
      else if !ArgTruthy(args[1]) then ParseError(ValueError("channel.subscribe called without listener"))
      else if !IsCallableOrCoroutine(args[1]) then
        ParseError(ValueError("subscribe listener must be function or coroutine function"))
      else Parsed(Some(args[0].s), Some(args[1]))
    else if IsCallableOrCoroutine(args[0]) then Parsed(None, Some(args[0]))
    else ParseError(ValueError("invalid subscribe arguments"))
  }

  /** `unsubscribe`'s argument dispatch: `()`, `(event, listener)` or `(listener)`. */
  function ParseUnsubscribeArgs(args: seq<Arg>): (r: Parsed)
    ensures r.Parsed? <==>
      |args| == 0
      || (|args| >= 2 && args[0].Str? && ArgTruthy(args[1]) && IsCallableOrCoroutine(args[1]))
      || (|args| >= 1 && IsCallableOrCoroutine(args[0]))
    ensures |args| == 0 ==> r == Parsed(None, None)
    ensures r.Parsed? && |args| > 0 && args[0].Str? ==> r == Parsed(Some(args[0].s), Some(args[1]))
    ensures r.Parsed? && |args| > 0 && !args[0].Str? ==> r == Parsed(None, Some(args[0]))
    ensures r.ParseError? ==> r.error.IndexError? || r.error.ValueError?
    ensures r.ParseError? ==> (r.error.IndexError? <==> |args| > 0 && args[0].Str? && |args| < 2)
  {
    if |args| == 0 then Parsed(None, None)
    else if args[0].Str? then
      if |args| < 2 then ParseError(IndexError)
      else if !ArgTruthy(args[1]) then ParseError(ValueError("channel.unsubscribe called without listener"))
      else if !IsCallableOrCoroutine(args[1]) then
        ParseError(ValueError("unsubscribe listener must be a function or coroutine function"))
      else Parsed(Some(args[0].s), Some(args[1]))
    else if IsCallableOrCoroutine(args[0]) then Parsed(None, Some(args[0]))
    else ParseError(ValueError("invalid unsubscribe arguments"))
  }

  /** `subscribe(*args)` up to the await inside its `attach()`. */
  function SubscribeStep(c: Chan, args: seq<Arg>, conn: CS.ConnectionState): (st: Step)
    ensures ParseSubscribeArgs(args).ParseError? ==>
      st.next == c && st.call == Done(Raised(ParseSubscribeArgs(args).error))
    ensures ParseSubscribeArgs(args).Parsed? ==>
      st.next.listenerCalls ==
        c.listenerCalls + [On(ParseSubscribeArgs(args).event, ParseSubscribeArgs(args).listener.value)]
  {
    match ParseSubscribeArgs(args)
    case ParseError(e) => Step(c, Done(Raised(e)))
    case Parsed(event, listener) =>
      AttachStep(c.(listenerCalls := c.listenerCalls + [On(event, listener.value)]), conn)
  }

  /** The emitter call `unsubscribe` makes for a parsed argument list. */
  function OffCall(event: Option<string>, listener: Option<Arg>): (e: EmitterCall)
    ensures e.OffAll? <==> listener.None?
    ensures e.OffEvent? <==> listener.Some? && event.Some?
    ensures e.OffEvent? ==> e == OffEvent(event.value, listener.value)
    ensures e.OffListener? ==> e == OffListener(listener.value)
  {
    if listener.None? then OffAll
    else if event.Some? then OffEvent(event.value, listener.value)
    else OffListener(listener.value)
  }

  /** `unsubscribe(*args)`. */
  function UnsubscribeStep(c: Chan, args: seq<Arg>): (st: Step)
    ensures st.call.Done? && (st.call.outcome.Success? <==> ParseUnsubscribeArgs(args).Parsed?)
    ensures st.next.(listenerCalls := c.listenerCalls) == c
    ensures |st.next.listenerCalls| == |c.listenerCalls| + (if st.call.outcome.Success? then 1 else 0)
    ensures st.next.listenerCalls[..|c.listenerCalls|] == c.listenerCalls
  {
    match ParseUnsubscribeArgs(args)
    case ParseError(e) => Step(c, Done(Raised(e)))
    case Parsed(event, listener) =>
      Step(c.(listenerCalls := c.listenerCalls + [OffCall(event, listener)]), Done(Success))
  }

  // ---- inbound frames ----

  /** The deliveries of a MESSAGE frame's messages: one per message, in order,
      each under that message's name. */
  function Deliveries(msgs: seq<DataMessage>): (r: seq<Delivery>)
    ensures |r| == |msgs|
    ensures forall i :: 0 <= i < |msgs| ==> r[i] == Delivery(msgs[i].name, msgs[i])
  {
    if msgs == [] then []
    else Deliveries(msgs[..|msgs| - 1]) + [Delivery(msgs[|msgs| - 1].name, msgs[|msgs| - 1])]
  }

  /** The `resumed` value an ATTACHED frame carries: absent (zero) flags read as
      false, and otherwise it is the RESUMED bit (bit 2) of the word. */
  predicate ResumedFlag(flags: nat): (b: bool)
    ensures b <==> Flags.TestBit(flags, 2) == 1
  {
    Flags.TestBitOfZero(2);
    flags != 0 && Flags.HasFlag(flags, Flags.Resumed)
  }

  /** The exception built from an ATTACHED frame's `error` object, if it has one. */
  function ErrorReason(e: Option<ErrorInfo>): (r: Option<AblyError>)
    ensures r.Some? <==> e.Some?
    ensures e.Some? ==>
      r.value.message == e.value.message && r.value.statusCode == e.value.statusCode && r.value.code == e.value.code
  {
    match e
    case Some(info) => Some(AblyError(info.message, info.statusCode, info.code))
    case None => None
  }

  /** `_on_message(msg)`. */
  function OnMessage(c: Chan, f: InboundFrame): (r: Chan)
    ensures r.name == c.name && r.sent == c.sent && r.listenerCalls == c.listenerCalls
    ensures f.action != MessageAction ==> r.deliveries == c.deliveries
    ensures r.state == c.state
      || (c.state == Attaching && r.state == Attached)
      || (c.state == Detaching && r.state == Detached)
  {
    var c1 := if Truthy(f.channelSerial) then c.(serial := f.channelSerial) else c;
    match f.action
    case AttachedAction =>
      var resumed := ResumedFlag(f.flags);
      if c1.state == Attached then
        if !resumed then
          c1.(public := c1.public +
            [Emission(Update, StateChange(Attached, Attached, resumed, ErrorReason(f.error)))])
        else c1
      else if c1.state == Attaching then Notify(c1, Attached, None, resumed)
      else c1
    case DetachedAction =>
      if c1.state == Detaching then Notify(c1, Detached, None, false) else c1
    case MessageAction =>
      c1.(deliveries := c1.deliveries + Deliveries(f.messages))
    case _ => c1
  }

  // ---- runs ----

  /** The events that drive a channel. */
  datatype Input =
    | AttachCalled(attachConn: CS.ConnectionState)
    | DetachCalled(detachConn: CS.ConnectionState)
    | FrameReceived(frame: InboundFrame)
    | TimerExpired(timerConn: CS.ConnectionState)
    | PendingChecked(checkConn: CS.ConnectionState)
    | SubscribeCalled(subscribeArgs: seq<Arg>, subscribeConn: CS.ConnectionState)
    | UnsubscribeCalled(unsubscribeArgs: seq<Arg>)

  function Apply(c: Chan, i: Input): Chan {
    match i
    case AttachCalled(conn) => AttachStep(c, conn).next
    case DetachCalled(conn) => DetachStep(c, conn).next
    case FrameReceived(f) => OnMessage(c, f)
    case TimerExpired(conn) => if c.timerArmed then TimerFires(c, conn) else c
    case PendingChecked(conn) => CheckPending(c, conn)
    case SubscribeCalled(args, conn) => SubscribeStep(c, args, conn).next
    case UnsubscribeCalled(args) => UnsubscribeStep(c, args).next
  }

  function Run(c: Chan, inputs: seq<Input>): Chan
    decreases |inputs|
  {
    if inputs == [] then c else Run(Apply(c, inputs[0]), inputs[1..])
  }

  // ---- the invariant ----

  /** Each record's `previous` is the state the one before it moved to (or `start`),
      and every record is a real change. */
  predicate ChainedFrom(start: ChannelState, log: seq<StateChange>) {
    && (|log| > 0 ==> log[0].previous == start)
    && (forall i :: 0 <= i < |log| ==> log[i].previous != log[i].current)
    && (forall i :: 0 < i < |log| ==> log[i].previous == log[i - 1].current)
  }

  function LastState(start: ChannelState, log: seq<StateChange>): ChannelState {
    if log == [] then start else log[|log| - 1].current
  }

  /** The state-change records of the public log, without the "update" records. */
  function StateChanges(p: seq<Emission>): seq<StateChange> {
    if p == [] then []
    else StateChanges(p[..|p| - 1]) + (if p[|p| - 1].event.StateEvent? then [p[|p| - 1].change] else [])
  }

  /** A state record is emitted under its new state; an "update" says ATTACHED to ATTACHED. */
  predicate WellFormedEmission(e: Emission) {
    match e.event
    case StateEvent(s) => e.change.current == s
    case Update => e.change.previous == Attached && e.change.current == Attached
  }

  /** A sent frame is an ATTACH or a DETACH for this channel, without flags. */
  predicate PlainControlFrame(name: string, f: OutboundFrame) {
    f.channel == name && f.flags == None
    && (f.action == AttachAction || (f.action == DetachAction && f.channelSerial == None))
  }

  /** What holds of every channel reached from a fresh one. */
  predicate Inv(c: Chan) {
    && (c.timerArmed ==> c.state == Attaching || c.state == Detaching)
    && (c.attachResume <==> c.state == Attached)
    && c.serial != Some("")
    && ChainedFrom(Initialized, c.internal)
    && LastState(Initialized, c.internal) == c.state
    && StateChanges(c.public) == c.internal
    && (forall i :: 0 <= i < |c.public| ==> WellFormedEmission(c.public[i]))
    && (forall i :: 0 <= i < |c.sent| ==> PlainControlFrame(c.name, c.sent[i]))
  }
}
