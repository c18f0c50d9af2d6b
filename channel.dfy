/** `RealtimeChannel`: the channel object whose methods update its state, resume
    flag, serial and timer in place, send frames and emit records. Each method
    is proved to perform the matching step of `ChannelSpec`, and to keep the
    channel invariant `Inv` of every reachable channel. */
module Channel {
  import opened Wrappers
  import opened Errors
  import opened Protocol
  import Flags
  import CS = ConnectionSpec
  import opened ChannelSpec
  import ChannelProperties

  class RealtimeChannel {
    const name: string
    var state: ChannelState
    var attachResume: bool
    var channelSerial: Option<string>
    /** Whether `__state_timer` holds a running timer. */
    var stateTimer: bool
    /** Frames handed to the connection, oldest first. */
    var sent: seq<OutboundFrame>
    /** Records emitted on the channel's own (public) emitter. */
    var publicEvents: seq<Emission>
    /** Records emitted on the internal state emitter. */
    var internalEvents: seq<StateChange>
    /** Emissions on the data-message emitter. */
    var messageEvents: seq<Delivery>
    /** Registrations made on the data-message emitter. */
    var listenerCalls: seq<EmitterCall>

    function Snapshot(): Chan
      reads this
    {
      Chan(name, state, attachResume, channelSerial, stateTimer, sent,
           publicEvents, internalEvents, messageEvents, listenerCalls)
    }

    ghost predicate Valid()
      reads this
    {
      Inv(Snapshot())
    }

    constructor (name: string)
      ensures Valid() && Snapshot() == Init(name)
    {
      this.name := name;
      state := Initialized;
      attachResume := false;
      channelSerial := None;
      stateTimer := false;
      sent, publicEvents, internalEvents, messageEvents, listenerCalls := [], [], [], [], [];
      new;
      ChannelProperties.InitInv(name);
    }

    // ---- timer ----

    /** `__start_state_timer`: a no-op when a timer is already running. */
    method StartStateTimer()
      modifies this
      ensures Snapshot() == StartTimer(old(Snapshot()))
    {
      if !stateTimer {
        stateTimer := true;
      }
    }

    /** `__clear_state_timer`. */
    method ClearStateTimer()
      modifies this
      ensures Snapshot() == ClearTimer(old(Snapshot()))
    {
      stateTimer := false;
    }

    // ---- state ----

    /** `_notify_state`: clear the timer; on a real transition update the resume
        flag and the serial, set the state and emit one record to both emitters. */
    method NotifyState(s: ChannelState, reason: Option<AblyError>, resumed: bool)
      modifies this
      ensures Snapshot() == Notify(old(Snapshot()), s, reason, resumed)
    {
      ClearStateTimer();
      if s == state {
        return;
      }
      if s == Attached {
        attachResume := true;
      }
      if s == Detaching || s == Failed {
        attachResume := false;
      }
      if s == Detached || s == Suspended || s == Failed {
        channelSerial := None;
      }
      var change := StateChange(state, s, resumed, reason);
      state := s;
      publicEvents := publicEvents + [Emission(StateEvent(s), change)];
      internalEvents := internalEvents + [change];
    }

    /** `_request_state`. */
    method RequestState(s: ChannelState, conn: CS.ConnectionState)
      modifies this
      ensures Snapshot() == ChannelSpec.RequestState(old(Snapshot()), s, conn)
    {
      NotifyState(s, None, false);
      CheckPendingState(conn);
    }

    /** The public `state` setter: assigns the state and nothing else, so it can
        leave `Valid()`. */
    method SetState(s: ChannelState)
      modifies this
      ensures Snapshot() == old(Snapshot()).(state := s)
    {
      state := s;
    }

    // ---- sending ----

    /** `_attach_impl`. */
    method AttachImpl()
      modifies this
      ensures Snapshot() == old(Snapshot()).(sent := old(sent) + [AttachFrame(old(Snapshot()))])
    {
      var flags: Option<nat> := None;
      if attachResume {
        flags := Some(Flags.Value(Flags.AttachResume));
      }
      var serial: Option<string> := None;
      if Truthy(channelSerial) {
        serial := channelSerial;
      }
      sent := sent + [OutboundFrame(AttachAction, name, flags, serial)];
    }

    /** `_detach_impl`. */
    method DetachImpl()
      modifies this
      ensures Snapshot() == old(Snapshot()).(sent := old(sent) + [DetachFrame(old(Snapshot()))])
    {
      sent := sent + [OutboundFrame(DetachAction, name, None, None)];
    }

    /** `_check_pending_state`: nothing until the connection is CONNECTED. */
    method CheckPendingState(conn: CS.ConnectionState)
      modifies this
      ensures old(Valid()) ==> Valid()
      ensures Snapshot() == CheckPending(old(Snapshot()), conn)
    {
      ghost var before := Snapshot();
      if Valid() {
        ChannelProperties.CheckPendingPreservesInv(before, conn);
      }
      if conn != CS.Connected {
        return;
      }
      if state == Attaching {
        StartStateTimer();
        AttachImpl();
      } else if state == Detaching {
        StartStateTimer();
        DetachImpl();
      }
    }

    /** `__timeout_pending_state`. */
    method TimeoutPendingState(conn: CS.ConnectionState)
      modifies this
      ensures Snapshot() == ChannelSpec.TimeoutPendingState(old(Snapshot()), conn)
    {
      if state == Attaching {
        NotifyState(Suspended, Some(ATTACH_TIMEOUT), false);
      } else if state == Detaching {
        NotifyState(Attached, Some(DETACH_TIMEOUT), false);
      } else {
        CheckPendingState(conn);
      }
    }

    /** The running timer's callback. */
    method TimerFires(conn: CS.ConnectionState)
      requires stateTimer
      modifies this
      ensures old(Valid()) ==> Valid()
      ensures Snapshot() == ChannelSpec.TimerFires(old(Snapshot()), conn)
    {
      ghost var before := Snapshot();
      if Valid() {
        ChannelProperties.TimerPreservesInv(before, conn);
      }
      stateTimer := false;
      TimeoutPendingState(conn);
    }

    // ---- attach ----

    /** `attach()` up to its await on the internal state emitter. */
    method Attach(conn: CS.ConnectionState) returns (call: Call)
      modifies this
      ensures old(Valid()) ==> Valid()
      ensures Snapshot() == AttachStep(old(Snapshot()), conn).next
      ensures call == AttachStep(old(Snapshot()), conn).call
    {
      ghost var before := Snapshot();
      if Valid() {
        ChannelProperties.AttachPreservesInv(before, conn);
      }
      if state == Attached {
        return Done(Success);
      }
      if !(conn == CS.Connecting || conn == CS.Connected || conn == CS.Disconnected) {
        return Done(Raised(Ably(InvalidAttach(state))));
      }
      if state != Attaching {
        RequestState(Attaching, conn);
      }
      call := AwaitChange(|internalEvents|);
    }

    /** The rest of `attach()`, once the state change it waits for (record `mark`
        of the internal emitter) has been emitted. */
    method AwaitAttach(mark: nat) returns (outcome: Outcome)
      requires mark < |internalEvents|
      ensures outcome == AttachOutcome(internalEvents[mark])
    {
      var change := internalEvents[mark];
      if change.current == Suspended || change.current == Failed {
        return Raised(RaiseReason(change.reason));
      }
      outcome := Success;
    }

    // ---- detach ----

    /** `detach()` up to its first await. */
    method Detach(conn: CS.ConnectionState) returns (call: Call)
      modifies this
      ensures old(Valid()) ==> Valid()
      ensures Snapshot() == DetachStep(old(Snapshot()), conn).next
      ensures call == DetachStep(old(Snapshot()), conn).call
    {
      ghost var before := Snapshot();
      if Valid() {
        ChannelProperties.DetachPreservesInv(before, conn);
      }
      if conn == CS.Closing || conn == CS.Failed {
        return Done(Raised(Ably(InvalidDetach(state))));
      }
      if state == Initialized || state == Detached {
        return Done(Success);
      }
      if state == Suspended {
        NotifyState(Detached, None, false);
        return Done(Success);
      } else if state == Failed {
        return Done(Raised(Ably(DETACH_FAILED_CHANNEL)));
      } else {
        RequestState(Detaching, conn);
      }
      if conn == CS.Connecting {
        return AwaitConnect;
      }
      call := AwaitChange(|internalEvents|);
    }

    /** `detach()` once the connection's `connect()` has settled. */
    method DetachAfterConnect(connected: Outcome) returns (call: Call)
      ensures connected.Raised? ==> call == Done(connected)
      ensures connected.Success? ==> call == AwaitChange(|internalEvents|)
    {
      if connected.Raised? {
        return Done(connected);
      }
      call := AwaitChange(|internalEvents|);
    }

    /** The rest of `detach()`, once record `mark` of the internal emitter exists. */
    method AwaitDetach(mark: nat) returns (outcome: Outcome)
      requires mark < |internalEvents|
      ensures outcome == DetachOutcome(internalEvents[mark])
    {
      var change := internalEvents[mark];
      if change.current == Detached {
        return Success;
      } else if change.current == Attaching {
        return Raised(Ably(DETACH_SUPERSEDED));
      }
      outcome := Raised(RaiseReason(change.reason));
    }

    // ---- subscribe / unsubscribe ----

    /** `subscribe(*args)`: register the listener, then `attach()`. */
    method Subscribe(args: seq<Arg>, conn: CS.ConnectionState) returns (call: Call)
      modifies this
      ensures old(Valid()) ==> Valid()
      ensures Snapshot() == SubscribeStep(old(Snapshot()), args, conn).next
      ensures call == SubscribeStep(old(Snapshot()), args, conn).call
    {
      var parsed := ParseSubscribeArgs(args);
      if parsed.ParseError? {
        return Done(Raised(parsed.error));
      }
      listenerCalls := listenerCalls + [On(parsed.event, parsed.listener.value)];
      call := Attach(conn);
    }

    /** `unsubscribe(*args)`. */
    method Unsubscribe(args: seq<Arg>) returns (outcome: Outcome)
      modifies this
      ensures old(Valid()) ==> Valid()
      ensures Snapshot() == UnsubscribeStep(old(Snapshot()), args).next
      ensures outcome == UnsubscribeStep(old(Snapshot()), args).call.outcome
    {
      var parsed := ParseUnsubscribeArgs(args);
      if parsed.ParseError? {
        return Raised(parsed.error);
      }
      if parsed.listener.None? {
        listenerCalls := listenerCalls + [OffAll];
      } else if parsed.event.Some? {
        listenerCalls := listenerCalls + [OffEvent(parsed.event.value, parsed.listener.value)];
      } else {
        listenerCalls := listenerCalls + [OffListener(parsed.listener.value)];
      }
      outcome := Success;
    }

    // ---- inbound frames ----

    /** The loop of `_on_message` that emits each data message under its name. */
    method EmitMessages(messages: seq<DataMessage>)
      modifies this
      ensures Snapshot() == old(Snapshot()).(deliveries := old(messageEvents) + Deliveries(messages))
    {
      var i := 0;
      while i < |messages|
        invariant 0 <= i <= |messages|
        invariant Snapshot() == old(Snapshot()).(deliveries := old(messageEvents) + Deliveries(messages[..i]))
      {
        var message := messages[i];
        messageEvents := messageEvents + [Delivery(message.name, message)];
        assert messages[..i + 1][..i] == messages[..i];
        i := i + 1;
      }
      assert messages[..i] == messages;
    }

    /** `_on_message`. */
    method OnMessage(f: InboundFrame)
      modifies this
      ensures old(Valid()) ==> Valid()
      ensures Snapshot() == ChannelSpec.OnMessage(old(Snapshot()), f)
    {
      ghost var before := Snapshot();
      if Valid() {
        ChannelProperties.OnMessagePreservesInv(before, f);
      }
      if Truthy(f.channelSerial) {
        channelSerial := f.channelSerial;
      }
      match f.action {
        case AttachedAction =>
          var reason := ErrorReason(f.error);
          var resumed := ResumedFlag(f.flags);
          if state == Attached {
            if !resumed {
              publicEvents := publicEvents + [Emission(Update, StateChange(state, Attached, resumed, reason))];
            }
          } else if state == Attaching {
            NotifyState(Attached, None, resumed);
          }
        case DetachedAction =>
          if state == Detaching {
            NotifyState(Detached, None, false);
          }
        case MessageAction =>
          EmitMessages(f.messages);
        case _ =>
      }
    }
  }
}
