/** What the channel's steps promise, one step at a time and over whole runs. */
module ChannelProperties {
  import opened Wrappers
  import opened Errors
  import opened Protocol
  import Flags
  import CS = ConnectionSpec
  import opened ChannelSpec

  // ---- _notify_state ----

  /** Requesting the current state only disarms the timer: no record is emitted,
      and the serial and the resume flag are untouched. */
  lemma NotifySameStateOnlyClearsTimer(c: Chan, s: ChannelState, reason: Option<AblyError>, resumed: bool)
    requires s == c.state
    ensures Notify(c, s, reason, resumed) == c.(timerArmed := false)
  {
  }

  /** A real transition emits exactly one record `(old, new, resumed, reason)`, to
      both the public emitter (under the new state) and the internal emitter. */
  lemma NotifyEmitsOneChange(c: Chan, s: ChannelState, reason: Option<AblyError>, resumed: bool)
    requires s != c.state
    ensures var r := Notify(c, s, reason, resumed);
      && r.internal == c.internal + [StateChange(c.state, s, resumed, reason)]
      && r.public == c.public + [Emission(StateEvent(s), StateChange(c.state, s, resumed, reason))]
  {
  }

  /** On a transition the resume flag becomes true on ATTACHED and false on
      DETACHING or FAILED, and the serial is dropped on DETACHED, SUSPENDED or
      FAILED; otherwise both keep their values. */
  lemma NotifyResumeAndSerial(c: Chan, s: ChannelState, reason: Option<AblyError>, resumed: bool)
    requires s != c.state
    ensures var r := Notify(c, s, reason, resumed);
      && (s == Attached ==> r.attachResume)
      && (s == Detaching || s == Failed ==> !r.attachResume)
      && (s != Attached && s != Detaching && s != Failed ==> r.attachResume == c.attachResume)
      && (s == Detached || s == Suspended || s == Failed ==> r.serial == None)
      && (s != Detached && s != Suspended && s != Failed ==> r.serial == c.serial)
  {
  }

  // ---- the ATTACH frame ----

  /** An ATTACH frame carries action ATTACH and the channel name; it has flags
      exactly when the resume flag is set, and those flags hold ATTACH_RESUME and
      no other flag; it carries the serial exactly when a non-empty one is stored. */
  lemma AttachFrameContents(c: Chan)
    ensures AttachFrame(c).action == AttachAction && AttachFrame(c).channel == c.name
    ensures AttachFrame(c).flags.Some? <==> c.attachResume
    ensures AttachFrame(c).flags.Some? ==>
      forall g: Flags.Flag :: Flags.HasFlag(AttachFrame(c).flags.value, g) <==> g == Flags.AttachResume
    ensures AttachFrame(c).channelSerial.Some? <==> Truthy(c.serial)
    ensures Truthy(c.serial) ==> AttachFrame(c).channelSerial == c.serial
  {
    forall g: Flags.Flag
      ensures Flags.HasFlag(Flags.Value(Flags.AttachResume), g) <==> g == Flags.AttachResume
    {
      Flags.SingleFlagWord(Flags.AttachResume, g);
    }
  }

  // ---- _check_pending_state and the timer ----

  /** Nothing is sent and no timer is armed unless the connection is CONNECTED. */
  lemma CheckPendingWaitsForConnection(c: Chan, conn: CS.ConnectionState)
    requires conn != CS.Connected
    ensures CheckPending(c, conn) == c
  {
  }

  /** When CONNECTED, ATTACHING arms the timer and sends one ATTACH, DETACHING arms
      the timer and sends one DETACH, and any other state does nothing. */
  lemma CheckPendingSendsOneFrame(c: Chan)
    ensures c.state == Attaching ==>
      CheckPending(c, CS.Connected) == c.(timerArmed := true, sent := c.sent + [AttachFrame(c)])
    ensures c.state == Detaching ==>
      CheckPending(c, CS.Connected) == c.(timerArmed := true, sent := c.sent + [DetachFrame(c)])
    ensures c.state != Attaching && c.state != Detaching ==> CheckPending(c, CS.Connected) == c
  {
  }

  /** Starting the timer when one is armed does nothing, so at most one runs. */
  lemma StartTimerIdempotent(c: Chan)
    ensures StartTimer(c).timerArmed
    ensures c.timerArmed ==> StartTimer(c) == c
    ensures StartTimer(StartTimer(c)) == StartTimer(c)
  {
  }

  /** On expiry ATTACHING becomes SUSPENDED and DETACHING becomes ATTACHED, each
      with a 408 / 90007 timeout reason; any other state only re-runs the pending
      check, which in such a state does nothing. */
  lemma TimerExpiry(c: Chan, conn: CS.ConnectionState)
    requires c.timerArmed
    ensures c.state == Attaching ==>
      var r := TimerFires(c, conn);
      r.state == Suspended && !r.timerArmed && r.sent == c.sent
      && r.internal == c.internal + [StateChange(Attaching, Suspended, false, Some(ATTACH_TIMEOUT))]
    ensures c.state == Detaching ==>
      var r := TimerFires(c, conn);
      r.state == Attached && !r.timerArmed && r.sent == c.sent
      && r.internal == c.internal + [StateChange(Detaching, Attached, false, Some(DETACH_TIMEOUT))]
    ensures c.state != Attaching && c.state != Detaching ==> TimerFires(c, conn) == c.(timerArmed := false)
    ensures ATTACH_TIMEOUT.statusCode == 408 && ATTACH_TIMEOUT.code == 90007
    ensures DETACH_TIMEOUT.statusCode == 408 && DETACH_TIMEOUT.code == 90007
  {
  }

  // ---- attach ----

  /** `attach()` on an ATTACHED channel returns at once: no frame, no record. */
  lemma AttachWhenAttachedIsNoOp(c: Chan, conn: CS.ConnectionState)
    requires c.state == Attached
    ensures AttachStep(c, conn) == Step(c, Done(Success))
  {
  }

  /** Otherwise `attach()` raises 90001 / 400 unless the connection is CONNECTING,
      CONNECTED or DISCONNECTED, and then changes nothing. */
  lemma AttachRejectsConnectionState(c: Chan, conn: CS.ConnectionState)
    requires c.state != Attached && !AttachableConnection(conn)
    ensures AttachStep(c, conn).next == c
    ensures AttachStep(c, conn).call == Done(Raised(Ably(InvalidAttach(c.state))))
    ensures InvalidAttach(c.state).code == 90001 && InvalidAttach(c.state).statusCode == 400
  {
  }

  /** An `attach()` while already ATTACHING requests nothing and sends nothing: it
      waits for the next state change like the first caller. */
  lemma AttachJoinsPendingAttach(c: Chan, conn: CS.ConnectionState)
    requires c.state == Attaching && AttachableConnection(conn)
    ensures AttachStep(c, conn) == Step(c, AwaitChange(|c.internal|))
  {
  }

  /** From any other state `attach()` requests ATTACHING; on a CONNECTED connection
      that emits one record, arms the timer and sends exactly one ATTACH frame. */
  lemma AttachRequestsAttaching(c: Chan)
    requires c.state != Attached && c.state != Attaching
    ensures var s := AttachStep(c, CS.Connected);
      && s.next.state == Attaching && s.next.timerArmed
      && s.next.internal == c.internal + [StateChange(c.state, Attaching, false, None)]
      && s.next.sent == c.sent + [AttachFrame(Notify(c, Attaching, None, false))]
      && s.call == AwaitChange(|c.internal| + 1)
  {
  }

  /** Two `attach()` calls in a row act as one: the second changes nothing, sends
      no second ATTACH and waits on the same state change as the first. */
  lemma ConcurrentAttachesShareOneRequest(c: Chan, conn: CS.ConnectionState)
    ensures AttachStep(AttachStep(c, conn).next, conn) == AttachStep(c, conn)
    ensures |AttachStep(c, conn).next.sent| <= |c.sent| + 1
  {
  }

  // ---- detach ----

  /** `detach()` checks, in this order: a CLOSING or FAILED connection raises
      90001 / 400; INITIALIZED and DETACHED return; SUSPENDED moves straight to
      DETACHED without a frame; FAILED raises (with the code and status swapped,
      as written); anything else requests DETACHING and waits, after the
      connection's `connect()` when that is still CONNECTING. */
  lemma DetachOrder(c: Chan, conn: CS.ConnectionState)
    ensures conn == CS.Closing || conn == CS.Failed ==>
      DetachStep(c, conn) == Step(c, Done(Raised(Ably(InvalidDetach(c.state)))))
      && InvalidDetach(c.state).code == 90001 && InvalidDetach(c.state).statusCode == 400
    ensures conn != CS.Closing && conn != CS.Failed ==>
      && (c.state == Initialized || c.state == Detached ==> DetachStep(c, conn) == Step(c, Done(Success)))
      && (c.state == Suspended ==>
            var s := DetachStep(c, conn);
            s.next.state == Detached && s.next.sent == c.sent && s.call == Done(Success)
            && s.next.internal == c.internal + [StateChange(Suspended, Detached, false, None)])
      && (c.state == Failed ==>
            DetachStep(c, conn) == Step(c, Done(Raised(Ably(DETACH_FAILED_CHANNEL))))
            && DETACH_FAILED_CHANNEL.statusCode == 90001 && DETACH_FAILED_CHANNEL.code == 400)
      && (c.state == Attaching || c.state == Attached || c.state == Detaching ==>
            var s := DetachStep(c, conn);
            s.next == RequestState(c, Detaching, conn) && s.next.state == Detaching
            && s.call == (if conn == CS.Connecting then AwaitConnect else AwaitChange(|s.next.internal|)))
  {
  }

  /** On a CONNECTED connection, detaching an ATTACHED channel emits one record,
      arms the timer and sends exactly one DETACH for it. */
  lemma DetachSendsOneDetach(c: Chan)
    requires c.state == Attached
    ensures var s := DetachStep(c, CS.Connected);
      && s.next.timerArmed
      && s.next.sent == c.sent + [OutboundFrame(DetachAction, c.name, None, None)]
      && s.next.internal == c.internal + [StateChange(Attached, Detaching, false, None)]
  {
  }

  // ---- _on_message ----

  /** A non-empty `channelSerial` overwrites the stored one; only a DETACHED frame
      can then drop it again, through the transition it causes. */
  lemma InboundSerialOverwrites(c: Chan, f: InboundFrame)
    requires Truthy(f.channelSerial) && f.action != DetachedAction
    ensures OnMessage(c, f).serial == f.channelSerial
  {
  }

  /** A frame without a non-empty serial leaves the serial alone unless it causes
      a transition that drops it. */
  lemma InboundWithoutSerialKeepsIt(c: Chan, f: InboundFrame)
    requires !Truthy(f.channelSerial) && f.action != DetachedAction
    ensures OnMessage(c, f).serial == c.serial
  {
  }

  /** ATTACHED on an ATTACHED channel without the RESUMED flag emits one "update"
      with `previous == current == ATTACHED` and no state change; with the flag it
      does nothing. */
  lemma AttachedWhileAttachedIsUpdate(c: Chan, f: InboundFrame)
    requires c.state == Attached && f.action == AttachedAction
    ensures OnMessage(c, f).state == Attached
    ensures OnMessage(c, f).internal == c.internal && OnMessage(c, f).sent == c.sent
    ensures !ResumedFlag(f.flags) ==>
      OnMessage(c, f).public == c.public + [Emission(Update, StateChange(Attached, Attached, false, ErrorReason(f.error)))]
    ensures ResumedFlag(f.flags) ==> OnMessage(c, f).public == c.public
  {
  }

  /** ATTACHED on an ATTACHING channel moves it to ATTACHED with the frame's resumed flag. */
  lemma AttachedWhileAttachingAttaches(c: Chan, f: InboundFrame)
    requires c.state == Attaching && f.action == AttachedAction
    ensures OnMessage(c, f).state == Attached && OnMessage(c, f).attachResume
    ensures OnMessage(c, f).internal ==
      c.internal + [StateChange(Attaching, Attached, ResumedFlag(f.flags), None)]
  {
  }

  /** ATTACHED in any other state, and DETACHED in any state but DETACHING, change
      nothing but the serial. */
  lemma UnsolicitedAcksIgnored(c: Chan, f: InboundFrame)
    requires
      || (f.action == AttachedAction && c.state != Attached && c.state != Attaching)
      || (f.action == DetachedAction && c.state != Detaching)
    ensures OnMessage(c, f) == if Truthy(f.channelSerial) then c.(serial := f.channelSerial) else c
  {
  }

  /** DETACHED on a DETACHING channel moves it to DETACHED. */
  lemma DetachedWhileDetachingDetaches(c: Chan, f: InboundFrame)
    requires c.state == Detaching && f.action == DetachedAction
    ensures OnMessage(c, f).state == Detached && OnMessage(c, f).serial == None
    ensures OnMessage(c, f).internal == c.internal + [StateChange(Detaching, Detached, false, None)]
  {
  }

  /** A MESSAGE frame emits each decoded message, in order, under its own name,
      and changes nothing else but the serial. */
  lemma MessageFrameDelivers(c: Chan, f: InboundFrame)
    requires f.action == MessageAction
    ensures var r := OnMessage(c, f);
      && |r.deliveries| == |c.deliveries| + |f.messages|
      && r.deliveries[..|c.deliveries|] == c.deliveries
      && (forall i :: 0 <= i < |f.messages| ==>
            r.deliveries[|c.deliveries| + i] == Delivery(f.messages[i].name, f.messages[i]))
      && r.state == c.state && r.public == c.public && r.internal == c.internal && r.sent == c.sent
    ensures OnMessage(c, f) ==
      (if Truthy(f.channelSerial) then c.(serial := f.channelSerial) else c)
        .(deliveries := c.deliveries + Deliveries(f.messages))
  {
  }

  // ---- subscribe / unsubscribe ----

  /** A successful `subscribe` registers exactly its listener, under its event or
      for all events, and then behaves as `attach()`; a bad argument list raises
      and changes nothing. */
  lemma SubscribeRegistersThenAttaches(c: Chan, args: seq<Arg>, conn: CS.ConnectionState)
    ensures ParseSubscribeArgs(args).ParseError? ==>
      SubscribeStep(c, args, conn) == Step(c, Done(Raised(ParseSubscribeArgs(args).error)))
    ensures ParseSubscribeArgs(args).Parsed? ==>
      var p := ParseSubscribeArgs(args);
      var registered := c.(listenerCalls := c.listenerCalls + [On(p.event, p.listener.value)]);
      SubscribeStep(c, args, conn) == AttachStep(registered, conn)
      && IsCallableOrCoroutine(p.listener.value)
  {
  }

  /** `unsubscribe()` removes every listener, `unsubscribe(listener)` that listener
      from every event, and `unsubscribe(event, listener)` that one pairing. */
  lemma UnsubscribeForms(c: Chan, event: string, listener: Arg)
    requires IsCallableOrCoroutine(listener) && ArgTruthy(listener)
    ensures UnsubscribeStep(c, []).next.listenerCalls == c.listenerCalls + [OffAll]
    ensures UnsubscribeStep(c, [listener]).next.listenerCalls == c.listenerCalls + [OffListener(listener)]
    ensures UnsubscribeStep(c, [Str(event), listener]).next.listenerCalls ==
      c.listenerCalls + [OffEvent(event, listener)]
  {
  }

  // ---- the invariant over runs ----

  lemma StateChangesAppend(p: seq<Emission>, e: Emission)
    ensures StateChanges(p + [e]) ==
      StateChanges(p) + (if e.event.StateEvent? then [e.change] else [])
  {
    assert (p + [e])[..|p|] == p;
  }

  lemma InitInv(name: string)
    ensures Inv(Init(name))
  {
  }

  /** `Notify` keeps the invariant unless it leaves ATTACHED for a state other
      than DETACHING or FAILED (which no step does). */
  lemma NotifyPreservesInv(c: Chan, s: ChannelState, reason: Option<AblyError>, resumed: bool)
    requires Inv(c)
    requires c.state == Attached && s != Attached ==> s == Detaching || s == Failed
    ensures Inv(Notify(c, s, reason, resumed))
  {
    var r := Notify(c, s, reason, resumed);
    if s != c.state {
      var change := StateChange(c.state, s, resumed, reason);
      StateChangesAppend(c.public, Emission(StateEvent(s), change));
      assert r.internal == c.internal + [change];
      assert LastState(Initialized, r.internal) == s;
      forall i | 0 < i < |r.internal|
        ensures r.internal[i].previous == r.internal[i - 1].current
      {
        assert r.internal[i - 1] == c.internal[i - 1];
        if i < |c.internal| {
          assert r.internal[i] == c.internal[i];
        }
      }
      assert r.public == c.public + [Emission(StateEvent(s), change)];
      forall i | 0 <= i < |r.public|
        ensures WellFormedEmission(r.public[i])
      {
        if i < |c.public| {
          assert r.public[i] == c.public[i];
        }
      }
    }
  }

  lemma CheckPendingPreservesInv(c: Chan, conn: CS.ConnectionState)
    requires Inv(c)
    ensures Inv(CheckPending(c, conn))
  {
  }

  lemma AttachPreservesInv(c: Chan, conn: CS.ConnectionState)
    requires Inv(c)
    ensures Inv(AttachStep(c, conn).next)
  {
    if c.state != Attached && AttachableConnection(conn) && c.state != Attaching {
      NotifyPreservesInv(c, Attaching, None, false);
      CheckPendingPreservesInv(Notify(c, Attaching, None, false), conn);
    }
  }

  lemma DetachPreservesInv(c: Chan, conn: CS.ConnectionState)
    requires Inv(c)
    ensures Inv(DetachStep(c, conn).next)
  {
    if conn != CS.Closing && conn != CS.Failed {
      if c.state == Suspended {
        NotifyPreservesInv(c, Detached, None, false);
      } else if c.state == Attaching || c.state == Attached || c.state == Detaching {
        NotifyPreservesInv(c, Detaching, None, false);
        CheckPendingPreservesInv(Notify(c, Detaching, None, false), conn);
      }
    }
  }

  lemma OnMessagePreservesInv(c: Chan, f: InboundFrame)
    requires Inv(c)
    ensures Inv(OnMessage(c, f))
  {
    var c1 := if Truthy(f.channelSerial) then c.(serial := f.channelSerial) else c;
    assert Inv(c1);
    match f.action
    case AttachedAction =>
      if c1.state == Attached {
        if !ResumedFlag(f.flags) {
          var e := Emission(Update, StateChange(Attached, Attached, false, ErrorReason(f.error)));
          StateChangesAppend(c1.public, e);
        }
      } else if c1.state == Attaching {
        NotifyPreservesInv(c1, Attached, None, ResumedFlag(f.flags));
      }
    case DetachedAction =>
      if c1.state == Detaching {
        NotifyPreservesInv(c1, Detached, None, false);
      }
    case MessageAction =>
    case _ =>
  }

  lemma TimerPreservesInv(c: Chan, conn: CS.ConnectionState)
    requires Inv(c) && c.timerArmed
    ensures Inv(TimerFires(c, conn))
  {
    var c1 := ClearTimer(c);
    if c1.state == Attaching {
      NotifyPreservesInv(c1, Suspended, Some(ATTACH_TIMEOUT), false);
    } else if c1.state == Detaching {
      NotifyPreservesInv(c1, Attached, Some(DETACH_TIMEOUT), false);
    } else {
      CheckPendingPreservesInv(c1, conn);
    }
  }

  lemma ApplyPreservesInv(c: Chan, i: Input)
    requires Inv(c)
    ensures Inv(Apply(c, i))
  {
    match i
    case AttachCalled(conn) => AttachPreservesInv(c, conn);
    case DetachCalled(conn) => DetachPreservesInv(c, conn);
    case FrameReceived(f) => OnMessagePreservesInv(c, f);
    case TimerExpired(conn) => if c.timerArmed { TimerPreservesInv(c, conn); }
    case PendingChecked(conn) => CheckPendingPreservesInv(c, conn);
    case SubscribeCalled(args, conn) =>
      var p := ParseSubscribeArgs(args);
      if p.Parsed? {
        AttachPreservesInv(c.(listenerCalls := c.listenerCalls + [On(p.event, p.listener.value)]), conn);
      }
    case UnsubscribeCalled(args) =>
  }

  lemma {:induction false} RunPreservesInv(c: Chan, inputs: seq<Input>)
    requires Inv(c)
    ensures Inv(Run(c, inputs))
    decreases |inputs|
  {
    if inputs != [] {
      ApplyPreservesInv(c, inputs[0]);
      RunPreservesInv(Apply(c, inputs[0]), inputs[1..]);
    }
  }

  /** In every channel reached from a fresh one by the modelled inputs (these
      exclude the public `state` setter and calls of `_notify_state` from outside
      the channel): a timer is armed only while ATTACHING or DETACHING; the
      resume flag is set exactly while ATTACHED; the internal records form one
      chain from INITIALIZED to the current state, each a real change whose
      `previous` is the state before it; the public emitter received the same
      records, in the same order, besides "update" records; and every frame sent
      is an ATTACH or DETACH for this channel without flags, so ATTACH_RESUME is
      never sent. */
  lemma ReachableInv(name: string, inputs: seq<Input>)
    ensures var c := Run(Init(name), inputs);
      && (c.timerArmed ==> c.state == Attaching || c.state == Detaching)
      && (c.attachResume <==> c.state == Attached)
      && ChainedFrom(Initialized, c.internal)
      && LastState(Initialized, c.internal) == c.state
      && StateChanges(c.public) == c.internal
      && (forall i :: 0 <= i < |c.sent| ==> c.sent[i].channel == name && c.sent[i].flags == None)
  {
    InitInv(name);
    RunPreservesInv(Init(name), inputs);
    var c := Run(Init(name), inputs);
    assert forall i :: 0 <= i < |c.sent| ==> PlainControlFrame(c.name, c.sent[i]);
    RunKeepsName(Init(name), inputs);
  }

  /** The public `state` setter escapes that result: setting an ATTACHED channel
      to ATTACHING and then running the pending check on a CONNECTED connection
      sends an ATTACH whose flags are ATTACH_RESUME. */
  lemma SetterThenCheckSendsAttachResume(c: Chan)
    requires Inv(c) && c.state == Attached
    ensures var r := CheckPending(c.(state := Attaching), CS.Connected);
      && |r.sent| == |c.sent| + 1
      && r.sent[|c.sent|].action == AttachAction
      && r.sent[|c.sent|].flags == Some(Flags.Value(Flags.AttachResume))
  {
  }

  lemma {:induction false} RunKeepsName(c: Chan, inputs: seq<Input>)
    ensures Run(c, inputs).name == c.name
    decreases |inputs|
  {
    if inputs != [] {
      RunKeepsName(Apply(c, inputs[0]), inputs[1..]);
    }
  }

  /** Inputs that are not calls of `attach`, `detach` or `subscribe`. */
  predicate Passive(i: Input) {
    i.FrameReceived? || i.TimerExpired? || i.PendingChecked? || i.UnsubscribeCalled?
  }

  /** A channel that is INITIALIZED, DETACHED, SUSPENDED or FAILED stays in that
      state, sends nothing and emits no state change until `attach`, `detach` or
      `subscribe` is called, whatever frames, expiries and checks arrive. */
  lemma {:induction false} RestingChannelStaysQuiet(c: Chan, inputs: seq<Input>)
    requires Inv(c)
    requires c.state == Initialized || c.state == Detached || c.state == Suspended || c.state == Failed
    requires forall k :: 0 <= k < |inputs| ==> Passive(inputs[k])
    ensures Run(c, inputs).state == c.state
    ensures Run(c, inputs).sent == c.sent
    ensures Run(c, inputs).internal == c.internal
    decreases |inputs|
  {
    if inputs != [] {
      var n := Apply(c, inputs[0]);
      assert n.state == c.state && n.sent == c.sent && n.internal == c.internal;
      ApplyPreservesInv(c, inputs[0]);
      RestingChannelStaysQuiet(n, inputs[1..]);
    }
  }
}
