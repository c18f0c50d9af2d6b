/** `RealtimeConnection`: the connection object whose methods update its state,
    its pending "connected" future and its websocket in place. Each method is
    proved to perform the matching step of `ConnectionSpec`. */
module Connection {
  import opened Errors
  import opened Protocol
  import opened ConnectionSpec

  class RealtimeConnection {
    var state: ConnectionState
    /** `__connected_future`. */
    var connectedFuture: Future
    /** The result of every future created so far, by id. */
    var futures: seq<FutureResult>
    /** The number of `connect_impl` tasks started. */
    var connectTasks: nat
    var websocket: WebSocket

    function Snapshot(): Conn
      reads this
    {
      Conn(state, connectedFuture, futures, connectTasks, websocket)
    }

    ghost predicate Valid()
      reads this
    {
      Inv(Snapshot())
    }

    constructor ()
      ensures Valid() && Snapshot() == Init()
    {
      state := Initialized;
      connectedFuture := NoFuture;
      futures := [];
      connectTasks := 0;
      websocket := NoSocket;
    }

    /** `connect()` up to its first await: the outcome, or the future to await. */
    method Connect() returns (call: ConnectCall)
      requires Valid()
      modifies this
      ensures Valid()
      ensures Snapshot() == ConnectionSpec.Connect(old(Snapshot())).next
      ensures call == ConnectionSpec.Connect(old(Snapshot())).call
    {
      if state == Connected {
        return ConnectDone(Success);
      }
      if state == Connecting {
        if connectedFuture == NoFuture {
          // CONNECTING without a future is logged as fatal, and connect() returns.
          return ConnectDone(Success);
        }
        return AwaitFuture(connectedFuture.id, false);
      }
      state := Connecting;
      var id := |futures|;
      futures := futures + [Unresolved];
      connectedFuture := Pending(id);
      connectTasks := connectTasks + 1;
      call := AwaitFuture(id, true);
    }

    /** The rest of `connect()`, once future `id` has settled. */
    method ResumeConnect(id: nat, owner: bool) returns (outcome: Outcome)
      requires Valid() && Settled(Snapshot(), id)
      modifies this
      ensures Valid()
      ensures Snapshot() == ConnectionSpec.ResumeConnect(old(Snapshot()), id, owner).next
      ensures outcome == ConnectionSpec.ResumeConnect(old(Snapshot()), id, owner).call.outcome
    {
      var result := futures[id];
      if result.FailedWith? {
        return Raised(Auth(result.error));
      }
      if owner {
        state := Connected;
      }
      outcome := Success;
    }

    /** `close()`, which always ends in CLOSED. */
    method Close()
      requires Valid()
      modifies this
      ensures Valid()
      ensures Snapshot() == ConnectionSpec.Close(old(Snapshot()))
    {
      state := Closing;
      if websocket != NoSocket {
        websocket := ClosedSocket;
      }
      // Without a websocket the anomaly is only logged.
      state := Closed;
    }

    /** `connect_impl` has opened the websocket. */
    method TransportOpened()
      requires Valid()
      modifies this
      ensures Valid()
      ensures Snapshot() == ConnectionSpec.TransportOpened(old(Snapshot()))
    {
      websocket := Open;
    }

    /** The body of `ws_read_loop` for one decoded frame. */
    method HandleFrame(action: int, error: ErrorInfo)
      requires Valid()
      modifies this
      ensures Valid()
      ensures Snapshot() == ConnectionSpec.HandleFrame(old(Snapshot()), action, error)
    {
      if action == CONNECTED_ACTION {
        if connectedFuture.Pending? {
          futures := futures[connectedFuture.id := Resolved];
          connectedFuture := NoFuture;
        }
        // Otherwise the unexpected CONNECTED is only logged.
      }
      if action == ERROR_ACTION {
        if error.nonfatal == JBool(false) && connectedFuture.Pending? {
          futures := futures[connectedFuture.id := FailedWith(AblyError(error.message, error.statusCode, error.code))];
          connectedFuture := NoFuture;
        }
      }
    }
  }
}
