/**
 * `HtHubConnection`: the connection used where the scene is driven by
 * events. It raises `OnHmCommand`, `OnHmPredefinedCommand` and
 * `OnConnectionStatusChanged` directly on the calling thread (`raised`
 * records them in order) and owns a cancellation token source created with
 * each connection, whose token every later call on that connection carries.
 * Both the connection and its token source are numbered by the connection
 * attempt that created them.
 */
module HubDirect {
  import opened Wrappers
  import opened Commands
  import opened HubTypes

  /** Both handler names are removed, whether or not they were registered. */
  function Removals(h: nat): seq<HubCall> {
    [Remove(h, ReceiveCommand), Remove(h, ReceivePredefined)]
  }

  /** The message of the exception a disposed token source throws when used. */
  const DisposedTokenSource := "The CancellationTokenSource has been disposed."

  /**
   * What `StopAsync` asks of the transport and the token source: nothing
   * without a connection. When the token source is already disposed,
   * cancelling it throws, so the graceful close is skipped and only the
   * `finally` block's disposals run.
   */
  function StopCalls(hub: Option<nat>, tokenDisposed: bool): seq<HubCall> {
    if hub.None? then []
    else
      var close := if tokenDisposed then [] else [CancelToken(hub.value), Stop(hub.value, HubStopTimeoutSeconds)];
      Removals(hub.value) + close + [DisposeHub(hub.value), DisposeToken(hub.value)]
  }

  /** Stopping after `DisposeAsync` still releases both, but never closes gracefully. */
  lemma StopAfterDisposeSkipsClose(h: nat)
    ensures var cs := StopCalls(Some(h), true);
      && cs[|cs| - 2..] == [DisposeHub(h), DisposeToken(h)]
      && forall i | 0 <= i < |cs| :: !cs[i].Stop? && !cs[i].CancelToken?
  {
    assert StopCalls(Some(h), true) == [Remove(h, ReceiveCommand), Remove(h, ReceivePredefined), DisposeHub(h), DisposeToken(h)];
  }

  /**
   * What a send raises: with no connection the token read throws a null
   * reference, with a disposed token source it throws ObjectDisposedException;
   * otherwise the call's own failure, if any.
   */
  function TokenSendReport(connected: bool, tokenDisposed: bool, o: Outcome): (r: seq<QueuedItem>)
    ensures |r| <= 1
    ensures r == [] <==> connected && !tokenDisposed && o.Ok?
    ensures connected && tokenDisposed ==> r == [InvokeFailedItem(DisposedTokenSource)]
    ensures !(connected && tokenDisposed) ==> r == SendReport(connected, o)
  {
    if connected && tokenDisposed then [InvokeFailedItem(DisposedTokenSource)] else SendReport(connected, o)
  }

  /** What `ConnectAsync` asks after the optional stop, for attempt `g`; a join is never logged. */
  function ConnectCalls(g: nat, gameCode: string, start: Outcome): seq<HubCall> {
    [CreateToken(g, HubTimeoutSeconds), Build(g), Start(g, HubTimeoutSeconds)]
    + (if start.Fail? then Removals(g) + [DisposeHub(g), DisposeToken(g)]
       else [Invoke(g, JoinGameAsPlayer, gameCode)])
  }

  /** A failed start releases the connection and then its token source, and nothing is invoked or sent. */
  lemma FailedStartReleasesBoth(g: nat, gameCode: string, start: Outcome)
    requires start.Fail?
    ensures var cs := ConnectCalls(g, gameCode, start);
      && cs[|cs| - 2..] == [DisposeHub(g), DisposeToken(g)]
      && forall i | 0 <= i < |cs| :: !cs[i].Invoke? && !cs[i].Send?
  {
    var cs := ConnectCalls(g, gameCode, start);
    assert cs == [CreateToken(g, HubTimeoutSeconds), Build(g), Start(g, HubTimeoutSeconds),
      Remove(g, ReceiveCommand), Remove(g, ReceivePredefined), DisposeHub(g), DisposeToken(g)];
  }

  /** Unlike the queued connection, a successful connect sends nothing: the join is the last call. */
  lemma ConnectNeverLogs(g: nat, gameCode: string, start: Outcome)
    ensures var cs := ConnectCalls(g, gameCode, start);
      && (forall i | 0 <= i < |cs| :: !cs[i].Send?)
      && (start.Ok? <==> cs[|cs| - 1] == Invoke(g, JoinGameAsPlayer, gameCode))
  {
    var cs := ConnectCalls(g, gameCode, start);
    if start.Fail? {
      FailedStartReleasesBoth(g, gameCode, start);
    } else {
      assert cs == [CreateToken(g, HubTimeoutSeconds), Build(g), Start(g, HubTimeoutSeconds), Invoke(g, JoinGameAsPlayer, gameCode)];
    }
  }

  class HtHubConnection {
    const gameCode: string

    /** The current connection and token source; `None` is C#'s `default`. */
    var hub: Option<nat>
    var cts: Option<nat>
    /** Whether the token source in `cts` was disposed by `DisposeAsync` (the field keeps it). */
    var ctsDisposed: bool
    /** How many connection attempts have created a token source and a connection. */
    var built: nat
    /** Whether `Hub_Closed`, `Hub_Reconnected` and `Hub_Reconnecting` are subscribed. */
    var lifecycleSubscribed: bool
    var commandHandler: Option<Registration>
    var predefinedHandler: Option<Registration>
    var disposedValue: bool
    /** Every call made on a transport or token source, in order. */
    var calls: seq<HubCall>
    /** Every event raised to subscribers, in order. */
    var raised: seq<QueuedItem>

    ghost predicate HandleValid(r: Option<Registration>) reads this {
      r.Some? ==> r.value.hub <= built && (!r.value.disposed ==> hub == Some(r.value.hub))
    }

    /**
     * The connection and its token source exist together and come from the
     * latest attempt; lifecycle events are only subscribed on it; every
     * earlier connection and token source has been disposed.
     */
    ghost predicate Valid() reads this {
      && (hub.Some? <==> cts.Some?)
      && (ctsDisposed ==> cts.Some?)
      && (hub.Some? ==> hub.value == built && cts.value == built)
      && (lifecycleSubscribed ==> hub.Some?)
      && HandleValid(commandHandler)
      && HandleValid(predefinedHandler)
      && (forall g: nat | 0 < g <= built && hub != Some(g) :: DisposeHub(g) in calls && DisposeToken(g) in calls)
    }

    constructor (gameCode: string)
      ensures Valid() && this.gameCode == gameCode
      ensures hub.None? && cts.None? && !ctsDisposed && built == 0 && !lifecycleSubscribed && !disposedValue
      ensures commandHandler.None? && predefinedHandler.None? && calls == [] && raised == []
    {
      this.gameCode := gameCode;
      hub, cts := None, None;
      ctsDisposed := false;
      built := 0;
      lifecycleSubscribed := false;
      commandHandler, predefinedHandler := None, None;
      disposedValue := false;
      calls, raised := [], [];
    }

    /** `ConnectionStatusChanged`: raise the event to the subscribers. */
    method ConnectionStatusChanged(s: ConnectionStatus)
      modifies this`raised
      ensures raised == old(raised) + [OnConnectionStatusChanged(s)]
    {
      raised := raised + [OnConnectionStatusChanged(s)];
    }

    /** Unsubscribe the lifecycle events, remove both handler names from `h`, dispose both handles. */
    method Detach(h: nat)
      modifies this`lifecycleSubscribed, this`commandHandler, this`predefinedHandler, this`calls
      ensures !lifecycleSubscribed
      ensures commandHandler == DisposedHandle(old(commandHandler))
      ensures predefinedHandler == DisposedHandle(old(predefinedHandler))
      ensures calls == old(calls) + Removals(h)
    {
      lifecycleSubscribed := false;
      calls := calls + Removals(h);
      commandHandler := DisposedHandle(commandHandler);
      predefinedHandler := DisposedHandle(predefinedHandler);
    }

    /**
     * `StopAsync`: without a connection only a warning is logged. Otherwise
     * detach, cancel the shared token, close within 150 seconds, and in
     * every case dispose the connection and the token source and forget
     * both; an exception from the cancel or the close is swallowed.
     */
    method StopAsync(stop: Outcome)
      requires Valid()
      modifies this`hub, this`cts, this`ctsDisposed, this`lifecycleSubscribed, this`commandHandler, this`predefinedHandler, this`calls
      ensures Valid()
      ensures hub.None? && cts.None? && !ctsDisposed
      ensures old(hub).Some? ==>
        && !lifecycleSubscribed
        && commandHandler == DisposedHandle(old(commandHandler))
        && predefinedHandler == DisposedHandle(old(predefinedHandler))
      ensures old(hub).None? ==>
        && lifecycleSubscribed == old(lifecycleSubscribed)
        && commandHandler == old(commandHandler) && predefinedHandler == old(predefinedHandler)
      ensures calls == old(calls) + StopCalls(old(hub), old(ctsDisposed))
    {
      if hub.None? {
        return;
      }
      var h := hub.value;
      Detach(h);
      if !ctsDisposed {
        calls := calls + [CancelToken(h), Stop(h, HubStopTimeoutSeconds)];
      }
      // the finally block runs whether or not the cancel and the close succeeded
      calls := calls + [DisposeHub(h), DisposeToken(h)];
      hub, cts := None, None;
      ctsDisposed := false;
    }

    /** A send on the current connection with the shared token; a failure raises InvokeFailed. */
    method SendOnHub(name: string, payload: Payload, outcome: Outcome)
      requires Valid()
      modifies this`calls, this`raised
      ensures Valid()
      ensures calls == old(calls) + (if hub.Some? && !ctsDisposed then [Send(hub.value, name, gameCode, payload)] else [])
      ensures raised == old(raised) + TokenSendReport(hub.Some?, ctsDisposed, outcome)
    {
      if hub.None? {
        ConnectionStatusChanged(InvokeFailed(NullReference));
        return;
      }
      if ctsDisposed {
        ConnectionStatusChanged(InvokeFailed(DisposedTokenSource));
        return;
      }
      calls := calls + [Send(hub.value, name, gameCode, payload)];
      if outcome.Fail? {
        ConnectionStatusChanged(InvokeFailed(outcome.error));
      }
    }

    /** `PlayerSendBackHmCommandAsync`: echo a command, under the method's own name. */
    method PlayerSendBackHmCommandAsync(model: Option<HmCommand>, echo: Outcome)
      requires Valid()
      modifies this`calls, this`raised
      ensures Valid()
      ensures calls == old(calls) + (if hub.Some? && !ctsDisposed then [Send(hub.value, "PlayerSendBackHmCommandAsync", gameCode, CommandPayload(model))] else [])
      ensures raised == old(raised) + TokenSendReport(hub.Some?, ctsDisposed, echo)
    {
      SendOnHub("PlayerSendBackHmCommandAsync", CommandPayload(model), echo);
    }

    /** `PlayerSendBackHmCommandPredefined`: echo a predefined command. */
    method PlayerSendBackHmCommandPredefined(model: Option<PredefinedCommand>, echo: Outcome)
      requires Valid()
      modifies this`calls, this`raised
      ensures Valid()
      ensures calls == old(calls) + (if hub.Some? && !ctsDisposed then [Send(hub.value, "PlayerSendBackHmCommandPredefined", gameCode, PredefinedPayload(model))] else [])
      ensures raised == old(raised) + TokenSendReport(hub.Some?, ctsDisposed, echo)
    {
      SendOnHub("PlayerSendBackHmCommandPredefined", PredefinedPayload(model), echo);
    }

    /** `PlayerSendLog`: send a log line; its failure is only reported. */
    method PlayerSendLog(log: TextLog, outcome: Outcome)
      requires Valid()
      modifies this`calls, this`raised
      ensures Valid()
      ensures calls == old(calls) + (if hub.Some? && !ctsDisposed then [Send(hub.value, SendLog, gameCode, LogPayload(log))] else [])
      ensures raised == old(raised) + TokenSendReport(hub.Some?, ctsDisposed, outcome)
    {
      SendOnHub(SendLog, LogPayload(log), outcome);
    }

    /** Create a token source of 300 seconds and a connection for attempt `built + 1`, and start it. */
    method CreateAndStart()
      requires Valid() && hub.None?
      modifies this`hub, this`cts, this`built, this`calls
      ensures Valid() && built == old(built) + 1 && hub == Some(built) && cts == Some(built) && !ctsDisposed
      ensures calls == old(calls) + [CreateToken(built, HubTimeoutSeconds), Build(built), Start(built, HubTimeoutSeconds)]
    {
      built := built + 1;
      cts := Some(built);
      hub := Some(built);
      calls := calls + [CreateToken(built, HubTimeoutSeconds), Build(built), Start(built, HubTimeoutSeconds)];
    }

    /** The start failed: detach, dispose the connection and the token source, forget both, report it. */
    method AbandonStart(error: string)
      requires Valid() && hub == Some(built) && !ctsDisposed
      modifies this`hub, this`cts, this`lifecycleSubscribed, this`commandHandler, this`predefinedHandler, this`calls, this`raised
      ensures Valid() && hub.None? && cts.None? && !lifecycleSubscribed
      ensures commandHandler == DisposedHandle(old(commandHandler))
      ensures predefinedHandler == DisposedHandle(old(predefinedHandler))
      ensures calls == old(calls) + Removals(built) + [DisposeHub(built), DisposeToken(built)]
      ensures raised == old(raised) + [OnConnectionStatusChanged(FailedToConnect(error))]
    {
      Detach(built);
      calls := calls + [DisposeHub(built), DisposeToken(built)];
      hub, cts := None, None;
      ConnectionStatusChanged(FailedToConnect(error));
    }

    /** The start succeeded: subscribe, register both handlers and join the game. */
    method SubscribeAndJoin(join: Outcome)
      requires Valid() && hub == Some(built)
      modifies this`lifecycleSubscribed, this`commandHandler, this`predefinedHandler, this`calls, this`raised
      ensures Valid() && lifecycleSubscribed
      ensures LiveOn(commandHandler, built) && LiveOn(predefinedHandler, built)
      ensures calls == old(calls) + [Invoke(built, JoinGameAsPlayer, gameCode)]
      ensures raised == old(raised) + FailureReport(join)
    {
      lifecycleSubscribed := true;
      commandHandler := Some(Registration(built, false));
      predefinedHandler := Some(Registration(built, false));
      calls := calls + [Invoke(built, JoinGameAsPlayer, gameCode)];
      if join.Fail? {
        ConnectionStatusChanged(InvokeFailed(join.error));
      }
    }

    /**
     * `ConnectAsync`: stop any existing connection, then create the token
     * source and the connection and start it. A failed start releases both,
     * raises one FailedToConnect and returns false; otherwise subscribe,
     * register both handlers and join: a failed join raises InvokeFailed and
     * returns false but keeps the connection.
     */
    method ConnectAsync(stop: Outcome, start: Outcome, join: Outcome) returns (ok: bool)
      requires Valid()
      modifies this`hub, this`cts, this`ctsDisposed, this`built, this`lifecycleSubscribed, this`commandHandler, this`predefinedHandler,
        this`calls, this`raised
      ensures Valid()
      ensures ok <==> start.Ok? && join.Ok?
      ensures built == old(built) + 1
      ensures calls == old(calls) + StopCalls(old(hub), old(ctsDisposed)) + ConnectCalls(built, gameCode, start)
      ensures start.Fail? ==>
        && hub.None? && cts.None? && !lifecycleSubscribed
        && commandHandler == DisposedHandle(old(commandHandler))
        && predefinedHandler == DisposedHandle(old(predefinedHandler))
        && raised == old(raised) + [OnConnectionStatusChanged(FailedToConnect(start.error))]
      ensures start.Ok? ==>
        && hub == Some(built) && cts == Some(built) && lifecycleSubscribed
        && LiveOn(commandHandler, built) && LiveOn(predefinedHandler, built)
        && raised == old(raised) + FailureReport(join)
    {
      if hub.Some? {
        StopAsync(stop);
      }
      ok := Open(start, join);
    }

    /** `ConnectAsync` once no connection is left. */
    method Open(start: Outcome, join: Outcome) returns (ok: bool)
      requires Valid() && hub.None?
      modifies this`hub, this`cts, this`ctsDisposed, this`built, this`lifecycleSubscribed, this`commandHandler, this`predefinedHandler,
        this`calls, this`raised
      ensures Valid()
      ensures ok <==> start.Ok? && join.Ok?
      ensures built == old(built) + 1
      ensures calls == old(calls) + ConnectCalls(built, gameCode, start)
      ensures start.Fail? ==>
        && hub.None? && cts.None? && !lifecycleSubscribed
        && commandHandler == DisposedHandle(old(commandHandler))
        && predefinedHandler == DisposedHandle(old(predefinedHandler))
        && raised == old(raised) + [OnConnectionStatusChanged(FailedToConnect(start.error))]
      ensures start.Ok? ==>
        && hub == Some(built) && cts == Some(built) && lifecycleSubscribed
        && LiveOn(commandHandler, built) && LiveOn(predefinedHandler, built)
        && raised == old(raised) + FailureReport(join)
    {
      CreateAndStart();
      if start.Fail? {
        AbandonStart(start.error);
        return false;
      }
      SubscribeAndJoin(join);
      return join.Ok?;
    }

    /** `Hub_Reconnecting`: raise IsReconnecting with the cause. */
    method HubReconnecting(cause: Option<string>)
      modifies this`raised
      ensures raised == old(raised) + [OnConnectionStatusChanged(Reconnecting(cause))]
    {
      ConnectionStatusChanged(Reconnecting(cause));
    }

    /** `Hub_Reconnected`: raise Reconnected; the game is not rejoined and nothing is sent. */
    method HubReconnected()
      modifies this`raised
      ensures raised == old(raised) + [OnConnectionStatusChanged(Reconnected)]
    {
      ConnectionStatusChanged(Reconnected);
    }

    /** `Hub_Closed`: raise Disconnected with the cause, then stop and release the connection. */
    method HubClosed(cause: Option<string>, stop: Outcome)
      requires Valid()
      modifies this`hub, this`cts, this`ctsDisposed, this`lifecycleSubscribed, this`commandHandler, this`predefinedHandler,
        this`calls, this`raised
      ensures Valid()
      ensures hub.None? && cts.None? && !ctsDisposed
      ensures raised == old(raised) + [OnConnectionStatusChanged(Disconnected(cause))]
      ensures calls == old(calls) + StopCalls(old(hub), old(ctsDisposed))
    {
      ConnectionStatusChanged(Disconnected(cause));
      StopAsync(stop);
    }

    /**
     * The "PlayerReceiveHmCommand" handler: raise `OnHmCommand`, then echo.
     * A subscriber that throws ends the handler before the echo.
     */
    method OnPlayerReceiveHmCommand(model: Option<HmCommand>, subscriberThrows: bool, echo: Outcome)
      requires Valid()
      modifies this`calls, this`raised
      ensures Valid()
      ensures subscriberThrows ==> calls == old(calls) && raised == old(raised) + [PlayerReceiveHmCommand(model)]
      ensures !subscriberThrows ==>
        && calls == old(calls) + (if hub.Some? && !ctsDisposed then [Send(hub.value, "PlayerSendBackHmCommandAsync", gameCode, CommandPayload(model))] else [])
        && raised == old(raised) + [PlayerReceiveHmCommand(model)] + TokenSendReport(hub.Some?, ctsDisposed, echo)
    {
      raised := raised + [PlayerReceiveHmCommand(model)];
      if !subscriberThrows {
        PlayerSendBackHmCommandAsync(model, echo);
      }
    }

    /** The "PlayerReceiveHmCommandPredefined" handler: raise `OnHmPredefinedCommand`, then echo. */
    method OnPlayerReceiveHmCommandPredefined(model: Option<PredefinedCommand>, subscriberThrows: bool, echo: Outcome)
      requires Valid()
      modifies this`calls, this`raised
      ensures Valid()
      ensures subscriberThrows ==> calls == old(calls) && raised == old(raised) + [PlayerReceiveHmCommandPredefined(model)]
      ensures !subscriberThrows ==>
        && calls == old(calls) + (if hub.Some? && !ctsDisposed then [Send(hub.value, "PlayerSendBackHmCommandPredefined", gameCode, PredefinedPayload(model))] else [])
        && raised == old(raised) + [PlayerReceiveHmCommandPredefined(model)] + TokenSendReport(hub.Some?, ctsDisposed, echo)
    {
      raised := raised + [PlayerReceiveHmCommandPredefined(model)];
      if !subscriberThrows {
        PlayerSendBackHmCommandPredefined(model, echo);
      }
    }

    /**
     * `DisposeAsync`: the first call disposes the connection, both handles
     * and the token source, without forgetting them; later calls change
     * nothing.
     */
    method DisposeAsync()
      requires Valid()
      modifies this`commandHandler, this`predefinedHandler, this`calls, this`ctsDisposed, this`disposedValue
      ensures Valid() && disposedValue
      ensures old(disposedValue) ==> unchanged(this)
      ensures !old(disposedValue) ==>
        (&& calls == old(calls) + (if hub.Some? then [DisposeHub(hub.value), DisposeToken(cts.value)] else [])
         && ctsDisposed == cts.Some?
         && commandHandler == DisposedHandle(old(commandHandler))
         && predefinedHandler == DisposedHandle(old(predefinedHandler)))
    {
      if !disposedValue {
        if hub.Some? {
          calls := calls + [DisposeHub(hub.value)];
        }
        commandHandler := DisposedHandle(commandHandler);
        predefinedHandler := DisposedHandle(predefinedHandler);
        if cts.Some? {
          calls := calls + [DisposeToken(cts.value)];
          ctsDisposed := true;
        }
        disposedValue := true;
      }
    }
  }
}
