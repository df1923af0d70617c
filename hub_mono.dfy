/**
 * `HtHubConnectionMono`: the connection used on Mono platforms. Network
 * callbacks never touch the scene; every inbound command and every status
 * change is pushed onto the shared cross-thread queue (`queued`) for the
 * scene's `Update` to drain. The transport is outside the model: each call
 * made on it is appended to `calls`, and how each awaited call ends is a
 * parameter.
 */
module HubMono {
  import opened Wrappers
  import opened Commands
  import opened HubTypes

  /** The two `hub.Remove` calls, each made only when its handle field is set. */
  function Removals(h: nat, hadCommand: bool, hadPredefined: bool): seq<HubCall> {
    (if hadCommand then [Remove(h, ReceiveCommand)] else [])
    + (if hadPredefined then [Remove(h, ReceivePredefined)] else [])
  }

  /** What `StopAsync` asks of the transport: nothing without a connection. */
  function StopCalls(hub: Option<nat>, command: Option<Registration>, predefined: Option<Registration>): seq<HubCall> {
    if hub.None? then []
    else Removals(hub.value, command.Some?, predefined.Some?) + [Stop(hub.value, HubStopTimeoutSeconds), DisposeHub(hub.value)]
  }

  /** What `ConnectAsync` asks of the transport after the optional stop, for new connection `g`. */
  function ConnectCalls(g: nat, gameCode: string, hadCommand: bool, hadPredefined: bool, start: Outcome, join: Outcome): seq<HubCall> {
    [Build(g), Start(g, HubTimeoutSeconds)]
    + (if start.Fail? then Removals(g, hadCommand, hadPredefined) + [DisposeHub(g)]
       else [Invoke(g, JoinGameAsPlayer, gameCode)] + JoinedLogCall(g, gameCode, join))
  }

  /** The "Has joined" log is sent only after a successful join. */
  function JoinedLogCall(g: nat, gameCode: string, join: Outcome): seq<HubCall> {
    if join.Ok? then [Send(g, SendLog, gameCode, LogPayload(JoinedLog))] else []
  }

  /** A connection that fails to start is disposed last, and nothing is ever invoked or sent on it. */
  lemma FailedStartNeverJoins(g: nat, gameCode: string, hadCommand: bool, hadPredefined: bool, start: Outcome, join: Outcome)
    requires start.Fail?
    ensures var cs := ConnectCalls(g, gameCode, hadCommand, hadPredefined, start, join);
      && cs[|cs| - 1] == DisposeHub(g)
      && forall i | 0 <= i < |cs| :: !cs[i].Invoke? && !cs[i].Send?
  {
    var cs := ConnectCalls(g, gameCode, hadCommand, hadPredefined, start, join);
    var rs := Removals(g, hadCommand, hadPredefined);
    assert cs == [Build(g), Start(g, HubTimeoutSeconds)] + rs + [DisposeHub(g)];
    assert forall i | 0 <= i < |rs| :: rs[i].Remove?;
  }

  /** The "Has joined" log goes out exactly when both the start and the join succeed, and only after the join. */
  lemma JoinedLogIffJoined(g: nat, gameCode: string, hadCommand: bool, hadPredefined: bool, start: Outcome, join: Outcome)
    ensures var cs := ConnectCalls(g, gameCode, hadCommand, hadPredefined, start, join);
      && (Send(g, SendLog, gameCode, LogPayload(JoinedLog)) in cs <==> start.Ok? && join.Ok?)
      && (start.Ok? && join.Ok? ==> cs == [Build(g), Start(g, HubTimeoutSeconds), Invoke(g, JoinGameAsPlayer, gameCode), Send(g, SendLog, gameCode, LogPayload(JoinedLog))])
  {
    var cs := ConnectCalls(g, gameCode, hadCommand, hadPredefined, start, join);
    if start.Fail? {
      FailedStartNeverJoins(g, gameCode, hadCommand, hadPredefined, start, join);
    }
  }

  class HtHubConnectionMono {
    const gameCode: string

    /** The current connection, by sequence number; `None` is C#'s `default`. */
    var hub: Option<nat>
    /** How many connections have been built. */
    var built: nat
    /** Whether `Hub_Closed`, `Hub_Reconnected` and `Hub_Reconnecting` are subscribed. */
    var lifecycleSubscribed: bool
    var commandHandler: Option<Registration>
    var predefinedHandler: Option<Registration>
    var disposedValue: bool
    /** Every call made on a transport, in order. */
    var calls: seq<HubCall>
    /** Every entry pushed onto the shared queue, in order. */
    var queued: seq<QueuedItem>

    /** A handle that still delivers belongs to the current connection. */
    ghost predicate HandleValid(r: Option<Registration>) reads this {
      r.Some? ==> r.value.hub <= built && (!r.value.disposed ==> hub == Some(r.value.hub))
    }

    /**
     * The current connection is the last one built, lifecycle events are
     * only subscribed on it, and every other connection ever built has been
     * disposed: none is leaked.
     */
    ghost predicate Valid() reads this {
      && (hub.Some? ==> hub.value == built)
      && (lifecycleSubscribed ==> hub.Some?)
      && HandleValid(commandHandler)
      && HandleValid(predefinedHandler)
      && (forall g: nat | 0 < g <= built && hub != Some(g) :: DisposeHub(g) in calls)
    }

    constructor (gameCode: string)
      ensures Valid() && this.gameCode == gameCode
      ensures hub.None? && built == 0 && !lifecycleSubscribed && !disposedValue
      ensures commandHandler.None? && predefinedHandler.None? && calls == [] && queued == []
    {
      this.gameCode := gameCode;
      hub := None;
      built := 0;
      lifecycleSubscribed := false;
      commandHandler, predefinedHandler := None, None;
      disposedValue := false;
      calls, queued := [], [];
    }

    /** `ConnectionStatusChanged`: queue the status; it never throws. */
    method ConnectionStatusChanged(s: ConnectionStatus)
      modifies this`queued
      ensures queued == old(queued) + [OnConnectionStatusChanged(s)]
    {
      queued := queued + [OnConnectionStatusChanged(s)];
    }

    /** Unsubscribe the lifecycle events, dispose both handles, remove the held ones from `h`. */
    method Detach(h: nat)
      modifies this`lifecycleSubscribed, this`commandHandler, this`predefinedHandler, this`calls
      ensures !lifecycleSubscribed
      ensures commandHandler == DisposedHandle(old(commandHandler))
      ensures predefinedHandler == DisposedHandle(old(predefinedHandler))
      ensures calls == old(calls) + Removals(h, old(commandHandler).Some?, old(predefinedHandler).Some?)
    {
      lifecycleSubscribed := false;
      commandHandler := DisposedHandle(commandHandler);
      predefinedHandler := DisposedHandle(predefinedHandler);
      if commandHandler.Some? {
        calls := calls + [Remove(h, ReceiveCommand)];
      }
      if predefinedHandler.Some? {
        calls := calls + [Remove(h, ReceivePredefined)];
      }
    }

    /**
     * `StopAsync`: without a connection only a warning is logged. Otherwise
     * detach, close gracefully within 150 seconds, and in every case dispose
     * the connection and forget it; an exception from the close is swallowed.
     */
    method StopAsync(stop: Outcome)
      requires Valid()
      modifies this`hub, this`lifecycleSubscribed, this`commandHandler, this`predefinedHandler, this`calls
      ensures Valid()
      ensures hub.None?
      ensures old(hub).Some? ==>
        && !lifecycleSubscribed
        && commandHandler == DisposedHandle(old(commandHandler))
        && predefinedHandler == DisposedHandle(old(predefinedHandler))
      ensures old(hub).None? ==>
        && lifecycleSubscribed == old(lifecycleSubscribed)
        && commandHandler == old(commandHandler) && predefinedHandler == old(predefinedHandler)
      ensures calls == old(calls) + StopCalls(old(hub), old(commandHandler), old(predefinedHandler))
    {
      if hub.None? {
        return;
      }
      var h := hub.value;
      Detach(h);
      // the graceful close may fail; the finally block runs either way
      calls := calls + [Stop(h, HubStopTimeoutSeconds)];
      calls := calls + [DisposeHub(h)];
      hub := None;
    }

    /** A send on the current connection; a failure (or no connection) queues InvokeFailed. */
    method SendOnHub(name: string, payload: Payload, outcome: Outcome)
      requires Valid()
      modifies this`calls, this`queued
      ensures Valid()
      ensures calls == old(calls) + (if hub.Some? then [Send(hub.value, name, gameCode, payload)] else [])
      ensures queued == old(queued) + SendReport(hub.Some?, outcome)
    {
      if hub.None? {
        ConnectionStatusChanged(InvokeFailed(NullReference));
        return;
      }
      calls := calls + [Send(hub.value, name, gameCode, payload)];
      if outcome.Fail? {
        ConnectionStatusChanged(InvokeFailed(outcome.error));
      }
    }

    /** Echo a command under the hub method name "PlayerSendBackHmCommand". */
    method PlayerSendBackHmCommandAsync(model: Option<HmCommand>, echo: Outcome)
      requires Valid()
      modifies this`calls, this`queued
      ensures Valid()
      ensures calls == old(calls) + (if hub.Some? then [Send(hub.value, "PlayerSendBackHmCommand", gameCode, CommandPayload(model))] else [])
      ensures queued == old(queued) + SendReport(hub.Some?, echo)
    {
      SendOnHub("PlayerSendBackHmCommand", CommandPayload(model), echo);
    }

    /** `PlayerSendBackHmCommandPredefined`: echo a predefined command under its own name. */
    method PlayerSendBackHmCommandPredefined(model: Option<PredefinedCommand>, echo: Outcome)
      requires Valid()
      modifies this`calls, this`queued
      ensures Valid()
      ensures calls == old(calls) + (if hub.Some? then [Send(hub.value, "PlayerSendBackHmCommandPredefined", gameCode, PredefinedPayload(model))] else [])
      ensures queued == old(queued) + SendReport(hub.Some?, echo)
    {
      SendOnHub("PlayerSendBackHmCommandPredefined", PredefinedPayload(model), echo);
    }

    /** `PlayerSendLog`: send a log line; its failure is only reported. */
    method PlayerSendLog(log: TextLog, outcome: Outcome)
      requires Valid()
      modifies this`calls, this`queued
      ensures Valid()
      ensures calls == old(calls) + (if hub.Some? then [Send(hub.value, SendLog, gameCode, LogPayload(log))] else [])
      ensures queued == old(queued) + SendReport(hub.Some?, outcome)
    {
      SendOnHub(SendLog, LogPayload(log), outcome);
    }

    /**
     * `ConnectAsync`: stop any existing connection, build a new one and start
     * it within 300 seconds. If the start throws, detach and dispose it,
     * forget it, queue one FailedToConnect and return false. Otherwise
     * subscribe, register both handlers and join the game: a failed join
     * queues InvokeFailed and returns false but keeps the connection; a
     * successful one sends the "Has joined" log, whose own failure is only
     * reported, and returns true.
     */
    method ConnectAsync(stop: Outcome, start: Outcome, join: Outcome, log: Outcome) returns (ok: bool)
      requires Valid()
      modifies this`hub, this`built, this`lifecycleSubscribed, this`commandHandler, this`predefinedHandler,
        this`calls, this`queued
      ensures Valid()
      ensures ok <==> start.Ok? && join.Ok?
      ensures built == old(built) + 1
      ensures calls == old(calls) + StopCalls(old(hub), old(commandHandler), old(predefinedHandler))
        + ConnectCalls(built, gameCode, old(commandHandler).Some?, old(predefinedHandler).Some?, start, join)
      ensures start.Fail? ==>
        && hub.None? && !lifecycleSubscribed
        && commandHandler == DisposedHandle(old(commandHandler))
        && predefinedHandler == DisposedHandle(old(predefinedHandler))
        && queued == old(queued) + [OnConnectionStatusChanged(FailedToConnect(start.error))]
      ensures start.Ok? ==>
        && hub == Some(built) && lifecycleSubscribed
        && LiveOn(commandHandler, built) && LiveOn(predefinedHandler, built)
        && queued == old(queued) + (if join.Fail? then FailureReport(join) else FailureReport(log))
    {
      if hub.Some? {
        StopAsync(stop);
      }
      ok := Open(start, join, log);
    }

    /** Build connection number `built + 1`, record it as current and start it within 300 seconds. */
    method BuildAndStart()
      requires Valid() && hub.None?
      modifies this`hub, this`built, this`calls
      ensures Valid() && built == old(built) + 1 && hub == Some(built)
      ensures calls == old(calls) + [Build(built), Start(built, HubTimeoutSeconds)]
    {
      built := built + 1;
      hub := Some(built);
      calls := calls + [Build(built), Start(built, HubTimeoutSeconds)];
    }

    /** The start failed: detach and dispose the new connection, forget it, report FailedToConnect. */
    method AbandonStart(error: string)
      requires Valid() && hub == Some(built)
      modifies this`hub, this`lifecycleSubscribed, this`commandHandler, this`predefinedHandler, this`calls, this`queued
      ensures Valid() && hub.None? && !lifecycleSubscribed
      ensures commandHandler == DisposedHandle(old(commandHandler))
      ensures predefinedHandler == DisposedHandle(old(predefinedHandler))
      ensures calls == old(calls) + Removals(built, old(commandHandler).Some?, old(predefinedHandler).Some?) + [DisposeHub(built)]
      ensures queued == old(queued) + [OnConnectionStatusChanged(FailedToConnect(error))]
    {
      Detach(built);
      calls := calls + [DisposeHub(built)];
      hub := None;
      ConnectionStatusChanged(FailedToConnect(error));
    }

    /** The start succeeded: subscribe, register both handlers on it and join the game. */
    method SubscribeAndJoin(join: Outcome, log: Outcome)
      requires Valid() && hub == Some(built)
      modifies this`lifecycleSubscribed, this`commandHandler, this`predefinedHandler, this`calls, this`queued
      ensures Valid() && lifecycleSubscribed
      ensures LiveOn(commandHandler, built) && LiveOn(predefinedHandler, built)
      ensures calls == old(calls) + [Invoke(built, JoinGameAsPlayer, gameCode)] + JoinedLogCall(built, gameCode, join)
      ensures queued == old(queued) + (if join.Fail? then FailureReport(join) else FailureReport(log))
    {
      lifecycleSubscribed := true;
      commandHandler := Some(Registration(built, false));
      predefinedHandler := Some(Registration(built, false));
      calls := calls + [Invoke(built, JoinGameAsPlayer, gameCode)];
      if join.Fail? {
        ConnectionStatusChanged(InvokeFailed(join.error));
      } else {
        PlayerSendLog(JoinedLog, log);
      }
    }

    /** `ConnectAsync` once no connection is left: build, start, and subscribe and join or give up. */
    method Open(start: Outcome, join: Outcome, log: Outcome) returns (ok: bool)
      requires Valid() && hub.None?
      modifies this`hub, this`built, this`lifecycleSubscribed, this`commandHandler, this`predefinedHandler,
        this`calls, this`queued
      ensures Valid()
      ensures ok <==> start.Ok? && join.Ok?
      ensures built == old(built) + 1
      ensures calls == old(calls) + ConnectCalls(built, gameCode, old(commandHandler).Some?, old(predefinedHandler).Some?, start, join)
      ensures start.Fail? ==>
        && hub.None? && !lifecycleSubscribed
        && commandHandler == DisposedHandle(old(commandHandler))
        && predefinedHandler == DisposedHandle(old(predefinedHandler))
        && queued == old(queued) + [OnConnectionStatusChanged(FailedToConnect(start.error))]
      ensures start.Ok? ==>
        && hub == Some(built) && lifecycleSubscribed
        && LiveOn(commandHandler, built) && LiveOn(predefinedHandler, built)
        && queued == old(queued) + (if join.Fail? then FailureReport(join) else FailureReport(log))
    {
      BuildAndStart();
      if start.Fail? {
        AbandonStart(start.error);
        return false;
      }
      SubscribeAndJoin(join, log);
      return join.Ok?;
    }

    /** `Hub_Reconnecting`: queue IsReconnecting with the cause. */
    method HubReconnecting(cause: Option<string>)
      modifies this`queued
      ensures queued == old(queued) + [OnConnectionStatusChanged(Reconnecting(cause))]
    {
      ConnectionStatusChanged(Reconnecting(cause));
    }

    /**
     * `Hub_Reconnected`: rejoin the game and log it; a failure of either is
     * reported first, and Reconnected is always queued last.
     */
    method HubReconnected(join: Outcome, log: Outcome)
      requires Valid()
      modifies this`calls, this`queued
      ensures Valid()
      ensures hub.None? ==> calls == old(calls)
      ensures hub.Some? ==>
        calls == old(calls) + [Invoke(hub.value, JoinGameAsPlayer, gameCode)]
          + (if join.Ok? then [Send(hub.value, SendLog, gameCode, LogPayload(RejoinedLog))] else [])
      ensures queued == old(queued)
        + (if hub.None? then [InvokeFailedItem(NullReference)] else if join.Fail? then FailureReport(join) else FailureReport(log))
        + [OnConnectionStatusChanged(Reconnected)]
    {
      if hub.None? {
        ConnectionStatusChanged(InvokeFailed(NullReference));
      } else {
        calls := calls + [Invoke(hub.value, JoinGameAsPlayer, gameCode)];
        if join.Fail? {
          ConnectionStatusChanged(InvokeFailed(join.error));
        } else {
          PlayerSendLog(RejoinedLog, log);
        }
      }
      ConnectionStatusChanged(Reconnected);
    }

    /** `Hub_Closed`: queue one Disconnected; the connection is neither stopped nor reopened. */
    method HubClosed(cause: Option<string>)
      modifies this`queued
      ensures queued == old(queued) + [OnConnectionStatusChanged(Disconnected(cause))]
    {
      ConnectionStatusChanged(Disconnected(cause));
    }

    /**
     * The "PlayerReceiveHmCommand" handler: enqueue the command (an exception
     * from the queue is caught and logged), then echo it in every case.
     */
    method OnPlayerReceiveHmCommand(model: Option<HmCommand>, enqueueOk: bool, echo: Outcome)
      requires Valid()
      modifies this`calls, this`queued
      ensures Valid()
      ensures calls == old(calls) + (if hub.Some? then [Send(hub.value, "PlayerSendBackHmCommand", gameCode, CommandPayload(model))] else [])
      ensures queued == old(queued) + (if enqueueOk then [PlayerReceiveHmCommand(model)] else []) + SendReport(hub.Some?, echo)
    {
      if enqueueOk {
        queued := queued + [PlayerReceiveHmCommand(model)];
      }
      PlayerSendBackHmCommandAsync(model, echo);
    }

    /** The "PlayerReceiveHmCommandPredefined" handler: enqueue, then always echo. */
    method OnPlayerReceiveHmCommandPredefined(model: Option<PredefinedCommand>, enqueueOk: bool, echo: Outcome)
      requires Valid()
      modifies this`calls, this`queued
      ensures Valid()
      ensures calls == old(calls) + (if hub.Some? then [Send(hub.value, "PlayerSendBackHmCommandPredefined", gameCode, PredefinedPayload(model))] else [])
      ensures queued == old(queued) + (if enqueueOk then [PlayerReceiveHmCommandPredefined(model)] else []) + SendReport(hub.Some?, echo)
    {
      if enqueueOk {
        queued := queued + [PlayerReceiveHmCommandPredefined(model)];
      }
      PlayerSendBackHmCommandPredefined(model, echo);
    }

    /**
     * `DisposeAsync`: the first call disposes the connection (without
     * forgetting it) and both handles; later calls change nothing.
     */
    method DisposeAsync()
      requires Valid()
      modifies this`commandHandler, this`predefinedHandler, this`calls, this`disposedValue
      ensures Valid() && disposedValue
      ensures old(disposedValue) ==> unchanged(this)
      ensures !old(disposedValue) ==>
        (&& calls == old(calls) + (if hub.Some? then [DisposeHub(hub.value)] else [])
        && commandHandler == DisposedHandle(old(commandHandler))
        && predefinedHandler == DisposedHandle(old(predefinedHandler)))
    {
      if !disposedValue {
        if hub.Some? {
          calls := calls + [DisposeHub(hub.value)];
        }
        commandHandler := DisposedHandle(commandHandler);
        predefinedHandler := DisposedHandle(predefinedHandler);
        disposedValue := true;
      }
    }
  }
}
