/**
 * What the two hub connection classes share: the transport calls they make
 * (recorded in order, since the transport itself is outside the model), the
 * outcome of each call (an input), handler registrations, and the constants.
 */
module HubTypes {
  import opened Wrappers
  import opened Commands

  /** Overall timeout for opening the connection, in seconds (`Constants.HubTimeoutSeconds`). */
  const HubTimeoutSeconds := 300
  /** Bound on the graceful close, in seconds (`Constants.HubStopTimeoutSeconds`). */
  const HubStopTimeoutSeconds := 150

  const JoinGameAsPlayer := "JoinGameAsPlayer"
  const ReceiveCommand := "PlayerReceiveHmCommand"
  const ReceivePredefined := "PlayerReceiveHmCommandPredefined"
  const SendLog := "PlayerSendLog"

  /** The message of the exception .NET throws when a call goes through a null reference. */
  const NullReference := "Object reference not set to an instance of an object."

  const JoinedLog := TextLog("A player", "Has joined")
  const RejoinedLog := TextLog("A player", "Has joined (reconnected)")

  /** How an awaited transport call ended: normally, or by throwing an exception with this message. */
  datatype Outcome = Ok | Fail(error: string)

  datatype Payload =
    | CommandPayload(command: Option<HmCommand>)
    | PredefinedPayload(predefined: Option<PredefinedCommand>)
    | LogPayload(log: TextLog)

  /**
   * A call on the transport. Connections and token sources are named by the
   * sequence number of the connection they were created for.
   */
  datatype HubCall =
    | Build(hub: nat)
    | Start(hub: nat, timeoutSeconds: int)
    | Invoke(hub: nat, name: string, gameCode: string)
    | Send(hub: nat, name: string, gameCode: string, payload: Payload)
    | Remove(hub: nat, name: string)
    | Stop(hub: nat, timeoutSeconds: int)
    | DisposeHub(hub: nat)
    | CreateToken(token: nat, timeoutSeconds: int)
    | CancelToken(token: nat)
    | DisposeToken(token: nat)

  /** The handle `hub.On(...)` returns: the connection it was made on, and whether it was disposed. */
  datatype Registration = Registration(hub: nat, disposed: bool)

  /** `handler?.Dispose()`: a held handle is disposed, an absent one stays absent. */
  function DisposedHandle(r: Option<Registration>): (d: Option<Registration>)
    ensures d.Some? <==> r.Some?
    ensures d.Some? ==> d.value.disposed && d.value.hub == r.value.hub
  {
    if r.Some? then Some(r.value.(disposed := true)) else None
  }

  /** A handle that still delivers messages for connection `hub`. */
  predicate LiveOn(r: Option<Registration>, hub: nat) {
    r == Some(Registration(hub, false))
  }

  /** The status queued or raised when a call ends with an exception. */
  function InvokeFailedItem(error: string): QueuedItem {
    OnConnectionStatusChanged(InvokeFailed(error))
  }

  /** The statuses a call with this outcome reports: one InvokeFailed carrying the error, or none. */
  function FailureReport(o: Outcome): (r: seq<QueuedItem>)
    ensures |r| <= 1
    ensures r == [] <==> o.Ok?
    ensures o.Fail? ==> r[0].OnConnectionStatusChanged? && r[0].status.invokeFailed && r[0].status.exception == Some(o.error)
  {
    if o.Fail? then [InvokeFailedItem(o.error)] else []
  }

  /**
   * What a send reports: with no connection the call throws a null
   * reference before reaching the transport; otherwise the call's own
   * failure, if any.
   */
  function SendReport(connected: bool, o: Outcome): (r: seq<QueuedItem>)
    ensures |r| <= 1
    ensures r == [] <==> connected && o.Ok?
    ensures !connected ==> r == [InvokeFailedItem(NullReference)]
    ensures connected ==> r == FailureReport(o)
    ensures connected && o.Fail? ==> r == [InvokeFailedItem(o.error)]
  {
    if !connected then [InvokeFailedItem(NullReference)] else FailureReport(o)
  }
}
