/**
 * How a connection status event is shown to the player
 * (`Hub_OnConnectionStatusChanged`): the error banner, its text, and whether
 * the reconnect button is offered.
 */
module StatusBanner {
  import opened Wrappers
  import opened Commands

  const ConnectingText := "Connecting to hub..."
  const WaitingForModerator := "Connected to hub. Waiting for Game Moderator..."
  const ConnectErrorText := "Error connecting to hub..."
  const ReconnectingText := "Reconnecting..."
  const DisconnectedText := "Disconnected from hub. If problem persists, exit game and enter game again."
  const InvokeFailedText := "Failed to call hub invoke. If problem persists, exit game and enter game again."
  const FailedToConnectText := "Not able to connect to hub. If problem persists, exit game and enter game again."

  /**
   * The waiting text once `Start`'s `ConnectAsync` returns (GameSceneController.cs:164-174).
   * A failure says so on every platform. On success, only builds with Mono
   * (the editor included) switch to the moderator wait here; elsewhere the
   * first JS-side "connected" status does it.
   */
  function WaitingTextAfterConnect(text: string, connected: bool, monoPlatform: bool): (r: string)
    ensures !connected ==> r == ConnectErrorText
    ensures connected && monoPlatform ==> r == WaitingForModerator
    ensures connected && !monoPlatform ==> r == text
  {
    if !connected then ConnectErrorText
    else if monoPlatform then WaitingForModerator
    else text
  }

  /** The decision: each `None` leaves that widget as it was. */
  datatype Banner = Banner(
    consumeFirstJs: bool,          // isFirstConnectedJs becomes false
    waitingText: Option<string>,   // new txtWaitingText
    errorCanvas: bool,             // cnvError active afterwards
    reconnectButton: Option<bool>, // btnReconnect active afterwards
    errorText: Option<string>)     // new txtError text

  /** "(message)" when the status carries an exception, otherwise empty. */
  function ExceptionSuffix(e: ConnectionStatus): string {
    if e.exception.Some? then "(" + e.exception.value + ")" else ""
  }

  /** Does the status carry one of the four error-text flags? */
  predicate HasErrorKind(e: ConnectionStatus) {
    e.isReconnecting || e.disconnected || e.invokeFailed || e.failedToConnect
  }

  /** The banner for a status, given whether the first JS-side "connected" is still pending. */
  function BannerFor(e: ConnectionStatus, isFirstConnectedJs: bool): (b: Banner)
    ensures b.consumeFirstJs <==> isFirstConnectedJs && e.connectedByJs
    ensures b.waitingText.Some? <==> b.consumeFirstJs
    ensures !b.errorCanvas <==> b.consumeFirstJs || e.reconnected
    ensures !b.errorCanvas ==> b.reconnectButton.None? && b.errorText.None?
    ensures b.errorCanvas ==> b.reconnectButton.Some?
    ensures b.reconnectButton == Some(true) <==>
      b.errorCanvas && !e.isReconnecting && (e.disconnected || (!e.invokeFailed && e.failedToConnect))
    ensures b.errorText.Some? <==> b.errorCanvas && HasErrorKind(e)
  {
    if isFirstConnectedJs && e.connectedByJs then
      Banner(true, Some(WaitingForModerator), false, None, None)
    else if e.reconnected then
      Banner(false, None, false, None, None)
    else if e.isReconnecting then
      Banner(false, None, true, Some(false), Some(ReconnectingText))
    else if e.disconnected then
      Banner(false, None, true, Some(true), Some(DisconnectedText + ExceptionSuffix(e)))
    else if e.invokeFailed then
      Banner(false, None, true, Some(false), Some(InvokeFailedText + ExceptionSuffix(e)))
    else if e.failedToConnect then
      Banner(false, None, true, Some(true), Some(FailedToConnectText + ExceptionSuffix(e)))
    else
      Banner(false, None, true, Some(false), None)
  }

  /** The status events a hub emits, one flag each, get their own text and button. */
  lemma EmittedStatuses(ex: string, oex: Option<string>, first: bool)
    ensures BannerFor(FailedToConnect(ex), first) ==
      Banner(false, None, true, Some(true), Some(FailedToConnectText + ("(" + ex + ")")))
    ensures BannerFor(InvokeFailed(ex), first) ==
      Banner(false, None, true, Some(false), Some(InvokeFailedText + ("(" + ex + ")")))
    ensures BannerFor(Disconnected(oex), first) ==
      Banner(false, None, true, Some(true), Some(DisconnectedText + (if oex.Some? then "(" + oex.value + ")" else "")))
    ensures BannerFor(Reconnecting(oex), first) == Banner(false, None, true, Some(false), Some(ReconnectingText))
    ensures BannerFor(Reconnected, first) == Banner(false, None, false, None, None)
  {
  }
}
