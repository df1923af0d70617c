/**
 * Payloads that cross from the connection to the presentation thread:
 * moderator commands, predefined control bursts, connection status events,
 * and the queued entries that carry them.
 */
module Commands {
  import opened Wrappers

  /**
   * A regular moderator command (`HmCommandModel`). A null `Timer` or
   * `ImageId` is `None`; a null `AudioIds` list is the empty sequence and a
   * null `Text` the empty string, which is how the handlers treat them.
   */
  datatype HmCommand = HmCommand(
    timer: Option<int>,
    audioIds: seq<int>,
    imageId: Option<int>,
    text: string)

  /** The command the predefined pass feeds to the audio handler: all fields empty. */
  const EmptyCommand: HmCommand := HmCommand(None, [], None, "")

  /**
   * A predefined control burst (`HmCommandPredefinedModel`); a flag that is
   * null counts as false (`HasValue && Value`).
   */
  datatype PredefinedCommand = PredefinedCommand(
    stopSoundEffects: bool,
    clearScreen: bool,
    stopBgm: bool)

  /**
   * `HubConnectionStatusEventArgs`: one flag per kind of status plus the
   * message of the exception that caused it, if any.
   */
  datatype ConnectionStatus = ConnectionStatus(
    failedToConnect: bool,
    invokeFailed: bool,
    isReconnecting: bool,
    reconnected: bool,
    disconnected: bool,
    connectedByJs: bool,
    exception: Option<string>)

  const NoFlags: ConnectionStatus :=
    ConnectionStatus(false, false, false, false, false, false, None)

  function FailedToConnect(e: string): ConnectionStatus {
    NoFlags.(failedToConnect := true, exception := Some(e))
  }

  function InvokeFailed(e: string): ConnectionStatus {
    NoFlags.(invokeFailed := true, exception := Some(e))
  }

  function Reconnecting(e: Option<string>): ConnectionStatus {
    NoFlags.(isReconnecting := true, exception := e)
  }

  const Reconnected: ConnectionStatus := NoFlags.(reconnected := true)

  function Disconnected(e: Option<string>): ConnectionStatus {
    NoFlags.(disconnected := true, exception := e)
  }

  /**
   * An entry of the cross-thread queue (`QueuedAction` with its payload).
   * The payload is cast with `as`, so a wrong or null payload arrives as `None`.
   */
  datatype QueuedItem =
    | PlayerReceiveHmCommand(command: Option<HmCommand>)
    | PlayerReceiveHmCommandPredefined(predefined: Option<PredefinedCommand>)
    | OnConnectionStatusChanged(status: ConnectionStatus)

  /** A log line sent to the server (`TextLogModel`). */
  datatype TextLog = TextLog(from: string, message: string)
}
