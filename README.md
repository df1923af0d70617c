# Tale Tactics player client — Dafny model

Tale Tactics is a tabletop helper. A game moderator pushes commands to the
players' screens through a SignalR hub. Those commands can show an image,
play background music or sound effects, start a countdown timer, set a
caption, or clear and stop things. This project models the player client's
core:

- **`GameScene`** models `GameSceneController`, the presentation state
  machine. Its first command dismisses the waiting screen. Its Audio, Image,
  Timer and Text handlers update the scene. Predefined commands stop sound
  effects, clear the screen or stop the music. A connection-status banner
  reports hub problems. `Update` drains the cross-thread queue once per
  frame, or stops the hub once when the player quits. The handlers are
  methods of a class whose fields are the controller's fields. Each one is
  proved against a pure function in:
  - `BackgroundMusic`: the current track, the fade-outs, `CleanFadeOuts`;
  - `Presentation`: the image slots, caption, timer panel, first-command gate;
  - `Countdown`: the timer coroutine as a trace of steps;
  - `StatusBanner`: the banner a status produces.
- **`HubMono`** models `HtHubConnectionMono`. It queues every inbound command
  and every status change for the scene thread.
- **`HubDirect`** models `HtHubConnection`. It raises events directly and owns
  a cancellation token source per connection.
- **`GameModel`** models `CurrentGameModel`: the loaded image and audio
  assets, keyed by id.
- **`Commands`** and **`HubTypes`** hold the shared records: commands, status
  arguments, queue entries, hub calls and outcomes.

The transport is outside the model. Each call a connection makes on it is
appended to a `calls` log, and how each awaited call ends is an `Outcome`
parameter (`Ok` or `Fail(message)`). Whether a background AudioSource is
playing is the parameter `playing`, the set of background ids whose source
is playing. One-shot sound effects cannot be stopped, so the handlers only
return them, in firing order. C#'s `null`/`default` is `None`, `""` or
`false`.

Proved invariants:

- **Background music.** At most one track is current, and it is fading in.
  Every other track is fading out, once per id.
- **Waiting screen.** It is dismissed exactly once, by the first command of
  either kind.
- **Connections.** Each connection class keeps its handler registrations on
  its current connection and never leaks a connection: every earlier
  connection, and for `HtHubConnection` every earlier token source, has been
  disposed.

The model follows the code where the two connection classes differ:

- `HtHubConnectionMono.ConnectAsync` returns false when the join fails, but
  keeps the started connection.
- `HtHubConnection`'s `Hub_Reconnected` does not rejoin the game. The Mono
  variant does.
- `HtHubConnectionMono`'s `Hub_Closed` does not stop the connection. The
  plain variant does.
- The plain class echoes commands under "PlayerSendBackHmCommandAsync". The
  Mono class uses "PlayerSendBackHmCommand".
- `HtHubConnection.DisposeAsync` disposes the token source but keeps it in
  its field. Afterwards every send fails while it reads the token. A later
  stop throws at the cancel, skips the graceful close, and still disposes and
  forgets both in its `finally` block.

## Model

| member | source | states |
|---|---|---|
| GameModel.CurrentGameModel.constructor | Assets/Scripts/Models/CurrentGameModel.cs:19-22 | The game code is kept, both asset dictionaries start empty, and the model is not disposed |
| GameModel.CurrentGameModel.LoadedImages | Assets/Scripts/Models/CurrentGameModel.cs:17 | The read-only view answers every id exactly as the image dictionary does |
| GameModel.CurrentGameModel.LoadedAudios | Assets/Scripts/Models/CurrentGameModel.cs:18 | The read-only view answers every id exactly as the audio dictionary does |
| GameModel.CurrentGameModel.AddImage | Assets/Scripts/Models/CurrentGameModel.cs:24-27 | The id maps to the new image whether or not it was present (an indexer write, so no duplicate-key error). Every other id keeps its entry, the key set gains only this id, and the audios are untouched |
| GameModel.CurrentGameModel.AddAudio | Assets/Scripts/Models/CurrentGameModel.cs:29-32 | The same as AddImage, for the audio dictionary |
| GameModel.CurrentGameModel.Dispose | Assets/Scripts/Models/CurrentGameModel.cs:34-60 | Sets the disposed flag and leaves both dictionaries as they were. A second call changes nothing |
| BackgroundMusic.FirstBgm | Assets/Scripts/GameScene/GameSceneController.cs:326-345 | The result is none exactly when no listed id is a loaded background track. Otherwise it is a listed loaded background track |
| BackgroundMusic.FirstBgmIsFirst | Assets/Scripts/GameScene/GameSceneController.cs:340-342 | The track acted on is the one at the earliest background position: `gotBgm` ignores every later one |
| BackgroundMusic.FirstBgmAppend | Assets/Scripts/GameScene/GameSceneController.cs:329-342 | A background track found in a prefix wins over anything after it. Otherwise the search continues into the rest |
| BackgroundMusic.Effects | Assets/Scripts/GameScene/GameSceneController.cs:335-339 | Only listed ids that are loaded non-background sounds are fired, and every such listed id is fired |
| BackgroundMusic.EffectsCounts | Assets/Scripts/GameScene/GameSceneController.cs:329-339 | Each loaded non-background sound fires exactly as often as its id is listed. No other id fires |
| BackgroundMusic.EffectsAppend | Assets/Scripts/GameScene/GameSceneController.cs:329-339 | Effects fire in list order: the effects of a concatenation are the concatenation of the effects |
| BackgroundMusic.Cleaned | Assets/Scripts/GameScene/GameSceneController.cs:265-286 | The result is no longer than the input and holds only input entries that are neither the forced id nor stopped |
| BackgroundMusic.CleanedAppend | Assets/Scripts/GameScene/GameSceneController.cs:265-286 | Cleaning distributes over concatenation |
| BackgroundMusic.CleanedRemoveAt | Assets/Scripts/GameScene/GameSceneController.cs:270-280 | Removing, at its index, an entry the cleaning drops leaves the final result unchanged. This is the `RemoveAt` step of the loop |
| BackgroundMusic.CleanedAllKept | Assets/Scripts/GameScene/GameSceneController.cs:281-284 | When every entry is kept, the list is returned unchanged |
| BackgroundMusic.CleanedCounts | Assets/Scripts/GameScene/GameSceneController.cs:265-286 | Each entry survives with its full multiplicity if it is kept, and vanishes otherwise |
| BackgroundMusic.CleanedDistinct | Assets/Scripts/GameScene/GameSceneController.cs:265-286 | A fade-out list with distinct ids still has distinct ids after cleaning |
| BackgroundMusic.LaterIdsIgnored | Assets/Scripts/GameScene/GameSceneController.cs:340-344 | Once a background track appears in the list, ids after it do not affect the music |
| BackgroundMusic.NonBgmIdIgnored | Assets/Scripts/GameScene/GameSceneController.cs:331-339 | Unknown ids and effect ids do not affect the music |
| BackgroundMusic.NoBgmNoChange | Assets/Scripts/GameScene/GameSceneController.cs:324-378 | A list without a background track leaves the music state unchanged |
| BackgroundMusic.SameTrackNoChange | Assets/Scripts/GameScene/GameSceneController.cs:343-344 | Requesting the track that is already playing changes nothing: it is not restarted |
| BackgroundMusic.SwitchRetiresOldOnce | Assets/Scripts/GameScene/GameSceneController.cs:346-373 | A new track becomes current and fades in. The old track is appended last to the fade-outs and occurs there exactly once |
| BackgroundMusic.BgmAfterKeepsInvariant | Assets/Scripts/GameScene/GameSceneController.cs:324-378 | An Audio command preserves the music invariant: one current track, fading in, whose id is `idAudioBgmPlaying`; id 0 exactly when none; every other track fading out, once per id; the current track not among them |
| BackgroundMusic.StopBgmKeepsInvariant | Assets/Scripts/GameScene/GameSceneController.cs:243-259 | StopBgm preserves the invariant, leaves no current track and resets the id to 0. The old current track is fading out exactly once |
| Presentation.ImageAfter | Assets/Scripts/GameScene/GameSceneController.cs:379-422 | Only a positive, loaded image id that is not already showing changes anything. It then flips the showing slot, puts the sprite in the new slot and fades that slot in, fades the other slot out only if it is visible, and leaves the other slot's sprite alone |
| Presentation.ClearScreenImage | Assets/Scripts/GameScene/GameSceneController.cs:205-238 | The showing id becomes 0. The slot faded in last fades out if it is visible, and the other slot is hidden at once. The sprites are unchanged |
| Presentation.CaptionAfter | Assets/Scripts/GameScene/GameSceneController.cs:456-471 | Non-empty text shows the panel with that text. Empty text together with an image id clears and hides the caption. Otherwise the caption is unchanged |
| Presentation.TimerAfter | Assets/Scripts/GameScene/GameSceneController.cs:423-433 | A positive timer restarts the countdown from that value with the panel shown and the tick playing. Any other value changes nothing |
| Presentation.TimerStopped | Assets/Scripts/GameScene/GameSceneController.cs:190-203 | StopSoundEffects stops the countdown and both timer sounds and hides the timer panel. The shown number is left as it was |
| Presentation.CountdownFinished | Assets/Scripts/GameScene/GameSceneController.cs:435-454 | When a live countdown runs to its end, the coroutine is over, the tick stops, the ended sound starts, the panel hides, and 0 stays displayed after a positive start. Without a live countdown nothing changes |
| Presentation.CountdownFinishedReplaysTrace | Assets/Scripts/GameScene/GameSceneController.cs:435-454 | The finished state is exactly what performing the coroutine's whole trace, TimerTrace(n), does to the timer widgets, whatever they were before |
| Presentation.NewTimerKeepsEndedSound | Assets/Scripts/GameScene/GameSceneController.cs:423-433 | A new timer after a finished countdown leaves the ended sound playing. Only StopSoundEffects silences it |
| Presentation.FirstReceived | Assets/Scripts/GameScene/GameSceneController.cs:288-304 | The first command shows the game canvas and the image panel and fades the waiting sound out. After that it is a no-op |
| Presentation.GateAfterCommand | Assets/Scripts/GameScene/GameSceneController.cs:306-323 | After any command, the first-command flag is set. The game canvas is shown the first time, and nothing changes later |
| Presentation.ImageIdempotent | Assets/Scripts/GameScene/GameSceneController.cs:386-388 | Sending the same image twice has the effect of sending it once |
| Presentation.ClearScreenHidesImages | Assets/Scripts/GameScene/GameSceneController.cs:211-237 | After ClearScreen no image id is showing, and any slot still visible is the one faded in last, and it is fading out |
| Presentation.RampsFinished | Assets/Scripts/GameScene/GameSceneController.cs:389-418 | When the ramps of the given slots run to their end, a slot that was fading in becomes visible, a slot that was fading out becomes hidden, and both stop ramping. Every other slot, the showing id and the sprites are unchanged |
| Presentation.NextImageFadesOutShown | Assets/Scripts/GameScene/GameSceneController.cs:389-418 | Once a new image has finished fading in, the next different image fades it out and fades in the other slot |
| Presentation.ClearScreenFadesShown | Assets/Scripts/GameScene/GameSceneController.cs:211-237 | Once a new image has finished fading in, ClearScreen fades that image out |
| Presentation.ClearScreenThenImage | Assets/Scripts/GameScene/GameSceneController.cs:211 | After ClearScreen, any loaded positive image id is shown again, including the one that was showing |
| Presentation.GateOnce | Assets/Scripts/GameScene/GameSceneController.cs:288-304 | Dismissing the waiting screen is idempotent |
| Countdown.StartTimer | Assets/Scripts/GameScene/GameSceneController.cs:435-454 | The coroutine's two loops produce exactly the step trace TimerTrace(timer) |
| Countdown.CountdownFromN | Assets/Scripts/GameScene/GameSceneController.cs:435-454 | From n >= 0 the whole trace is the counting part, then stop the tick, play the end sound, four one-second waits, and hide the panel. The counting part starts the tick once, shows n, n-1, …, 0, waits n seconds, and never stops the tick, plays the end sound or hides the panel |
| Countdown.CountdownShape | Assets/Scripts/GameScene/GameSceneController.cs:439-444 | The first loop shows t-1 down to 0, waits t seconds and neither ends nor hides |
| Countdown.LingerShape | Assets/Scripts/GameScene/GameSceneController.cs:448-452 | The second loop only waits, once per step, and shows nothing |
| StatusBanner.BannerFor | Assets/Scripts/GameScene/GameSceneController.cs:472-517 | These facts hold in both directions: the first JS connect is consumed; the error canvas is hidden exactly for that connect or a reconnect; the reconnect button is turned on exactly for a non-reconnecting Disconnected, or a FailedToConnect without InvokeFailed; error text is written exactly for a shown canvas with a known kind |
| StatusBanner.WaitingTextAfterConnect | Assets/Scripts/GameScene/GameSceneController.cs:164-174 | A failed connect shows "Error connecting to hub...". A successful one shows the moderator wait on Mono builds and the editor, and otherwise leaves the text |
| StatusBanner.EmittedStatuses | Assets/Scripts/GameScene/GameSceneController.cs:494-516 | The exact banner for each status the connections emit: FailedToConnect and InvokeFailed with the message in parentheses. Disconnected shows its text with the cause in parentheses and the reconnect button. Reconnecting shows its text without the button, and Reconnected hides the canvas |
| GameScene.AfterItemKeepsBgmInvariant | Assets/Scripts/GameScene/GameSceneController.cs:604-618 | Each queue entry, of any kind, preserves the music invariant |
| GameScene.AfterBatchKeepsBgmInvariant | Assets/Scripts/GameScene/GameSceneController.cs:599-620 | A whole dequeued batch preserves the music invariant |
| GameScene.AfterBatchGate | Assets/Scripts/GameScene/GameSceneController.cs:599-620 | After a batch, the first-command flag is set exactly when it was already set or the batch carried a command of either kind (null payloads do not count). The game canvas stays shown, and the quit state is untouched |
| GameScene.StatusOnlyBatch | Assets/Scripts/GameScene/GameSceneController.cs:612-614 | A batch of status changes alone leaves the gate, music, image, caption and timer unchanged |
| GameScene.RepeatedCommand | Assets/Scripts/GameScene/GameSceneController.cs:306-323 | Applying the same command twice leaves the gate, music, image and caption as applying it once |
| GameScene.ConnectedShowsModeratorWait | Assets/Scripts/GameScene/GameSceneController.cs:164-174 | A failed connect shows the connect error. A successful connect reaches the moderator wait on every platform: with Mono directly, and otherwise on the first JS-side "connected" status |
| GameScene.GameSceneController.constructor | Assets/Scripts/GameScene/GameSceneController.cs:159-163 | The whole initial view: waiting screen up, nothing received, no music (the invariant holds), image slot 1 in front with both slots hidden and no ramp or sprite, an empty hidden caption, no timer, the waiting text "Connecting to hub..." with the error canvas hidden, events subscribed, and not quitting |
| GameScene.GameSceneController.CleanFadeOuts | Assets/Scripts/GameScene/GameSceneController.cs:265-286 | The in-place removal loop leaves exactly Cleaned(old list, id, playing) |
| GameScene.GameSceneController.FirstReceivedHmCommand | Assets/Scripts/GameScene/GameSceneController.cs:288-304 | The gate becomes FirstReceived(old gate), and the waiting screen is dismissed once only if no command came before |
| GameScene.GameSceneController.SwitchBgm | Assets/Scripts/GameScene/GameSceneController.cs:346-373 | The three music fields become Switch(old state, id, playing) |
| GameScene.GameSceneController.HandleAudio | Assets/Scripts/GameScene/GameSceneController.cs:324-378 | The loop over AudioIds leaves the music as BgmAfter(old, ids) and fires exactly Effects(ids) |
| GameScene.GameSceneController.HandleImage | Assets/Scripts/GameScene/GameSceneController.cs:379-422 | The image state becomes ImageAfter(old, imageId, loaded images) |
| GameScene.GameSceneController.HandleTimer | Assets/Scripts/GameScene/GameSceneController.cs:423-433 | The timer state becomes TimerAfter(old, timer) |
| GameScene.GameSceneController.HandleText | Assets/Scripts/GameScene/GameSceneController.cs:456-471 | The caption becomes CaptionAfter(old, text, imageId) |
| GameScene.GameSceneController.OnHmCommand | Assets/Scripts/GameScene/GameSceneController.cs:306-323 | A null command changes nothing and fires nothing. Otherwise the gate, timer, music, image and caption each follow their handler's function, and exactly the command's effects fire. The waiting screen is dismissed at most once |
| GameScene.GameSceneController.FinishImageRamps | Assets/Scripts/GameScene/GameSceneController.cs:389-418 | The image state becomes RampsFinished(old state, slots) |
| GameScene.GameSceneController.ConnectReturned | Assets/Scripts/GameScene/GameSceneController.cs:164-174 | Only the waiting text changes, to WaitingTextAfterConnect of the old text |
| GameScene.GameSceneController.FinishCountdown | Assets/Scripts/GameScene/GameSceneController.cs:435-454 | The timer becomes CountdownFinished(old timer) |
| GameScene.GameSceneController.StopSoundEffects | Assets/Scripts/GameScene/GameSceneController.cs:190-203 | The timer becomes TimerStopped(old timer) |
| GameScene.GameSceneController.ClearScreen | Assets/Scripts/GameScene/GameSceneController.cs:205-241 | The image becomes ClearScreenImage(old image), and the caption is cleared and hidden |
| GameScene.GameSceneController.StopBackgroundMusic | Assets/Scripts/GameScene/GameSceneController.cs:243-259 | The music becomes StopBgm(old state, playing) |
| GameScene.GameSceneController.OnHmPredefinedCommand | Assets/Scripts/GameScene/GameSceneController.cs:178-263 | A null command changes nothing. Otherwise it passes the gate, and each set flag applies its action independently of the others (an unset flag leaves its part alone) |
| GameScene.GameSceneController.OnConnectionStatusChanged | Assets/Scripts/GameScene/GameSceneController.cs:472-517 | The banner widgets become BannerFor(status, isFirstConnectedJs) applied to the old ones |
| GameScene.GameSceneController.OnExitGame | Assets/Scripts/GameScene/GameSceneController.cs:543-546 | Only the quit flag is set |
| GameScene.GameSceneController.Dispatch | Assets/Scripts/GameScene/GameSceneController.cs:604-618 | Each queue entry goes to its handler: the view becomes AfterItem, and exactly its effects fire |
| GameScene.GameSceneController.Update | Assets/Scripts/GameScene/GameSceneController.cs:574-623 | When quitting, nothing is consumed, and the hub is stopped and unsubscribed on the first such frame only. Otherwise the whole batch is applied in order (the view becomes AfterBatch, and the effects are BatchEffects) |
| HubTypes.FailureReport | Assets/Scripts/Hub/HtHubConnectionMono.cs:264-272 | A failed call reports exactly one InvokeFailed carrying its message, and a successful call reports nothing |
| HubTypes.DisposedHandle | Assets/Scripts/Hub/HtHubConnectionMono.cs:108-109 | Disposing a handle marks it disposed and keeps its connection. A missing handle stays missing |
| HubTypes.SendReport | Assets/Scripts/Hub/HtHubConnectionMono.cs:256-308 | A send, in either connection class, reports nothing exactly when there is a connection and the call succeeds. Without a connection it reports one InvokeFailed with the null-reference message. With a connection it reports one InvokeFailed carrying the failed call's error |
| HubMono.FailedStartNeverJoins | Assets/Scripts/Hub/HtHubConnectionMono.cs:100-129 | On a failed start, the connection is disposed last and nothing is invoked or sent on it |
| HubMono.JoinedLogIffJoined | Assets/Scripts/Hub/HtHubConnectionMono.cs:131-140 | The "Has joined" log is sent exactly when both the start and the join succeed, and then the join is followed immediately by the log |
| HubMono.HtHubConnectionMono.constructor | Assets/Scripts/Hub/HtHubConnectionMono.cs:37-41 | Keeps the game code, with no connection, no handles, nothing sent and nothing queued |
| HubMono.HtHubConnectionMono.ConnectionStatusChanged | Assets/Scripts/Hub/HtHubConnectionMono.cs:153-165 | Appends exactly one status entry to the queue |
| HubMono.HtHubConnectionMono.Detach | Assets/Scripts/Hub/HtHubConnectionMono.cs:226-237 | Lifecycle events are unsubscribed and both handles are disposed. A name is removed only if its handle field is set |
| HubMono.HtHubConnectionMono.StopAsync | Assets/Scripts/Hub/HtHubConnectionMono.cs:216-254 | Without a connection, nothing happens. Otherwise it detaches, closes with the 150-second timeout, then disposes and forgets the connection even if the close failed. It never queues a status, and the invariant holds |
| HubMono.HtHubConnectionMono.PlayerSendBackHmCommandAsync | Assets/Scripts/Hub/HtHubConnectionMono.cs:256-273 | Sends the command under "PlayerSendBackHmCommand" on the current connection. A failure, or having no connection, queues one InvokeFailed |
| HubMono.HtHubConnectionMono.PlayerSendBackHmCommandPredefined | Assets/Scripts/Hub/HtHubConnectionMono.cs:275-291 | The same as the command echo, under "PlayerSendBackHmCommandPredefined" |
| HubMono.HtHubConnectionMono.PlayerSendLog | Assets/Scripts/Hub/HtHubConnectionMono.cs:293-308 | Sends the log under "PlayerSendLog". A failure is only reported |
| HubMono.HtHubConnectionMono.BuildAndStart | Assets/Scripts/Hub/HtHubConnectionMono.cs:52-62 | A new connection becomes current and is started with the 300-second timeout |
| HubMono.HtHubConnectionMono.AbandonStart | Assets/Scripts/Hub/HtHubConnectionMono.cs:100-129 | A failed start detaches, disposes and forgets the connection and queues one FailedToConnect with the error |
| HubMono.HtHubConnectionMono.SubscribeAndJoin | Assets/Scripts/Hub/HtHubConnectionMono.cs:64-150 | Both handlers become live on the current connection and the game is joined. A failed join queues one InvokeFailed, and a successful join sends the "Has joined" log |
| HubMono.HtHubConnectionMono.Open | Assets/Scripts/Hub/HtHubConnectionMono.cs:50-150 | From no connection: the call sequence is ConnectCalls, and the result is true iff the start and the join both succeed |
| HubMono.HtHubConnectionMono.ConnectAsync | Assets/Scripts/Hub/HtHubConnectionMono.cs:43-151 | Any existing connection is stopped before a new one is built. The result is true iff the start and the join succeed. A failed start leaves no connection and queues one FailedToConnect. A failed join keeps the connection |
| HubMono.HtHubConnectionMono.HubReconnecting | Assets/Scripts/Hub/HtHubConnectionMono.cs:167-175 | Queues one IsReconnecting with the cause |
| HubMono.HtHubConnectionMono.HubReconnected | Assets/Scripts/Hub/HtHubConnectionMono.cs:177-203 | Rejoins, and logs only after a successful rejoin. Any failure is queued first, and Reconnected is always queued last |
| HubMono.HtHubConnectionMono.HubClosed | Assets/Scripts/Hub/HtHubConnectionMono.cs:205-214 | Queues one Disconnected with the cause, and stops nothing |
| HubMono.HtHubConnectionMono.OnPlayerReceiveHmCommand | Assets/Scripts/Hub/HtHubConnectionMono.cs:68-82 | Queues the command unless the queue throws, and echoes it in every case |
| HubMono.HtHubConnectionMono.OnPlayerReceiveHmCommandPredefined | Assets/Scripts/Hub/HtHubConnectionMono.cs:84-98 | Queues the predefined command unless the queue throws, and echoes it in every case |
| HubMono.HtHubConnectionMono.DisposeAsync | Assets/Scripts/Hub/HtHubConnectionMono.cs:310-341 | The first call disposes the connection and both handles without forgetting them. Later calls change nothing |
| HubDirect.FailedStartReleasesBoth | Assets/Scripts/Hub/HtHubConnection.cs:73-101 | On a failed start, the connection and then the token source are disposed last, and nothing is invoked or sent |
| HubDirect.ConnectNeverLogs | Assets/Scripts/Hub/HtHubConnection.cs:103-117 | Connecting sends nothing, and the join is the last call exactly when the start succeeded |
| HubDirect.StopAfterDisposeSkipsClose | Assets/Scripts/Hub/HtHubConnection.cs:179-192 | Stopping after DisposeAsync never cancels or closes, and it still ends by disposing the connection and the token source |
| HubDirect.TokenSendReport | Assets/Scripts/Hub/HtHubConnection.cs:200-249 | A send reports nothing exactly when there is a connection, its token source is not disposed, and the call succeeds. A disposed token source reports one InvokeFailed with ObjectDisposedException's message. In every other case the report is as in SendReport: InvokeFailed with the null-reference message, or with the failed call's error |
| HubDirect.HtHubConnection.constructor | Assets/Scripts/Hub/HtHubConnection.cs:29-32 | Keeps the game code, with no connection, no token source, no handles and nothing raised |
| HubDirect.HtHubConnection.ConnectionStatusChanged | Assets/Scripts/Hub/HtHubConnection.cs:120-124 | Raises exactly one status event |
| HubDirect.HtHubConnection.Detach | Assets/Scripts/Hub/HtHubConnection.cs:169-177 | Lifecycle events are unsubscribed. Both names are removed unconditionally, and both handles are disposed |
| HubDirect.HtHubConnection.StopAsync | Assets/Scripts/Hub/HtHubConnection.cs:159-198 | Without a connection, nothing happens. Otherwise it detaches, cancels the shared token and closes with the 150-second timeout, then disposes and forgets the connection and the token source even if the close failed. After DisposeAsync the cancel throws, so there is no cancel and no close, but both are still disposed and forgotten |
| HubDirect.HtHubConnection.PlayerSendBackHmCommandAsync | Assets/Scripts/Hub/HtHubConnection.cs:200-215 | Sends the command under "PlayerSendBackHmCommandAsync". A failure, having no connection, or a token source disposed by DisposeAsync raises one InvokeFailed. In the last two cases nothing is sent |
| HubDirect.HtHubConnection.PlayerSendBackHmCommandPredefined | Assets/Scripts/Hub/HtHubConnection.cs:217-232 | The same as the command echo, under "PlayerSendBackHmCommandPredefined" |
| HubDirect.HtHubConnection.PlayerSendLog | Assets/Scripts/Hub/HtHubConnection.cs:234-249 | Sends the log under "PlayerSendLog". A failure is only reported |
| HubDirect.HtHubConnection.CreateAndStart | Assets/Scripts/Hub/HtHubConnection.cs:43-53 | A 300-second token source is created, then the connection, and it is started. Both become current |
| HubDirect.HtHubConnection.AbandonStart | Assets/Scripts/Hub/HtHubConnection.cs:73-101 | A failed start detaches, disposes the connection and the token source, forgets both, and raises one FailedToConnect |
| HubDirect.HtHubConnection.SubscribeAndJoin | Assets/Scripts/Hub/HtHubConnection.cs:55-117 | Both handlers become live on the current connection and the game is joined. A failed join raises InvokeFailed |
| HubDirect.HtHubConnection.Open | Assets/Scripts/Hub/HtHubConnection.cs:41-117 | From no connection: the call sequence is ConnectCalls, and the result is true iff the start and the join both succeed |
| HubDirect.HtHubConnection.ConnectAsync | Assets/Scripts/Hub/HtHubConnection.cs:34-118 | Any existing connection is stopped first. The result is true iff the start and the join succeed. A failed start leaves neither a connection nor a token source, and raises one FailedToConnect |
| HubDirect.HtHubConnection.HubReconnecting | Assets/Scripts/Hub/HtHubConnection.cs:126-136 | Raises one IsReconnecting with the cause |
| HubDirect.HtHubConnection.HubReconnected | Assets/Scripts/Hub/HtHubConnection.cs:138-145 | Raises Reconnected only, with no rejoin and no send |
| HubDirect.HtHubConnection.HubClosed | Assets/Scripts/Hub/HtHubConnection.cs:147-157 | Raises Disconnected with the cause, then stops, leaving neither a connection nor a token source |
| HubDirect.HtHubConnection.OnPlayerReceiveHmCommand | Assets/Scripts/Hub/HtHubConnection.cs:59-64 | Raises the command and then echoes it. A subscriber that throws prevents the echo |
| HubDirect.HtHubConnection.OnPlayerReceiveHmCommandPredefined | Assets/Scripts/Hub/HtHubConnection.cs:66-71 | Raises the predefined command and then echoes it. A subscriber that throws prevents the echo |
| HubDirect.HtHubConnection.DisposeAsync | Assets/Scripts/Hub/HtHubConnection.cs:251-284 | The first call disposes the connection, both handles and the token source without forgetting them, and marks the token source disposed. Later calls change nothing |

## Left out

- Fade ramps, `WaitForSeconds` and coroutine interleaving are not modelled.
  A fade is the label `FadingIn`/`FadingOut`, an image's alpha is the bool
  "visible", and the countdown is a trace of steps. A ramp takes effect only
  when `FinishImageRamps` completes it. A ramp cut short partway leaves a
  partial alpha, and the model does not capture that. Likewise, once a
  countdown has started, it changes the timer widgets again only when
  `FinishCountdown` runs it to its end. The widgets part-way through a
  countdown are not modelled.
- `endedPlaying` means the ended sound was started and has not been stopped.
  The clip's length, after which it falls silent by itself, is not modelled.
- Concurrency between the network thread and the frame loop is not
  modelled, beyond the queue's order. `playing` is taken as constant within
  one dequeued batch.
- `allBgms`, built in `Start` (GameSceneController.cs:107-117), is assumed to
  hold an AudioSource for every background id. The model indexes `playing`
  by id instead.
- `BgmIdsPositive`: background asset ids are assumed positive. Id 0 would
  clash with `idAudioBgmPlaying`'s "nothing playing" value.
- Exceptions: a `HubConnectionBuilder.Build` failure, a throwing
  `hub.DisposeAsync`, a subscriber that throws from a status event, and a
  queue that throws while a status is enqueued are not modelled. The last
  one only loses a status.
- The `Update` default branch for an unknown queue action is not modelled,
  because every queue entry the connections create has a known kind. A null
  status payload is not modelled either, because the connections never
  queue one.
- The font-size settings (`UpdateGameTextFontSize`), the reconnect and
  close-error button listeners, `OnDestroy`, the WebGL and Java connection
  variants and `MenuController` are not modelled.
- The queued execution manager's internals are not modelled: it appears only
  as the `queued` sequence and `Update`'s `pending` batch.
- `HtHubConnection`'s token source is created with a 300-second lifetime,
  and every later call on that connection carries its token, so calls made
  after five minutes would be cancelled. Time is not modelled, and that
  cancellation is only an outcome parameter.
- Logging (`Debug.Log*`) and the exception objects are not modelled. An
  exception is its message string.
