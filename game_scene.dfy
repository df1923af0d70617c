/**
 * `GameSceneController`: the single-threaded presentation state machine.
 * Its fields are the ones the command handlers update in place; the
 * environment's "is this background AudioSource playing?" is the set
 * `playing` of background ids whose source is playing, passed to each
 * handler. One-shot effects cannot be stopped once fired, so they are only
 * returned, in firing order.
 */
module GameScene {
  import opened Wrappers
  import opened GameModel
  import opened Commands
  import opened BackgroundMusic
  import opened Presentation
  import opened StatusBanner

  /** The banner widgets and texts the status handler writes. */
  datatype StatusView = StatusView(
    isFirstConnectedJs: bool,
    errorCanvasActive: bool,
    reconnectButtonActive: bool,
    errorText: string,
    waitingText: string)

  function ApplyBanner(v: StatusView, b: Banner): StatusView {
    StatusView(
      v.isFirstConnectedJs && !b.consumeFirstJs,
      b.errorCanvas,
      b.reconnectButton.GetOr(v.reconnectButtonActive),
      b.errorText.GetOr(v.errorText),
      b.waitingText.GetOr(v.waitingText))
  }

  /**
   * A successful connect ends on the moderator wait on every platform: with
   * Mono as soon as `ConnectAsync` returns, elsewhere once the first JS-side
   * "connected" status arrives. A failed connect shows the connect error.
   */
  lemma ConnectedShowsModeratorWait(v: StatusView, connected: bool, monoPlatform: bool)
    requires v.isFirstConnectedJs
    ensures var after := v.(waitingText := WaitingTextAfterConnect(v.waitingText, connected, monoPlatform));
      && (!connected ==> after.waitingText == ConnectErrorText)
      && (connected && monoPlatform ==> after.waitingText == WaitingForModerator)
      && (connected ==>
            ApplyBanner(after, BannerFor(NoFlags.(connectedByJs := true), after.isFirstConnectedJs)).waitingText == WaitingForModerator)
  {
  }

  /** The exit-game flags of `Update`. */
  datatype QuitState = QuitState(quit: bool, alreadySentQuit: bool, hubSubscribed: bool)

  /** Everything the scene shows or keeps, grouped by concern. */
  datatype SceneView = SceneView(
    gate: GateState,
    bgm: BgmState,
    image: ImageState,
    caption: CaptionState,
    timer: TimerState,
    status: StatusView,
    quit: QuitState)

  /** A regular command (lines 306-323): gate, then Timer, Audio, Image and Text. */
  function AfterCommand(v: SceneView, c: HmCommand, audios: map<int, LoadedAudio>, images: map<int, LoadedImage>, playing: set<int>): SceneView {
    v.(gate := GateAfterCommand(v.gate),
       timer := TimerAfter(v.timer, c.timer),
       bgm := BgmAfter(v.bgm, c.audioIds, audios, playing),
       image := ImageAfter(v.image, c.imageId, images),
       caption := CaptionAfter(v.caption, c.text, c.imageId))
  }

  /** A predefined command (lines 178-263): each set flag acts on its own part. */
  function AfterPredefined(v: SceneView, p: PredefinedCommand, playing: set<int>): SceneView {
    v.(gate := GateAfterCommand(v.gate),
       timer := if p.stopSoundEffects then TimerStopped(v.timer) else v.timer,
       image := if p.clearScreen then ClearScreenImage(v.image) else v.image,
       caption := if p.clearScreen then ClearedCaption else v.caption,
       bgm := if p.stopBgm then StopBgm(v.bgm, playing) else v.bgm)
  }

  /** A connection status event (lines 472-517). */
  function AfterStatus(v: SceneView, e: ConnectionStatus): SceneView {
    v.(status := ApplyBanner(v.status, BannerFor(e, v.status.isFirstConnectedJs)))
  }

  /** One dequeued entry; a null command is logged and ignored. */
  function AfterItem(v: SceneView, item: QueuedItem, audios: map<int, LoadedAudio>, images: map<int, LoadedImage>, playing: set<int>): SceneView {
    match item
    case PlayerReceiveHmCommand(c) => if c.Some? then AfterCommand(v, c.value, audios, images, playing) else v
    case PlayerReceiveHmCommandPredefined(p) => if p.Some? then AfterPredefined(v, p.value, playing) else v
    case OnConnectionStatusChanged(e) => AfterStatus(v, e)
  }

  /** A drained batch, dispatched in arrival order. */
  function AfterBatch(v: SceneView, items: seq<QueuedItem>, audios: map<int, LoadedAudio>, images: map<int, LoadedImage>, playing: set<int>): SceneView
    decreases |items|
  {
    if items == [] then v
    else AfterItem(AfterBatch(v, items[..|items| - 1], audios, images, playing), items[|items| - 1], audios, images, playing)
  }

  /** One-shot effects fired by one queued entry (a predefined command fires none). */
  function ItemEffects(item: QueuedItem, audios: map<int, LoadedAudio>): seq<int> {
    if item.PlayerReceiveHmCommand? && item.command.Some? then Effects(item.command.value.audioIds, audios) else []
  }

  /** One-shot effects fired by a drained batch, in order. */
  function BatchEffects(items: seq<QueuedItem>, audios: map<int, LoadedAudio>): seq<int> {
    if items == [] then [] else ItemEffects(items[0], audios) + BatchEffects(items[1..], audios)
  }

  /** A queued entry holding a non-null command of either kind. */
  predicate CarriesCommand(item: QueuedItem) {
    (item.PlayerReceiveHmCommand? && item.command.Some?)
    || (item.PlayerReceiveHmCommandPredefined? && item.predefined.Some?)
  }

  predicate HasCommand(items: seq<QueuedItem>) {
    exists i | 0 <= i < |items| :: CarriesCommand(items[i])
  }

  /** Once a command has arrived, the game surface is up and the waiting screen gone. */
  predicate GameShown(g: GateState) {
    g.receivedFirstHmCommand ==> g.gameCanvasActive && g.panelImageActive && !g.waitingFadingIn
  }

  // ---------------------------------------------------------------- lemmas

  lemma {:induction false} BatchEffectsSnoc(items: seq<QueuedItem>, item: QueuedItem, audios: map<int, LoadedAudio>)
    ensures BatchEffects(items + [item], audios) == BatchEffects(items, audios) + ItemEffects(item, audios)
  {
    if items == [] {
      assert [item][1..] == [];
    } else {
      assert (items + [item])[1..] == items[1..] + [item];
      BatchEffectsSnoc(items[1..], item, audios);
    }
  }

  lemma AfterBatchSnoc(v: SceneView, items: seq<QueuedItem>, item: QueuedItem, audios: map<int, LoadedAudio>, images: map<int, LoadedImage>, playing: set<int>)
    ensures AfterBatch(v, items + [item], audios, images, playing) == AfterItem(AfterBatch(v, items, audios, images, playing), item, audios, images, playing)
  {
    assert (items + [item])[..|items|] == items;
  }

  /** An entry keeps the background invariant when background ids are positive. */
  lemma AfterItemKeepsBgmInvariant(v: SceneView, item: QueuedItem, audios: map<int, LoadedAudio>, images: map<int, LoadedImage>, playing: set<int>)
    requires BgmIdsPositive(audios) && BgmInvariant(v.bgm)
    ensures BgmInvariant(AfterItem(v, item, audios, images, playing).bgm)
  {
    match item
    case PlayerReceiveHmCommand(c) =>
      if c.Some? {
        BgmAfterKeepsInvariant(v.bgm, c.value.audioIds, audios, playing);
      }
    case PlayerReceiveHmCommandPredefined(p) =>
      StopBgmKeepsInvariant(v.bgm, playing);
    case OnConnectionStatusChanged(e) =>
  }

  /** Any batch keeps the background invariant when background ids are positive. */
  lemma {:induction false} AfterBatchKeepsBgmInvariant(v: SceneView, items: seq<QueuedItem>, audios: map<int, LoadedAudio>, images: map<int, LoadedImage>, playing: set<int>)
    requires BgmIdsPositive(audios) && BgmInvariant(v.bgm)
    ensures BgmInvariant(AfterBatch(v, items, audios, images, playing).bgm)
  {
    if items != [] {
      var front := items[..|items| - 1];
      AfterBatchKeepsBgmInvariant(v, front, audios, images, playing);
      AfterItemKeepsBgmInvariant(AfterBatch(v, front, audios, images, playing), items[|items| - 1], audios, images, playing);
    }
  }

  lemma HasCommandSnoc(items: seq<QueuedItem>, item: QueuedItem)
    ensures HasCommand(items + [item]) <==> HasCommand(items) || CarriesCommand(item)
  {
    var all := items + [item];
    if HasCommand(items) {
      var i :| 0 <= i < |items| && CarriesCommand(items[i]);
      assert all[i] == items[i];
    }
    if HasCommand(all) {
      var i :| 0 <= i < |all| && CarriesCommand(all[i]);
      if i < |items| {
        assert all[i] == items[i];
      }
    }
    assert all[|items|] == item;
  }

  /**
   * The received flag is set exactly when the batch held a non-null command,
   * the game surface stays up once shown, and the exit flags are untouched.
   */
  lemma {:induction false} AfterBatchGate(v: SceneView, items: seq<QueuedItem>, audios: map<int, LoadedAudio>, images: map<int, LoadedImage>, playing: set<int>)
    requires GameShown(v.gate)
    ensures var r := AfterBatch(v, items, audios, images, playing);
      && r.gate.receivedFirstHmCommand == (v.gate.receivedFirstHmCommand || HasCommand(items))
      && GameShown(r.gate)
      && r.quit == v.quit
  {
    if items != [] {
      var front := items[..|items| - 1];
      AfterBatchGate(v, front, audios, images, playing);
      assert items == front + [items[|items| - 1]];
      HasCommandSnoc(front, items[|items| - 1]);
    }
  }

  /** Status events never touch what the commands present. */
  lemma {:induction false} StatusOnlyBatch(v: SceneView, items: seq<QueuedItem>, audios: map<int, LoadedAudio>, images: map<int, LoadedImage>, playing: set<int>)
    requires forall i | 0 <= i < |items| :: items[i].OnConnectionStatusChanged?
    ensures var r := AfterBatch(v, items, audios, images, playing);
      r.gate == v.gate && r.bgm == v.bgm && r.image == v.image && r.caption == v.caption && r.timer == v.timer
  {
    if items != [] {
      StatusOnlyBatch(v, items[..|items| - 1], audios, images, playing);
    }
  }

  /**
   * Receiving the same regular command twice in a row leaves the gate,
   * background music, image and caption as one copy left them (its one-shot
   * effects fire again, and its timer restarts).
   */
  lemma RepeatedCommand(v: SceneView, c: HmCommand, audios: map<int, LoadedAudio>, images: map<int, LoadedImage>, playing: set<int>)
    ensures var once := AfterCommand(v, c, audios, images, playing);
      var twice := AfterCommand(once, c, audios, images, playing);
      twice.gate == once.gate && twice.bgm == once.bgm && twice.image == once.image && twice.caption == once.caption
  {
    ImageIdempotent(v.image, c.imageId, images);
    GateOnce(v.gate);
  }

  class GameSceneController {
    const game: CurrentGameModel

    /** `receivedFirstHmCommand`, `cnvGame`, `panelImage` and the waiting sound's fade-in. */
    var gate: GateState
    /** How often the waiting screen has been dismissed. */
    ghost var waitingTransitions: nat

    var currentBgm: Option<AudioPlaying>
    var idAudioBgmPlaying: int
    var fadeOutAudios: seq<AudioPlaying>

    /** `isImage1Showing`, `idImageShowing`, both image colours and sprites, the image coroutines. */
    var image: ImageState
    /** `txtText` and `panelText`. */
    var caption: CaptionState
    /** `crTimer`, `panelTimer`, the tick and ended sounds, `txtTimer`. */
    var timer: TimerState
    /** `isFirstConnectedJs`, `cnvError`, `btnReconnect`, `txtError`, `txtWaitingText`. */
    var status: StatusView
    /** `quit`, `alreadySentQuit` and whether the hub events are subscribed. */
    var quitState: QuitState

    function Bgm(): BgmState reads this {
      BgmState(currentBgm, idAudioBgmPlaying, fadeOutAudios)
    }

    function View(): SceneView reads this {
      SceneView(gate, Bgm(), image, caption, timer, status, quitState)
    }

    /** The waiting screen has been dismissed exactly once iff a command has arrived. */
    ghost predicate Valid() reads this {
      && waitingTransitions == (if gate.receivedFirstHmCommand then 1 else 0)
      && GameShown(gate)
    }

    /**
     * The field initialisers plus `Start` up to the `ConnectAsync` call: the
     * waiting text is "Connecting to hub..." and the error canvas is hidden.
     * `ConnectReturned` models the rest of `Start`.
     */
    constructor (game: CurrentGameModel)
      ensures Valid() && this.game == game
      ensures View() == SceneView(
        GateState(false, false, false, true),
        BgmState(None, 0, []),
        ImageState(true, 0, false, false, None, None, None, None),
        ClearedCaption,
        TimerState(None, false, false, false, 0),
        StatusView(true, false, false, "", ConnectingText),
        QuitState(false, false, true))
      ensures BgmInvariant(Bgm())
    {
      this.game := game;
      gate := GateState(false, false, false, true);
      waitingTransitions := 0;
      currentBgm, idAudioBgmPlaying, fadeOutAudios := None, 0, [];
      image := ImageState(true, 0, false, false, None, None, None, None);
      caption := CaptionState("", false);
      timer := TimerState(None, false, false, false, 0);
      status := StatusView(true, false, false, "", ConnectingText);
      quitState := QuitState(false, false, true);
    }

    /**
     * Drops from `fadeOutAudios`, in place, every entry whose id is the forced
     * `id` (when id > -1; its fade-out is stopped with it) and every entry
     * whose track has stopped playing.
     */
    method CleanFadeOuts(id: int, playing: set<int>)
      modifies this`fadeOutAudios
      ensures fadeOutAudios == Cleaned(old(fadeOutAudios), id, playing)
    {
      var index := 0;
      while index < |fadeOutAudios|
        invariant 0 <= index <= |fadeOutAudios|
        invariant forall k | 0 <= k < index :: Keep(fadeOutAudios[k], id, playing)
        invariant Cleaned(fadeOutAudios, id, playing) == Cleaned(old(fadeOutAudios), id, playing)
        decreases |fadeOutAudios| - index
      {
        if id > -1 && fadeOutAudios[index].id == id {
          CleanedRemoveAt(fadeOutAudios, index, id, playing);
          fadeOutAudios := fadeOutAudios[..index] + fadeOutAudios[index + 1..];
        } else if fadeOutAudios[index].id !in playing {
          CleanedRemoveAt(fadeOutAudios, index, id, playing);
          fadeOutAudios := fadeOutAudios[..index] + fadeOutAudios[index + 1..];
        } else {
          index := index + 1;
        }
      }
      CleanedAllKept(fadeOutAudios, id, playing);
    }

    /** `FirstReceviedHmCommand`: dismiss the waiting screen unless a command came before. */
    method FirstReceivedHmCommand()
      modifies this`gate, this`waitingTransitions
      ensures gate == FirstReceived(old(gate))
      ensures waitingTransitions == old(waitingTransitions) + (if gate.receivedFirstHmCommand then 0 else 1)
    {
      if !gate.receivedFirstHmCommand {
        gate := gate.(gameCanvasActive := true, panelImageActive := true);
        gate := gate.(waitingFadingIn := false);
        waitingTransitions := waitingTransitions + 1;
      }
    }

    /** Lines 346-373: make `id` the current background track. */
    method SwitchBgm(id: int, playing: set<int>)
      modifies this`currentBgm, this`idAudioBgmPlaying, this`fadeOutAudios
      ensures Bgm() == Switch(old(Bgm()), id, playing)
    {
      idAudioBgmPlaying := id;
      if id in playing {
        CleanFadeOuts(id, playing);
      } else {
        CleanFadeOuts(-1, playing);
      }
      if currentBgm.Some? {
        fadeOutAudios := fadeOutAudios + [AudioPlaying(currentBgm.value.id, FadingOut)];
        currentBgm := None;
      }
      currentBgm := Some(AudioPlaying(id, FadingIn));
    }

    /**
     * The Audio step: fire every known one-shot effect, and act on the first
     * known background id only (switch to it unless it is already the current one).
     */
    method HandleAudio(ids: seq<int>, playing: set<int>) returns (effects: seq<int>)
      modifies this`currentBgm, this`idAudioBgmPlaying, this`fadeOutAudios
      ensures Bgm() == BgmAfter(old(Bgm()), ids, game.audios, playing)
      ensures effects == Effects(ids, game.audios)
    {
      var gotBgm := false;
      effects := [];
      var i := 0;
      while i < |ids|
        invariant 0 <= i <= |ids|
        invariant effects == Effects(ids[..i], game.audios)
        invariant gotBgm <==> FirstBgm(ids[..i], game.audios).Some?
        invariant !gotBgm ==> Bgm() == old(Bgm())
        invariant Bgm() == BgmAfter(old(Bgm()), ids[..i], game.audios, playing)
      {
        var id := ids[i];
        assert ids[..i + 1] == ids[..i] + [id];
        assert [id][1..] == [];
        EffectsAppend(ids[..i], [id], game.audios);
        FirstBgmAppend(ids[..i], [id], game.audios);
        var audio := Lookup(game.audios, id);
        if audio.Some? {
          if !audio.value.isBgm {
            effects := effects + [id];
          } else if !gotBgm {
            gotBgm := true;
            if idAudioBgmPlaying != id {
              SwitchBgm(id, playing);
            }
          }
        }
        i := i + 1;
      }
      assert ids[..|ids|] == ids;
    }

    /** The Image step: swap slots for a new, known, positive image id. */
    method HandleImage(imageId: Option<int>)
      modifies this`image
      ensures image == ImageAfter(old(image), imageId, game.images)
    {
      if imageId.Some? && imageId.value > 0 {
        var loaded := Lookup(game.images, imageId.value);
        if loaded.Some? && image.idImageShowing != imageId.value {
          image := image.(idImageShowing := imageId.value);
          if image.isImage1Showing {
            image := image.(isImage1Showing := false, fadeIn := None, fadeOut := None);
            if image.alpha2 {
              image := image.(fadeOut := Some(Image2));
            }
            image := image.(sprite1 := Some(loaded.value.sprite), fadeIn := Some(Image1));
          } else {
            image := image.(isImage1Showing := true, fadeIn := None, fadeOut := None);
            if image.alpha1 {
              image := image.(fadeOut := Some(Image1));
            }
            image := image.(sprite2 := Some(loaded.value.sprite), fadeIn := Some(Image2));
          }
        }
      }
    }

    /**
     * Between frames, the image fade coroutines on the slots in `done` run to
     * their end; which ones have finished is decided by the environment.
     */
    method FinishImageRamps(done: set<Slot>)
      modifies this`image
      ensures image == RampsFinished(old(image), done)
    {
      var visible1, visible2 := Ramped(image, Image1, done), Ramped(image, Image2, done);
      if image.fadeIn.Some? && image.fadeIn.value in done {
        image := image.(fadeIn := None);
      }
      if image.fadeOut.Some? && image.fadeOut.value in done {
        image := image.(fadeOut := None);
      }
      image := image.(alpha1 := visible1, alpha2 := visible2);
    }

    /** The Timer step: a positive value replaces any running countdown. */
    method HandleTimer(value: Option<int>)
      modifies this`timer
      ensures timer == TimerAfter(old(timer), value)
    {
      if value.Some? && value.value > 0 {
        timer := timer.(panelActive := true, running := None);
        // the new coroutine runs up to its first wait at once
        timer := timer.(running := value, tickPlaying := true, shown := value.value);
      }
    }

    /** The Text step: show non-empty text; an image id without text clears the caption. */
    method HandleText(text: string, imageId: Option<int>)
      modifies this`caption
      ensures caption == CaptionAfter(old(caption), text, imageId)
    {
      if text != "" {
        caption := caption.(panelActive := true);
        caption := caption.(text := text);
      } else if imageId.Some? {
        caption := ClearedCaption;
      }
    }

    /** `Hub_OnHmCommand`: the regular pass, Timer, Audio, Image, Text, in that order. */
    method OnHmCommand(e: Option<HmCommand>, playing: set<int>) returns (effects: seq<int>)
      requires Valid()
      modifies this`gate, this`waitingTransitions, this`timer, this`currentBgm, this`idAudioBgmPlaying,
        this`fadeOutAudios, this`image, this`caption
      ensures Valid()
      ensures e.None? ==> View() == old(View()) && effects == []
      ensures e.Some? ==>
        && gate == GateAfterCommand(old(gate))
        && timer == TimerAfter(old(timer), e.value.timer)
        && Bgm() == BgmAfter(old(Bgm()), e.value.audioIds, game.audios, playing)
        && image == ImageAfter(old(image), e.value.imageId, game.images)
        && caption == CaptionAfter(old(caption), e.value.text, e.value.imageId)
        && effects == Effects(e.value.audioIds, game.audios)
    {
      effects := [];
      if e.None? {
        return;
      }
      var cmd := e.value;
      FirstReceivedHmCommand();
      HandleTimer(cmd.timer);
      effects := HandleAudio(cmd.audioIds, playing);
      HandleImage(cmd.imageId);
      HandleText(cmd.text, cmd.imageId);
      gate := gate.(receivedFirstHmCommand := true);
    }

    /**
     * The rest of `Start` once `ConnectAsync` returns `connected`: the waiting
     * text reports the outcome. `monoPlatform` is the compile-time
     * UNITY_EDITOR || PLATFORM_SUPPORTS_MONO switch.
     */
    method ConnectReturned(connected: bool, monoPlatform: bool)
      modifies this`status
      ensures status == old(status).(waitingText := WaitingTextAfterConnect(old(status).waitingText, connected, monoPlatform))
    {
      if connected {
        if monoPlatform {
          status := status.(waitingText := WaitingForModerator);
        }
      } else {
        status := status.(waitingText := ConnectErrorText);
      }
    }

    /** The environment step: the live countdown coroutine runs to its end (lines 435-454). */
    method FinishCountdown()
      modifies this`timer
      ensures timer == CountdownFinished(old(timer))
    {
      if timer.running.Some? {
        var start := timer.running.value;
        timer := timer.(tickPlaying := false, endedPlaying := true, panelActive := false);
        timer := timer.(shown := if start > 0 then 0 else start, running := None);
      }
    }

    /** StopSoundEffects: stop the countdown and both timer sounds, hide the panel. */
    method StopSoundEffects()
      modifies this`timer
      ensures timer == TimerStopped(old(timer))
    {
      timer := timer.(running := None);
      timer := timer.(tickPlaying := false, endedPlaying := false);
      timer := timer.(panelActive := false);
    }

    /** ClearScreen: hide both image slots (the visible one fades out) and the caption. */
    method ClearScreen()
      modifies this`image, this`caption
      ensures image == ClearScreenImage(old(image)) && caption == ClearedCaption
    {
      image := image.(fadeIn := None, fadeOut := None);
      image := image.(idImageShowing := 0);
      // the flag is reversed: when it is false, image 1 is the visible slot
      if !image.isImage1Showing {
        image := image.(alpha2 := false);
        if image.alpha1 {
          image := image.(fadeOut := Some(Image1));
        }
      } else {
        image := image.(alpha1 := false);
        if image.alpha2 {
          image := image.(fadeOut := Some(Image2));
        }
      }
      caption := CaptionState("", false);
    }

    /** StopBgm: fade the current track out and forget it. */
    method StopBackgroundMusic(playing: set<int>)
      modifies this`currentBgm, this`idAudioBgmPlaying, this`fadeOutAudios
      ensures Bgm() == StopBgm(old(Bgm()), playing)
    {
      CleanFadeOuts(-1, playing);
      if currentBgm.Some? {
        fadeOutAudios := fadeOutAudios + [AudioPlaying(currentBgm.value.id, FadingOut)];
        currentBgm := None;
      }
      idAudioBgmPlaying := 0;
    }

    /** `Hub_OnHmPredefinedCommand`: each set flag acts on its own part of the state. */
    method OnHmPredefinedCommand(e: Option<PredefinedCommand>, playing: set<int>)
      requires Valid()
      modifies this`gate, this`waitingTransitions, this`timer, this`currentBgm, this`idAudioBgmPlaying,
        this`fadeOutAudios, this`image, this`caption
      ensures Valid()
      ensures e.None? ==> View() == old(View())
      ensures e.Some? ==>
        && gate == GateAfterCommand(old(gate))
        && timer == (if e.value.stopSoundEffects then TimerStopped(old(timer)) else old(timer))
        && image == (if e.value.clearScreen then ClearScreenImage(old(image)) else old(image))
        && caption == (if e.value.clearScreen then ClearedCaption else old(caption))
        && Bgm() == (if e.value.stopBgm then StopBgm(old(Bgm()), playing) else old(Bgm()))
    {
      if e.None? {
        return;
      }
      var cmd := e.value;
      FirstReceivedHmCommand();
      // the empty command the source passes to the Audio step changes nothing
      var none := HandleAudio(EmptyCommand.audioIds, playing);
      if cmd.stopSoundEffects {
        StopSoundEffects();
      }
      if cmd.clearScreen {
        ClearScreen();
      }
      if cmd.stopBgm {
        StopBackgroundMusic(playing);
      }
      gate := gate.(receivedFirstHmCommand := true);
    }

    /** `Hub_OnConnectionStatusChanged`: update the banner as BannerFor decides. */
    method OnConnectionStatusChanged(e: ConnectionStatus)
      modifies this`status
      ensures status == ApplyBanner(old(status), BannerFor(e, old(status).isFirstConnectedJs))
    {
      var ex := ExceptionSuffix(e);
      if status.isFirstConnectedJs && e.connectedByJs {
        status := status.(isFirstConnectedJs := false, waitingText := WaitingForModerator);
        status := status.(errorCanvasActive := false);
        return;
      }
      if e.reconnected {
        status := status.(errorCanvasActive := false);
        return;
      }
      status := status.(errorCanvasActive := true, reconnectButtonActive := false);
      if e.isReconnecting {
        status := status.(errorText := ReconnectingText);
      } else if e.disconnected {
        status := status.(errorText := DisconnectedText + ex, reconnectButtonActive := true);
      } else if e.invokeFailed {
        status := status.(errorText := InvokeFailedText + ex);
      } else if e.failedToConnect {
        status := status.(errorText := FailedToConnectText + ex, reconnectButtonActive := true);
      }
    }

    /** `OnExitGame`: ask `Update` to leave. */
    method OnExitGame()
      modifies this`quitState
      ensures quitState == old(quitState).(quit := true)
    {
      quitState := quitState.(quit := true);
    }

    /** One dequeued entry of `Update`, sent to the handler its action names. */
    method Dispatch(item: QueuedItem, playing: set<int>) returns (fired: seq<int>)
      requires Valid()
      modifies this
      ensures Valid()
      ensures View() == AfterItem(old(View()), item, game.audios, game.images, playing)
      ensures fired == ItemEffects(item, game.audios)
    {
      fired := [];
      match item {
        case PlayerReceiveHmCommand(c) =>
          fired := OnHmCommand(c, playing);
        case PlayerReceiveHmCommandPredefined(p) =>
          OnHmPredefinedCommand(p, playing);
        case OnConnectionStatusChanged(e) =>
          OnConnectionStatusChanged(e);
      }
    }

    /**
     * `Update`, once per frame. When quitting, unsubscribe and stop the hub
     * once and drain nothing; otherwise drain the pending batch and dispatch
     * each entry in arrival order. Returns the entries consumed, whether the
     * hub is to be stopped (and the game left), and the effects fired.
     */
    method Update(pending: seq<QueuedItem>, playing: set<int>) returns (consumed: seq<QueuedItem>, stopHub: bool, effects: seq<int>)
      requires Valid()
      modifies this
      ensures Valid()
      ensures old(quitState.quit) ==>
        && consumed == [] && effects == [] && stopHub == !old(quitState.alreadySentQuit)
        && View() == old(View()).(quit := if stopHub then QuitState(true, true, false) else old(quitState))
      ensures !old(quitState.quit) ==>
        && consumed == pending && !stopHub
        && View() == AfterBatch(old(View()), pending, game.audios, game.images, playing)
        && effects == BatchEffects(pending, game.audios)
    {
      consumed, stopHub, effects := [], false, [];
      if quitState.quit {
        if !quitState.alreadySentQuit {
          quitState := quitState.(alreadySentQuit := true);
          // the three hub events are unsubscribed before the hub is stopped
          quitState := quitState.(hubSubscribed := false);
          stopHub := true;
        }
        return;
      }
      consumed := pending;
      var i := 0;
      while i < |pending|
        invariant 0 <= i <= |pending|
        invariant Valid()
        invariant View() == AfterBatch(old(View()), pending[..i], game.audios, game.images, playing)
        invariant effects == BatchEffects(pending[..i], game.audios)
      {
        var item := pending[i];
        assert pending[..i + 1] == pending[..i] + [item];
        BatchEffectsSnoc(pending[..i], item, game.audios);
        AfterBatchSnoc(old(View()), pending[..i], item, game.audios, game.images, playing);
        var fired := Dispatch(item, playing);
        effects := effects + fired;
        i := i + 1;
      }
      assert pending[..|pending|] == pending;
    }
  }
}
