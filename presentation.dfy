/**
 * Specification of the non-audio parts of the presentation state machine:
 * the two image slots, the caption, the timer panel and the one-time
 * waiting-to-game transition. Image alpha is modelled only as zero or
 * nonzero, and a running fade coroutine only by the slot it animates.
 */
module Presentation {
  import opened Wrappers
  import opened GameModel
  import Countdown

  datatype Slot = Image1 | Image2

  function Other(s: Slot): Slot {
    if s == Image1 then Image2 else Image1
  }

  /**
   * The two-slot image state. `isImage1Showing` is read reversed: when it is
   * false, image 1 is the visible target (see TargetSlot).
   */
  datatype ImageState = ImageState(
    isImage1Showing: bool,
    idImageShowing: int,
    alpha1: bool,              // imgImage1.color.a > 0
    alpha2: bool,              // imgImage2.color.a > 0
    sprite1: Option<int>,
    sprite2: Option<int>,
    fadeIn: Option<Slot>,      // slot animated by a running crImageFadeIn
    fadeOut: Option<Slot>)     // slot animated by a running crImageFadeOut

  /** The slot that is (or is becoming) visible. */
  function TargetSlot(isImage1Showing: bool): Slot {
    if isImage1Showing then Image2 else Image1
  }

  function AlphaOf(s: ImageState, slot: Slot): bool {
    if slot == Image1 then s.alpha1 else s.alpha2
  }

  function SpriteOf(s: ImageState, slot: Slot): Option<int> {
    if slot == Image1 then s.sprite1 else s.sprite2
  }

  /** An image id the handler acts on: positive, known, and not already shown. */
  predicate ShowsNewImage(s: ImageState, imageId: Option<int>, images: map<int, LoadedImage>) {
    imageId.Some? && imageId.value > 0 && imageId.value in images && imageId.value != s.idImageShowing
  }

  /** Image state after the Image step of a regular command (lines 379-422). */
  function ImageAfter(s: ImageState, imageId: Option<int>, images: map<int, LoadedImage>): (r: ImageState)
    ensures !ShowsNewImage(s, imageId, images) ==> r == s
    ensures ShowsNewImage(s, imageId, images) ==>
      var target := TargetSlot(r.isImage1Showing);
      && r.idImageShowing == imageId.value
      && r.isImage1Showing == !s.isImage1Showing
      && target == Other(TargetSlot(s.isImage1Showing))
      && SpriteOf(r, target) == Some(images[imageId.value].sprite)
      && SpriteOf(r, Other(target)) == SpriteOf(s, Other(target))
      && r.fadeIn == Some(target)
      && r.fadeOut == (if AlphaOf(s, Other(target)) then Some(Other(target)) else None)
      && r.alpha1 == s.alpha1 && r.alpha2 == s.alpha2
  {
    if !ShowsNewImage(s, imageId, images) then s
    else
      var sprite := images[imageId.value].sprite;
      if s.isImage1Showing then
        s.(isImage1Showing := false, idImageShowing := imageId.value,
           fadeOut := if s.alpha2 then Some(Image2) else None,
           sprite1 := Some(sprite), fadeIn := Some(Image1))
      else
        s.(isImage1Showing := true, idImageShowing := imageId.value,
           fadeOut := if s.alpha1 then Some(Image1) else None,
           sprite2 := Some(sprite), fadeIn := Some(Image2))
  }

  /** ClearScreen's effect on the image slots (lines 205-237). */
  function ClearScreenImage(s: ImageState): (r: ImageState)
    ensures var target := TargetSlot(s.isImage1Showing);
      && r.idImageShowing == 0
      && r.isImage1Showing == s.isImage1Showing
      && !AlphaOf(r, Other(target))
      && AlphaOf(r, target) == AlphaOf(s, target)
      && r.fadeIn == None
      && r.fadeOut == (if AlphaOf(s, target) then Some(target) else None)
      && r.sprite1 == s.sprite1 && r.sprite2 == s.sprite2
  {
    var s' := s.(fadeIn := None, fadeOut := None, idImageShowing := 0);
    if !s.isImage1Showing then
      s'.(alpha2 := false, fadeOut := if s.alpha1 then Some(Image1) else None)
    else
      s'.(alpha1 := false, fadeOut := if s.alpha2 then Some(Image2) else None)
  }

  /** Whether `slot` is visible once the ramps on `done` have run to their end. */
  function Ramped(s: ImageState, slot: Slot, done: set<Slot>): bool {
    if slot in done && s.fadeIn == Some(slot) then true
    else if slot in done && s.fadeOut == Some(slot) then false
    else AlphaOf(s, slot)
  }

  /**
   * The fade coroutines running on the slots in `done` reach their end: a
   * slot that was fading in is visible, a slot that was fading out is not,
   * and those ramps are no longer running. Nothing else changes.
   */
  function RampsFinished(s: ImageState, done: set<Slot>): (r: ImageState)
    ensures forall slot: Slot :: AlphaOf(r, slot) == Ramped(s, slot, done)
    ensures r.fadeIn == (if s.fadeIn.Some? && s.fadeIn.value in done then None else s.fadeIn)
    ensures r.fadeOut == (if s.fadeOut.Some? && s.fadeOut.value in done then None else s.fadeOut)
    ensures r.isImage1Showing == s.isImage1Showing && r.idImageShowing == s.idImageShowing
    ensures r.sprite1 == s.sprite1 && r.sprite2 == s.sprite2
  {
    s.(alpha1 := Ramped(s, Image1, done), alpha2 := Ramped(s, Image2, done),
       fadeIn := if s.fadeIn.Some? && s.fadeIn.value in done then None else s.fadeIn,
       fadeOut := if s.fadeOut.Some? && s.fadeOut.value in done then None else s.fadeOut)
  }

  /** Caption text and whether its panel is active. */
  datatype CaptionState = CaptionState(text: string, panelActive: bool)

  const ClearedCaption := CaptionState("", false)

  /** Caption after the Text step of a regular command (lines 456-471). */
  function CaptionAfter(c: CaptionState, text: string, imageId: Option<int>): (r: CaptionState)
    ensures text != "" ==> r.panelActive && r.text == text
    ensures text == "" && imageId.Some? ==> r == ClearedCaption
    ensures text == "" && imageId.None? ==> r == c
  {
    if text != "" then CaptionState(text, true)
    else if imageId.Some? then ClearedCaption
    else c
  }

  /**
   * Timer panel: the start value of the live countdown (`crTimer`), the panel,
   * the tick and ended sounds, and the value last displayed.
   */
  datatype TimerState = TimerState(
    running: Option<int>,
    panelActive: bool,
    tickPlaying: bool,
    endedPlaying: bool,
    shown: int)

  /** Timer after the Timer step of a regular command (lines 423-438). */
  function TimerAfter(t: TimerState, timer: Option<int>): (r: TimerState)
    ensures timer.Some? && timer.value > 0 ==>
      r.running == timer && r.panelActive && r.tickPlaying && r.shown == timer.value && r.endedPlaying == t.endedPlaying
    ensures !(timer.Some? && timer.value > 0) ==> r == t
  {
    if timer.Some? && timer.value > 0 then
      TimerState(timer, true, true, t.endedPlaying, timer.value)
    else t
  }

  /** StopSoundEffects: cancel the countdown, silence both sounds, hide the panel. */
  function TimerStopped(t: TimerState): (r: TimerState)
    ensures r.running.None? && !r.panelActive && !r.tickPlaying && !r.endedPlaying
    ensures r.shown == t.shown
  {
    TimerState(None, false, false, false, t.shown)
  }

  /** What one step of the countdown coroutine does to the timer widgets. */
  function TimerStepped(t: TimerState, step: Countdown.TimerStep): TimerState {
    match step
    case PlayTick => t.(tickPlaying := true)
    case Show(seconds) => t.(shown := seconds)
    case Wait => t
    case StopTick => t.(tickPlaying := false)
    case PlayEnded => t.(endedPlaying := true)
    case HidePanel => t.(panelActive := false)
  }

  /** The timer widgets after the coroutine performs `steps` in order. */
  function TimerReplay(t: TimerState, steps: seq<Countdown.TimerStep>): TimerState
    decreases |steps|
  {
    if steps == [] then t else TimerReplay(TimerStepped(t, steps[0]), steps[1..])
  }

  /**
   * The live countdown ran to its end on its own: the coroutine is over, the
   * tick stopped, the ended sound started, the panel hidden, and the last
   * value displayed stays. Without a live countdown nothing happens.
   */
  function CountdownFinished(t: TimerState): (r: TimerState)
    ensures t.running.None? ==> r == t
    ensures t.running.Some? ==> r.running.None? && !r.panelActive && !r.tickPlaying && r.endedPlaying
    ensures t.running.Some? && t.running.value > 0 ==> r.shown == 0
  {
    if t.running.None? then t
    else TimerState(None, false, false, true, if t.running.value > 0 then 0 else t.running.value)
  }

  lemma {:induction false} TimerReplayAppend(t: TimerState, a: seq<Countdown.TimerStep>, b: seq<Countdown.TimerStep>)
    ensures TimerReplay(t, a + b) == TimerReplay(TimerReplay(t, a), b)
    decreases |a|
  {
    if a == [] {
      assert a + b == b;
    } else {
      assert (a + b)[0] == a[0] && (a + b)[1..] == a[1..] + b;
      TimerReplayAppend(TimerStepped(t, a[0]), a[1..], b);
    }
  }

  /** The first loop of the coroutine leaves 0 displayed after a positive start, and changes nothing else. */
  lemma {:induction false} ReplayCountdownSteps(t: TimerState, k: int)
    ensures TimerReplay(t, Countdown.CountdownSteps(k)) == if k > 0 then t.(shown := 0) else t
    decreases k
  {
    if k > 0 {
      var front := [Countdown.Wait, Countdown.Show(k - 1)];
      TimerReplayAppend(t, front, Countdown.CountdownSteps(k - 1));
      assert TimerReplay(t, front) == t.(shown := k - 1) by {
        assert front[1..] == [Countdown.Show(k - 1)] && front[1..][1..] == [];
        assert TimerReplay(t, front) == TimerReplay(t, [Countdown.Show(k - 1)]);
        assert TimerReplay(t, [Countdown.Show(k - 1)]) == TimerReplay(t.(shown := k - 1), []);
      }
      ReplayCountdownSteps(t.(shown := k - 1), k - 1);
    }
  }

  /** The linger loop only waits, so it changes no widget. */
  lemma {:induction false} ReplayLingerSteps(t: TimerState, k: int)
    ensures TimerReplay(t, Countdown.LingerSteps(k)) == t
    decreases k
  {
    if k > 0 {
      assert Countdown.LingerSteps(k)[1..] == Countdown.LingerSteps(k - 1);
      ReplayLingerSteps(t, k - 1);
    }
  }

  /**
   * Letting the coroutine `StartTimer(n)` perform its whole trace leaves the
   * widgets exactly as `CountdownFinished` says, whatever they were before.
   */
  lemma CountdownFinishedReplaysTrace(t: TimerState, n: int)
    requires t.running == Some(n)
    ensures CountdownFinished(t) == TimerReplay(t, Countdown.TimerTrace(n)).(running := None)
  {
    var start := [Countdown.PlayTick, Countdown.Show(n)];
    var loop := Countdown.CountdownSteps(n);
    var reached := if n > 0 then 0 else n;
    var linger := Countdown.LingerSteps(reached - Countdown.LingerFloor);
    var after := [Countdown.StopTick, Countdown.PlayEnded];
    assert Countdown.TimerTrace(n) == start + loop + after + linger + [Countdown.HidePanel];
    var s1 := t.(tickPlaying := true, shown := n);
    assert TimerReplay(t, start) == s1 by {
      assert start[1..] == [Countdown.Show(n)] && start[1..][1..] == [];
      assert TimerReplay(t, start) == TimerReplay(t.(tickPlaying := true), [Countdown.Show(n)]);
      assert TimerReplay(t.(tickPlaying := true), [Countdown.Show(n)]) == TimerReplay(s1, []);
    }
    TimerReplayAppend(t, start, loop);
    ReplayCountdownSteps(s1, n);
    var s2 := s1.(shown := reached);
    TimerReplayAppend(t, start + loop, after);
    assert TimerReplay(s2, after) == s2.(tickPlaying := false, endedPlaying := true) by {
      assert after[1..] == [Countdown.PlayEnded] && after[1..][1..] == [];
      assert TimerReplay(s2, after) == TimerReplay(s2.(tickPlaying := false), [Countdown.PlayEnded]);
    }
    var s3 := s2.(tickPlaying := false, endedPlaying := true);
    TimerReplayAppend(t, start + loop + after, linger);
    ReplayLingerSteps(s3, reached - Countdown.LingerFloor);
    TimerReplayAppend(t, start + loop + after + linger, [Countdown.HidePanel]);
    assert TimerReplay(s3, [Countdown.HidePanel]) == s3.(panelActive := false) by {
      assert [Countdown.HidePanel][1..] == [];
    }
  }

  /** A new timer after a finished countdown does not silence the ended sound still playing. */
  lemma NewTimerKeepsEndedSound(t: TimerState, m: int)
    requires t.running.Some? && m > 0
    ensures TimerAfter(CountdownFinished(t), Some(m)).endedPlaying
    ensures !TimerStopped(TimerAfter(CountdownFinished(t), Some(m))).endedPlaying
  {
  }

  /** The waiting screen versus the game surface. */
  datatype GateState = GateState(
    receivedFirstHmCommand: bool,
    gameCanvasActive: bool,
    panelImageActive: bool,
    waitingFadingIn: bool)

  /** `FirstReceviedHmCommand`: dismiss the waiting screen, only before the first command. */
  function FirstReceived(g: GateState): (r: GateState)
    ensures g.receivedFirstHmCommand ==> r == g
    ensures !g.receivedFirstHmCommand ==> r.gameCanvasActive && r.panelImageActive && !r.waitingFadingIn
    ensures r.receivedFirstHmCommand == g.receivedFirstHmCommand
  {
    if g.receivedFirstHmCommand then g
    else g.(gameCanvasActive := true, panelImageActive := true, waitingFadingIn := false)
  }

  /** Gate after a whole non-null command of either kind: transition, then the flag. */
  function GateAfterCommand(g: GateState): (r: GateState)
    ensures r.receivedFirstHmCommand
    ensures g.receivedFirstHmCommand ==> r == g
    ensures !g.receivedFirstHmCommand ==> r.gameCanvasActive && r.panelImageActive && !r.waitingFadingIn
  {
    FirstReceived(g).(receivedFirstHmCommand := true)
  }

  // ---------------------------------------------------------------- lemmas

  /** Showing the same image twice in a row is the same as showing it once. */
  lemma ImageIdempotent(s: ImageState, imageId: Option<int>, images: map<int, LoadedImage>)
    ensures ImageAfter(ImageAfter(s, imageId, images), imageId, images) == ImageAfter(s, imageId, images)
  {
  }

  /** After ClearScreen no image is shown, and a slot can only still be visible while fading out. */
  lemma ClearScreenHidesImages(s: ImageState, slot: Slot)
    ensures var r := ClearScreenImage(s);
      r.idImageShowing == 0 && (AlphaOf(r, slot) ==> r.fadeOut == Some(slot) && slot == TargetSlot(s.isImage1Showing))
  {
  }

  /** After ClearScreen, any new positive known image is shown again. */
  lemma ClearScreenThenImage(s: ImageState, id: int, images: map<int, LoadedImage>)
    requires id > 0 && id in images
    ensures ImageAfter(ClearScreenImage(s), Some(id), images).idImageShowing == id
  {
  }

  /**
   * Once a new image has finished fading in, the next new image fades it
   * out, and fades in on the other slot.
   */
  lemma NextImageFadesOutShown(s: ImageState, a: int, b: int, images: map<int, LoadedImage>)
    requires ShowsNewImage(s, Some(a), images) && b > 0 && b in images && b != a
    ensures var shown := ImageAfter(s, Some(a), images);
      var settled := RampsFinished(shown, {shown.fadeIn.value});
      var next := ImageAfter(settled, Some(b), images);
      && AlphaOf(settled, shown.fadeIn.value)
      && next.fadeOut == shown.fadeIn
      && next.fadeIn == Some(Other(shown.fadeIn.value))
  {
    var shown := ImageAfter(s, Some(a), images);
    var slot := shown.fadeIn.value;
    var settled := RampsFinished(shown, {slot});
    assert AlphaOf(settled, slot) == Ramped(shown, slot, {slot});
    assert slot == TargetSlot(settled.isImage1Showing);
  }

  /** Once a new image has finished fading in, ClearScreen fades it out. */
  lemma ClearScreenFadesShown(s: ImageState, a: int, images: map<int, LoadedImage>)
    requires ShowsNewImage(s, Some(a), images)
    ensures var shown := ImageAfter(s, Some(a), images);
      ClearScreenImage(RampsFinished(shown, {shown.fadeIn.value})).fadeOut == shown.fadeIn
  {
    var shown := ImageAfter(s, Some(a), images);
    var slot := shown.fadeIn.value;
    var settled := RampsFinished(shown, {slot});
    assert AlphaOf(settled, slot) == Ramped(shown, slot, {slot});
  }

  /** The gate transition happens at most once: a second command leaves the gate unchanged. */
  lemma GateOnce(g: GateState)
    ensures GateAfterCommand(GateAfterCommand(g)) == GateAfterCommand(g)
  {
  }
}
