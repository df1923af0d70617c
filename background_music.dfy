/**
 * Background-track bookkeeping of the presentation state machine: which
 * track is current, which ones are fading out, how an Audio command picks
 * the one background track it acts on, and how finished fade-outs are
 * collected (`CleanFadeOuts`). These are the specification functions the
 * imperative handlers in GameScene are proved against.
 */
module BackgroundMusic {
  import opened Wrappers
  import opened GameModel

  /** Which volume ramp is running on a track's AudioSource. */
  datatype Fade = FadingIn | FadingOut

  /** `AudioPlayingModel`: a background id (its AudioSource is determined by the id) and its ramp. */
  datatype AudioPlaying = AudioPlaying(id: int, fade: Fade)

  /** `currentBgm`, `idAudioBgmPlaying` and `fadeOutAudios`. */
  datatype BgmState = BgmState(current: Option<AudioPlaying>, idPlaying: int, fadeOuts: seq<AudioPlaying>)

  predicate IsBgm(audios: map<int, LoadedAudio>, id: int) {
    id in audios && audios[id].isBgm
  }

  predicate IsEffect(audios: map<int, LoadedAudio>, id: int) {
    id in audios && !audios[id].isBgm
  }

  /** Every background asset has a positive id (as database ids are). */
  predicate BgmIdsPositive(audios: map<int, LoadedAudio>) {
    forall id | id in audios && audios[id].isBgm :: id > 0
  }

  /** The first known background id of a command's AudioIds: the only one acted upon. */
  function FirstBgm(ids: seq<int>, audios: map<int, LoadedAudio>): (r: Option<int>)
    ensures r.None? <==> forall i | 0 <= i < |ids| :: !IsBgm(audios, ids[i])
    ensures r.Some? ==> r.value in ids && IsBgm(audios, r.value)
  {
    if ids == [] then None
    else if IsBgm(audios, ids[0]) then Some(ids[0])
    else FirstBgm(ids[1..], audios)
  }

  /** The one-shot effects an Audio command fires, in order. */
  function Effects(ids: seq<int>, audios: map<int, LoadedAudio>): (r: seq<int>)
    ensures |r| <= |ids|
    ensures forall x | x in r :: x in ids && IsEffect(audios, x)
    ensures forall x | x in ids && IsEffect(audios, x) :: x in r
  {
    if ids == [] then []
    else (if IsEffect(audios, ids[0]) then [ids[0]] else []) + Effects(ids[1..], audios)
  }

  /**
   * Whether `CleanFadeOuts(forced)` keeps a fade-out entry: it is removed when
   * its id is the forced id (only a forced id > -1 counts) or its track has
   * stopped playing.
   */
  predicate Keep(e: AudioPlaying, forced: int, playing: set<int>) {
    !(forced > -1 && e.id == forced) && e.id in playing
  }

  /** What `CleanFadeOuts` leaves in `fadeOutAudios`. */
  function Cleaned(s: seq<AudioPlaying>, forced: int, playing: set<int>): (r: seq<AudioPlaying>)
    ensures |r| <= |s|
    ensures forall e | e in r :: e in s && Keep(e, forced, playing)
  {
    if s == [] then []
    else (if Keep(s[0], forced, playing) then [s[0]] else []) + Cleaned(s[1..], forced, playing)
  }

  /** The current track, if any, turned into a fading-out entry. */
  function Retired(current: Option<AudioPlaying>): seq<AudioPlaying> {
    if current.Some? then [AudioPlaying(current.value.id, FadingOut)] else []
  }

  /** Switching the background to a new id `b` (lines 346-373). */
  function Switch(s: BgmState, b: int, playing: set<int>): BgmState {
    var kept := Cleaned(s.fadeOuts, if b in playing then b else -1, playing);
    BgmState(Some(AudioPlaying(b, FadingIn)), b, kept + Retired(s.current))
  }

  /** Background state after an Audio command's list of ids. */
  function BgmAfter(s: BgmState, ids: seq<int>, audios: map<int, LoadedAudio>, playing: set<int>): BgmState {
    match FirstBgm(ids, audios)
    case None => s
    case Some(b) => if b == s.idPlaying then s else Switch(s, b, playing)
  }

  /** The StopBgm flag of a predefined command (lines 243-259). */
  function StopBgm(s: BgmState, playing: set<int>): BgmState {
    BgmState(None, 0, Cleaned(s.fadeOuts, -1, playing) + Retired(s.current))
  }

  predicate DistinctIds(s: seq<AudioPlaying>) {
    forall i, j | 0 <= i < j < |s| :: s[i].id != s[j].id
  }

  /**
   * At most one current track, fading in, whose id is `idPlaying`; no current
   * track exactly when `idPlaying` is 0; every other track is fading out, at
   * most once per id, and the current one is not among them.
   */
  predicate BgmInvariant(s: BgmState) {
    && (s.current.Some? ==> s.current.value == AudioPlaying(s.idPlaying, FadingIn))
    && (s.current.None? <==> s.idPlaying == 0)
    && (forall e | e in s.fadeOuts :: e.fade == FadingOut)
    && DistinctIds(s.fadeOuts)
    && (s.current.Some? ==> forall e | e in s.fadeOuts :: e.id != s.idPlaying)
  }

  // ---------------------------------------------------------------- lemmas

  lemma {:induction false} FirstBgmAppend(a: seq<int>, b: seq<int>, audios: map<int, LoadedAudio>)
    ensures FirstBgm(a + b, audios) == if FirstBgm(a, audios).Some? then FirstBgm(a, audios) else FirstBgm(b, audios)
  {
    if a != [] {
      assert (a + b)[0] == a[0];
      assert (a + b)[1..] == a[1..] + b;
      FirstBgmAppend(a[1..], b, audios);
    } else {
      assert a + b == b;
    }
  }

  /** An id preceded only by non-background ids is the one FirstBgm picks. */
  lemma {:induction false} FirstBgmIsFirst(ids: seq<int>, audios: map<int, LoadedAudio>, i: int)
    requires 0 <= i < |ids| && IsBgm(audios, ids[i])
    requires forall j | 0 <= j < i :: !IsBgm(audios, ids[j])
    ensures FirstBgm(ids, audios) == Some(ids[i])
  {
    if i > 0 {
      FirstBgmIsFirst(ids[1..], audios, i - 1);
    }
  }

  lemma {:induction false} EffectsAppend(a: seq<int>, b: seq<int>, audios: map<int, LoadedAudio>)
    ensures Effects(a + b, audios) == Effects(a, audios) + Effects(b, audios)
  {
    if a == [] {
      assert a + b == b;
    } else {
      assert (a + b)[0] == a[0];
      assert (a + b)[1..] == a[1..] + b;
      EffectsAppend(a[1..], b, audios);
    }
  }

  /** Each listed effect fires once per occurrence in the list; nothing else fires. */
  lemma {:induction false} EffectsCounts(ids: seq<int>, audios: map<int, LoadedAudio>, x: int)
    ensures multiset(Effects(ids, audios))[x] == if IsEffect(audios, x) then multiset(ids)[x] else 0
  {
    if ids != [] {
      assert ids == [ids[0]] + ids[1..];
      EffectsCounts(ids[1..], audios, x);
    }
  }

  lemma {:induction false} CleanedAppend(a: seq<AudioPlaying>, b: seq<AudioPlaying>, forced: int, playing: set<int>)
    ensures Cleaned(a + b, forced, playing) == Cleaned(a, forced, playing) + Cleaned(b, forced, playing)
  {
    if a == [] {
      assert a + b == b;
    } else {
      assert (a + b)[0] == a[0];
      assert (a + b)[1..] == a[1..] + b;
      CleanedAppend(a[1..], b, forced, playing);
    }
  }

  /** Removing one dropped entry in place does not change what the clean-up keeps. */
  lemma CleanedRemoveAt(s: seq<AudioPlaying>, i: int, forced: int, playing: set<int>)
    requires 0 <= i < |s| && !Keep(s[i], forced, playing)
    ensures Cleaned(s[..i] + s[i + 1..], forced, playing) == Cleaned(s, forced, playing)
  {
    var front, back := s[..i], s[i + 1..];
    var tail := [s[i]] + back;
    assert tail[0] == s[i] && tail[1..] == back;
    assert Cleaned(tail, forced, playing) == Cleaned(back, forced, playing);
    assert s == front + tail;
    CleanedAppend(front, tail, forced, playing);
    CleanedAppend(front, back, forced, playing);
  }

  /** A list whose entries are all kept is left exactly as it was. */
  lemma {:induction false} CleanedAllKept(s: seq<AudioPlaying>, forced: int, playing: set<int>)
    requires forall k | 0 <= k < |s| :: Keep(s[k], forced, playing)
    ensures Cleaned(s, forced, playing) == s
  {
    if s != [] {
      CleanedAllKept(s[1..], forced, playing);
    }
  }

  /**
   * Nothing but dropped entries is removed, and no entry is duplicated: each
   * kept entry occurs exactly as often as before, each dropped one not at all.
   */
  lemma {:induction false} CleanedCounts(s: seq<AudioPlaying>, forced: int, playing: set<int>, e: AudioPlaying)
    ensures multiset(Cleaned(s, forced, playing))[e] == if Keep(e, forced, playing) then multiset(s)[e] else 0
  {
    if s != [] {
      CleanedCounts(s[1..], forced, playing, e);
      assert s == [s[0]] + s[1..];
    }
  }

  lemma {:induction false} CleanedDistinct(s: seq<AudioPlaying>, forced: int, playing: set<int>)
    requires DistinctIds(s)
    ensures DistinctIds(Cleaned(s, forced, playing))
  {
    if s != [] {
      CleanedDistinct(s[1..], forced, playing);
      var rest := Cleaned(s[1..], forced, playing);
      forall e | e in rest
        ensures e.id != s[0].id
      {
        var k :| 0 <= k < |s[1..]| && s[1..][k] == e;
        assert s[k + 1] == e;
      }
    }
  }

  /** Ids listed after the first background id do not matter. */
  lemma LaterIdsIgnored(s: BgmState, ids: seq<int>, rest: seq<int>, audios: map<int, LoadedAudio>, playing: set<int>)
    requires FirstBgm(ids, audios).Some?
    ensures BgmAfter(s, ids + rest, audios, playing) == BgmAfter(s, ids, audios, playing)
  {
    FirstBgmAppend(ids, rest, audios);
  }

  /** Unknown ids and one-shot effects never touch background state, wherever they appear. */
  lemma NonBgmIdIgnored(s: BgmState, before: seq<int>, x: int, after: seq<int>, audios: map<int, LoadedAudio>, playing: set<int>)
    requires !IsBgm(audios, x)
    ensures BgmAfter(s, before + [x] + after, audios, playing) == BgmAfter(s, before + after, audios, playing)
  {
    FirstBgmAppend(before + [x], after, audios);
    FirstBgmAppend(before, [x], audios);
    FirstBgmAppend(before, after, audios);
  }

  /** A command without background ids leaves the background state as it is. */
  lemma NoBgmNoChange(s: BgmState, ids: seq<int>, audios: map<int, LoadedAudio>, playing: set<int>)
    requires forall i | 0 <= i < |ids| :: !IsBgm(audios, ids[i])
    ensures BgmAfter(s, ids, audios, playing) == s
  {
  }

  /** Re-requesting the current track is a no-op. */
  lemma SameTrackNoChange(s: BgmState, ids: seq<int>, audios: map<int, LoadedAudio>, playing: set<int>)
    requires FirstBgm(ids, audios) == Some(s.idPlaying)
    ensures BgmAfter(s, ids, audios, playing) == s
  {
  }

  /**
   * Switching to a new track: the new id is current and fading in, and the
   * old current track appears in the fade-out list exactly once, at its end.
   */
  lemma {:induction false} SwitchRetiresOldOnce(s: BgmState, b: int, playing: set<int>)
    requires BgmInvariant(s) && s.current.Some? && b != s.idPlaying
    ensures var r := Switch(s, b, playing);
      && r.current == Some(AudioPlaying(b, FadingIn)) && r.idPlaying == b
      && r.fadeOuts[|r.fadeOuts| - 1] == AudioPlaying(s.idPlaying, FadingOut)
      && multiset(r.fadeOuts)[AudioPlaying(s.idPlaying, FadingOut)] == 1
  {
    var old_ := AudioPlaying(s.idPlaying, FadingOut);
    var forced := if b in playing then b else -1;
    assert old_ !in s.fadeOuts;
    CleanedCounts(s.fadeOuts, forced, playing, old_);
  }

  /** An Audio command keeps the background invariant when background ids are positive. */
  lemma BgmAfterKeepsInvariant(s: BgmState, ids: seq<int>, audios: map<int, LoadedAudio>, playing: set<int>)
    requires BgmInvariant(s) && BgmIdsPositive(audios)
    ensures BgmInvariant(BgmAfter(s, ids, audios, playing))
  {
    var f := FirstBgm(ids, audios);
    if f.Some? && f.value != s.idPlaying {
      var b := f.value;
      var forced := if b in playing then b else -1;
      var kept := Cleaned(s.fadeOuts, forced, playing);
      CleanedDistinct(s.fadeOuts, forced, playing);
      var r := Switch(s, b, playing);
      assert r.fadeOuts == kept + Retired(s.current);
      forall e | e in kept ensures e.id != b {
      }
      if s.current.Some? {
        forall e | e in kept ensures e.id != s.idPlaying {
        }
      }
    }
  }

  /** StopBgm empties the current slot and keeps the invariant. */
  lemma StopBgmKeepsInvariant(s: BgmState, playing: set<int>)
    requires BgmInvariant(s)
    ensures var r := StopBgm(s, playing);
      && BgmInvariant(r) && r.current.None? && r.idPlaying == 0
      && (s.current.Some? ==> multiset(r.fadeOuts)[AudioPlaying(s.idPlaying, FadingOut)] == 1)
  {
    var kept := Cleaned(s.fadeOuts, -1, playing);
    CleanedDistinct(s.fadeOuts, -1, playing);
    if s.current.Some? {
      forall e | e in kept ensures e.id != s.idPlaying {
      }
      var old_ := AudioPlaying(s.idPlaying, FadingOut);
      assert old_ !in s.fadeOuts;
      CleanedCounts(s.fadeOuts, -1, playing, old_);
    }
  }
}
