/**
 * The trending cards: one element shared by three cards, created on mount. A card's button
 * switches the element to that card's source and plays it, or toggles the element when the card
 * is already current; the element's own play/pause events keep the card's flag in step.
 */
module Trending {
  import opened Wrappers
  import opened Media
  import opened TimeFormat
  import ProgressBar

  /** The element events this section listens to. */
  datatype CardEvent = TimeUpdate | LoadedMetadata | Ended | Played | Paused

  datatype CardsState = CardsState(currentIndex: Option<nat>, isPlaying: bool, time: real, duration: real)

  const InitialCardsState := CardsState(None, false, 0.0, 0.0)

  /** The state after the handler of `e`, given the element's time and duration (NaN read as 0). */
  function Fold(s: CardsState, e: CardEvent, elementTime: real, elementDuration: real): (r: CardsState)
    ensures e == Ended ==> r == CardsState(None, false, 0.0, s.duration)
    ensures e == Played ==> r == s.(isPlaying := true)
    ensures e == Paused ==> r == s.(isPlaying := false)
    ensures e == TimeUpdate ==> r == s.(time := elementTime)
    ensures e == LoadedMetadata ==> r == s.(duration := elementDuration)
  {
    match e
    case TimeUpdate => s.(time := elementTime)
    case LoadedMetadata => s.(duration := elementDuration)
    case Ended => s.(isPlaying := false, time := 0.0, currentIndex := None)
    case Played => s.(isPlaying := true)
    case Paused => s.(isPlaying := false)
  }

  /** A card shows the pause icon only while it is current and playing. */
  predicate ShowsPause(s: CardsState, idx: nat) {
    s.currentIndex == Some(idx) && s.isPlaying
  }

  /** At most one card shows the pause icon, and after the track ends none does. */
  lemma AtMostOnePauseIcon(s: CardsState, i: nat, j: nat, t: real, d: real)
    ensures ShowsPause(s, i) && ShowsPause(s, j) ==> i == j
    ensures forall k: nat :: !ShowsPause(Fold(s, Ended, t, d), k)
  {
  }

  /** The progress bar's value: `time / duration * 100`, or 0 while the duration is 0. */
  function ProgressValue(time: real, duration: real): (r: real)
    ensures duration == 0.0 ==> r == 0.0
    ensures duration != 0.0 ==> r * duration == time * 100.0
  {
    if duration == 0.0 then 0.0 else time / duration * 100.0
  }

  /** Inside the track the value lies between 0 and 100. */
  lemma ProgressWithinBounds(time: real, duration: real)
    requires 0.0 <= time <= duration
    ensures 0.0 <= ProgressValue(time, duration) <= 100.0
  {
    if duration != 0.0 {
      ProgressBar.QuotientFacts(time, duration);
    }
  }

  /** The card's time line: the running time on the current card, the listed length elsewhere. */
  function TimeLabel(s: CardsState, idx: nat, listedLength: string): (r: string)
    ensures s.currentIndex != Some(idx) ==> r == listedLength
    ensures s.currentIndex == Some(idx) && s.time == 0.0 ==> r == "0:00"
  {
    if s.currentIndex == Some(idx) then FormatTimeTrending(Finite(s.time)) else listedLength
  }

  class TrendingSection {
    var audio: MediaElement?
    var state: CardsState

    /** Mounting creates the section's own element. */
    constructor ()
      ensures audio != null && fresh(audio) && state == InitialCardsState
      ensures audio.src == "" && audio.paused
    {
      audio := new MediaElement();
      state := InitialCardsState;
    }

    /**
     * `togglePlay(idx, src)`: another card binds `src` (the empty string when the card has none),
     * which pauses and rewinds the element, then plays, and becomes current whether the play
     * succeeds or not; the current card toggles the element and leaves the flag to the element's
     * events.
     */
    method TogglePlay(idx: nat, src: Option<string>, playSucceeds: bool)
      modifies this, audio
      ensures audio == old(audio)
      ensures audio == null ==> state == old(state)
      ensures audio != null && old(state.currentIndex) != Some(idx) ==>
        && audio.src == (if src.Some? then src.value else "") && audio.currentTime == 0.0
        && audio.duration == 0.0 && audio.bufferedEnds == []
        && audio.paused == !playSucceeds && audio.playCalls == old(audio.playCalls) + 1
        && state == old(state).(currentIndex := Some(idx), isPlaying := playSucceeds)
      ensures audio != null && old(state.currentIndex) == Some(idx) ==>
        && state == old(state) && audio.src == old(audio.src) && audio.currentTime == old(audio.currentTime)
        && audio.bufferedEnds == old(audio.bufferedEnds)
        && audio.duration == old(audio.duration)
        && (old(audio.paused) ==> audio.paused == !playSucceeds && audio.playCalls == old(audio.playCalls) + 1)
        && (!old(audio.paused) ==> audio.paused && audio.playCalls == old(audio.playCalls))
      ensures audio != null ==> audio.volume == old(audio.volume)
    {
      if audio == null {
        return;
      }
      if state.currentIndex != Some(idx) {
        audio.Load(if src.Some? then src.value else "");
        audio.currentTime := 0.0;
        audio.Play(playSucceeds);
        state := state.(currentIndex := Some(idx), isPlaying := playSucceeds);
        return;
      }
      if audio.paused {
        audio.Play(playSucceeds);
      } else {
        audio.Pause();
      }
    }

    /** `seek(percent)`: only the element moves, and only once a duration is known. */
    method Seek(percent: real)
      modifies audio
      ensures audio != null && state.duration != 0.0 ==> audio.currentTime == percent / 100.0 * state.duration
      ensures audio != null && state.duration == 0.0 ==> audio.currentTime == old(audio.currentTime)
      ensures audio != null ==>
        && audio.src == old(audio.src) && audio.paused == old(audio.paused) && audio.duration == old(audio.duration)
        && audio.bufferedEnds == old(audio.bufferedEnds)
        && audio.volume == old(audio.volume) && audio.playCalls == old(audio.playCalls)
    {
      if audio == null || state.duration == 0.0 {
        return;
      }
      audio.currentTime := percent / 100.0 * state.duration;
    }

    /** The element fires `e`. */
    method HandleEvent(e: CardEvent)
      requires audio != null
      modifies this
      ensures audio == old(audio)
      ensures state == Fold(old(state), e, audio.currentTime, audio.duration)
    {
      state := Fold(state, e, audio.currentTime, audio.duration);
    }
  }

  /** Seeking to a percentage inside [0, 100] lands inside the track. */
  lemma SeekStaysInTrack(percent: real, duration: real)
    requires 0.0 <= percent <= 100.0 && duration > 0.0
    ensures 0.0 <= percent / 100.0 * duration <= duration
  {
    assert percent / 100.0 <= 1.0;
  }

  /**
   * A card whose first press bound its source but had `play()` rejected stays current and paused,
   * so pressing it again takes the toggle's play branch and calls `play()` once more.
   */
  method PressAgainAfterRejectedPlay(section: TrendingSection, idx: nat, src: Option<string>, playSucceeds: bool)
    requires section.audio != null && section.state.currentIndex != Some(idx)
    modifies section, section.audio
    ensures section.audio == old(section.audio)
    ensures section.state.currentIndex == Some(idx) && !section.state.isPlaying
    ensures section.audio.playCalls == old(section.audio.playCalls) + 2
    ensures section.audio.paused == !playSucceeds
  {
    section.TogglePlay(idx, src, false);
    section.TogglePlay(idx, src, playSucceeds);
  }
}
