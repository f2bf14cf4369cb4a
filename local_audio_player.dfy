/**
 * The local-state player hook (`useAudioPlayer`): its own record instead of the shared store,
 * an element rendered by the page, actions that write the element and then copy the record with
 * the changed fields, and handlers that copy the record on each event. Every action does nothing
 * while the element is absent.
 */
module LocalAudioPlayer {
  import opened Wrappers
  import opened Tracks
  import opened Media
  import opened ElementSync
  import opened Skips

  datatype PlayerState = PlayerState(
    isPlaying: bool,
    currentTime: real,
    duration: real,
    volume: real,
    isMuted: bool,
    isLoading: bool,
    buffered: real)

  /** Stopped at 0 with no duration, full volume, unmuted, loading, nothing buffered. */
  const InitialPlayerState := PlayerState(false, 0.0, 0.0, 1.0, false, true, 0.0)

  /** The volume the element should play at for record `s`. */
  function AudibleVolume(s: PlayerState): real {
    if s.isMuted then 0.0 else s.volume
  }

  /** `Math.max(0, Math.min(1, v))`. */
  function Clamp01(v: real): (r: real)
    ensures 0.0 <= r <= 1.0
    ensures 0.0 <= v <= 1.0 ==> r == v
    ensures v < 0.0 ==> r == 0.0
    ensures v > 1.0 ==> r == 1.0
  {
    Max(0.0, Min(1.0, v))
  }

  /** Clamping twice is clamping once. */
  lemma Clamp01Idempotent(v: real)
    ensures Clamp01(Clamp01(v)) == Clamp01(v)
  {
  }

  /** `audio.duration || state.duration`: the element's duration once known (non-zero), else the record's. */
  function SkipEnd(elementDuration: real, stateDuration: real): real {
    if elementDuration != 0.0 then elementDuration else stateDuration
  }

  /** The record after an event's handler; `stalled`, `suspend` and the timer have no handler here. */
  function Fold(s: PlayerState, e: MediaEvent, v: ElementView): (r: PlayerState)
    ensures r.volume == s.volume && r.isMuted == s.isMuted
    ensures r.isPlaying == (s.isPlaying && e != Ended)
    ensures e == LoadedMetadata ==> r == s.(duration := v.duration, currentTime := 0.0, isLoading := false)
    ensures e == TimeUpdate ==> r == s.(currentTime := v.currentTime)
    ensures e == Ended ==> r == s.(isPlaying := false, currentTime := 0.0)
    ensures e == LoadStart ==> r == s.(isLoading := true, currentTime := 0.0)
    ensures e == Error || e == CanPlay || e == CanPlayThrough ==> r == s.(isLoading := false)
    ensures e == Waiting ==> r == s.(isLoading := true)
    ensures e == Stalled || e == Suspend || e == LoadTimeout ==> r == s
    ensures e == Progress && v.bufferedEnds != [] ==> r == s.(buffered := v.bufferedEnds[|v.bufferedEnds| - 1])
    ensures e == Progress && v.bufferedEnds == [] ==> r == s
  {
    match e
    case LoadedMetadata => s.(duration := v.duration, currentTime := 0.0, isLoading := false)
    case TimeUpdate => s.(currentTime := v.currentTime)
    case Ended => s.(isPlaying := false, currentTime := 0.0)
    case Error => s.(isLoading := false)
    case LoadStart => s.(isLoading := true, currentTime := 0.0)
    case CanPlay => s.(isLoading := false)
    case Waiting => s.(isLoading := true)
    case CanPlayThrough => s.(isLoading := false)
    case Progress =>
      if |v.bufferedEnds| > 0 then s.(buffered := v.bufferedEnds[|v.bufferedEnds| - 1]) else s
    case Stalled => s
    case Suspend => s
    case LoadTimeout => s
  }

  /** No event changes volume or mute, so the element's volume keeps matching the record. */
  lemma EventsKeepAudibleVolume(s: PlayerState, e: MediaEvent, v: ElementView)
    ensures AudibleVolume(Fold(s, e, v)) == AudibleVolume(s)
  {
  }

  /** Unlike the store-driven players, every time update is copied, with no tolerance band. */
  lemma TimeUpdateTracksElementExactly(s: PlayerState, v: ElementView)
    ensures Fold(s, TimeUpdate, v).currentTime == v.currentTime
  {
  }

  class LocalAudioPlayer {
    const audio: MediaElement?
    var state: PlayerState
    /** The event handlers are attached to `audio`. */
    var listening: bool

    /** The hook with the element the page rendered, or none before it mounts. */
    constructor (audio: MediaElement?)
      ensures this.audio == audio && state == InitialPlayerState && !listening
    {
      this.audio := audio;
      state := InitialPlayerState;
      listening := false;
    }

    /** `togglePlayPause`: pause when playing; otherwise play, and mark playing only once play succeeds. */
    method TogglePlayPause(playSucceeds: bool)
      modifies this, audio
      ensures audio == null ==> state == old(state)
      ensures audio != null && old(state.isPlaying) ==>
        audio.paused && state == old(state).(isPlaying := false) && audio.playCalls == old(audio.playCalls)
      ensures audio != null && !old(state.isPlaying) ==>
        && audio.playCalls == old(audio.playCalls) + 1
        && audio.paused == (old(audio.paused) && !playSucceeds)
        && state == (if playSucceeds then old(state).(isPlaying := true) else old(state).(isLoading := false))
      ensures audio != null ==>
        && audio.src == old(audio.src) && audio.currentTime == old(audio.currentTime)
        && audio.bufferedEnds == old(audio.bufferedEnds)
        && audio.volume == old(audio.volume) && audio.duration == old(audio.duration)
      ensures listening == old(listening)
    {
      if audio == null {
        return;
      }
      if state.isPlaying {
        audio.Pause();
        state := state.(isPlaying := false);
      } else {
        audio.Play(playSucceeds);
        if playSucceeds {
          state := state.(isPlaying := true);
        } else {
          state := state.(isLoading := false);
        }
      }
    }

    /** `handleSeek`: the element and the record both move to `time`. */
    method HandleSeek(time: real)
      modifies this, audio
      ensures audio == null ==> state == old(state)
      ensures audio != null ==> audio.currentTime == time && state == old(state).(currentTime := time)
      ensures audio != null ==>
        && audio.src == old(audio.src) && audio.paused == old(audio.paused)
        && audio.duration == old(audio.duration) && audio.bufferedEnds == old(audio.bufferedEnds)
        && audio.volume == old(audio.volume) && audio.playCalls == old(audio.playCalls)
      ensures listening == old(listening)
    {
      if audio == null {
        return;
      }
      audio.currentTime := time;
      state := state.(currentTime := time);
    }

    /** `toggleMute`: flips the flag; the element goes silent or back to the stored volume, which never changes. */
    method ToggleMute()
      modifies this, audio
      ensures audio == null ==> state == old(state)
      ensures audio != null ==>
        && state == old(state).(isMuted := !old(state).isMuted)
        && audio.volume == AudibleVolume(state)
      ensures audio != null ==>
        && audio.src == old(audio.src) && audio.paused == old(audio.paused)
        && audio.duration == old(audio.duration) && audio.bufferedEnds == old(audio.bufferedEnds)
        && audio.currentTime == old(audio.currentTime) && audio.playCalls == old(audio.playCalls)
      ensures listening == old(listening)
    {
      if audio == null {
        return;
      }
      var muted := !state.isMuted;
      audio.volume := if muted then 0.0 else state.volume;
      state := state.(isMuted := muted);
    }

    /** `setVolume`: stores and applies the clamped value, muted exactly when it is 0. */
    method SetVolume(volume: real)
      modifies this, audio
      ensures audio == null ==> state == old(state)
      ensures audio != null ==>
        && state == old(state).(volume := Clamp01(volume), isMuted := Clamp01(volume) == 0.0)
        && audio.volume == AudibleVolume(state)
        && 0.0 <= audio.volume <= 1.0
      ensures audio != null ==>
        && audio.src == old(audio.src) && audio.paused == old(audio.paused)
        && audio.duration == old(audio.duration) && audio.bufferedEnds == old(audio.bufferedEnds)
        && audio.currentTime == old(audio.currentTime) && audio.playCalls == old(audio.playCalls)
      ensures listening == old(listening)
    {
      if audio == null {
        return;
      }
      var clamped := Max(0.0, Min(1.0, volume));
      audio.volume := clamped;
      state := state.(volume := clamped, isMuted := clamped == 0.0);
    }

    /** `skipForward(seconds = 15)`: from the element's time, not past the element's (or else the record's) duration. */
    method SkipForward(seconds: real := 15.0)
      modifies this, audio
      ensures audio == null ==> state == old(state)
      ensures audio != null ==>
        var target := ForwardTarget(old(audio.currentTime), seconds, SkipEnd(old(audio.duration), old(state.duration)));
        audio.currentTime == target && state == old(state).(currentTime := target)
      ensures audio != null ==>
        && audio.src == old(audio.src) && audio.paused == old(audio.paused)
        && audio.duration == old(audio.duration) && audio.bufferedEnds == old(audio.bufferedEnds)
        && audio.volume == old(audio.volume) && audio.playCalls == old(audio.playCalls)
      ensures listening == old(listening)
    {
      if audio == null {
        return;
      }
      var end := if audio.duration != 0.0 then audio.duration else state.duration;
      var target := Min(audio.currentTime + seconds, end);
      audio.currentTime := target;
      state := state.(currentTime := target);
    }

    /** `skipBackward(seconds = 15)`: from the element's time, not before 0. */
    method SkipBackward(seconds: real := 15.0)
      modifies this, audio
      ensures audio == null ==> state == old(state)
      ensures audio != null ==>
        var target := BackwardTarget(old(audio.currentTime), seconds);
        audio.currentTime == target && state == old(state).(currentTime := target)
      ensures audio != null ==>
        && audio.src == old(audio.src) && audio.paused == old(audio.paused)
        && audio.duration == old(audio.duration) && audio.bufferedEnds == old(audio.bufferedEnds)
        && audio.volume == old(audio.volume) && audio.playCalls == old(audio.playCalls)
      ensures listening == old(listening)
    {
      if audio == null {
        return;
      }
      var target := Max(audio.currentTime - seconds, 0.0);
      audio.currentTime := target;
      state := state.(currentTime := target);
    }

    /**
     * The track-change effect: with an element and a track URL, the element rewinds, the
     * transport fields reset (volume and mute kept) and the handlers attach; otherwise the previous
     * handlers are gone and nothing else changes.
     */
    method TrackChanged(track: Option<Track>)
      modifies this, audio
      ensures var attaches := audio != null && track.Some? && HasAudio(track.value);
        && listening == attaches
        && (attaches ==>
              && audio.currentTime == 0.0
              && state == old(state).(currentTime := 0.0, duration := 0.0, isPlaying := false,
                                      isLoading := true, buffered := 0.0))
        && (!attaches ==> state == old(state) && (audio != null ==> audio.currentTime == old(audio.currentTime)))
      ensures audio != null ==>
        && audio.src == old(audio.src) && audio.paused == old(audio.paused)
        && audio.duration == old(audio.duration) && audio.bufferedEnds == old(audio.bufferedEnds)
        && audio.volume == old(audio.volume) && audio.playCalls == old(audio.playCalls)
    {
      listening := audio != null && track.Some? && HasAudio(track.value);
      if listening {
        audio.currentTime := 0.0;
        state := state.(currentTime := 0.0, duration := 0.0, isPlaying := false, isLoading := true, buffered := 0.0);
      }
    }

    /** The element fires `e`: with handlers attached the record becomes `Fold` of the old one. */
    method HandleEvent(e: MediaEvent)
      modifies this
      ensures state == if old(listening) && audio != null then Fold(old(state), e, View(audio)) else old(state)
      ensures listening == old(listening)
    {
      if listening && audio != null {
        state := Fold(state, e, View(audio));
      }
    }
  }
}
