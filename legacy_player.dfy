/**
 * The legacy full-screen player page: its own two-track list, its own playback record, an
 * element rendered by the page, and handlers that write the element and the record directly.
 * Unlike the store-driven players, play/pause flips `isPlaying` whether or not `play()` succeeds,
 * skips move only the element, and the volume is a constant 1.
 */
module LegacyPlayer {
  import opened Wrappers
  import opened Tracks
  import opened Media
  import opened ElementSync
  import opened Skips
  import AudioTrackService

  /** The page's list: the same two entries as the first two of the service catalogue. */
  const LegacyTracks: seq<Track> := AudioTrackService.Catalogue[..2]

  /** The page's volume, fixed at 1 (its setter is never used). */
  const FixedVolume: real := 1.0

  datatype LegacyState = LegacyState(isPlaying: bool, currentTime: real, duration: real, isMuted: bool, isLoading: bool)

  const InitialLegacyState := LegacyState(false, 0.0, 0.0, false, true)

  /** The page's track for route id `id`. */
  function Lookup(id: string): (r: Option<Track>)
    ensures r.Some? ==> r.value in LegacyTracks && r.value.id == id
    ensures r.None? <==> forall i :: 0 <= i < |LegacyTracks| ==> LegacyTracks[i].id != id
  {
    FindById(LegacyTracks, id)
  }

  /** Only "1" and "2" are found; anything else renders "Track Not Found". */
  lemma LookupFindsOnlyTwo(id: string)
    ensures Lookup(id).Some? <==> id == "1" || id == "2"
  {
    AudioTrackService.CatalogueFacts();
    assert LegacyTracks[0].id == Ids(AudioTrackService.Catalogue)[0];
    assert LegacyTracks[1].id == Ids(AudioTrackService.Catalogue)[1];
  }

  /** The play button is disabled while loading or when the track has no URL. */
  predicate PlayDisabled(s: LegacyState, t: Track) {
    s.isLoading || !HasAudio(t)
  }

  /** The record after one of the four handled events; the others have no handler here. */
  function Fold(s: LegacyState, e: MediaEvent, v: ElementView): (r: LegacyState)
    ensures r.isMuted == s.isMuted
    ensures e == LoadedMetadata ==> r == s.(duration := v.duration, isLoading := false)
    ensures e == Ended ==> !r.isPlaying && r.currentTime == 0.0
    ensures e == Error ==> r == s.(isLoading := false)
    ensures e !in {LoadedMetadata, TimeUpdate, Ended, Error} ==> r == s
  {
    match e
    case LoadedMetadata => s.(duration := v.duration, isLoading := false)
    case TimeUpdate => s.(currentTime := v.currentTime)
    case Ended => s.(isPlaying := false, currentTime := 0.0)
    case Error => s.(isLoading := false)
    case _ => s
  }

  /** Loading only ends (metadata or error); no event starts it again, and no event starts playback. */
  lemma EventsNeverStartPlayback(s: LegacyState, e: MediaEvent, v: ElementView)
    ensures Fold(s, e, v).isPlaying ==> s.isPlaying
    ensures Fold(s, e, v).isLoading ==> s.isLoading
  {
  }

  /** Once metadata has arrived, the play button is enabled for a track with a URL. */
  lemma MetadataEnablesPlay(s: LegacyState, v: ElementView, t: Track)
    requires HasAudio(t)
    ensures !PlayDisabled(Fold(s, LoadedMetadata, v), t)
  {
  }

  class LegacyAudioPlayer {
    const audio: MediaElement?
    const track: Option<Track>
    var state: LegacyState
    var listening: bool

    /** The page for route id `id`, with the element it rendered (none on the not-found view). */
    constructor (audio: MediaElement?, id: string)
      ensures this.audio == audio && track == Lookup(id)
      ensures state == InitialLegacyState && !listening
    {
      this.audio := audio;
      track := Lookup(id);
      state := InitialLegacyState;
      listening := false;
    }

    /** The track effect: handlers attach when there is an element and a track with a URL. */
    method AttachHandlers()
      modifies this
      ensures listening == (audio != null && track.Some? && HasAudio(track.value))
      ensures state == old(state)
    {
      listening := audio != null && track.Some? && HasAudio(track.value);
    }

    /** `togglePlayPause`: pause or play the element, then flip the flag whatever `play()` does. */
    method TogglePlayPause(playSucceeds: bool)
      modifies this, audio
      ensures audio == null ==> state == old(state)
      ensures audio != null ==> state == old(state).(isPlaying := !old(state).isPlaying)
      ensures audio != null && old(state).isPlaying ==> audio.paused && audio.playCalls == old(audio.playCalls)
      ensures audio != null && !old(state).isPlaying ==>
        audio.playCalls == old(audio.playCalls) + 1 && audio.paused == (old(audio.paused) && !playSucceeds)
      ensures audio != null ==>
        && audio.src == old(audio.src) && audio.currentTime == old(audio.currentTime)
        && audio.bufferedEnds == old(audio.bufferedEnds)
        && audio.volume == old(audio.volume) && audio.duration == old(audio.duration)
      ensures listening == old(listening)
    {
      if audio == null {
        return;
      }
      if state.isPlaying {
        audio.Pause();
      } else {
        audio.Play(playSucceeds);
      }
      state := state.(isPlaying := !state.isPlaying);
    }

    /** `handleSeek`: element and record move to `time`. */
    method HandleSeek(time: real)
      modifies this, audio
      ensures audio == null ==> state == old(state)
      ensures audio != null ==> audio.currentTime == time && state == old(state).(currentTime := time)
      ensures audio != null ==>
        && audio.src == old(audio.src) && audio.paused == old(audio.paused)
        && audio.duration == old(audio.duration) && audio.bufferedEnds == old(audio.bufferedEnds)
        && audio.volume == old(audio.volume) && audio.playCalls == old(audio.playCalls)
      ensures listening == old(listening)
    {
      if audio == null {
        return;
      }
      audio.currentTime := time;
      state := state.(currentTime := time);
    }

    /** `toggleMute`: the element goes to 0 or back to the fixed volume. */
    method ToggleMute()
      modifies this, audio
      ensures audio == null ==> state == old(state)
      ensures audio != null ==>
        && state == old(state).(isMuted := !old(state).isMuted)
        && audio.volume == (if state.isMuted then 0.0 else FixedVolume)
      ensures audio != null ==>
        && audio.src == old(audio.src) && audio.paused == old(audio.paused)
        && audio.duration == old(audio.duration) && audio.bufferedEnds == old(audio.bufferedEnds)
        && audio.currentTime == old(audio.currentTime) && audio.playCalls == old(audio.playCalls)
      ensures listening == old(listening)
    {
      if audio == null {
        return;
      }
      if state.isMuted {
        audio.volume := FixedVolume;
        state := state.(isMuted := false);
      } else {
        audio.volume := 0.0;
        state := state.(isMuted := true);
      }
    }

    /** `skipForward`: only the element moves, bounded by the record's duration. */
    method SkipForward()
      modifies audio
      ensures audio != null ==> audio.currentTime == ForwardTarget(old(audio.currentTime), DefaultSkip, state.duration)
      ensures audio != null ==>
        && audio.src == old(audio.src) && audio.paused == old(audio.paused)
        && audio.duration == old(audio.duration) && audio.bufferedEnds == old(audio.bufferedEnds)
        && audio.volume == old(audio.volume) && audio.playCalls == old(audio.playCalls)
    {
      if audio != null {
        audio.currentTime := Min(audio.currentTime + 15.0, state.duration);
      }
    }

    /** `skipBackward`: only the element moves, not before 0. */
    method SkipBackward()
      modifies audio
      ensures audio != null ==> audio.currentTime == BackwardTarget(old(audio.currentTime), DefaultSkip)
      ensures audio != null ==>
        && audio.src == old(audio.src) && audio.paused == old(audio.paused)
        && audio.duration == old(audio.duration) && audio.bufferedEnds == old(audio.bufferedEnds)
        && audio.volume == old(audio.volume) && audio.playCalls == old(audio.playCalls)
    {
      if audio != null {
        audio.currentTime := Max(audio.currentTime - 15.0, 0.0);
      }
    }

    /** The element fires `e`: with handlers attached the record becomes `Fold` of the old one. */
    method HandleEvent(e: MediaEvent)
      modifies this
      ensures state == if old(listening) && audio != null then Fold(old(state), e, View(audio)) else old(state)
      ensures listening == old(listening)
    {
      if listening && audio != null {
        state := Fold(state, e, View(audio));
      }
    }
  }
}
