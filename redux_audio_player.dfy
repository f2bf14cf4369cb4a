/**
 * The full player's coordinator (`useReduxAudioPlayer`). The element is the one the page renders
 * (its `src` is bound by the page, not here). It shares the play/pause, volume and seek effects and
 * the handler set with the global coordinator, with two differences: attaching the handlers
 * first resets the record's transport fields, and no handler starts deferred play.
 */
module ReduxAudioPlayer {
  import opened Wrappers
  import opened Tracks
  import opened AudioSlice
  import opened Media
  import opened ElementSync

  /** The record after the handler of `e` has run: exactly the shared handler, never a `play()`. */
  function Fold(s: AudioState, e: MediaEvent, v: ElementView, armed: bool): (r: AudioState)
    ensures r.isPlaying == (s.isPlaying && e != Ended)
    ensures r.pendingPlay == s.pendingPlay
  {
    FoldShared(s, e, v, armed)
  }

  /** `loadedmetadata` and `canplay` end loading but leave the playing flag and any request alone. */
  lemma ReadinessNeverPlays(s: AudioState, e: MediaEvent, v: ElementView, armed: bool)
    requires e == LoadedMetadata || e == CanPlay
    ensures var r := Fold(s, e, v, armed);
      !r.isLoading && r.isPlaying == s.isPlaying && r.pendingPlay == s.pendingPlay
    ensures e == LoadedMetadata ==> Fold(s, e, v, armed).duration == v.duration
    ensures e == CanPlay ==> Fold(s, e, v, armed) == s.(isLoading := false)
  {
    MetadataRecordsDuration(s, v, armed);
  }

  /** A request made before the element was ready stays pending under this coordinator. */
  lemma PendingRequestSurvivesReadiness(s: AudioState, e: MediaEvent, v: ElementView, armed: bool)
    requires s.pendingPlay && !s.isPlaying
    ensures var r := Fold(s, e, v, armed); r.pendingPlay && !r.isPlaying
  {
  }

  /** Attaching the handlers resets the transport fields, so the record's time is 0 afterwards. */
  lemma AttachResetsTime(s: AudioState)
    ensures var r := Reduce(s, ResetAudioState);
      r.currentTime == 0.0 && !r.isPlaying && r.isLoading && r.pendingPlay == s.pendingPlay
  {
  }

  class ReduxAudioPlayer {
    const store: AudioStore
    const audio: MediaElement?
    var listening: bool
    var fallbackArmed: bool

    predicate Valid()
      reads this
    {
      (fallbackArmed ==> listening) && (listening ==> audio != null)
    }

    /** The hook with the element the page rendered, or none before it mounts. */
    constructor (store: AudioStore, audio: MediaElement?)
      ensures this.store == store && this.audio == audio && !listening && !fallbackArmed
      ensures Valid()
    {
      this.store := store;
      this.audio := audio;
      listening := false;
      fallbackArmed := false;
    }

    /** The play/pause effect. */
    method SyncPlaying(playSucceeds: bool)
      modifies store, audio
      ensures audio != null && old(store.isPlaying) ==>
        && audio.playCalls == old(audio.playCalls) + 1
        && audio.paused == (old(audio.paused) && !playSucceeds)
        && store.State() == if playSucceeds then old(store.State()) else Reduce(old(store.State()), SetLoading(false))
      ensures audio != null && !old(store.isPlaying) ==>
        audio.paused && audio.playCalls == old(audio.playCalls) && store.State() == old(store.State())
      ensures audio != null ==>
        audio.src == old(audio.src) && audio.currentTime == old(audio.currentTime) && audio.volume == old(audio.volume)
        && audio.duration == old(audio.duration) && audio.bufferedEnds == old(audio.bufferedEnds)
      ensures audio == null ==> store.State() == old(store.State())
    {
      ElementSync.SyncPlaying(store, audio, playSucceeds);
    }

    /** The volume effect. */
    method SyncVolume()
      modifies audio
      ensures audio != null ==> audio.volume == EffectiveVolume(store.State())
      ensures audio != null && store.isMuted ==> audio.volume == 0.0
      ensures audio != null ==>
        && audio.src == old(audio.src) && audio.currentTime == old(audio.currentTime)
        && audio.duration == old(audio.duration) && audio.bufferedEnds == old(audio.bufferedEnds)
        && audio.paused == old(audio.paused) && audio.playCalls == old(audio.playCalls)
    {
      ElementSync.SyncVolume(store, audio);
    }

    /** The seek effect. */
    method SyncSeek()
      modifies audio
      ensures audio != null ==> Abs(audio.currentTime - store.currentTime) <= SeekTolerance
      ensures audio != null && audio.currentTime != old(audio.currentTime) ==>
        Abs(old(audio.currentTime) - store.currentTime) > SeekTolerance && audio.currentTime == store.currentTime
      ensures audio != null ==>
        && audio.src == old(audio.src) && audio.volume == old(audio.volume)
        && audio.duration == old(audio.duration) && audio.bufferedEnds == old(audio.bufferedEnds)
        && audio.paused == old(audio.paused) && audio.playCalls == old(audio.playCalls)
    {
      ElementSync.SyncSeek(store, audio);
    }

    /**
     * The handler effect (run again when the track or the stored time changes): with an element
     * and a track URL it resets the transport fields, arms a fresh 10 s fallback and attaches
     * the handlers; otherwise the previous handlers are gone and the record is untouched.
     */
    method AttachHandlers()
      modifies this, store
      ensures Valid()
      ensures var attaches := audio != null && old(store.currentTrack).Some? && HasAudio(old(store.currentTrack).value);
        && listening == attaches && fallbackArmed == attaches
        && store.State() == if attaches then Reduce(old(store.State()), ResetAudioState) else old(store.State())
    {
      listening := audio != null && store.currentTrack.Some? && HasAudio(store.currentTrack.value);
      if listening {
        store.Dispatch(ResetAudioState);
      }
      fallbackArmed := listening;
    }

    /** The unmount cleanup of the handler effect. */
    method DetachHandlers()
      modifies this
      ensures Valid() && !listening && !fallbackArmed
    {
      listening := false;
      fallbackArmed := false;
    }

    /**
     * The element fires `e` (or the fallback expires): the record becomes `Fold` of the old one,
     * no `play()` is issued, and the element itself is not written.
     */
    method HandleEvent(e: MediaEvent)
      requires Valid()
      modifies this, store
      ensures Valid() && listening == old(listening)
      ensures !old(listening) ==> store.State() == old(store.State()) && fallbackArmed == old(fallbackArmed)
      ensures old(listening) ==>
        && store.State() == Fold(old(store.State()), e, View(audio), old(fallbackArmed))
        && fallbackArmed == (old(fallbackArmed) && !CancelsFallback(e) && e != LoadTimeout)
    {
      if !listening {
        return;
      }
      RunSharedHandler(store, audio, e, fallbackArmed);
      if CancelsFallback(e) || e == LoadTimeout {
        fallbackArmed := false;
      }
    }
  }
}
