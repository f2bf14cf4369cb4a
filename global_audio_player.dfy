/**
 * The application-wide coordinator (`useGlobalAudioPlayer`): one media element kept in step with
 * the shared record. Its handlers are the shared ones plus deferred play: when the element
 * reports `loadedmetadata` or `canplay` while the record wants playback (`isPlaying` or
 * `pendingPlay`), the handler marks the record playing, consumes `pendingPlay` and calls `play()`.
 *
 * The handlers read `isPlaying`, `pendingPlay` and `currentTime` from the render that attached
 * them; since those three are dependencies of the attaching effect, the handlers are re-attached
 * whenever they change, and the model reads them from the record when the event arrives.
 */
module GlobalAudioPlayer {
  import opened Wrappers
  import opened Tracks
  import opened AudioSlice
  import opened Media
  import opened ElementSync

  /** The record asks for playback: playing already, or play requested before the element was ready. */
  predicate WantsPlay(s: AudioState) {
    s.isPlaying || s.pendingPlay
  }

  /** The two readiness events whose handlers start deferred play. */
  predicate StartsDeferredPlay(e: MediaEvent) {
    e == LoadedMetadata || e == CanPlay
  }

  /** Number of `play()` calls the handler of `e` issues on record `s`. */
  function PlayCalls(s: AudioState, e: MediaEvent): (n: nat)
    ensures n <= 1
    ensures n == 1 <==> StartsDeferredPlay(e) && WantsPlay(s)
  {
    if StartsDeferredPlay(e) && WantsPlay(s) then 1 else 0
  }

  /** The record after the global coordinator's handler of `e` has run. */
  function Fold(s: AudioState, e: MediaEvent, v: ElementView, armed: bool): (r: AudioState)
    ensures !StartsDeferredPlay(e) ==> r == FoldShared(s, e, v, armed)
    ensures StartsDeferredPlay(e) ==> !r.isLoading && !r.pendingPlay && r.isPlaying == WantsPlay(s)
    ensures StartsDeferredPlay(e) ==>
      && r.currentTrack == s.currentTrack && r.currentTime == s.currentTime && r.buffered == s.buffered
      && r.volume == s.volume && r.isMuted == s.isMuted && r.showMiniPlayer == s.showMiniPlayer
    ensures e == LoadedMetadata ==> r.duration == v.duration
    ensures e == CanPlay ==> r.duration == s.duration
  {
    var t := FoldShared(s, e, v, armed);
    if StartsDeferredPlay(e) && WantsPlay(s) then t.(isPlaying := true, pendingPlay := false) else t
  }

  /** A play request made before the element was ready is honoured by the first readiness event. */
  lemma PendingPlayHonoured(s: AudioState, e: MediaEvent, v: ElementView, armed: bool)
    requires s.pendingPlay && StartsDeferredPlay(e)
    ensures var r := Fold(s, e, v, armed);
      r.isPlaying && !r.pendingPlay && !r.isLoading && PlayCalls(s, e) == 1
  {
  }

  /** Without a play request, readiness only ends loading and issues no `play()`. */
  lemma NoRequestNoPlay(s: AudioState, e: MediaEvent, v: ElementView, armed: bool)
    requires !WantsPlay(s) && StartsDeferredPlay(e)
    ensures var r := Fold(s, e, v, armed);
      !r.isPlaying && !r.pendingPlay && !r.isLoading && PlayCalls(s, e) == 0
  {
  }

  /** `canplaythrough` ends loading but never starts deferred play, even with a request pending. */
  lemma CanPlayThroughNeverPlays(s: AudioState, v: ElementView, armed: bool)
    ensures Fold(s, CanPlayThrough, v, armed) == s.(isLoading := false)
    ensures PlayCalls(s, CanPlayThrough) == 0
  {
  }

  /**
   * The request is consumed, but `isPlaying` now holds, so the next readiness event (a `canplay`
   * after `loadedmetadata`, say) calls `play()` again: playback is requested once per readiness
   * event while playing, not once per request.
   */
  lemma ReadinessAfterConsumedRequestPlaysAgain(s: AudioState, v: ElementView, w: ElementView, armed: bool)
    requires s.pendingPlay
    ensures var r := Fold(s, LoadedMetadata, v, armed);
      !r.pendingPlay && PlayCalls(r, CanPlay) == 1
  {
  }

  /** Once armed, the fallback alone ends loading; a handler that cancelled it makes it a no-op. */
  lemma FallbackEndsLoading(s: AudioState, v: ElementView)
    ensures !Fold(s, LoadTimeout, v, true).isLoading
    ensures Fold(s, LoadTimeout, v, false) == s
  {
  }

  /** Where the two coordinators differ: only the deferred-play case of a readiness event. */
  lemma OnlyDeferredPlayDiffers(s: AudioState, e: MediaEvent, v: ElementView, armed: bool)
    ensures Fold(s, e, v, armed) != FoldShared(s, e, v, armed) ==> StartsDeferredPlay(e) && WantsPlay(s)
  {
  }

  /**
   * From any record, selecting a track with a pending play request and then receiving its metadata
   * leaves the record playing that track, with the reported duration, not loading, and nothing pending.
   */
  lemma {:induction false} SelectThenMetadataPlays(s: AudioState, t: Track, v: ElementView, armed: bool)
    ensures var r := Fold(Reduce(Reduce(s, SetCurrentTrack(Some(t))), SetPendingPlay(true)), LoadedMetadata, v, armed);
      && r.currentTrack == Some(t) && r.isPlaying && !r.pendingPlay && !r.isLoading
      && r.duration == v.duration && r.currentTime == 0.0 && r.buffered == 0.0
  {
    var s1 := Reduce(Reduce(s, SetCurrentTrack(Some(t))), SetPendingPlay(true));
    PendingPlayHonoured(s1, LoadedMetadata, v, armed);
  }

  /** `Fold` is the shared handler followed, on a readiness event that finds a request, by deferred play. */
  lemma FoldSteps(s: AudioState, e: MediaEvent, v: ElementView, armed: bool)
    ensures Fold(s, e, v, armed) ==
      if StartsDeferredPlay(e) && WantsPlay(s) then FoldShared(s, e, v, armed).(isPlaying := true, pendingPlay := false)
      else FoldShared(s, e, v, armed)
  {
  }

  /** The coordinator: the element it owns, whether its handlers are attached, and the fallback timer. */
  class GlobalAudioPlayer {
    const store: AudioStore
    var audio: MediaElement?
    /** The handlers are attached to `audio`. */
    var listening: bool
    /** The 10 s loading fallback is pending. */
    var fallbackArmed: bool

    predicate Valid()
      reads this
    {
      (fallbackArmed ==> listening) && (listening ==> audio != null)
    }

    constructor (store: AudioStore)
      ensures this.store == store && audio == null && !listening && !fallbackArmed
      ensures Valid()
    {
      this.store := store;
      audio := null;
      listening := false;
      fallbackArmed := false;
    }

    /** The mount effect: creates the element once and keeps it afterwards. */
    method Mount()
      requires Valid()
      modifies this
      ensures Valid() && audio != null
      ensures old(audio) != null ==> audio == old(audio)
      ensures old(audio) == null ==> fresh(audio)
      ensures listening == old(listening) && fallbackArmed == old(fallbackArmed)
    {
      if audio == null {
        audio := new MediaElement();
      }
    }

    /**
     * The source effect: a track URL different from the element's source is bound (which pauses and
     * rewinds the element) and the record's transport fields are reset; an equal or missing URL
     * changes nothing.
     */
    method SyncSource()
      modifies store, audio
      ensures var rebinds := old(audio) != null && old(store.currentTrack).Some?
        && HasAudio(old(store.currentTrack).value) && old(audio.src) != old(store.currentTrack).value.audioUrl;
      && (rebinds ==>
            && audio.src == old(store.currentTrack).value.audioUrl
            && audio.paused && audio.currentTime == 0.0 && audio.duration == 0.0 && audio.bufferedEnds == []
            && store.State() == Reduce(old(store.State()), ResetAudioState))
      && (!rebinds ==>
            && store.State() == old(store.State())
            && (audio != null ==> View(audio) == old(View(audio)) && audio.src == old(audio.src) && audio.paused == old(audio.paused)))
      ensures audio != null ==> audio.volume == old(audio.volume) && audio.playCalls == old(audio.playCalls)
    {
      if audio == null || store.currentTrack.None? || !HasAudio(store.currentTrack.value) {
        return;
      }
      if audio.src != store.currentTrack.value.audioUrl {
        audio.Load(store.currentTrack.value.audioUrl);
        store.Dispatch(ResetAudioState);
      }
    }

    /** The play/pause effect. */
    method SyncPlaying(playSucceeds: bool)
      modifies store, audio
      ensures audio != null && old(store.isPlaying) ==>
        && audio.playCalls == old(audio.playCalls) + 1
        && audio.paused == (old(audio.paused) && !playSucceeds)
        && store.State() == if playSucceeds then old(store.State()) else Reduce(old(store.State()), SetLoading(false))
      ensures audio != null && !old(store.isPlaying) ==>
        audio.paused && audio.playCalls == old(audio.playCalls) && store.State() == old(store.State())
      ensures audio != null ==>
        audio.src == old(audio.src) && audio.currentTime == old(audio.currentTime) && audio.volume == old(audio.volume)
        && audio.duration == old(audio.duration) && audio.bufferedEnds == old(audio.bufferedEnds)
      ensures audio == null ==> store.State() == old(store.State())
    {
      ElementSync.SyncPlaying(store, audio, playSucceeds);
    }

    /** The volume effect. */
    method SyncVolume()
      modifies audio
      ensures audio != null ==> audio.volume == EffectiveVolume(store.State())
      ensures audio != null && store.isMuted ==> audio.volume == 0.0
      ensures audio != null ==>
        && audio.src == old(audio.src) && audio.currentTime == old(audio.currentTime)
        && audio.duration == old(audio.duration) && audio.bufferedEnds == old(audio.bufferedEnds)
        && audio.paused == old(audio.paused) && audio.playCalls == old(audio.playCalls)
    {
      ElementSync.SyncVolume(store, audio);
    }

    /** The seek effect. */
    method SyncSeek()
      modifies audio
      ensures audio != null ==> Abs(audio.currentTime - store.currentTime) <= SeekTolerance
      ensures audio != null && audio.currentTime != old(audio.currentTime) ==>
        Abs(old(audio.currentTime) - store.currentTime) > SeekTolerance && audio.currentTime == store.currentTime
      ensures audio != null ==>
        && audio.src == old(audio.src) && audio.volume == old(audio.volume)
        && audio.duration == old(audio.duration) && audio.bufferedEnds == old(audio.bufferedEnds)
        && audio.paused == old(audio.paused) && audio.playCalls == old(audio.playCalls)
    {
      ElementSync.SyncSeek(store, audio);
    }

    /**
     * The handler effect, run again whenever the track, time, playing flag or request changes: the
     * previous handlers and timer are dropped, and new ones are attached, with a fresh 10 s
     * fallback, only when there is an element and the track has a URL.
     */
    method AttachHandlers()
      modifies this
      ensures Valid()
      ensures listening == (audio != null && store.currentTrack.Some? && HasAudio(store.currentTrack.value))
      ensures fallbackArmed == listening
      ensures audio == old(audio)
    {
      listening := audio != null && store.currentTrack.Some? && HasAudio(store.currentTrack.value);
      fallbackArmed := listening;
    }

    /** The unmount cleanup of the handler effect: the timer is cleared and the handlers detached. */
    method DetachHandlers()
      modifies this
      ensures Valid() && !listening && !fallbackArmed && audio == old(audio)
    {
      listening := false;
      fallbackArmed := false;
    }

    /** Clears the fallback timer when `e` is one of the events whose handler clears it, or the timer itself. */
    method DisarmIfCleared(e: MediaEvent)
      modifies this
      ensures fallbackArmed == (old(fallbackArmed) && !CancelsFallback(e) && e != LoadTimeout)
      ensures audio == old(audio) && listening == old(listening)
    {
      if CancelsFallback(e) || e == LoadTimeout {
        fallbackArmed := false;
      }
    }

    /** The deferred-play step of a readiness handler: mark playing, consume the request, call `play()`. */
    method StartDeferredPlay(playSucceeds: bool)
      requires audio != null
      modifies store, audio
      ensures store.State() == old(store.State()).(isPlaying := true, pendingPlay := false)
      ensures audio.playCalls == old(audio.playCalls) + 1 && audio.paused == (old(audio.paused) && !playSucceeds)
      ensures View(audio) == old(View(audio)) && audio.src == old(audio.src) && audio.volume == old(audio.volume)
    {
      store.Dispatch(SetPlaying(true));
      store.Dispatch(SetPendingPlay(false));
      audio.Play(playSucceeds);
    }

    /**
     * The element fires `e` (or the fallback timer expires). With no handlers attached nothing
     * happens; otherwise the record becomes `Fold` of the old record, `PlayCalls` calls of `play()`
     * are issued, and the fallback is disarmed by the events that clear it and by its own expiry.
     */
    method HandleEvent(e: MediaEvent, playSucceeds: bool)
      requires Valid()
      modifies this, store, audio
      ensures Valid() && audio == old(audio) && listening == old(listening)
      ensures !old(listening) ==> store.State() == old(store.State()) && fallbackArmed == old(fallbackArmed)
      ensures !old(listening) && audio != null ==>
        && View(audio) == old(View(audio)) && audio.src == old(audio.src) && audio.volume == old(audio.volume)
        && audio.paused == old(audio.paused) && audio.playCalls == old(audio.playCalls)
      ensures old(listening) ==>
        && store.State() == Fold(old(store.State()), e, old(View(audio)), old(fallbackArmed))
        && audio.playCalls == old(audio.playCalls) + PlayCalls(old(store.State()), e)
        && audio.paused == (old(audio.paused) && (PlayCalls(old(store.State()), e) == 0 || !playSucceeds))
        && View(audio) == old(View(audio)) && audio.src == old(audio.src) && audio.volume == old(audio.volume)
        && fallbackArmed == (old(fallbackArmed) && !CancelsFallback(e) && e != LoadTimeout)
    {
      if !listening {
        return;
      }
      var a := audio;
      ghost var s, v, armed := store.State(), View(a), fallbackArmed;
      ghost var paused, calls := a.paused, a.playCalls;
      var wants := store.isPlaying || store.pendingPlay;
      RunSharedHandler(store, a, e, fallbackArmed);
      assert View(a) == v && a.paused == paused && a.playCalls == calls;
      DisarmIfCleared(e);
      FoldSteps(s, e, v, armed);
      if StartsDeferredPlay(e) && wants {
        assert PlayCalls(s, e) == 1;
        StartDeferredPlay(playSucceeds);
      } else {
        assert PlayCalls(s, e) == 0;
      }
    }
  }
}
