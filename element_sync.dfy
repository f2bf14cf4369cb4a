/**
 * What the two store-driven players (the global player hook and the Redux player hook) have in
 * common: the three effects that push the record into the media element (play/pause, volume,
 * seek), and the event handlers both attach. Each effect or handler body is one atomic step.
 */
module ElementSync {
  import opened AudioSlice
  import opened Media

  /** The media events the players listen to, plus the expiry of the 10 s loading fallback. */
  datatype MediaEvent =
    | LoadedMetadata | TimeUpdate | Ended | Error | LoadStart | CanPlay
    | Waiting | CanPlayThrough | Progress | Stalled | Suspend | LoadTimeout

  /** What a handler reads from the element when it runs. */
  datatype ElementView = ElementView(currentTime: real, duration: real, bufferedEnds: seq<real>)

  function View(a: MediaElement): ElementView
    reads a
  {
    ElementView(a.currentTime, a.duration, a.bufferedEnds)
  }

  function Abs(x: real): real {
    if x < 0.0 then -x else x
  }

  /** Drift above which the stored time is pushed into the element. */
  const SeekTolerance: real := 1.0

  /** Drift above which the element's time is written back into the store. */
  const TimeUpdateTolerance: real := 0.5

  /** The volume the element is given: silence while muted, the stored volume otherwise. */
  function EffectiveVolume(s: AudioState): real {
    if s.isMuted then 0.0 else s.volume
  }

  /** Muting twice gives back the audible volume, whatever it was. */
  lemma ToggleMuteTwiceRestoresVolume(s: AudioState)
    ensures EffectiveVolume(Reduce(Reduce(s, SetMuted(!s.isMuted)), SetMuted(s.isMuted))) == EffectiveVolume(s)
    ensures EffectiveVolume(Reduce(s, SetMuted(true))) == 0.0
  {
  }

  /** Handlers whose run clears the pending 10 s fallback. */
  predicate CancelsFallback(e: MediaEvent) {
    e == LoadedMetadata || e == CanPlay || e == CanPlayThrough || e == Error
  }

  /**
   * The record after the shared handler of `e` has run against element view `v`; `armed` says
   * whether the 10 s fallback is still pending. `loadedmetadata` and `canplay` only end loading
   * here; the global player adds deferred play on top.
   */
  function FoldShared(s: AudioState, e: MediaEvent, v: ElementView, armed: bool): (r: AudioState)
    ensures r.currentTrack == s.currentTrack && r.volume == s.volume && r.isMuted == s.isMuted
    ensures r.showMiniPlayer == s.showMiniPlayer && r.pendingPlay == s.pendingPlay && r.isPlaying == (s.isPlaying && e != Ended)
  {
    match e
    case LoadedMetadata => Reduce(Reduce(s, SetDuration(v.duration)), SetLoading(false))
    case TimeUpdate =>
      if Abs(v.currentTime - s.currentTime) > TimeUpdateTolerance then Reduce(s, SetCurrentTime(v.currentTime)) else s
    case Ended => Reduce(Reduce(s, SetPlaying(false)), SetCurrentTime(0.0))
    case Error => Reduce(s, SetLoading(false))
    case LoadStart => Reduce(s, SetLoading(true))
    case CanPlay => Reduce(s, SetLoading(false))
    case Waiting => Reduce(s, SetLoading(true))
    case CanPlayThrough => Reduce(s, SetLoading(false))
    case Progress =>
      if |v.bufferedEnds| > 0 then Reduce(s, SetBuffered(v.bufferedEnds[|v.bufferedEnds| - 1])) else s
    case Stalled => Reduce(s, SetLoading(true))
    case Suspend => s
    case LoadTimeout => if armed then Reduce(s, SetLoading(false)) else s
  }

  /** `loadedmetadata` records the element's duration and ends loading, and nothing else. */
  lemma MetadataRecordsDuration(s: AudioState, v: ElementView, armed: bool)
    ensures FoldShared(s, LoadedMetadata, v, armed) == s.(duration := v.duration, isLoading := false)
  {
  }

  /** `canplay`, `canplaythrough` and `error` only end loading; no retry follows an error. */
  lemma ReadyOrFailedEndsLoading(s: AudioState, e: MediaEvent, v: ElementView, armed: bool)
    requires e == CanPlay || e == CanPlayThrough || e == Error
    ensures FoldShared(s, e, v, armed) == s.(isLoading := false)
  {
  }

  /**
   * A time update writes the element's time into the record only when the two differ by more
   * than 0.5 s, and afterwards they are never more than 0.5 s apart.
   */
  lemma TimeUpdateWithinTolerance(s: AudioState, v: ElementView, armed: bool)
    ensures var r := FoldShared(s, TimeUpdate, v, armed);
      && r == s.(currentTime := r.currentTime)
      && Abs(r.currentTime - v.currentTime) <= TimeUpdateTolerance
      && (r.currentTime != s.currentTime <==> Abs(v.currentTime - s.currentTime) > TimeUpdateTolerance)
      && (r.currentTime != s.currentTime ==> r.currentTime == v.currentTime)
  {
  }

  /** `ended` stops playback and rewinds the record to 0. */
  lemma EndedRewinds(s: AudioState, v: ElementView, armed: bool)
    ensures FoldShared(s, Ended, v, armed) == s.(isPlaying := false, currentTime := 0.0)
  {
  }

  /** `loadstart`, `waiting` and `stalled` put the record back into loading. */
  lemma StallingStartsLoading(s: AudioState, e: MediaEvent, v: ElementView, armed: bool)
    requires e == LoadStart || e == Waiting || e == Stalled
    ensures FoldShared(s, e, v, armed) == s.(isLoading := true)
  {
  }

  /** `progress` records the end of the last buffered range, and changes nothing when none is buffered. */
  lemma ProgressRecordsLastRange(s: AudioState, v: ElementView, armed: bool)
    ensures v.bufferedEnds != [] ==>
      FoldShared(s, Progress, v, armed) == s.(buffered := v.bufferedEnds[|v.bufferedEnds| - 1])
    ensures v.bufferedEnds == [] ==> FoldShared(s, Progress, v, armed) == s
  {
  }

  /** `suspend` changes nothing; the fallback ends loading only while it is still pending. */
  lemma SuspendAndFallback(s: AudioState, v: ElementView)
    ensures FoldShared(s, Suspend, v, true) == s
    ensures FoldShared(s, LoadTimeout, v, true) == s.(isLoading := false)
    ensures FoldShared(s, LoadTimeout, v, false) == s
  {
  }

  /**
   * Runs the shared handler of `e` on the store, reading the element as it is; `armed` says
   * whether the fallback timer is still pending (only the timer's own expiry reads it).
   */
  method RunSharedHandler(store: AudioStore, audio: MediaElement, e: MediaEvent, armed: bool)
    modifies store
    ensures store.State() == FoldShared(old(store.State()), e, View(audio), armed)
  {
    match e
    case LoadedMetadata =>
      store.Dispatch(SetDuration(audio.duration));
      store.Dispatch(SetLoading(false));
    case TimeUpdate =>
      if Abs(audio.currentTime - store.currentTime) > TimeUpdateTolerance {
        store.Dispatch(SetCurrentTime(audio.currentTime));
      }
    case Ended =>
      store.Dispatch(SetPlaying(false));
      store.Dispatch(SetCurrentTime(0.0));
    case Error => store.Dispatch(SetLoading(false));
    case LoadStart => store.Dispatch(SetLoading(true));
    case CanPlay => store.Dispatch(SetLoading(false));
    case Waiting => store.Dispatch(SetLoading(true));
    case CanPlayThrough => store.Dispatch(SetLoading(false));
    case Progress =>
      if |audio.bufferedEnds| > 0 {
        store.Dispatch(SetBuffered(audio.bufferedEnds[|audio.bufferedEnds| - 1]));
      }
    case Stalled => store.Dispatch(SetLoading(true));
    case Suspend =>
    case LoadTimeout =>
      if armed {
        store.Dispatch(SetLoading(false));
      }
  }

  // ------------------------------------------------------------------ effects

  /** The play/pause effect: `isPlaying` issues `play()`, otherwise `pause()`; a rejected play ends loading. */
  method SyncPlaying(store: AudioStore, audio: MediaElement?, playSucceeds: bool)
    modifies store, audio
    ensures audio == null ==> store.State() == old(store.State())
    ensures audio != null && old(store.isPlaying) ==>
      && audio.playCalls == old(audio.playCalls) + 1
      && audio.paused == (old(audio.paused) && !playSucceeds)
      && store.State() == if playSucceeds then old(store.State()) else Reduce(old(store.State()), SetLoading(false))
    ensures audio != null && !old(store.isPlaying) ==>
      audio.paused && audio.playCalls == old(audio.playCalls) && store.State() == old(store.State())
    ensures audio != null ==>
      audio.src == old(audio.src) && audio.currentTime == old(audio.currentTime) && audio.volume == old(audio.volume)
      && audio.duration == old(audio.duration) && audio.bufferedEnds == old(audio.bufferedEnds)
  {
    if audio == null {
      return;
    }
    if store.isPlaying {
      audio.Play(playSucceeds);
      if !playSucceeds {
        store.Dispatch(SetLoading(false));
      }
    } else {
      audio.Pause();
    }
  }

  /** The volume effect: the element plays at `EffectiveVolume`, so a muted record is silent. */
  method SyncVolume(store: AudioStore, audio: MediaElement?)
    modifies audio
    ensures audio != null ==> audio.volume == EffectiveVolume(store.State())
    ensures audio != null && store.isMuted ==> audio.volume == 0.0
    ensures audio != null ==>
      && audio.src == old(audio.src) && audio.currentTime == old(audio.currentTime)
      && audio.duration == old(audio.duration) && audio.bufferedEnds == old(audio.bufferedEnds)
      && audio.paused == old(audio.paused) && audio.playCalls == old(audio.playCalls)
  {
    if audio == null {
      return;
    }
    audio.volume := if store.isMuted then 0.0 else store.volume;
  }

  /**
   * The seek effect: the stored time is written into the element only when the two differ by more
   * than one second, so afterwards they are never more than a second apart.
   */
  method SyncSeek(store: AudioStore, audio: MediaElement?)
    modifies audio
    ensures audio != null ==> Abs(audio.currentTime - store.currentTime) <= SeekTolerance
    ensures audio != null && audio.currentTime != old(audio.currentTime) ==>
      Abs(old(audio.currentTime) - store.currentTime) > SeekTolerance && audio.currentTime == store.currentTime
    ensures audio != null ==>
      && audio.src == old(audio.src) && audio.volume == old(audio.volume)
      && audio.duration == old(audio.duration) && audio.bufferedEnds == old(audio.bufferedEnds)
      && audio.paused == old(audio.paused) && audio.playCalls == old(audio.playCalls)
  {
    if audio == null || Abs(audio.currentTime - store.currentTime) > SeekTolerance {
      if audio != null {
        audio.currentTime := store.currentTime;
      }
    }
  }
}
