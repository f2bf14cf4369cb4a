/**
 * The transport buttons the full player and the two mini players share: each reads the record
 * and dispatches one action computed from it.
 */
module PlayerIntents {
  import opened AudioSlice
  import opened Skips

  /** Play/pause: dispatches the negation of `isPlaying`. */
  method TogglePlaying(store: AudioStore)
    modifies store
    ensures store.State() == old(store.State()).(isPlaying := !old(store.isPlaying))
  {
    store.Dispatch(SetPlaying(!store.isPlaying));
  }

  /** Mute: dispatches the negation of `isMuted`; the stored volume is untouched. */
  method ToggleMuted(store: AudioStore)
    modifies store
    ensures store.State() == old(store.State()).(isMuted := !old(store.isMuted))
  {
    store.Dispatch(SetMuted(!store.isMuted));
  }

  /** Skip forward: `min(currentTime + 15, duration)`, so with no duration yet it rewinds to 0. */
  method SkipForward(store: AudioStore)
    modifies store
    ensures store.State() ==
      old(store.State()).(currentTime := ForwardTarget(old(store.currentTime), DefaultSkip, old(store.duration)))
  {
    store.Dispatch(SetCurrentTime(Min(store.currentTime + 15.0, store.duration)));
  }

  /** Skip backward: `max(currentTime - 15, 0)`. */
  method SkipBackward(store: AudioStore)
    modifies store
    ensures store.State() == old(store.State()).(currentTime := BackwardTarget(old(store.currentTime), DefaultSkip))
  {
    store.Dispatch(SetCurrentTime(Max(store.currentTime - 15.0, 0.0)));
  }

  /** Seek (the full player's progress bar, the mini player's slider): the value goes straight into `currentTime`. */
  method Seek(store: AudioStore, time: real)
    modifies store
    ensures store.State() == old(store.State()).(currentTime := time)
  {
    store.Dispatch(SetCurrentTime(time));
  }
}
