/**
 * The playlist page: looks the route's id up among the sample playlists, lists its tracks, and
 * starts a track by publishing it to the shared record. The row showing the pause icon is
 * remembered by the page itself, not read from the record.
 */
module PlaylistDetail {
  import opened Wrappers
  import opened Tracks
  import opened AudioSlice
  import opened ElementSync
  import opened PlaylistData
  import GlobalAudioPlayer

  /** What the page renders for its route id (absent or empty when the route has none). */
  datatype PageView = PlaylistNotFound | PlaylistPage(playlist: Playlist)

  function View(routeId: Option<string>): (r: PageView)
    ensures r.PlaylistPage? <==> routeId.Some? && routeId.value != "" && GetPlaylistById(routeId.value).Some?
    ensures r.PlaylistPage? ==> r.playlist.id == routeId.value && r.playlist in SamplePlaylists
  {
    // an empty id is falsy and skips the lookup
    if routeId.None? || routeId.value == "" then PlaylistNotFound
    else match GetPlaylistById(routeId.value)
      case None => PlaylistNotFound
      case Some(p) => PlaylistPage(p)
  }

  /** Only "p5" opens a playlist page. */
  lemma OnlyKnownPlaylistRenders(routeId: Option<string>)
    ensures View(routeId).PlaylistPage? <==> routeId == Some("p5")
  {
    if routeId.Some? {
      OnlyP5(routeId.value);
    }
  }

  /** The record after a playlist row's play button, before the player reacts. */
  function AfterPlayTrack(s: AudioState, t: Track): AudioState {
    Reduce(Reduce(Reduce(s, SetCurrentTrack(Some(t))), SetPlaying(true)), SetShowMiniPlayer(true))
  }

  /**
   * The play button publishes the track, asks to play and shows the mini player; the transport
   * fields come from the track reset, and the request is a plain `isPlaying`, not a pending one.
   */
  lemma PlayTrackOutcome(s: AudioState, t: Track)
    ensures var r := AfterPlayTrack(s, t);
      && r.currentTrack == Some(t) && r.isPlaying && r.showMiniPlayer
      && r.currentTime == 0.0 && r.duration == 0.0 && r.buffered == 0.0
      && r.isLoading && !r.pendingPlay
      && r.volume == s.volume && r.isMuted == s.isMuted
  {
  }

  /** Pressing play on the row that is already playing starts it over. */
  lemma PlayTrackAgainRestarts(s: AudioState, t: Track)
    ensures AfterPlayTrack(AfterPlayTrack(s, t), t) == AfterPlayTrack(s, t)
    ensures AfterPlayTrack(s.(currentTime := 42.0), t).currentTime == 0.0
  {
  }

  /**
   * With the global coordinator, a new track's URL is bound and the record's transport is reset,
   * which clears `isPlaying`; nothing is pending, so the readiness events that follow do not
   * start playback. The page's play button leaves the new track stopped.
   */
  lemma PlayTrackIsUndoneByRebind(s: AudioState, t: Track, e: MediaEvent, v: ElementView, armed: bool)
    requires GlobalAudioPlayer.StartsDeferredPlay(e)
    ensures var bound := Reduce(AfterPlayTrack(s, t), ResetAudioState);
      && !bound.isPlaying && !bound.pendingPlay
      && GlobalAudioPlayer.PlayCalls(bound, e) == 0
      && !GlobalAudioPlayer.Fold(bound, e, v, armed).isPlaying
  {
    var bound := Reduce(AfterPlayTrack(s, t), ResetAudioState);
    GlobalAudioPlayer.NoRequestNoPlay(bound, e, v, armed);
  }

  /** The record after the corrected play button: the request is left pending, as the suggestions panel does. */
  function AfterPlayTrackDeferred(s: AudioState, t: Track): AudioState {
    Reduce(Reduce(Reduce(s, SetCurrentTrack(Some(t))), SetPendingPlay(true)), SetShowMiniPlayer(true))
  }

  /** A pending request survives the rebind and the first readiness event starts the track, once. */
  lemma DeferredPlayTrackStarts(s: AudioState, t: Track, e: MediaEvent, v: ElementView, armed: bool)
    requires GlobalAudioPlayer.StartsDeferredPlay(e)
    ensures var bound := Reduce(AfterPlayTrackDeferred(s, t), ResetAudioState);
      && bound.pendingPlay && bound.currentTrack == Some(t) && bound.showMiniPlayer
      && GlobalAudioPlayer.PlayCalls(bound, e) == 1
      && var r := GlobalAudioPlayer.Fold(bound, e, v, armed);
         r.isPlaying && !r.pendingPlay && r.currentTrack == Some(t)
  {
    var bound := Reduce(AfterPlayTrackDeferred(s, t), ResetAudioState);
    GlobalAudioPlayer.PendingPlayHonoured(bound, e, v, armed);
  }

  /** The pause icon is shown on the row the page last started, whatever the record says. */
  predicate ShowsPause(currentPlaying: Option<string>, rowId: string) {
    currentPlaying == Some(rowId)
  }

  class PlaylistDetailPage {
    const store: AudioStore
    /** The id of the row last started from this page. */
    var currentPlaying: Option<string>

    constructor (store: AudioStore)
      ensures this.store == store && currentPlaying == None
    {
      this.store := store;
      currentPlaying := None;
    }

    /** `handlePlayTrack`: three actions in order, then the row is remembered. */
    method HandlePlayTrack(t: Track)
      modifies this, store
      ensures store.State() == AfterPlayTrack(old(store.State()), t)
      ensures currentPlaying == Some(t.id)
      ensures forall id :: ShowsPause(currentPlaying, id) <==> id == t.id
    {
      store.Dispatch(SetCurrentTrack(Some(t)));
      store.Dispatch(SetPlaying(true));
      store.Dispatch(SetShowMiniPlayer(true));
      currentPlaying := Some(t.id);
    }

    /** The play button with the request left pending, so that it survives the source rebind. */
    method HandlePlayTrackDeferred(t: Track)
      modifies this, store
      ensures store.State() == AfterPlayTrackDeferred(old(store.State()), t)
      ensures currentPlaying == Some(t.id)
    {
      store.Dispatch(SetCurrentTrack(Some(t)));
      store.Dispatch(SetPendingPlay(true));
      store.Dispatch(SetShowMiniPlayer(true));
      currentPlaying := Some(t.id);
    }
  }
}
