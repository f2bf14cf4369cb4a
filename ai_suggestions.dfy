/**
 * The AI suggestions panel: a button that fetches (or hides) up to three suggested tracks, and
 * rows that select a track or toggle its playback through the shared record. A selection asks
 * for playback through the pending-play request, so it survives the player's source rebind.
 */
module AISuggestions {
  import opened Wrappers
  import opened Tracks
  import opened AudioSlice
  import opened ElementSync
  import GlobalAudioPlayer

  const NoSuggestionsMessage := "No suggestions from AI. Try again."

  /** The record after selecting `t`: the track, a pending request, the mini player shown. */
  function AfterSelect(s: AudioState, t: Track): AudioState {
    Reduce(Reduce(Reduce(s, SetCurrentTrack(Some(t))), SetPendingPlay(true)), SetShowMiniPlayer(true))
  }

  /** `currentTrack?.id === track.id`. */
  predicate IsCurrent(s: AudioState, t: Track) {
    s.currentTrack.Some? && s.currentTrack.value.id == t.id
  }

  /** The record after a row's play/pause button. */
  function AfterPlayPause(s: AudioState, t: Track): AudioState {
    if IsCurrent(s, t) then Reduce(s, SetPlaying(!s.isPlaying)) else AfterSelect(s, t)
  }

  /** The request is set after the track reset has cleared it; nothing plays yet. */
  lemma SelectOutcome(s: AudioState, t: Track)
    ensures var r := AfterSelect(s, t);
      && r.currentTrack == Some(t) && r.pendingPlay && r.showMiniPlayer && !r.isPlaying
      && r.currentTime == 0.0 && r.duration == 0.0 && r.buffered == 0.0 && r.isLoading
      && r.volume == s.volume && r.isMuted == s.isMuted
  {
  }

  /** On the current track the button only negates `isPlaying`. */
  lemma PlayPauseCurrentToggles(s: AudioState, t: Track)
    requires IsCurrent(s, t)
    ensures AfterPlayPause(s, t) == s.(isPlaying := !s.isPlaying)
    ensures AfterPlayPause(AfterPlayPause(s, t), t) == s
  {
  }

  /** On any other track the button is the same as selecting it. */
  lemma PlayPauseOtherSelects(s: AudioState, t: Track)
    requires !IsCurrent(s, t)
    ensures AfterPlayPause(s, t) == AfterSelect(s, t)
    ensures IsCurrent(AfterPlayPause(s, t), t)
  {
  }

  /** With the global coordinator, a selection survives the source rebind and the first readiness event starts it. */
  lemma SelectionStartsWhenReady(s: AudioState, t: Track, e: MediaEvent, v: ElementView, armed: bool)
    requires GlobalAudioPlayer.StartsDeferredPlay(e)
    ensures var bound := Reduce(AfterSelect(s, t), ResetAudioState);
      && bound.pendingPlay && GlobalAudioPlayer.PlayCalls(bound, e) == 1
      && GlobalAudioPlayer.Fold(bound, e, v, armed).isPlaying
      && !GlobalAudioPlayer.Fold(bound, e, v, armed).pendingPlay
  {
    var bound := Reduce(AfterSelect(s, t), ResetAudioState);
    GlobalAudioPlayer.PendingPlayHonoured(bound, e, v, armed);
  }

  /** A row shows the pause icon exactly when its track is current and the record plays. */
  predicate ShowsPause(s: AudioState, t: Track) {
    IsCurrent(s, t) && s.isPlaying
  }

  /** Toggling the current row flips its icon; selecting another row never shows pause on it. */
  lemma PauseIconFollowsRecord(s: AudioState, t: Track)
    ensures IsCurrent(s, t) ==> (ShowsPause(AfterPlayPause(s, t), t) <==> !ShowsPause(s, t))
    ensures !IsCurrent(s, t) ==> !ShowsPause(AfterPlayPause(s, t), t)
  {
  }

  class SuggestionsPanel {
    const store: AudioStore
    var suggestions: seq<Track>
    var showSuggestions: bool
    var loading: bool
    var error: Option<string>

    constructor (store: AudioStore)
      ensures this.store == store && suggestions == [] && !showSuggestions && !loading && error == None
    {
      this.store := store;
      suggestions := [];
      showSuggestions := false;
      loading := false;
      error := None;
    }

    /** The list renders only when shown and non-empty. */
    function ListShown(): bool
      reads this
    {
      showSuggestions && |suggestions| > 0
    }

    /**
     * `handleGetSuggestions`, from start to the end of its request: `fetched` is what the
     * suggestion service produced, or its failure.
     */
    method GetSuggestions(fetched: Result<seq<Track>>)
      modifies this
      ensures !loading
      ensures fetched.Ok? ==> suggestions == fetched.value && showSuggestions && error == None
      ensures fetched.Err? ==>
        suggestions == [] && error == Some(NoSuggestionsMessage) && showSuggestions == old(showSuggestions)
    {
      loading := true;
      error := None;
      if fetched.Ok? {
        suggestions := fetched.value;
        showSuggestions := true;
      } else {
        error := Some(NoSuggestionsMessage);
        suggestions := [];
      }
      loading := false;
    }

    /** The panel button: hides a shown list (no request), otherwise fetches. */
    method ButtonClick(fetched: Result<seq<Track>>) returns (requested: bool)
      modifies this
      ensures requested == !old(showSuggestions)
      ensures old(showSuggestions) ==>
        && !showSuggestions && error == None
        && suggestions == old(suggestions) && loading == old(loading)
      ensures !old(showSuggestions) ==>
        && !loading
        && (fetched.Ok? ==> suggestions == fetched.value && showSuggestions && error == None)
        && (fetched.Err? ==> suggestions == [] && !showSuggestions)
      ensures !old(showSuggestions) && fetched.Ok? ==> (ListShown() <==> fetched.value != [])
      ensures !old(showSuggestions) && fetched.Err? ==> !ListShown() && error == Some(NoSuggestionsMessage)
    {
      if showSuggestions {
        showSuggestions := false;
        error := None;
        requested := false;
      } else {
        GetSuggestions(fetched);
        requested := true;
      }
    }

    /** `handleSelectTrack`. */
    method SelectTrack(t: Track)
      modifies store
      ensures store.State() == AfterSelect(old(store.State()), t)
    {
      store.Dispatch(SetCurrentTrack(Some(t)));
      store.Dispatch(SetPendingPlay(true));
      store.Dispatch(SetShowMiniPlayer(true));
    }

    /** `handlePlayPause`. */
    method PlayPause(t: Track)
      modifies store
      ensures store.State() == AfterPlayPause(old(store.State()), t)
    {
      if store.currentTrack.Some? && store.currentTrack.value.id == t.id {
        store.Dispatch(SetPlaying(!store.isPlaying));
      } else {
        SelectTrack(t);
      }
    }
  }
}
