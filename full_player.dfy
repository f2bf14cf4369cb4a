/**
 * The full-screen player page: resolves the route's track id into a track (reusing the record's
 * current track when the ids match, else asking the track service), publishes it to the store,
 * and decides which screen to show and whether its controls are enabled.
 */
module FullPlayer {
  import opened Wrappers
  import opened Tracks
  import opened AudioSlice
  import AudioTrackService

  const NoTrackIdMessage := "No track ID provided"
  const TrackNotFoundMessage := "Track not found in library"
  const LoadFailedMessage := "Failed to load track. Please try again."
  const TrackUnavailableMessage := "Track data unavailable"

  /** What the page renders, checked in this order. */
  datatype Screen = LoadingScreen | ErrorScreen(message: string) | PlayerScreen(track: Track)

  function ScreenFor(isLoadingTrack: bool, trackError: Option<string>, track: Option<Track>): (r: Screen)
    ensures isLoadingTrack ==> r == LoadingScreen
    ensures !isLoadingTrack && trackError.Some? ==> r == ErrorScreen(trackError.value)
    ensures !isLoadingTrack && trackError.None? ==> r == if track.Some? then PlayerScreen(track.value) else ErrorScreen(TrackUnavailableMessage)
  {
    if isLoadingTrack then LoadingScreen
    else if trackError.Some? then ErrorScreen(trackError.value)
    else if track.None? then ErrorScreen(TrackUnavailableMessage)
    else PlayerScreen(track.value)
  }

  /** The control panel is disabled while the element loads or when the track has no URL. */
  predicate ControlsDisabled(isLoading: bool, track: Track)
    ensures isLoading ==> ControlsDisabled(isLoading, track)
    ensures !isLoading ==> (ControlsDisabled(isLoading, track) <==> track.audioUrl == "")
  {
    isLoading || !HasAudio(track)
  }

  /** A track without a URL can never be played from the page, whatever the loading flag says. */
  lemma NoUrlAlwaysDisabled(isLoading: bool, t: Track)
    ensures ControlsDisabled(isLoading, t) <==> isLoading || t.audioUrl == ""
  {
  }

  /** How `loadTrack` ends, as a function of the id, the record's current track and the service. */
  datatype LoadResult = Failed(message: string) | Reused(track: Track) | Loaded(track: Track)

  /**
   * The outcome of `loadTrack`: a missing id fails; a current track with that id is reused;
   * otherwise a throwing lookup fails, a miss fails, and a hit is loaded.
   */
  function LoadOutcome(id: string, current: Option<Track>, lookupThrows: bool): (r: LoadResult)
    ensures id == "" <==> r == Failed(NoTrackIdMessage)
    ensures r.Reused? <==> id != "" && current.Some? && current.value.id == id
    ensures r.Loaded? ==> r.track.id == id && AudioTrackService.GetTrackById(id) == Some(r.track) && !lookupThrows
    ensures r.Failed? && id != "" ==> r.message == LoadFailedMessage || r.message == TrackNotFoundMessage
    ensures id != "" && !r.Reused? && lookupThrows ==> r == Failed(LoadFailedMessage)
    ensures id != "" && !r.Reused? && !lookupThrows ==>
      && (AudioTrackService.GetTrackById(id).None? <==> r == Failed(TrackNotFoundMessage))
      && (AudioTrackService.GetTrackById(id).Some? ==> r == Loaded(AudioTrackService.GetTrackById(id).value))
  {
    if id == "" then Failed(NoTrackIdMessage)
    else if current.Some? && current.value.id == id then Reused(current.value)
    else if lookupThrows then Failed(LoadFailedMessage)
    else
      match AudioTrackService.GetTrackById(id)
      case None => Failed(TrackNotFoundMessage)
      case Some(t) => Loaded(t)
  }

  /** A track already current under the requested id is reused whatever the lookup would do. */
  lemma CurrentTrackReused(id: string, current: Option<Track>, lookupThrows: bool)
    requires id != "" && current.Some? && current.value.id == id
    ensures LoadOutcome(id, current, lookupThrows) == Reused(current.value)
  {
  }

  /** With a working lookup, every catalogue id that is not already current is loaded. */
  lemma CatalogueIdsLoad(t: Track, current: Option<Track>)
    requires t in AudioTrackService.GetAllTracks()
    requires current.None? || current.value.id != t.id
    requires t.id != ""
    ensures LoadOutcome(t.id, current, false) == Loaded(t)
  {
    AudioTrackService.LookupFindsEveryListedTrack(t);
  }

  class FullPlayerPage {
    const store: AudioStore
    var track: Option<Track>
    var trackError: Option<string>
    var isLoadingTrack: bool

    constructor (store: AudioStore)
      ensures this.store == store && track == None && trackError == None && isLoadingTrack
    {
      this.store := store;
      track := None;
      trackError := None;
      isLoadingTrack := true;
    }

    function Shown(): Screen
      reads this
    {
      ScreenFor(isLoadingTrack, trackError, track)
    }

    /**
     * `loadTrack` for route id `id` (the empty string when absent). `urlCheck` is what
     * `validateAudioUrl` gave (None when it threw); `lookupThrows` says the service call failed.
     * Only a freshly loaded track is dispatched; the URL check never changes the outcome.
     */
    method LoadTrack(id: string, urlCheck: Option<bool>, lookupThrows: bool)
      modifies this, store
      ensures !isLoadingTrack
      ensures match LoadOutcome(id, old(store.currentTrack), lookupThrows)
        case Failed(m) => trackError == Some(m) && track == old(track) && store.State() == old(store.State())
        case Reused(t) => track == Some(t) && trackError == old(trackError) && store.State() == old(store.State())
        case Loaded(t) =>
          && track == Some(t) && trackError == None
          && store.State() == Reduce(old(store.State()), SetCurrentTrack(Some(t)))
      ensures match LoadOutcome(id, old(store.currentTrack), lookupThrows)
        case Failed(m) => Shown() == ErrorScreen(m)
        case Reused(t) => Shown() == if old(trackError).Some? then ErrorScreen(old(trackError).value) else PlayerScreen(t)
        case Loaded(t) => Shown() == PlayerScreen(t)
    {
      if id == "" {
        trackError := Some(NoTrackIdMessage);
        isLoadingTrack := false;
        return;
      }
      if store.currentTrack.Some? && store.currentTrack.value.id == id {
        track := store.currentTrack;
        isLoadingTrack := false;
        return;
      }
      isLoadingTrack := true;
      trackError := None;
      if lookupThrows {
        trackError := Some(LoadFailedMessage);
        isLoadingTrack := false;
        return;
      }
      var found := AudioTrackService.GetTrackById(id);
      if found.None? {
        trackError := Some(TrackNotFoundMessage);
        isLoadingTrack := false;
        return;
      }
      // a track with a URL has it checked, but the verdict (`urlCheck`) is only logged
      track := found;
      store.Dispatch(SetCurrentTrack(found));
      isLoadingTrack := false;
    }
  }
}
