/**
 * The floating mini player (desktop) and its bottom-bar twin (mobile): both read the shared
 * record, render nothing unless the mini player is shown and a track is current, and drive
 * playback only through actions on the store. The transport buttons are the shared intents.
 */
module MiniPlayer {
  import opened Wrappers
  import opened Tracks
  import opened AudioSlice
  import FullPlayer

  /** What the mini player renders: nothing, the desktop card or the mobile bar, for a track. */
  datatype MiniView = Hidden | DesktopCard(track: Track) | MobileBar(track: Track)

  /** The render guard, then the screen-size switch. */
  function Render(s: AudioState, isMobile: bool): (r: MiniView)
    ensures r == Hidden <==> !s.showMiniPlayer || s.currentTrack.None?
    ensures r != Hidden ==> r.track == s.currentTrack.value && (r.MobileBar? <==> isMobile)
  {
    if !s.showMiniPlayer || s.currentTrack.None? then Hidden
    else if isMobile then MobileBar(s.currentTrack.value)
    else DesktopCard(s.currentTrack.value)
  }

  /** The author line of the mobile bar: the author, or a placeholder when it is empty. */
  function AuthorLabel(author: string): (r: string)
    ensures r != []
    ensures author != [] ==> r == author
  {
    if author == "" then "Unknown Author" else author
  }

  const FullPlayerRoutePrefix := "/audio-player/"

  /** The route of the full player for track id `id`. */
  function FullPlayerRoute(id: string): string {
    FullPlayerRoutePrefix + id
  }

  /** The id the full player page reads back from its route. */
  function RouteId(route: string): (r: Option<string>)
    ensures r.Some? ==> route == FullPlayerRoutePrefix + r.value
  {
    if |route| >= |FullPlayerRoutePrefix| && route[..|FullPlayerRoutePrefix|] == FullPlayerRoutePrefix
    then Some(route[|FullPlayerRoutePrefix|..])
    else None
  }

  /** The route the maximize button opens gives the full player back the same id. */
  lemma RouteRoundTrip(id: string)
    ensures RouteId(FullPlayerRoute(id)) == Some(id)
  {
    assert FullPlayerRoute(id)[..|FullPlayerRoutePrefix|] == FullPlayerRoutePrefix;
    assert FullPlayerRoute(id)[|FullPlayerRoutePrefix|..] == id;
  }

  /**
   * Close (X on either layout): stop, then hide. The track stays current, so nothing is lost and
   * the record no longer renders a mini player.
   */
  method Close(store: AudioStore)
    modifies store
    ensures store.State() == Reduce(Reduce(old(store.State()), SetPlaying(false)), SetShowMiniPlayer(false))
    ensures store.State() == old(store.State()).(isPlaying := false, showMiniPlayer := false)
  {
    store.Dispatch(SetPlaying(false));
    store.Dispatch(SetShowMiniPlayer(false));
  }

  /** After closing, nothing plays, nothing is rendered, and the current track is kept. */
  lemma CloseHidesAndStops(s: AudioState, isMobile: bool)
    ensures var t := Reduce(Reduce(s, SetPlaying(false)), SetShowMiniPlayer(false));
      && !t.isPlaying && Render(t, isMobile) == Hidden && t.currentTrack == s.currentTrack
  {
  }

  /**
   * Maximize (the desktop button, a tap on the mobile bar's track info): open the full player on
   * the current track, then hide the mini player. It is only reachable while a track renders.
   */
  method OpenFullPlayer(store: AudioStore) returns (route: string)
    requires store.showMiniPlayer && store.currentTrack.Some?
    modifies store
    ensures route == FullPlayerRoute(old(store.currentTrack).value.id)
    ensures store.State() == Reduce(old(store.State()), SetShowMiniPlayer(false))
  {
    route := FullPlayerRoute(store.currentTrack.value.id);
    store.Dispatch(SetShowMiniPlayer(false));
  }

  /**
   * The full player opened from the mini player finds its id in the route and reuses the track
   * already in the record, without a lookup; playback state is untouched by the hand-over.
   */
  lemma MaximizeReusesCurrentTrack(s: AudioState, lookupThrows: bool)
    requires s.currentTrack.Some? && s.currentTrack.value.id != ""
    ensures var t := Reduce(s, SetShowMiniPlayer(false));
      && RouteId(FullPlayerRoute(s.currentTrack.value.id)) == Some(s.currentTrack.value.id)
      && FullPlayer.LoadOutcome(s.currentTrack.value.id, t.currentTrack, lookupThrows) == FullPlayer.Reused(s.currentTrack.value)
      && t.isPlaying == s.isPlaying && t.currentTime == s.currentTime
  {
    RouteRoundTrip(s.currentTrack.value.id);
    var t := Reduce(s, SetShowMiniPlayer(false));
    assert t.currentTrack == s.currentTrack;
    FullPlayer.CurrentTrackReused(s.currentTrack.value.id, t.currentTrack, lookupThrows);
  }
}
