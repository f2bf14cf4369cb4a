/**
 * The shared playback record (the `audio` slice of the Redux store): ten fields, an initial value
 * and twelve reducer actions. `Reduce` is the specification of one action; `AudioStore` is the
 * store itself, whose `Dispatch` writes the fields of the record in place the way the reducers
 * write their draft.
 */
module AudioSlice {
  import opened Wrappers
  import opened Tracks

  datatype AudioState = AudioState(
    currentTrack: Option<Track>,
    isPlaying: bool,
    currentTime: real,
    duration: real,
    volume: real,
    isMuted: bool,
    isLoading: bool,
    buffered: real,
    showMiniPlayer: bool,
    pendingPlay: bool)

  /** No track, stopped, every time at 0, full volume, unmuted, loading, mini player hidden. */
  const Initial := AudioState(None, false, 0.0, 0.0, 1.0, false, true, 0.0, false, false)

  datatype Action =
    | SetCurrentTrack(track: Option<Track>)
    | SetPlaying(playing: bool)
    | SetCurrentTime(time: real)
    | SetDuration(duration: real)
    | SetVolume(volume: real)
    | SetMuted(muted: bool)
    | SetLoading(loading: bool)
    | SetBuffered(buffered: real)
    | SetShowMiniPlayer(show: bool)
    | SetPendingPlay(pending: bool)
    | ResetAudioState
    | ResetAllAudioState

  /** The ten fields of the record, to state frame conditions. */
  datatype Field =
    | CurrentTrack | IsPlaying | CurrentTime | Duration | Volume
    | IsMuted | IsLoading | Buffered | ShowMiniPlayer | PendingPlay

  /** `s` and `t` hold the same value in field `f`. */
  predicate Agree(s: AudioState, t: AudioState, f: Field) {
    match f
    case CurrentTrack => s.currentTrack == t.currentTrack
    case IsPlaying => s.isPlaying == t.isPlaying
    case CurrentTime => s.currentTime == t.currentTime
    case Duration => s.duration == t.duration
    case Volume => s.volume == t.volume
    case IsMuted => s.isMuted == t.isMuted
    case IsLoading => s.isLoading == t.isLoading
    case Buffered => s.buffered == t.buffered
    case ShowMiniPlayer => s.showMiniPlayer == t.showMiniPlayer
    case PendingPlay => s.pendingPlay == t.pendingPlay
  }

  /** The fields each reducer assigns. */
  function Writes(a: Action): set<Field> {
    match a
    case SetCurrentTrack(t) =>
      if t.Some? then {CurrentTrack, CurrentTime, Duration, IsPlaying, IsLoading, Buffered, PendingPlay}
      else {CurrentTrack}
    case SetPlaying(_) => {IsPlaying}
    case SetCurrentTime(_) => {CurrentTime}
    case SetDuration(_) => {Duration, IsLoading}
    case SetVolume(_) => {Volume, IsMuted}
    case SetMuted(_) => {IsMuted}
    case SetLoading(_) => {IsLoading}
    case SetBuffered(_) => {Buffered}
    case SetShowMiniPlayer(_) => {ShowMiniPlayer}
    case SetPendingPlay(_) => {PendingPlay}
    case ResetAudioState => {IsPlaying, CurrentTime, Duration, IsLoading, Buffered}
    case ResetAllAudioState =>
      {CurrentTrack, IsPlaying, CurrentTime, Duration, Volume, IsMuted, IsLoading, Buffered, ShowMiniPlayer, PendingPlay}
  }

  /** The record after one action; every field the reducer does not assign keeps its value. */
  function Reduce(s: AudioState, a: Action): (r: AudioState)
    ensures forall f :: f !in Writes(a) ==> Agree(s, r, f)
  {
    match a
    case SetCurrentTrack(t) =>
      // a track object is truthy, `null` is not: only a real track resets the transport fields
      if t.Some? then
        s.(currentTrack := t, currentTime := 0.0, duration := 0.0, isPlaying := false,
           isLoading := true, buffered := 0.0, pendingPlay := false)
      else s.(currentTrack := t)
    case SetPlaying(b) => s.(isPlaying := b)
    case SetCurrentTime(t) => s.(currentTime := t)
    case SetDuration(d) => s.(duration := d, isLoading := false)
    case SetVolume(v) => s.(volume := v, isMuted := v == 0.0)
    case SetMuted(m) => s.(isMuted := m)
    case SetLoading(b) => s.(isLoading := b)
    case SetBuffered(b) => s.(buffered := b)
    case SetShowMiniPlayer(b) => s.(showMiniPlayer := b)
    case SetPendingPlay(b) => s.(pendingPlay := b)
    case ResetAudioState =>
      s.(isPlaying := false, currentTime := 0.0, duration := 0.0, isLoading := true, buffered := 0.0)
    case ResetAllAudioState => Initial
  }

  // ------------------------------------------------------------------ properties of the reducers

  /** A new track clears the transport fields and keeps volume, mute and mini-player visibility. */
  lemma SetCurrentTrackResets(s: AudioState, t: Track)
    ensures var r := Reduce(s, SetCurrentTrack(Some(t)));
      && r.currentTrack == Some(t) && !r.isPlaying && !r.pendingPlay && r.isLoading
      && r.currentTime == 0.0 && r.duration == 0.0 && r.buffered == 0.0
      && r.volume == s.volume && r.isMuted == s.isMuted && r.showMiniPlayer == s.showMiniPlayer
  {
  }

  /** Clearing the track changes nothing else: the record can say "no track" while playing. */
  lemma ClearingTrackKeepsPlaying(s: AudioState)
    requires s.isPlaying
    ensures var r := Reduce(s, SetCurrentTrack(None));
      r.currentTrack == None && r.isPlaying && r == s.(currentTrack := None)
  {
  }

  /** `setDuration` also ends loading. */
  lemma SetDurationEndsLoading(s: AudioState, d: real)
    ensures Reduce(s, SetDuration(d)).duration == d && !Reduce(s, SetDuration(d)).isLoading
  {
  }

  /** `setVolume` stores its payload unclamped and mutes exactly when the payload is 0. */
  lemma SetVolumeMutesAtZero(s: AudioState, v: real)
    ensures Reduce(s, SetVolume(v)).volume == v
    ensures Reduce(s, SetVolume(v)).isMuted <==> v == 0.0
  {
  }

  /** Muting and unmuting gives back the record with `isMuted` false; the stored volume survives. */
  lemma MuteRoundTrip(s: AudioState)
    ensures Reduce(Reduce(s, SetMuted(true)), SetMuted(false)) == s.(isMuted := false)
    ensures Reduce(s, SetMuted(true)).volume == s.volume
  {
  }

  /** `resetAudioState` keeps the track, the pending play request, volume, mute and visibility. */
  lemma ResetKeepsPendingPlay(s: AudioState)
    ensures var r := Reduce(s, ResetAudioState);
      && !r.isPlaying && r.currentTime == 0.0 && r.duration == 0.0 && r.buffered == 0.0 && r.isLoading
      && r.pendingPlay == s.pendingPlay && r.currentTrack == s.currentTrack
      && r.volume == s.volume && r.isMuted == s.isMuted && r.showMiniPlayer == s.showMiniPlayer
  {
  }

  /** `resetAllAudioState` yields the initial record from any record. */
  lemma ResetAllIsInitial(s: AudioState)
    ensures Reduce(s, ResetAllAudioState) == Initial
  {
  }

  /** Every action applied twice has the effect of applying it once. */
  lemma ReduceIdempotent(s: AudioState, a: Action)
    ensures Reduce(Reduce(s, a), a) == Reduce(s, a)
  {
  }

  /** Each single-field setter assigns exactly the field it names. */
  lemma SingleFieldSetters(s: AudioState, b: bool, x: real)
    ensures Reduce(s, SetPlaying(b)) == s.(isPlaying := b)
    ensures Reduce(s, SetCurrentTime(x)) == s.(currentTime := x)
    ensures Reduce(s, SetLoading(b)) == s.(isLoading := b)
    ensures Reduce(s, SetBuffered(x)) == s.(buffered := x)
    ensures Reduce(s, SetShowMiniPlayer(b)) == s.(showMiniPlayer := b)
    ensures Reduce(s, SetPendingPlay(b)) == s.(pendingPlay := b)
  {
  }

  // ------------------------------------------------------------------ the store

  /** The store holding the one playback record of the application. */
  class AudioStore {
    var currentTrack: Option<Track>
    var isPlaying: bool
    var currentTime: real
    var duration: real
    var volume: real
    var isMuted: bool
    var isLoading: bool
    var buffered: real
    var showMiniPlayer: bool
    var pendingPlay: bool

    function State(): AudioState
      reads this
    {
      AudioState(currentTrack, isPlaying, currentTime, duration, volume,
                 isMuted, isLoading, buffered, showMiniPlayer, pendingPlay)
    }

    constructor ()
      ensures State() == Initial
    {
      currentTrack, isPlaying, currentTime, duration, volume := None, false, 0.0, 0.0, 1.0;
      isMuted, isLoading, buffered, showMiniPlayer, pendingPlay := false, true, 0.0, false, false;
    }

    /** Runs the reducer of `a` on the record in place. */
    method Dispatch(a: Action)
      modifies this
      ensures State() == Reduce(old(State()), a)
    {
      match a
      case SetCurrentTrack(t) =>
        currentTrack := t;
        if t.Some? {
          currentTime := 0.0;
          duration := 0.0;
          isPlaying := false;
          isLoading := true;
          buffered := 0.0;
          pendingPlay := false;
        }
      case SetPlaying(b) => isPlaying := b;
      case SetCurrentTime(t) => currentTime := t;
      case SetDuration(d) =>
        duration := d;
        isLoading := false;
      case SetVolume(v) =>
        volume := v;
        isMuted := v == 0.0;
      case SetMuted(m) => isMuted := m;
      case SetLoading(b) => isLoading := b;
      case SetBuffered(b) => buffered := b;
      case SetShowMiniPlayer(b) => showMiniPlayer := b;
      case SetPendingPlay(b) => pendingPlay := b;
      case ResetAudioState =>
        isPlaying := false;
        currentTime := 0.0;
        duration := 0.0;
        isLoading := true;
        buffered := 0.0;
      case ResetAllAudioState =>
        currentTrack := None;
        isPlaying := false;
        currentTime := 0.0;
        duration := 0.0;
        volume := 1.0;
        isMuted := false;
        isLoading := true;
        buffered := 0.0;
        showMiniPlayer := false;
        pendingPlay := false;
    }
  }
}
