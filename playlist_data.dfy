/**
 * The sample catalogue behind the playlist pages and the AI suggestions: thirteen tracks, one
 * playlist, and the three lookups over them.
 */
module PlaylistData {
  import opened Wrappers
  import opened Tracks
  import opened Text

  /** A playlist; `trackCount` is a stored number, not derived from `tracks`. */
  datatype Playlist = Playlist(id: string, title: string, trackCount: int, tracks: seq<Track>, tags: seq<string>)

  /** The entries of `SAMPLE_TRACKS` (display-only fields omitted). There is no "t6". */
  const T1 := Track("t1", "Digital Dreams", "Synthwave Collective", "Electronic",
    "https://www.soundjay.com/misc/sounds/bell-ringing-05.wav")
  const T2 := Track("t2", "Neon Nights", "Cyber Punk", "Synthwave",
    "https://www.soundjay.com/misc/sounds/bell-ringing-04.wav")
  const T3 := Track("t3", "Future Bass", "Wave Rider", "Electronic",
    "https://www.soundjay.com/misc/sounds/bell-ringing-03.wav")
  const T4 := Track("t4", "Retro Wave", "80s Revival", "Retro",
    "https://www.soundjay.com/misc/sounds/bell-ringing-02.wav")
  const T5 := Track("t5", "Ambient Flow", "Chill Masters", "Ambient",
    "https://www.soundjay.com/misc/sounds/bell-ringing-01.wav")
  const T7 := Track("t7", "Machine Learning Models", "AI Podcast", "Machine Learning",
    "https://res.cloudinary.com/dgvoocfla/video/upload/v1758821057/Machine_Learning_Models_rcsgub.mp4")
  const T8 := Track("t8", "Types of Machine Learning Models", "Data Science Weekly", "Machine Learning",
    "https://res.cloudinary.com/dgvoocfla/video/upload/v1758821057/Types_of_machine_learning_model_ypgn9k.mp4")
  const T9 := Track("t9", "Regression", "Tech Talks", "Machine Learning",
    "https://res.cloudinary.com/dgvoocfla/video/upload/v1758821060/Regression_ydmhig.mp4")
  const T10 := Track("t10", "Binary Classification", "AI Insights", "Machine Learning",
    "https://res.cloudinary.com/dgvoocfla/video/upload/v1758821051/Binary_classification_ohoamw.mp4")
  const T11 := Track("t11", "Multiclass Classification", "ML Masters", "Machine Learning",
    "https://res.cloudinary.com/dgvoocfla/video/upload/v1758821070/Multiclass_classification_sdqy9h.mp4")
  const T12 := Track("t12", "Clustering", "Data Science Hub", "Machine Learning",
    "https://res.cloudinary.com/dgvoocfla/video/upload/v1758821055/Clustering_zfdd3n.mp4")
  const T13 := Track("t13", "Deep Learning", "AI Research", "Machine Learning",
    "https://res.cloudinary.com/dgvoocfla/video/upload/v1758821040/Deep_learning_g31qwi.mp4")
  const T14 := Track("t14", "Artificial Intelligence", "Future Tech", "Machine Learning",
    "https://res.cloudinary.com/dgvoocfla/video/upload/v1758822269/%E0%A4%A8%E0%A5%8D%E0%A4%AF%E0%A5%82%E0%A4%B0%E0%A4%B2_%E0%A4%A8%E0%A5%87%E0%A4%9F%E0%A4%B5%E0%A4%B0%E0%A5%8D%E0%A4%95_%E0%A4%B8%E0%A5%80%E0%A4%96%E0%A4%A4%E0%A5%87_%E0%A4%95%E0%A5%88%E0%A4%B8%E0%A5%87_%E0%A4%B9%E0%A5%88%E0%A4%82__%E0%A4%AC%E0%A5%88%E0%A4%95%E0%A4%AA%E0%A5%8D%E0%A4%B0%E0%A5%8B%E0%A4%AA%E0%A5%88%E0%A4%97%E0%A5%87%E0%A4%B6%E0%A4%A8__%E0%A4%B2%E0%A5%89%E0%A4%B8_%E0%A4%AB%E0%A4%82%E0%A4%95%E0%A5%8D%E0%A4%B6%E0%A4%A8_%E0%A4%94%E0%A4%B0_%E0%A4%97%E0%A5%8D%E0%A4%B0_teor5q.mp4")

  /** `SAMPLE_TRACKS`. */
  const SampleTracks: seq<Track> := [T1, T2, T3, T4, T5, T7, T8, T9, T10, T11, T12, T13, T14]

  /** `array.slice(start, end)` for non-negative bounds: both are clamped to the length. */
  function Slice<T>(s: seq<T>, start: nat, end: nat): (r: seq<T>)
    ensures start <= end <= |s| ==> r == s[start..end]
    ensures |r| <= |s|
  {
    var e := if end <= |s| then end else |s|;
    var b := if start <= e then start else e;
    s[b..e]
  }

  /** `SAMPLE_PLAYLISTS`: the one "Machine Learning" playlist. */
  const SamplePlaylists: seq<Playlist> := [
    Playlist("p5", "Machine Learning", 8, Slice(SampleTracks, 6, 14),
             ["machine learning", "AI", "data science", "education"])
  ]

  /** The sample ids, in order. */
  lemma SampleIds()
    ensures |SampleTracks| == 13
    ensures Ids(SampleTracks) == ["t1", "t2", "t3", "t4", "t5", "t7", "t8", "t9", "t10", "t11", "t12", "t13", "t14"]
  {
  }

  /** A number that grows along the sample ids: their length, then their last character. */
  function IdRank(id: string): int {
    if id == [] then 0 else 1000 * |id| + id[|id| - 1] as int
  }

  /** Ids whose ranks strictly increase from each track to the next are pairwise distinct. */
  lemma {:induction false} IncreasingRanksDistinct(ts: seq<Track>)
    requires forall i :: 0 <= i < |ts| - 1 ==> IdRank(ts[i].id) < IdRank(ts[i + 1].id)
    ensures forall i, j :: 0 <= i < j < |ts| ==> IdRank(ts[i].id) < IdRank(ts[j].id)
    ensures DistinctIds(ts)
  {
    if |ts| > 1 {
      IncreasingRanksDistinct(ts[1..]);
      assert forall j :: 1 <= j < |ts| ==> IdRank(ts[0].id) < IdRank(ts[j].id) by {
        forall j | 1 <= j < |ts|
          ensures IdRank(ts[0].id) < IdRank(ts[j].id)
        {
          if j > 1 {
            assert IdRank(ts[1..][0].id) < IdRank(ts[1..][j - 1].id);
          }
        }
      }
    }
  }

  /** No two sample tracks share an id. */
  lemma SampleIdsDistinct()
    ensures DistinctIds(SampleTracks)
  {
    assert IdRank(T1.id) == 2049;
    assert IdRank(T2.id) == 2050;
    assert IdRank(T3.id) == 2051;
    assert IdRank(T4.id) == 2052;
    assert IdRank(T5.id) == 2053;
    assert IdRank(T7.id) == 2055;
    assert IdRank(T8.id) == 2056;
    assert IdRank(T9.id) == 2057;
    assert IdRank(T10.id) == 3048;
    assert IdRank(T11.id) == 3049;
    assert IdRank(T12.id) == 3050;
    assert IdRank(T13.id) == 3051;
    assert IdRank(T14.id) == 3052;
    assert forall i :: 0 <= i < |SampleTracks| - 1 ==> IdRank(SampleTracks[i].id) < IdRank(SampleTracks[i + 1].id);
    IncreasingRanksDistinct(SampleTracks);
  }

  /** The playlist holds t8 to t14, seven tracks, although its stored count says 8. */
  lemma PlaylistCountDisagrees()
    ensures SamplePlaylists[0].tracks == SampleTracks[6..]
    ensures Ids(SamplePlaylists[0].tracks) == ["t8", "t9", "t10", "t11", "t12", "t13", "t14"]
    ensures |SamplePlaylists[0].tracks| == 7 != SamplePlaylists[0].trackCount
  {
    SampleIds();
    assert SamplePlaylists[0].tracks == SampleTracks[6..13];
    var ids := Ids(SampleTracks);
    assert Ids(SampleTracks[6..]) == ids[6..];
  }

  // ---------------------------------------------------------------- getPlaylistById

  /** No playlist before index `i` has id `id`. */
  predicate NoPlaylistBefore(ps: seq<Playlist>, id: string, i: int)
    requires 0 <= i <= |ps|
  {
    forall j :: 0 <= j < i ==> ps[j].id != id
  }

  function FindPlaylist(ps: seq<Playlist>, id: string): (r: Option<Playlist>)
    ensures r.Some? ==> r.value.id == id && exists i :: 0 <= i < |ps| && ps[i] == r.value && NoPlaylistBefore(ps, id, i)
    ensures r.None? <==> forall i :: 0 <= i < |ps| ==> ps[i].id != id
  {
    if ps == [] then None
    else if ps[0].id == id then Some(ps[0])
    else
      var r := FindPlaylist(ps[1..], id);
      if r.Some? then
        var i :| 0 <= i < |ps| - 1 && ps[1..][i] == r.value && NoPlaylistBefore(ps[1..], id, i);
        assert ps[i + 1] == r.value && NoPlaylistBefore(ps, id, i + 1);
        r
      else r
  }

  /** `getPlaylistById`: the first sample playlist with that id, if any. */
  function GetPlaylistById(id: string): (r: Option<Playlist>)
    ensures r.Some? ==> r.value in SamplePlaylists && r.value.id == id
    ensures r.None? <==> forall i :: 0 <= i < |SamplePlaylists| ==> SamplePlaylists[i].id != id
  {
    FindPlaylist(SamplePlaylists, id)
  }

  /** "p5" is the only playlist id. */
  lemma OnlyP5(id: string)
    ensures GetPlaylistById(id).Some? <==> id == "p5"
    ensures GetPlaylistById("p5") == Some(SamplePlaylists[0])
  {
  }

  // ---------------------------------------------------------------- getTracksByIds

  /** The tracks of `ts` whose id is in `ids`, in the order of `ts`. */
  function KeepByIds(ts: seq<Track>, ids: seq<string>): (r: seq<Track>)
    ensures |r| <= |ts|
    ensures forall i :: 0 <= i < |r| ==> r[i] in ts && r[i].id in ids
    ensures forall i :: 0 <= i < |ts| && ts[i].id in ids ==> ts[i] in r
  {
    if ts == [] then []
    else if ts[0].id in ids then [ts[0]] + KeepByIds(ts[1..], ids)
    else KeepByIds(ts[1..], ids)
  }

  /** Filtering distributes over concatenation, so the result keeps the catalogue's order. */
  lemma {:induction false} KeepByIdsAppend(a: seq<Track>, b: seq<Track>, ids: seq<string>)
    ensures KeepByIds(a + b, ids) == KeepByIds(a, ids) + KeepByIds(b, ids)
  {
    if a != [] {
      var head := if a[0].id in ids then [a[0]] else [];
      assert (a + b)[0] == a[0] && (a + b)[1..] == a[1..] + b;
      assert KeepByIds(a + b, ids) == head + KeepByIds(a[1..] + b, ids);
      assert KeepByIds(a, ids) == head + KeepByIds(a[1..], ids);
      KeepByIdsAppend(a[1..], b, ids);
    } else {
      assert a + b == b;
    }
  }

  /** Only the set of query ids matters: order, repetition and unknown ids change nothing. */
  lemma {:induction false} KeepByIdsOnlySetMatters(ts: seq<Track>, ids1: seq<string>, ids2: seq<string>)
    requires forall i :: 0 <= i < |ts| ==> (ts[i].id in ids1 <==> ts[i].id in ids2)
    ensures KeepByIds(ts, ids1) == KeepByIds(ts, ids2)
  {
    if ts != [] {
      assert ts[0].id in ids1 <==> ts[0].id in ids2;
      KeepByIdsOnlySetMatters(ts[1..], ids1, ids2);
    }
  }

  /** `getTracksByIds`. */
  function GetTracksByIds(ids: seq<string>): (r: seq<Track>)
    ensures forall i :: 0 <= i < |r| ==> r[i] in SampleTracks && r[i].id in ids
    ensures forall i :: 0 <= i < |SampleTracks| && SampleTracks[i].id in ids ==> SampleTracks[i] in r
  {
    KeepByIds(SampleTracks, ids)
  }

  /** A duplicated query id adds nothing. */
  lemma DuplicateIdsAddNothing(ids: seq<string>, x: string)
    requires x in ids
    ensures GetTracksByIds(ids + [x]) == GetTracksByIds(ids)
  {
    KeepByIdsOnlySetMatters(SampleTracks, ids + [x], ids);
  }

  lemma {:induction false} KeepByIdsAll(ts: seq<Track>, ids: seq<string>)
    requires forall i :: 0 <= i < |ts| ==> ts[i].id in ids
    ensures KeepByIds(ts, ids) == ts
  {
    if ts != [] {
      KeepByIdsAll(ts[1..], ids);
    }
  }

  lemma {:induction false} KeepByIdsNone(ts: seq<Track>, ids: seq<string>)
    requires forall i :: 0 <= i < |ts| ==> ts[i].id !in ids
    ensures KeepByIds(ts, ids) == []
  {
    if ts != [] {
      KeepByIdsNone(ts[1..], ids);
    }
  }

  /** With distinct ids, no track before position `k` has the id of a track from `k` on. */
  lemma PrefixIdsNotInSuffix(ts: seq<Track>, k: nat)
    requires DistinctIds(ts) && k <= |ts|
    ensures forall i :: 0 <= i < k ==> ts[..k][i].id !in Ids(ts[k..])
  {
    var a, b := ts[..k], ts[k..];
    forall i, j | 0 <= i < k && 0 <= j < |b|
      ensures a[i].id != Ids(b)[j]
    {
      assert a[i] == ts[i] && b[j] == ts[k + j];
    }
  }

  /** Every track's id is among the ids of its sequence. */
  lemma SuffixIdsIn(b: seq<Track>)
    ensures forall j :: 0 <= j < |b| ==> b[j].id in Ids(b)
  {
    forall j | 0 <= j < |b|
      ensures b[j].id in Ids(b)
    {
      assert Ids(b)[j] == b[j].id;
    }
  }

  /** Resolving the ids of `b` in `a + b` keeps exactly `b` when no track of `a` shares one of them. */
  lemma KeepSplit(a: seq<Track>, b: seq<Track>)
    requires forall i :: 0 <= i < |a| ==> a[i].id !in Ids(b)
    ensures KeepByIds(a + b, Ids(b)) == b
  {
    KeepByIdsNone(a, Ids(b));
    SuffixIdsIn(b);
    KeepByIdsAll(b, Ids(b));
    KeepByIdsAppend(a, b, Ids(b));
  }

  /** Resolving the ids of a suffix gives back exactly that suffix, in order, when no earlier track shares one. */
  lemma KeepSuffix(ts: seq<Track>, k: nat)
    requires k <= |ts|
    requires forall i :: 0 <= i < k ==> ts[..k][i].id !in Ids(ts[k..])
    ensures KeepByIds(ts, Ids(ts[k..])) == ts[k..]
  {
    var a, b := ts[..k], ts[k..];
    KeepSplit(a, b);
    assert a + b == ts;
  }

  /** Resolving the playlist's own track ids gives back exactly its tracks, in order. */
  lemma PlaylistTracksResolve()
    ensures GetTracksByIds(Ids(SamplePlaylists[0].tracks)) == SamplePlaylists[0].tracks
  {
    PlaylistCountDisagrees();
    SampleIdsDistinct();
    PrefixIdsNotInSuffix(SampleTracks, 6);
    KeepSuffix(SampleTracks, 6);
  }

  // ---------------------------------------------------------------- getPlaylistsByTag

  /** Some tag of `p` contains `tag`, ignoring (ASCII) case. */
  predicate TagMatches(p: Playlist, tag: string) {
    exists k :: 0 <= k < |p.tags| && Includes(ToLower(p.tags[k]), ToLower(tag))
  }

  function KeepByTag(ps: seq<Playlist>, tag: string): (r: seq<Playlist>)
    ensures |r| <= |ps|
    ensures forall i :: 0 <= i < |r| ==> r[i] in ps && TagMatches(r[i], tag)
    ensures forall i :: 0 <= i < |ps| && TagMatches(ps[i], tag) ==> ps[i] in r
  {
    if ps == [] then []
    else if TagMatches(ps[0], tag) then [ps[0]] + KeepByTag(ps[1..], tag)
    else KeepByTag(ps[1..], tag)
  }

  /** Filtering by tag distributes over concatenation, so the result keeps the playlists' order. */
  lemma {:induction false} KeepByTagAppend(a: seq<Playlist>, b: seq<Playlist>, tag: string)
    ensures KeepByTag(a + b, tag) == KeepByTag(a, tag) + KeepByTag(b, tag)
  {
    if a != [] {
      assert (a + b)[1..] == a[1..] + b;
      KeepByTagAppend(a[1..], b, tag);
    } else {
      assert a + b == b;
    }
  }

  /** `getPlaylistsByTag`: the sample playlists with a matching tag, in order. */
  function GetPlaylistsByTag(tag: string): (r: seq<Playlist>)
    ensures forall i :: 0 <= i < |r| ==> r[i] in SamplePlaylists && TagMatches(r[i], tag)
    ensures forall i :: 0 <= i < |SamplePlaylists| && TagMatches(SamplePlaylists[i], tag) ==> SamplePlaylists[i] in r
  {
    KeepByTag(SamplePlaylists, tag)
  }

  /** The empty query keeps exactly the playlists that have at least one tag. */
  lemma {:induction false} EmptyTagKeepsTagged(ps: seq<Playlist>)
    ensures KeepByTag(ps, "") == KeepTagged(ps)
  {
    if ps != [] {
      if |ps[0].tags| > 0 {
        IncludesEmpty(ToLower(ps[0].tags[0]));
      }
      EmptyTagKeepsTagged(ps[1..]);
    }
  }

  /** The playlists of `ps` with at least one tag, in order. */
  function KeepTagged(ps: seq<Playlist>): seq<Playlist> {
    if ps == [] then []
    else if |ps[0].tags| > 0 then [ps[0]] + KeepTagged(ps[1..])
    else KeepTagged(ps[1..])
  }

  /** Case does not matter: "ai" finds the playlist tagged "AI". */
  lemma TagQueryIgnoresCase()
    ensures GetPlaylistsByTag("ai") == SamplePlaylists
  {
    var p := SamplePlaylists[0];
    assert ToLower(p.tags[1]) == "ai";
    assert OccursAt(ToLower(p.tags[1]), ToLower("ai"), 0);
  }
}
