/**
 * A catalogue track, as the playlist data, the track service and the players see it. Only the
 * fields some decision reads are kept; an absent `audioUrl` is the empty string, since every use
 * in the players only asks whether the URL is present (JavaScript truthiness).
 */
module Tracks {
  import opened Wrappers

  datatype Track = Track(id: string, title: string, author: string, category: string, audioUrl: string)

  predicate HasAudio(t: Track) {
    t.audioUrl != ""
  }

  /** The ids of a list of tracks, in order. */
  function Ids(ts: seq<Track>): (r: seq<string>)
    ensures |r| == |ts|
    ensures forall i :: 0 <= i < |ts| ==> r[i] == ts[i].id
  {
    if ts == [] then [] else [ts[0].id] + Ids(ts[1..])
  }

  /** No two tracks of the list share an id. */
  predicate DistinctIds(ts: seq<Track>) {
    forall i, j :: 0 <= i < j < |ts| ==> ts[i].id != ts[j].id
  }

  /** No track before index `i` has id `id`. */
  predicate NoneBefore(ts: seq<Track>, id: string, i: int)
    requires 0 <= i <= |ts|
  {
    forall j :: 0 <= j < i ==> ts[j].id != id
  }

  /** `tracks.find(t => t.id === id)`: the first track with that id, if any. */
  function FindById(ts: seq<Track>, id: string): (r: Option<Track>)
    ensures r.Some? ==> r.value.id == id && exists i :: 0 <= i < |ts| && ts[i] == r.value && NoneBefore(ts, id, i)
    ensures r.None? <==> forall i :: 0 <= i < |ts| ==> ts[i].id != id
  {
    if ts == [] then None
    else if ts[0].id == id then Some(ts[0])
    else
      var r := FindById(ts[1..], id);
      if r.Some? then
        var i :| 0 <= i < |ts| - 1 && ts[1..][i] == r.value && NoneBefore(ts[1..], id, i);
        assert ts[i + 1] == r.value && NoneBefore(ts, id, i + 1);
        r
      else r
  }

  /** In a list with distinct ids, looking up a listed track's id finds that very track. */
  lemma FindListed(ts: seq<Track>, i: int)
    requires DistinctIds(ts) && 0 <= i < |ts|
    ensures FindById(ts, ts[i].id) == Some(ts[i])
  {
    var r := FindById(ts, ts[i].id);
    assert r.Some?;
    var j :| 0 <= j < |ts| && ts[j] == r.value && NoneBefore(ts, ts[i].id, j);
  }
}
