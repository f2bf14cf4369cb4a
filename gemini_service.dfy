/**
 * The suggestion service: asks a language model for three track titles from the sample
 * playlists, reads the reply as a JSON array or, failing that, as a comma-separated list, maps
 * each title to the first track it matches, drops repeats, and tops up with arbitrary unused
 * tracks until there are three or none are left. The model request, `JSON.parse` and
 * `Math.random` are inputs.
 */
module GeminiService {
  import opened Wrappers
  import opened Tracks
  import opened Text
  import opened PlaylistData

  const MissingKeyMessage := "Gemini API key not available. Unable to generate AI suggestions."
  const FailedMessage := "Failed to generate AI suggestions. Please try again."
  const MaxSuggestions: nat := 3

  // ---------------------------------------------------------------- getAllTracks

  /** The tracks of every playlist, playlist after playlist. */
  function Concat(ps: seq<Playlist>): (r: seq<Track>)
    ensures forall t :: t in r <==> exists i :: 0 <= i < |ps| && t in ps[i].tracks
  {
    if ps == [] then []
    else
      var rest := Concat(ps[1..]);
      assert forall i :: 0 < i < |ps| ==> ps[i] == ps[1..][i - 1];
      ps[0].tracks + rest
  }

  lemma {:induction false} ConcatAppend(ps: seq<Playlist>, p: Playlist)
    ensures Concat(ps + [p]) == Concat(ps) + p.tracks
  {
    if ps == [] {
      assert [p][1..] == [];
    } else {
      assert (ps + [p])[1..] == ps[1..] + [p];
      ConcatAppend(ps[1..], p);
    }
  }

  /** `getAllTracks`: pushes each playlist's tracks in turn. */
  method GetAllTracks(playlists: seq<Playlist>) returns (all: seq<Track>)
    ensures all == Concat(playlists)
  {
    all := [];
    for i := 0 to |playlists|
      invariant all == Concat(playlists[..i])
    {
      ConcatAppend(playlists[..i], playlists[i]);
      assert playlists[..i + 1] == playlists[..i] + [playlists[i]];
      all := all + playlists[i].tracks;
    }
    assert playlists[..|playlists|] == playlists;
  }

  /** Over the sample playlists the service sees the seven tracks t8 to t14, with distinct ids. */
  lemma SampleAllTracks()
    ensures Concat(SamplePlaylists) == SampleTracks[6..]
    ensures |Concat(SamplePlaylists)| == 7 && DistinctIds(Concat(SamplePlaylists))
  {
    PlaylistCountDisagrees();
    SampleIdsDistinct();
    assert Concat(SamplePlaylists) == SamplePlaylists[0].tracks + Concat([]);
    var ts := SampleTracks[6..];
    forall i, j | 0 <= i < j < |ts|
      ensures ts[i].id != ts[j].id
    {
      assert ts[i] == SampleTracks[6 + i] && ts[j] == SampleTracks[6 + j];
    }
  }

  // ---------------------------------------------------------------- reading the reply

  /** The characters stripped from each title of the fallback reading. */
  const QuoteChars: set<char> := {'"', '[', ']'}

  /** One piece of the fallback reading: trimmed, then without quotes and brackets. */
  function CleanTitle(piece: string): (r: string)
    ensures forall c :: c in r ==> c !in QuoteChars && c in piece
  {
    var t := Trim(piece);
    TrimKeepsCharacters(piece);
    RemoveAll(t, QuoteChars)
  }

  /** The fallback reading of a reply that is not a JSON array: one title per comma-separated piece. */
  function FallbackTitles(text: string): (r: seq<string>)
    ensures |r| == |Split(text, ',')| && r != []
    ensures forall k :: 0 <= k < |r| ==> r[k] == CleanTitle(Split(text, ',')[k])
    ensures forall k :: 0 <= k < |r| ==> ',' !in r[k] && forall c :: c in r[k] ==> c !in QuoteChars
  {
    var parts := Split(text, ',');
    seq(|parts|, k requires 0 <= k < |parts| => CleanTitle(parts[k]))
  }

  /** A title the fallback reading leaves alone: no comma, quote or bracket, and no white space at either end. */
  predicate PlainTitle(t: string) {
    && ',' !in t
    && (forall c :: c in t ==> c !in QuoteChars)
    && (t != [] ==> !IsJsWhiteSpace(t[0]) && !IsJsWhiteSpace(t[|t| - 1]))
  }

  lemma PlainTitleIsClean(t: string)
    requires PlainTitle(t)
    ensures CleanTitle(t) == t
  {
    assert Trim(t) == t by {
      TrimUnchanged(t);
    }
    assert RemoveAll(t, QuoteChars) == t by {
      RemoveAllAbsent(t, QuoteChars);
    }
    CleanFixedPoint(t);
  }

  lemma CleanFixedPoint(t: string)
    requires Trim(t) == t && RemoveAll(t, QuoteChars) == t
    ensures CleanTitle(t) == t
  {
  }

  /** Plain titles joined with commas are read back as exactly those titles. */
  lemma FallbackRoundTrip(titles: seq<string>)
    requires titles != []
    requires forall k :: 0 <= k < |titles| ==> PlainTitle(titles[k])
    ensures FallbackTitles(Join(titles, ',')) == titles
  {
    SplitJoin(titles, ',');
    var r := FallbackTitles(Join(titles, ','));
    assert |r| == |titles|;
    forall k | 0 <= k < |titles|
      ensures r[k] == titles[k]
    {
      PlainTitleIsClean(titles[k]);
    }
  }

  /** The titles the service works with: the parsed array when the reply was one, else the fallback reading. */
  function Titles(text: string, parsed: Option<seq<string>>): (r: seq<string>)
    ensures parsed.Some? ==> r == parsed.value
    ensures parsed.None? ==> r == FallbackTitles(text)
  {
    if parsed.Some? then parsed.value else FallbackTitles(text)
  }

  // ---------------------------------------------------------------- matching titles to tracks

  /** Either lower-cased title contains the other; so titles equal up to case match, and so does the empty title. */
  predicate TitleMatches(t: Track, title: string)
    ensures ToLower(title) == ToLower(t.title) ==> TitleMatches(t, title)
    ensures title == [] ==> TitleMatches(t, title)
  {
    IncludesSelf(ToLower(title));
    IncludesEmpty(ToLower(t.title));
    Includes(ToLower(t.title), ToLower(title)) || Includes(ToLower(title), ToLower(t.title))
  }

  predicate NoMatchBefore(ts: seq<Track>, title: string, i: int)
    requires 0 <= i <= |ts|
  {
    forall j :: 0 <= j < i ==> !TitleMatches(ts[j], title)
  }

  /** The first track that matches `title`. */
  function FirstMatch(ts: seq<Track>, title: string): (r: Option<Track>)
    ensures r.Some? ==> TitleMatches(r.value, title) && exists i :: 0 <= i < |ts| && ts[i] == r.value && NoMatchBefore(ts, title, i)
    ensures r.None? <==> forall i :: 0 <= i < |ts| ==> !TitleMatches(ts[i], title)
  {
    if ts == [] then None
    else if TitleMatches(ts[0], title) then Some(ts[0])
    else
      var r := FirstMatch(ts[1..], title);
      if r.Some? then
        var i :| 0 <= i < |ts| - 1 && ts[1..][i] == r.value && NoMatchBefore(ts[1..], title, i);
        assert ts[i + 1] == r.value && NoMatchBefore(ts, title, i + 1);
        r
      else r
  }

  /** An empty title (as from an empty piece of the fallback reading) matches the first track. */
  lemma EmptyTitleMatchesFirst(ts: seq<Track>)
    requires ts != []
    ensures FirstMatch(ts, "") == Some(ts[0])
  {
    IncludesEmpty(ToLower(ts[0].title));
  }

  /** A picked list: distinct ids, at most three, all from `all`. */
  predicate GoodPicks(all: seq<Track>, picked: seq<Track>) {
    && DistinctIds(picked)
    && |picked| <= MaxSuggestions
    && forall k :: 0 <= k < |picked| ==> picked[k] in all
  }

  /** A track whose id is not yet picked keeps the ids distinct when appended. */
  lemma AppendNewId(picked: seq<Track>, t: Track)
    requires DistinctIds(picked) && t.id !in Ids(picked)
    ensures DistinctIds(picked + [t])
  {
    forall i, j | 0 <= i < j < |picked| + 1
      ensures (picked + [t])[i].id != (picked + [t])[j].id
    {
      if j == |picked| {
        assert picked[i].id == Ids(picked)[i];
      }
    }
  }

  /**
   * One title of the match loop: the title's first match (the first track of `all` it matches) is
   * appended when no track with its id is picked yet. The list is left as it is only when no track matches or the first match's id is
   * already picked. Distinct ids stay distinct.
   */
  function MatchStep(all: seq<Track>, title: string, picked: seq<Track>): (r: seq<Track>)
    ensures picked <= r && |r| <= |picked| + 1
    ensures |r| == |picked| + 1 ==>
      && FirstMatch(all, title).Some? && r[|picked|] == FirstMatch(all, title).value
      && r[|picked|] in all && TitleMatches(r[|picked|], title) && r[|picked|].id !in Ids(picked)
    ensures FirstMatch(all, title).Some? && FirstMatch(all, title).value.id !in Ids(picked) ==>
      r == picked + [FirstMatch(all, title).value]
    ensures r == picked ==> forall t :: t in all && TitleMatches(t, title) ==> exists k :: 0 <= k < |picked| && picked[k].id == FirstMatch(all, title).value.id
    ensures DistinctIds(picked) ==> DistinctIds(r)
  {
    var m := FirstMatch(all, title);
    if m.Some? && m.value.id !in Ids(picked) then
      if DistinctIds(picked) then
        AppendNewId(picked, m.value);
        picked + [m.value]
      else picked + [m.value]
    else picked
  }

  /**
   * The match loop from `picked` on the remaining `titles`, stopping at three: it only appends,
   * appends only tracks of `all`, keeps ids distinct, and never grows a list past three.
   */
  function MatchFrom(all: seq<Track>, titles: seq<string>, picked: seq<Track>): (r: seq<Track>)
    ensures picked <= r
    ensures forall k :: |picked| <= k < |r| ==> r[k] in all
    ensures DistinctIds(picked) ==> DistinctIds(r)
    ensures |picked| <= MaxSuggestions ==> |r| <= MaxSuggestions
    decreases |titles|
  {
    if |picked| >= MaxSuggestions || titles == [] then picked
    else
      var next := MatchStep(all, titles[0], picked);
      var r := MatchFrom(all, titles[1..], next);
      assert forall k :: |picked| <= k < |next| ==> r[k] == next[k];
      r
  }

  /** The match loop keeps a good pick list good and only ever appends to it. */
  lemma MatchFromGood(all: seq<Track>, titles: seq<string>, picked: seq<Track>)
    requires GoodPicks(all, picked)
    ensures GoodPicks(all, MatchFrom(all, titles, picked))
    ensures picked <= MatchFrom(all, titles, picked)
  {
    var r := MatchFrom(all, titles, picked);
    forall k | 0 <= k < |r|
      ensures r[k] in all
    {
      if k < |picked| {
        assert r[k] == picked[k];
      }
    }
  }

  /** The first loop of `getTrackSuggestions`. */
  method MatchTitles(all: seq<Track>, titles: seq<string>) returns (picked: seq<Track>)
    ensures picked == MatchFrom(all, titles, [])
  {
    picked := [];
    var i := 0;
    while i < |titles|
      invariant 0 <= i <= |titles|
      invariant |picked| < MaxSuggestions
      invariant MatchFrom(all, titles[i..], picked) == MatchFrom(all, titles, [])
    {
      assert titles[i..][1..] == titles[i + 1..];
      assert MatchFrom(all, titles[i..], picked) == MatchFrom(all, titles[i + 1..], MatchStep(all, titles[i], picked));
      var m := FirstMatch(all, titles[i]);
      if m.Some? && m.value.id !in Ids(picked) {
        picked := picked + [m.value];
      }
      i := i + 1;
      if |picked| >= MaxSuggestions {
        assert MatchFrom(all, titles[i..], picked) == picked;
        break;
      }
    }
    if i == |titles| {
      assert titles[i..] == [];
    }
  }

  // ---------------------------------------------------------------- topping up

  /** The tracks of `all` whose id is not yet picked, in order. */
  function Unused(all: seq<Track>, picked: seq<Track>): (r: seq<Track>)
    ensures forall k :: 0 <= k < |r| ==> r[k] in all && r[k].id !in Ids(picked)
    ensures forall k :: 0 <= k < |all| && all[k].id !in Ids(picked) ==> all[k] in r
  {
    if all == [] then []
    else if all[0].id !in Ids(picked) then [all[0]] + Unused(all[1..], picked)
    else Unused(all[1..], picked)
  }

  /** The second loop: arbitrary unused tracks (the random choice) are added until three or none is left. */
  method TopUp(all: seq<Track>, matched: seq<Track>) returns (picked: seq<Track>)
    requires GoodPicks(all, matched)
    ensures GoodPicks(all, picked) && matched <= picked
    ensures |picked| == MaxSuggestions || Unused(all, picked) == []
  {
    picked := matched;
    while |picked| < MaxSuggestions
      invariant GoodPicks(all, picked) && matched <= picked
      decreases MaxSuggestions - |picked|
    {
      var remaining := Unused(all, picked);
      if remaining == [] {
        break;
      }
      var k :| 0 <= k < |remaining|;
      var t := remaining[k];
      AppendNewId(picked, t);
      picked := picked + [t];
    }
  }

  /** Removes the first occurrence of `x`. */
  function RemoveFirst(s: seq<string>, x: string): (r: seq<string>)
    requires x in s
    ensures |r| == |s| - 1
    ensures forall y :: y in s && y != x ==> y in r
  {
    if s[0] == x then s[1..] else [s[0]] + RemoveFirst(s[1..], x)
  }

  /** Tracks with distinct ids whose ids all occur in `ids` are no more than `ids`. */
  lemma {:induction false} CoveredNotLonger(ts: seq<Track>, ids: seq<string>)
    requires DistinctIds(ts)
    requires forall k :: 0 <= k < |ts| ==> ts[k].id in ids
    ensures |ts| <= |ids|
  {
    if ts != [] {
      var rest := RemoveFirst(ids, ts[0].id);
      forall k | 0 <= k < |ts| - 1
        ensures ts[1..][k].id in rest
      {
        assert ts[1..][k] == ts[k + 1];
      }
      CoveredNotLonger(ts[1..], rest);
    }
  }

  /** With at least three distinct ids available, nothing can be left unused before three are picked. */
  lemma {:induction false} TopUpReachesThree(all: seq<Track>, picked: seq<Track>)
    requires DistinctIds(all) && |all| >= MaxSuggestions
    requires |picked| < MaxSuggestions
    ensures Unused(all, picked) != []
  {
    if Unused(all, picked) == [] {
      assert forall k :: 0 <= k < |all| ==> all[k].id in Ids(picked);
      CoveredNotLonger(all, Ids(picked));
      assert false;
    }
  }

  /**
   * The selection over any track list with at least three distinct ids: the matches in order, then
   * arbitrary unused tracks, cut at three. It always ends with exactly three distinct tracks.
   */
  method SelectSuggestions(all: seq<Track>, titles: seq<string>) returns (picked: seq<Track>)
    requires DistinctIds(all) && |all| >= MaxSuggestions
    ensures |picked| == MaxSuggestions && DistinctIds(picked)
    ensures forall k :: 0 <= k < |picked| ==> picked[k] in all
    ensures MatchFrom(all, titles, []) <= picked
  {
    var matched := MatchTitles(all, titles);
    MatchFromGood(all, titles, []);
    picked := TopUp(all, matched);
    if |picked| < MaxSuggestions {
      TopUpReachesThree(all, picked);
    }
    assert Slice(picked, 0, 3) == picked;
    picked := Slice(picked, 0, 3);
  }

  // ---------------------------------------------------------------- getTrackSuggestions

  /** What the model request gave: the reply's text, or a failure. */
  datatype ModelReply = ReplyText(text: string) | RequestFailed

  /**
   * `getTrackSuggestions`. `hasApiKey` says whether the key is configured; `reply` is the model
   * request's outcome; `parsed` is what `JSON.parse` gave on the trimmed text when that was an
   * array of strings, and None otherwise.
   */
  method GetTrackSuggestions(hasApiKey: bool, reply: ModelReply, parsed: Option<seq<string>>)
    returns (r: Result<seq<Track>>)
    ensures !hasApiKey ==> r == Err(MissingKeyMessage)
    ensures hasApiKey && reply.RequestFailed? ==> r == Err(FailedMessage)
    ensures hasApiKey && reply.ReplyText? ==>
      && r.Ok? && |r.value| == MaxSuggestions && DistinctIds(r.value)
      && (forall k :: 0 <= k < |r.value| ==> r.value[k] in Concat(SamplePlaylists))
      && MatchFrom(Concat(SamplePlaylists), Titles(Trim(reply.text), parsed), []) <= r.value
  {
    var all := GetAllTracks(SamplePlaylists);
    if !hasApiKey {
      return Err(MissingKeyMessage);
    }
    if reply.RequestFailed? {
      return Err(FailedMessage);
    }
    var titles := if parsed.Some? then parsed.value else FallbackTitles(Trim(reply.text));
    SampleAllTracks();
    var picked := SelectSuggestions(all, titles);
    r := Ok(picked);
  }
}
