/**
 * The video page: resolves the route id against a fixed list of videos, shows a loading screen,
 * an error screen or the embedded YouTube player, and offers an "open in YouTube" link.
 */
module VideoPlayer {
  import opened Wrappers

  /** A video, without its description, duration, views and date (display only). */
  datatype Video = Video(id: string, title: string, author: string, youtubeId: string, category: string)

  const VideoReact := Video("1", "React Tutorial for Beginners", "Traversy Media", "Ke90Tje7VS0", "React")
  const VideoJs := Video("2", "JavaScript Fundamentals", "freeCodeCamp", "PkZNo7MFNFg", "JavaScript")
  const VideoCss := Video("3", "CSS Grid Tutorial", "Kevin Powell", "0-DYpTmF7Dk", "CSS")

  const MockVideos: seq<Video> := [VideoReact, VideoJs, VideoCss]

  const NoVideoIdMessage := "No video ID provided"
  const VideoNotFoundMessage := "Video not found"

  /** `mockVideos.find(v => v.id === id)`: the first video with that id, if any. */
  function FindVideo(videos: seq<Video>, id: string): (r: Option<Video>)
    ensures r.Some? ==> r.value in videos && r.value.id == id
    ensures r.None? <==> forall i :: 0 <= i < |videos| ==> videos[i].id != id
    ensures r.Some? ==> exists k :: 0 <= k < |videos| && videos[k] == r.value && forall i :: 0 <= i < k ==> videos[i].id != id
  {
    if videos == [] then None
    else if videos[0].id == id then Some(videos[0])
    else
      var rest := FindVideo(videos[1..], id);
      assert rest.Some? ==> exists k :: 0 <= k < |videos| - 1 && videos[1..][k] == rest.value && forall i :: 0 <= i < k ==> videos[1..][i].id != id;
      if rest.Some? then
        var k :| 0 <= k < |videos| - 1 && videos[1..][k] == rest.value && forall i :: 0 <= i < k ==> videos[1..][i].id != id;
        assert videos[k + 1] == rest.value && forall i :: 0 <= i < k + 1 ==> videos[i].id != id;
        rest
      else rest
  }

  /** Exactly the ids "1", "2" and "3" resolve, each to its own video. */
  lemma KnownVideos(id: string)
    ensures FindVideo(MockVideos, id) == if id == "1" then Some(VideoReact)
                                        else if id == "2" then Some(VideoJs)
                                        else if id == "3" then Some(VideoCss)
                                        else None
  {
    var rest := [VideoJs, VideoCss];
    assert MockVideos[1..] == rest;
    assert rest[1..] == [VideoCss];
    assert [VideoCss][1..] == [];
    if id != "1" && id != "2" && id != "3" {
      assert MockVideos[0].id == "1" && MockVideos[1].id == "2" && MockVideos[2].id == "3";
      assert forall i :: 0 <= i < |MockVideos| ==> MockVideos[i].id != id;
      assert FindVideo(MockVideos, id).None?;
    } else if id == "1" {
      assert MockVideos[0] == VideoReact;
    } else if id == "2" {
      assert MockVideos[0].id != id;
      assert FindVideo(rest, id) == Some(VideoJs);
    } else {
      assert MockVideos[0].id != id && rest[0].id != id;
      assert FindVideo([VideoCss], id) == Some(VideoCss);
    }
  }

  const EmbedPrefix := "https://www.youtube.com/embed/"
  const EmbedSuffix := "?autoplay=1&rel=0"
  const WatchPrefix := "https://www.youtube.com/watch?v="

  /** The player frame's address: autoplay on, related videos off. */
  function EmbedUrl(youtubeId: string): (r: string)
    ensures |r| == |EmbedPrefix| + |youtubeId| + |EmbedSuffix|
    ensures r[..|EmbedPrefix|] == EmbedPrefix
    ensures r[|EmbedPrefix|..|EmbedPrefix| + |youtubeId|] == youtubeId
    ensures r[|EmbedPrefix| + |youtubeId|..] == EmbedSuffix
  {
    EmbedPrefix + youtubeId + EmbedSuffix
  }

  /** The address "open in YouTube" opens. */
  function WatchUrl(youtubeId: string): (r: string)
    ensures |r| == |WatchPrefix| + |youtubeId|
    ensures r[..|WatchPrefix|] == WatchPrefix && r[|WatchPrefix|..] == youtubeId
  {
    WatchPrefix + youtubeId
  }

  /** Different videos get different frames and different links: each address names one video. */
  lemma UrlsNameOneVideo(a: string, b: string)
    ensures EmbedUrl(a) == EmbedUrl(b) ==> a == b
    ensures WatchUrl(a) == WatchUrl(b) ==> a == b
    ensures EmbedUrl(a) != WatchUrl(b)
  {
    var e, w := EmbedUrl(a), WatchUrl(b);
    assert e[24] == e[..|EmbedPrefix|][24] == 'e';
    assert w[24] == w[..|WatchPrefix|][24] == 'w';
  }

  /** What the page shows, checked in this order. */
  datatype Screen = LoadingScreen | ErrorScreen(message: string) | PlayerScreen(video: Video, frame: string)

  function ScreenFor(loading: bool, error: Option<string>, video: Option<Video>): (r: Screen)
    ensures loading ==> r == LoadingScreen
    ensures !loading && error.Some? ==> r == ErrorScreen(error.value)
    ensures !loading && error.None? && video.None? ==> r == ErrorScreen(VideoNotFoundMessage)
    ensures r.PlayerScreen? <==> !loading && error.None? && video.Some?
    ensures r.PlayerScreen? ==> r.video == video.value && r.frame == EmbedUrl(video.value.youtubeId)
  {
    if loading then LoadingScreen
    else if error.Some? then ErrorScreen(error.value)
    else if video.None? then ErrorScreen(VideoNotFoundMessage)
    else PlayerScreen(video.value, EmbedUrl(video.value.youtubeId))
  }

  class VideoPlayerPage {
    var video: Option<Video>
    var loading: bool
    var error: Option<string>

    constructor ()
      ensures video == None && loading && error == None
    {
      video := None;
      loading := true;
      error := None;
    }

    function Shown(): Screen
      reads this
    {
      ScreenFor(loading, error, video)
    }

    /**
     * `loadVideo` for route id `id` (the empty string when absent). A miss keeps whatever video
     * an earlier id loaded; only the error decides that it is not shown.
     */
    method LoadVideo(id: string)
      modifies this
      ensures !loading
      ensures id == "" ==> error == Some(NoVideoIdMessage) && video == old(video)
      ensures id != "" && FindVideo(MockVideos, id).None? ==> error == Some(VideoNotFoundMessage) && video == old(video)
      ensures id != "" && FindVideo(MockVideos, id).Some? ==> error == None && video == FindVideo(MockVideos, id)
      ensures Shown().PlayerScreen? <==> id != "" && FindVideo(MockVideos, id).Some?
    {
      if id == "" {
        error := Some(NoVideoIdMessage);
        loading := false;
        return;
      }
      loading := true;
      error := None;
      var found := FindVideo(MockVideos, id);
      if found.None? {
        error := Some(VideoNotFoundMessage);
        loading := false;
        return;
      }
      video := found;
      loading := false;
    }

    /** "Open in YouTube": the watch link of the loaded video, and nothing without one. */
    method OpenInYouTube() returns (link: Option<string>)
      ensures video.None? ==> link.None?
      ensures video.Some? ==> link == Some(WatchUrl(video.value.youtubeId))
    {
      if video.Some? {
        link := Some(WatchPrefix + video.value.youtubeId);
      } else {
        link := None;
      }
    }
  }
}
