/**
 * The "Trending Now" grid: a row of topic tabs over a fixed list of audio and video cards. The
 * first tab shows every card; any other tab shows the cards of its topic. A click opens the
 * audio player or the video player for the card's id.
 */
module NewTrend {
  import opened Wrappers
  import opened Text
  import MiniPlayer
  import AudioTrackService
  import Tracks

  /** A card, without its image, duration and view count (display only). */
  datatype Card = Card(id: string, category: string, title: string, author: string, kind: string)

  const Topics: seq<string> := ["All Topics", "Tech History", "Web Development", "AI/ML", "React", "JavaScript", "CSS"]

  const AudioInternet := Card("1", "Tech History", "Introduction to Internet", "DPK", "audio")
  const AudioWeb := Card("2", "Web Development", "Web Development Essentials", "AJ", "audio")
  const AudioMl := Card("3", "AI/ML", "Machine Learning Basics", "Sarah Chen", "audio")
  const VideoReact := Card("1", "React", "React Tutorial for Beginners", "Traversy Media", "video")
  const VideoJs := Card("2", "JavaScript", "JavaScript Fundamentals", "freeCodeCamp", "video")
  const VideoCss := Card("3", "CSS", "CSS Grid Tutorial", "Kevin Powell", "video")

  /** Three audio cards then three video cards; ids repeat across the two kinds. */
  const TrendingCards: seq<Card> := [AudioInternet, AudioWeb, AudioMl, VideoReact, VideoJs, VideoCss]

  /** `cards.filter(card => card.category === category)`. */
  function KeepCategory(cards: seq<Card>, category: string): (r: seq<Card>)
    ensures |r| <= |cards|
    ensures forall c :: c in r <==> c in cards && c.category == category
  {
    if cards == [] then []
    else (if cards[0].category == category then [cards[0]] else []) + KeepCategory(cards[1..], category)
  }

  /** Filtering works piecewise, so the cards a tab keeps stay in their original order. */
  lemma {:induction false} KeepCategoryAppend(a: seq<Card>, b: seq<Card>, category: string)
    ensures KeepCategory(a + b, category) == KeepCategory(a, category) + KeepCategory(b, category)
  {
    if a == [] {
      assert a + b == b;
    } else {
      assert (a + b)[1..] == a[1..] + b;
      KeepCategoryAppend(a[1..], b, category);
    }
  }

  /**
   * The cards tab `tab` shows: all of them for tab 0, else those whose category is that tab's
   * topic. A tab index past the last topic compares against no topic and matches nothing.
   */
  function FilteredCards(tab: nat): (r: seq<Card>)
    ensures tab == 0 ==> r == TrendingCards
    ensures 0 < tab < |Topics| ==> forall c :: c in r <==> c in TrendingCards && c.category == Topics[tab]
    ensures tab >= |Topics| ==> r == []
  {
    if tab == 0 then TrendingCards
    else if tab < |Topics| then KeepCategory(TrendingCards, Topics[tab])
    else []
  }

  /** When exactly one card has the category, filtering keeps just that card. */
  lemma {:induction false} KeepOnlyMatch(cards: seq<Card>, category: string, k: nat)
    requires k < |cards| && cards[k].category == category
    requires forall i :: 0 <= i < |cards| && i != k ==> cards[i].category != category
    ensures KeepCategory(cards, category) == [cards[k]]
  {
    if k == 0 {
      KeepCategoryNone(cards[1..], category);
    } else {
      KeepOnlyMatch(cards[1..], category, k - 1);
    }
  }

  /** With no card of the category, nothing is kept. */
  lemma {:induction false} KeepCategoryNone(cards: seq<Card>, category: string)
    requires forall i :: 0 <= i < |cards| ==> cards[i].category != category
    ensures KeepCategory(cards, category) == []
  {
    if cards != [] {
      KeepCategoryNone(cards[1..], category);
    }
  }

  /** Each topic tab after the first shows exactly the one card of its topic, the cards being in topic order. */
  lemma EachTopicHasOneCard(tab: nat)
    requires 0 < tab < |Topics|
    ensures FilteredCards(tab) == [TrendingCards[tab - 1]]
  {
    forall i | 0 <= i < |TrendingCards|
      ensures TrendingCards[i].category == Topics[i + 1]
    {
    }
    forall i | 0 <= i < |TrendingCards| && i != tab - 1
      ensures TrendingCards[i].category != Topics[tab]
    {
      assert Topics[i + 1] != Topics[tab];
    }
    KeepOnlyMatch(TrendingCards, Topics[tab], tab - 1);
  }

  /** `card.type === "audio" ? "/audio-player/<id>" : "/video-player/<id>"`. */
  function Route(card: Card): (r: string)
    ensures card.kind == "audio" ==> r == MiniPlayer.FullPlayerRoute(card.id)
    ensures card.kind != "audio" ==> r == VideoRoutePrefix + card.id
  {
    if card.kind == "audio" then MiniPlayer.FullPlayerRoutePrefix + card.id else VideoRoutePrefix + card.id
  }

  const VideoRoutePrefix := "/video-player/"

  /** The id the video page reads back from its route. */
  function VideoRouteId(route: string): (r: Option<string>)
    ensures r.Some? ==> route == VideoRoutePrefix + r.value
  {
    if |route| >= |VideoRoutePrefix| && route[..|VideoRoutePrefix|] == VideoRoutePrefix
    then Some(route[|VideoRoutePrefix|..])
    else None
  }

  /**
   * A click reaches exactly one player and gives it the card's id back: audio cards the audio
   * player, every other card the video player.
   */
  lemma RouteRoundTrip(card: Card)
    ensures card.kind == "audio" ==> MiniPlayer.RouteId(Route(card)) == Some(card.id) && VideoRouteId(Route(card)).None?
    ensures card.kind != "audio" ==> VideoRouteId(Route(card)) == Some(card.id) && MiniPlayer.RouteId(Route(card)).None?
  {
    var r := Route(card);
    if card.kind == "audio" {
      MiniPlayer.RouteRoundTrip(card.id);
      assert r[1] == 'a' != VideoRoutePrefix[1];
    } else {
      assert r[..|VideoRoutePrefix|] == VideoRoutePrefix;
      assert r[|VideoRoutePrefix|..] == card.id;
      assert r[1] == 'v' != MiniPlayer.FullPlayerRoutePrefix[1];
    }
  }

  /** The audio cards' ids are catalogue ids, so each click opens a track the full player can load. */
  lemma AudioCardsOpenCatalogueTracks()
    ensures forall c :: c in TrendingCards && c.kind == "audio" ==>
      MiniPlayer.RouteId(Route(c)) == Some(c.id) && AudioTrackService.GetTrackById(c.id).Some?
  {
    AudioTrackService.CatalogueFacts();
    var ids := Tracks.Ids(AudioTrackService.Catalogue);
    forall c | c in TrendingCards && c.kind == "audio"
      ensures MiniPlayer.RouteId(Route(c)) == Some(c.id) && AudioTrackService.GetTrackById(c.id).Some?
    {
      RouteRoundTrip(c);
      assert c.id == ids[0] || c.id == ids[1] || c.id == ids[2];
      assert AudioTrackService.Catalogue[0].id == ids[0];
      assert AudioTrackService.Catalogue[1].id == ids[1];
      assert AudioTrackService.Catalogue[2].id == ids[2];
    }
  }

  /** `type.charAt(0).toUpperCase() + type.slice(1)`; the empty type gives the empty label. */
  function TypeLabel(kind: string): (r: string)
    ensures |r| == |kind|
    ensures kind != [] ==> r[0] == UpperChar(kind[0]) && r[1..] == kind[1..]
  {
    if kind == [] then [] else [UpperChar(kind[0])] + kind[1..]
  }

  /** The labels the two kinds of card show, and lower-casing a label gives the kind back. */
  lemma TypeLabels()
    ensures TypeLabel("audio") == "Audio" && TypeLabel("video") == "Video"
    ensures ToLower(TypeLabel("audio")) == "audio" && ToLower(TypeLabel("video")) == "video"
  {
  }
}
