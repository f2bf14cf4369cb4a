/**
 * The full player's track service: a fixed catalogue of four tracks, lookup by id, the whole
 * list, and the audio URL check (a scheme test followed by a HEAD request whose outcome is an
 * input here).
 */
module AudioTrackService {
  import opened Wrappers
  import opened Tracks
  import opened Text

  /** The service's catalogue (display-only fields such as description and thumbnail omitted). */
  const C1 := Track("1", "इंटरनेट का जादू - कैसे काम करता है हमारा डिजिटल संसार", "Digital Education Hindi", "Technology",
      "https://res.cloudinary.com/dgvoocfla/video/upload/v1758557619/%E0%A4%87%E0%A4%82%E0%A4%9F%E0%A4%B0%E0%A4%A8%E0%A5%87%E0%A4%9F_%E0%A4%95%E0%A4%BE_%E0%A4%9C%E0%A4%BE%E0%A4%A6%E0%A5%82__%E0%A4%95%E0%A5%88%E0%A4%B8%E0%A5%87_%E0%A4%95%E0%A4%BE%E0%A4%AE_%E0%A4%95%E0%A4%B0%E0%A4%A4%E0%A4%BE_%E0%A4%B9%E0%A5%88_%E0%A4%B9%E0%A4%AE%E0%A4%BE%E0%A4%B0%E0%A4%BE_%E0%A4%A1%E0%A4%BF%E0%A4%9C%E0%A4%BF%E0%A4%9F%E0%A4%B2_%E0%A4%B8%E0%A4%82%E0%A4%B8%E0%A4%BE%E0%A4%B0_-_ARPANET__kajgmt.mp4")
  const C2 := Track("2", "CORS क्या है? क्यों जरूरी है? - वेब सिक्यूरिटी", "Web Security Hindi", "Web Security",
      "https://res.cloudinary.com/dgvoocfla/video/upload/v1758559504/CORS_%E0%A4%95%E0%A5%8D%E0%A4%AF%E0%A4%BE_%E0%A4%B9%E0%A5%88__%E0%A4%95%E0%A5%8D%E0%A4%AF%E0%A5%8B%E0%A4%82_%E0%A5%9B%E0%A4%B0%E0%A5%82%E0%A4%B0%E0%A5%80_%E0%A4%B9%E0%A5%88__%E0%A5%9B%E0%A5%80%E0%A4%B0%E0%A5%8B_%E0%A4%B8%E0%A5%87_%E0%A4%8F%E0%A4%A1%E0%A4%B5%E0%A4%BE%E0%A4%82%E0%A4%B8_%E0%A4%A4%E0%A4%95__%E0%A4%B5%E0%A5%87%E0%A4%AC_%E0%A4%B8%E0%A4%BF%E0%A4%95%E0%A5%8D%E0%A4%AF%E0%A5%8B%E0%A4%B0%E0%A4%BF%E0%A4%9F%E0%A5%80_vqfxlu.mp4")
  const C3 := Track("3", "Machine Learning Basics", "Sarah Chen", "AI/ML",
      "https://www.learningcontainer.com/wp-content/uploads/2020/02/Kalimba.mp3")
  const C4 := Track("4", "Vector Databases Explained", "Sarah Chen", "AI/ML",
      "https://res.cloudinary.com/dgvoocfla/video/upload/v1758732667/%E0%A4%B5%E0%A5%87%E0%A4%95%E0%A5%8D%E0%A4%9F%E0%A4%B0_%E0%A4%A1%E0%A5%87%E0%A4%9F%E0%A4%BE%E0%A4%AC%E0%A5%87%E0%A4%B8_%E0%A4%94%E0%A4%B0_RAG__AI_%E0%A4%B5_LLM_%E0%A4%95%E0%A5%8B_%E0%A4%AC%E0%A4%BE%E0%A4%B9%E0%A4%B0%E0%A5%80_%E0%A4%9C%E0%A5%8D%E0%A4%9E%E0%A4%BE%E0%A4%A8_%E0%A4%B8%E0%A5%87_%E0%A4%9C%E0%A5%8B%E0%A4%A1%E0%A4%BC%E0%A4%A8%E0%A5%87_%E0%A4%B5%E0%A4%BE%E0%A4%B2%E0%A5%80_%E0%A4%97_uhpz35.mp4")

  const Catalogue: seq<Track> := [C1, C2, C3, C4]

  /** `getTrackById`: the first catalogue track with that id, if any. */
  function GetTrackById(id: string): (r: Option<Track>)
    ensures r.Some? ==> r.value in Catalogue && r.value.id == id
    ensures r.None? <==> forall i :: 0 <= i < |Catalogue| ==> Catalogue[i].id != id
  {
    FindById(Catalogue, id)
  }

  /** `getAllTracks`: the catalogue as it is. */
  function GetAllTracks(): (r: seq<Track>)
    ensures r == Catalogue
  {
    Catalogue
  }

  /** The four catalogue ids "1" to "4" are distinct, and every track has a URL. */
  lemma CatalogueFacts()
    ensures |Catalogue| == 4 && Ids(Catalogue) == ["1", "2", "3", "4"]
    ensures DistinctIds(Catalogue)
    ensures forall i :: 0 <= i < |Catalogue| ==> HasAudio(Catalogue[i])
  {
    assert C1.id == "1" && C2.id == "2" && C3.id == "3" && C4.id == "4";
    assert Ids(Catalogue) == [C1.id, C2.id, C3.id, C4.id];
    assert HasAudio(C1) && HasAudio(C2) && HasAudio(C3) && HasAudio(C4);
  }

  /** Every track `getAllTracks` lists is what `getTrackById` returns for its id. */
  lemma LookupFindsEveryListedTrack(t: Track)
    requires t in GetAllTracks()
    ensures GetTrackById(t.id) == Some(t)
  {
    CatalogueFacts();
    var i :| 0 <= i < |Catalogue| && Catalogue[i] == t;
    FindListed(Catalogue, i);
  }

  /** An id outside "1".."4" is not in the catalogue. */
  lemma UnknownIdNotFound(id: string)
    requires id !in ["1", "2", "3", "4"]
    ensures GetTrackById(id) == None
  {
    CatalogueFacts();
    assert forall i :: 0 <= i < |Catalogue| ==> Catalogue[i].id == Ids(Catalogue)[i];
  }

  // ---------------------------------------------------------------- URL validation

  /**
   * `/^https?:\/\/.+/.test(url)`: "http://" or "https://" followed by at least one character that
   * is not a line terminator (`.` matches none of those).
   */
  predicate HasHttpScheme(url: string)
    ensures HasHttpScheme(url) ==> |url| > 7 && url[..4] == "http"
    ensures url == "http://" || url == "https://" ==> !HasHttpScheme(url)
  {
    assert url == "https://" ==> url[..7][4] == 's';
    || (|url| > 7 && url[..7] == "http://" && !IsLineTerminator(url[7]))
    || (|url| > 8 && url[..8] == "https://" && !IsLineTerminator(url[8]))
  }

  /** How the HEAD request ended: a reply with a status, a network failure, or the 3 s abort. */
  datatype HeadOutcome = Reply(status: int) | NetworkFailure | Aborted | OtherFailure

  /** `response.ok || response.status === 206`. */
  predicate Accepted(status: int) {
    (200 <= status <= 299) || status == 206
  }

  /**
   * `validateAudioUrl`: false for a URL without an http(s) scheme; otherwise the reply's verdict,
   * and true whenever the request did not produce a reply.
   */
  function ValidateAudioUrl(url: string, head: HeadOutcome): (valid: bool)
    ensures !HasHttpScheme(url) ==> !valid
    ensures HasHttpScheme(url) && head.Reply? ==> (valid <==> 200 <= head.status <= 299)
    ensures HasHttpScheme(url) && !head.Reply? ==> valid
  {
    if !HasHttpScheme(url) then false
    else match head
      case Reply(status) => Accepted(status)
      case NetworkFailure => true
      case Aborted => true
      case OtherFailure => true
  }

  /** The only ways to get false: a bad scheme, or a reply outside 2xx. */
  lemma FalseOnlyForBadSchemeOrStatus(url: string, head: HeadOutcome)
    requires !ValidateAudioUrl(url, head)
    ensures !HasHttpScheme(url) || (head.Reply? && !(200 <= head.status <= 299))
  {
  }

  /** Some concrete verdicts: no scheme, an ftp URL, a bare scheme, and a scheme followed by a newline. */
  lemma SchemeExamples()
    ensures !HasHttpScheme("www.example.com/a.mp3")
    ensures !HasHttpScheme("ftp://example.com/a.mp3")
    ensures !HasHttpScheme("https://")
    ensures !HasHttpScheme("http://\n")
    ensures HasHttpScheme("http://x")
  {
    assert "ftp://example.com/a.mp3"[..7][0] == 'f';
    assert "www.example.com/a.mp3"[..7][0] == 'w';
    assert "ftp://example.com/a.mp3"[..8][0] == 'f';
    assert "www.example.com/a.mp3"[..8][0] == 'w';
    assert "https://"[..7][4] == 's';
  }
}
