/** The pure part of the iTunes catalog client: what each query returns, given the HTTP response it received.
    Responses are inputs (`None` stands for a request that failed or a body without results). */
module ITunesApi {
  import opened Wrappers
  import opened Seqs
  import opened Text
  import opened Rotation
  import opened JsNumber

  /** The fields of an iTunes song result that the game reads or that the chart conversion fills in.
      A missing `previewUrl` is the empty string; a `trackId` that `parseInt` could not read is NaN, written `None`. */
  datatype Song = Song(
    wrapperType: string,
    kind: string,
    trackId: Option<int>,
    artistName: string,
    collectionName: string,
    trackName: string,
    previewUrl: string,
    discCount: int,
    discNumber: int,
    trackCount: int,
    trackNumber: int,
    trackTimeMillis: int,
    isStreamable: bool)

  datatype Artist = Artist(artistId: int, artistName: string)

  /** Artist search: a blank query returns no artists without a request; otherwise the results, or none when the
      request failed. */
  function SearchArtists(query: string, response: Option<seq<Artist>>): (r: seq<Artist>)
    ensures AllSpace(query) ==> r == []
    ensures !AllSpace(query) && response.Some? ==> r == response.value
    ensures response.None? ==> r == []
  {
    BlankIffAllSpace(query);
    if Trim(query) == "" then [] else response.GetOr([])
  }

  /** The lookup results that are songs (the artist record and other media are dropped). */
  predicate IsSong(s: Song)
  {
    s.wrapperType == "track" && s.kind == "song"
  }

  /** A playable song of the popular-artists fallback: a song that has a preview. */
  predicate IsFallbackSong(s: Song)
  {
    IsSong(s) && s.previewUrl != ""
  }

  predicate HasPreview(s: Song)
  {
    s.previewUrl != ""
  }

  /** Songs of an artist: the song results in their order, or nothing when the request failed. */
  function ArtistSongs(response: Option<seq<Song>>): (r: seq<Song>)
    ensures forall i :: 0 <= i < |r| ==> IsSong(r[i])
    ensures response.None? ==> r == []
    ensures response.Some? ==> forall s :: s in r <==> s in response.value && IsSong(s)
    ensures response.Some? ==>
              forall s :: multiset(r)[s] == if IsSong(s) then multiset(response.value)[s] else 0
  {
    match response
    case None => []
    case Some(results) =>
      forall s ensures s in Filter(results, IsSong) <==> s in results && IsSong(s)
        ensures multiset(Filter(results, IsSong))[s] == if IsSong(s) then multiset(results)[s] else 0
      {
        FilterMembership(results, IsSong, s);
        FilterMultiplicity(results, IsSong, s);
      }
      Filter(results, IsSong)
  }

  /** The names queried by the popular-artists fallback, in request order. */
  const PopularArtists: seq<string> := [
    "Drake", "Taylor Swift", "The Weeknd", "Billie Eilish",
    "Ariana Grande", "Post Malone", "Ed Sheeran", "Bad Bunny",
    "Olivia Rodrigo", "Dua Lipa"]

  /** The playable songs of one popular artist's search response (nothing when the request failed). */
  function FallbackPart(response: Option<seq<Song>>): (r: seq<Song>)
    ensures forall i :: 0 <= i < |r| ==> IsFallbackSong(r[i])
    ensures forall s :: s in r <==> response.Some? && s in response.value && IsFallbackSong(s)
  {
    match response
    case None => []
    case Some(results) =>
      forall s ensures s in Filter(results, IsFallbackSong) <==> s in results && IsFallbackSong(s) {
        FilterMembership(results, IsFallbackSong, s);
      }
      Filter(results, IsFallbackSong)
  }

  /** `results.flat()` over all popular artists, in artist order. */
  function FallbackSongs(responses: seq<Option<seq<Song>>>): (r: seq<Song>)
    ensures forall i :: 0 <= i < |r| ==> IsFallbackSong(r[i])
  {
    if responses == [] then []
    else
      var r := FallbackPart(responses[0]) + FallbackSongs(responses[1..]);
      assert forall i :: 0 <= i < |FallbackPart(responses[0])| ==> r[i] == FallbackPart(responses[0])[i];
      r
  }

  /** The flattening keeps every playable song of every response that arrived, and nothing else. */
  lemma {:induction false} FallbackSongsMembership(responses: seq<Option<seq<Song>>>, s: Song)
    ensures s in FallbackSongs(responses) <==>
              IsFallbackSong(s) && exists k :: 0 <= k < |responses| && responses[k].Some? && s in responses[k].value
  {
    if responses != [] {
      var tail := responses[1..];
      FallbackSongsMembership(tail, s);
      if exists k :: 0 <= k < |responses| && responses[k].Some? && s in responses[k].value {
        var k :| 0 <= k < |responses| && responses[k].Some? && s in responses[k].value;
        if k > 0 {
          assert tail[k - 1] == responses[k];
        }
      }
      if exists k :: 0 <= k < |tail| && tail[k].Some? && s in tail[k].value {
        var k :| 0 <= k < |tail| && tail[k].Some? && s in tail[k].value;
        assert responses[k + 1] == tail[k];
      }
    }
  }

  /** `[a[i], a[j]] = [a[j], a[i]]` on a sequence. */
  function Swap<T>(s: seq<T>, i: nat, j: nat): (r: seq<T>)
    requires i < |s| && j < |s|
    ensures |r| == |s|
  {
    s[i := s[j]][j := s[i]]
  }

  /** A swap exchanges the two positions, keeps the others, and so keeps the elements. */
  lemma SwapPermutes<T>(s: seq<T>, i: nat, j: nat)
    requires i < |s| && j < |s|
    ensures Swap(s, i, j)[i] == s[j] && Swap(s, i, j)[j] == s[i]
    ensures forall k :: 0 <= k < |s| && k != i && k != j ==> Swap(s, i, j)[k] == s[k]
    ensures multiset(Swap(s, i, j)) == multiset(s)
  {
  }

  /** The Fisher-Yates passes for positions i, i-1, ..., 1: pass i swaps position i with the position picked by
      the (|s|-1-i)-th random value among 0..i. */
  function FisherYatesFrom<T>(s: seq<T>, i: int, rnd: nat -> real): seq<T>
    requires i < |s|
    requires forall k :: IsRandom(rnd(k))
    decreases i
  {
    if i <= 0 then s
    else FisherYatesFrom(Swap(s, i, Pick(rnd(|s| - 1 - i), i + 1)), i - 1, rnd)
  }

  /** The whole shuffle of s. */
  function FisherYates<T>(s: seq<T>, rnd: nat -> real): seq<T>
    requires forall k :: IsRandom(rnd(k))
  {
    FisherYatesFrom(s, |s| - 1, rnd)
  }

  /** The shuffle only reorders: the result is a permutation of the input. */
  lemma {:induction false} FisherYatesPermutes<T>(s: seq<T>, i: int, rnd: nat -> real)
    requires i < |s|
    requires forall k :: IsRandom(rnd(k))
    ensures |FisherYatesFrom(s, i, rnd)| == |s|
    ensures multiset(FisherYatesFrom(s, i, rnd)) == multiset(s)
    decreases i
  {
    if i > 0 {
      var j := Pick(rnd(|s| - 1 - i), i + 1);
      SwapPermutes(s, i, j);
      FisherYatesPermutes(Swap(s, i, j), i - 1, rnd);
    }
  }

  /** The first of the passes from i is the swap of position i with the picked position. */
  lemma FisherYatesPass<T>(s: seq<T>, i: nat, rnd: nat -> real)
    requires 0 < i < |s|
    requires forall k :: IsRandom(rnd(k))
    ensures FisherYatesFrom(s, i, rnd) == FisherYatesFrom(Swap(s, i, Pick(rnd(|s| - 1 - i), i + 1)), i - 1, rnd)
  {
  }

  /** `[a[i], a[j]] = [a[j], a[i]]` in place. */
  method SwapInPlace<T>(a: array<T>, i: nat, j: nat)
    requires i < a.Length && j < a.Length
    modifies a
    ensures a[..] == Swap(old(a[..]), i, j)
  {
    a[i], a[j] := a[j], a[i];
  }

  /** The in-place shuffle loop of the popular-artists fallback. */
  method Shuffle<T>(a: array<T>, rnd: nat -> real)
    requires forall k :: IsRandom(rnd(k))
    modifies a
    ensures a[..] == FisherYates(old(a[..]), rnd)
    ensures multiset(a[..]) == multiset(old(a[..]))
  {
    ghost var s0 := a[..];
    ghost var target := FisherYates(s0, rnd);
    var i := a.Length - 1;
    while i > 0
      invariant -1 <= i < a.Length
      invariant FisherYatesFrom(a[..], i, rnd) == target
      decreases i
    {
      var j := Pick(rnd(a.Length - 1 - i), i + 1);
      ghost var before := a[..];
      SwapInPlace(a, i, j);
      FisherYatesPass(before, i, rnd);
      i := i - 1;
    }
    assert a[..] == target;
    FisherYatesPermutes(s0, a.Length - 1, rnd);
  }

  /** The popular-artists fallback: the playable songs of every artist's search, shuffled, at most 50. */
  method GetPopularArtistsSongs(responses: seq<Option<seq<Song>>>, rnd: nat -> real) returns (songs: seq<Song>)
    requires |responses| == |PopularArtists|
    requires forall k :: IsRandom(rnd(k))
    ensures |songs| <= 50
    ensures forall i :: 0 <= i < |songs| ==> IsFallbackSong(songs[i])
    ensures multiset(songs) <= multiset(FallbackSongs(responses))
    ensures |FallbackSongs(responses)| >= 50 ==> |songs| == 50
    ensures |FallbackSongs(responses)| < 50 ==> multiset(songs) == multiset(FallbackSongs(responses))
  {
    var all := FallbackSongs(responses);
    var a := new Song[|all|](i requires 0 <= i < |all| => all[i]);
    assert a[..] == all;
    Shuffle(a, rnd);
    var n := if a.Length < 50 then a.Length else 50;
    songs := a[..n];
    assert a[..] == songs + a[n..];
    assert multiset(a[..]) == multiset(songs) + multiset(a[n..]);
    forall i | 0 <= i < |songs| ensures IsFallbackSong(songs[i]) {
      assert songs[i] in multiset(all);
    }
  }

  /** The attributes of one `link` object of a chart-feed entry; `None` for an absent attribute. */
  datatype LinkAttrs = LinkAttrs(rel: Option<string>, mime: Option<string>, href: Option<string>)

  /** A link is `None` when it is null or has no attributes. */
  type Link = Option<LinkAttrs>

  /** The `link` field of a feed entry: absent, a single link object, or an array of links. */
  datatype LinkField = NoLink | OneLink(link: Link) | LinkArray(links: seq<Link>)

  /** The parts of a chart-feed entry that the conversion reads. Labels are `None` when absent. */
  datatype FeedEntry = FeedEntry(
    link: LinkField,
    previewHref: Option<string>,   // im:preview.link.attributes.href
    name: Option<string>,          // im:name.label
    artist: Option<string>,        // im:artist.label
    collection: Option<string>,    // im:collection.im:name.label
    id: Option<string>)            // id.attributes.im:id

  /** A link with rel "enclosure" and a type that starts with "audio". */
  predicate IsAudioEnclosure(l: Link)
  {
    l.Some? && l.value.rel == Some("enclosure") && l.value.mime.Some? && StartsWith(l.value.mime.value, "audio")
  }

  /** `previewLink?.attributes?.href || ''`. */
  function Href(l: Link): string
  {
    if l.Some? && l.value.href.Some? then l.value.href.value else ""
  }

  /** `links.find(isAudioEnclosure)`, as the position of the first audio enclosure. */
  function FindAudioEnclosure(links: seq<Link>): (r: Option<nat>)
    ensures r.Some? ==> r.value < |links| && IsAudioEnclosure(links[r.value])
                        && forall k :: 0 <= k < r.value ==> !IsAudioEnclosure(links[k])
    ensures r.None? ==> forall k :: 0 <= k < |links| ==> !IsAudioEnclosure(links[k])
  {
    if links == [] then None
    else if IsAudioEnclosure(links[0]) then Some(0)
    else match FindAudioEnclosure(links[1..])
      case None => None
      case Some(i) => Some(i + 1)
  }

  /** The href of the entry's audio-enclosure link, or "" when it has none. */
  function EnclosureHref(f: LinkField): string
  {
    match f
    case NoLink => ""
    case OneLink(l) => if IsAudioEnclosure(l) then Href(l) else ""
    case LinkArray(ls) =>
      match FindAudioEnclosure(ls)
      case None => ""
      case Some(i) => Href(ls[i])
  }

  /** The preview URL of a chart entry: the href of its first audio enclosure link, else the im:preview href,
      else "". */
  function PreviewUrl(e: FeedEntry): (r: string)
    ensures EnclosureHref(e.link) != "" ==> r == EnclosureHref(e.link)
    ensures EnclosureHref(e.link) == "" && e.previewHref.Some? ==> r == e.previewHref.value
    ensures r == "" <==> EnclosureHref(e.link) == "" && (e.previewHref.None? || e.previewHref.value == "")
  {
    var p := EnclosureHref(e.link);
    if p == "" && e.previewHref.Some? && e.previewHref.value != "" then e.previewHref.value else p
  }

  /** Where a non-empty preview URL comes from: an audio enclosure link of the entry, or its im:preview href. */
  lemma PreviewUrlSource(e: FeedEntry)
    requires PreviewUrl(e) != ""
    ensures (e.previewHref == Some(PreviewUrl(e)))
            || (e.link.OneLink? && IsAudioEnclosure(e.link.link) && Href(e.link.link) == PreviewUrl(e))
            || (e.link.LinkArray? && exists i :: 0 <= i < |e.link.links| && IsAudioEnclosure(e.link.links[i])
                                                 && Href(e.link.links[i]) == PreviewUrl(e))
  {
    if EnclosureHref(e.link) != "" && e.link.LinkArray? {
      var i := FindAudioEnclosure(e.link.links).value;
      assert IsAudioEnclosure(e.link.links[i]) && Href(e.link.links[i]) == PreviewUrl(e);
    }
  }

  /** `label || fallback`: a missing or empty label is replaced. */
  function LabelOr(given: Option<string>, fallback: string): (r: string)
    ensures fallback != "" ==> r != ""
    ensures given.Some? && given.value != "" ==> r == given.value
    ensures given.None? || given.value == "" ==> r == fallback
  {
    if given.Some? && given.value != "" then given.value else fallback
  }

  /** A chart-feed entry as a song: a 30-second single-track song whose preview is PreviewUrl(e), streamable
      exactly when it has a preview. A missing or empty title, artist or album label becomes "Unknown Track",
      "Unknown Artist" or "Unknown Album", and a missing or empty id reads as 0. */
  function ConvertFeedEntry(e: FeedEntry): (s: Song)
    ensures IsSong(s)
    ensures s.previewUrl == PreviewUrl(e) && (s.isStreamable <==> s.previewUrl != "")
    ensures s.trackTimeMillis == 30000
    ensures s.discCount == 1 && s.discNumber == 1 && s.trackCount == 1 && s.trackNumber == 1
    ensures s.trackName != "" && s.artistName != "" && s.collectionName != ""
    ensures e.name.Some? && e.name.value != "" ==> s.trackName == e.name.value
    ensures e.name.None? || e.name.value == "" ==> s.trackName == "Unknown Track"
    ensures e.artist.Some? && e.artist.value != "" ==> s.artistName == e.artist.value
    ensures e.artist.None? || e.artist.value == "" ==> s.artistName == "Unknown Artist"
    ensures e.collection.Some? && e.collection.value != "" ==> s.collectionName == e.collection.value
    ensures e.collection.None? || e.collection.value == "" ==> s.collectionName == "Unknown Album"
    ensures e.id.None? || e.id.value == "" ==> s.trackId == Some(0)
  {
    ParseIntDecimal(0);
    assert NatToString(0) == "0";
    var preview := PreviewUrl(e);
    Song(
      wrapperType := "track",
      kind := "song",
      trackId := ParseInt(LabelOr(e.id, "0")),
      artistName := LabelOr(e.artist, "Unknown Artist"),
      collectionName := LabelOr(e.collection, "Unknown Album"),
      trackName := LabelOr(e.name, "Unknown Track"),
      previewUrl := preview,
      discCount := 1,
      discNumber := 1,
      trackCount := 1,
      trackNumber := 1,
      trackTimeMillis := 30000,
      isStreamable := preview != "")
  }

  /** A decimal id label is read back as that id. */
  lemma ConvertedTrackId(e: FeedEntry, n: nat)
    requires e.id == Some(NatToString(n))
    ensures ConvertFeedEntry(e).trackId == Some(n)
  {
    ParseIntDecimal(n);
  }

  /** An id label that starts with neither white space, a sign nor a digit is NaN, so every two such songs share
      one track id, and one played id covers them all. */
  lemma NonNumericIdsCollide(e1: FeedEntry, e2: FeedEntry)
    requires e1.id.Some? && e1.id.value != "" && e2.id.Some? && e2.id.value != ""
    requires var c := e1.id.value[0]; !IsSpace(c) && !IsDigit(c) && c != '-' && c != '+'
    requires var c := e2.id.value[0]; !IsSpace(c) && !IsDigit(c) && c != '-' && c != '+'
    ensures ConvertFeedEntry(e1).trackId == ConvertFeedEntry(e2).trackId == None
  {
    ParseIntNaN(e1.id.value);
    ParseIntNaN(e2.id.value);
  }

  /** `entries.map(convertFeedEntry)`. */
  function ConvertAll(entries: seq<FeedEntry>): (r: seq<Song>)
    ensures |r| == |entries|
  {
    Map(entries, ConvertFeedEntry)
  }

  lemma ConvertAllMembership(entries: seq<FeedEntry>, s: Song)
    ensures s in ConvertAll(entries) <==> exists e :: e in entries && s == ConvertFeedEntry(e)
  {
    MapMembership(entries, ConvertFeedEntry, s);
  }

  /** Chart songs: the converted feed entries that have a preview, in feed order; the popular-artists fallback
      when the feed request failed or returned no entries. Every song returned has a preview. */
  method GetChartSongs(feed: Option<seq<FeedEntry>>, responses: seq<Option<seq<Song>>>, rnd: nat -> real)
    returns (songs: seq<Song>)
    requires |responses| == |PopularArtists|
    requires forall k :: IsRandom(rnd(k))
    ensures forall i :: 0 <= i < |songs| ==> songs[i].previewUrl != ""
    ensures feed.Some? && feed.value != [] ==>
              forall s :: s in songs <==> exists e :: e in feed.value && s == ConvertFeedEntry(e) && HasPreview(s)
    ensures feed.Some? && feed.value != [] ==>
              forall s :: multiset(songs)[s] == if HasPreview(s) then multiset(ConvertAll(feed.value))[s] else 0
    ensures !(feed.Some? && feed.value != []) ==>
              && |songs| <= 50 && (forall i :: 0 <= i < |songs| ==> IsFallbackSong(songs[i]))
              && multiset(songs) <= multiset(FallbackSongs(responses))
              && (|FallbackSongs(responses)| >= 50 ==> |songs| == 50)
              && (|FallbackSongs(responses)| < 50 ==> multiset(songs) == multiset(FallbackSongs(responses)))
  {
    if feed.None? || feed.value == [] {
      songs := GetPopularArtistsSongs(responses, rnd);
    } else {
      var entries := feed.value;
      var converted := ConvertAll(entries);
      songs := Filter(converted, HasPreview);
      forall s ensures s in songs <==> exists e :: e in entries && s == ConvertFeedEntry(e) && HasPreview(s) {
        FilterMembership(converted, HasPreview, s);
        ConvertAllMembership(entries, s);
      }
      forall s ensures multiset(songs)[s] == if HasPreview(s) then multiset(converted)[s] else 0 {
        FilterMultiplicity(converted, HasPreview, s);
      }
    }
  }
}
