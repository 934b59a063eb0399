/** The iTunes track hook: loads an artist's (or the chart's) playable songs once, then serves one random unplayed
    song per call, starting a new round when every song has been served. */
module ITunesHook {
  import opened Wrappers
  import opened Seqs
  import opened Rotation
  import opened ITunesApi

  const NoTracks: string := "No tracks found. Please try another artist."
  const NoPlayableTracks: string := "No playable tracks found. Please try another artist."

  /** What the hook exposes as `itunesData`. */
  datatype Display = Display(artistName: string, track: Song, totalTracks: nat)

  /** The hook fetches only in chart mode (id 0) or for a positive artist id. */
  predicate ShouldFetch(artistId: Option<int>)
  {
    artistId == Some(0) || (artistId.Some? && artistId.value >= 1)
  }

  /** Exactly the non-negative ids are fetched; a missing or negative id leaves the hook idle. */
  lemma ShouldFetchIffNonNegative(artistId: Option<int>)
    ensures ShouldFetch(artistId) <==> artistId.Some? && artistId.value >= 0
  {
  }

  /** `artistName || (chart ? 'Top Charts' : 'Unknown Artist')`. */
  function DisplayName(artistName: Option<string>, chartMode: bool): (r: string)
    ensures r != ""
    ensures artistName.Some? && artistName.value != "" ==> r == artistName.value
    ensures (artistName.None? || artistName.value == "") && chartMode ==> r == "Top Charts"
    ensures (artistName.None? || artistName.value == "") && !chartMode ==> r == "Unknown Artist"
  {
    if artistName.Some? && artistName.value != "" then artistName.value
    else if chartMode then "Top Charts" else "Unknown Artist"
  }

  lemma {:induction false} FilterEmpty<T>(xs: seq<T>, p: T -> bool)
    ensures Filter(xs, p) == [] <==> forall i :: 0 <= i < |xs| ==> !p(xs[i])
  {
    if Filter(xs, p) != [] {
      FilterMembership(xs, p, Filter(xs, p)[0]);
    }
    forall i | 0 <= i < |xs| && p(xs[i]) ensures Filter(xs, p) != [] {
      FilterMembership(xs, p, xs[i]);
    }
  }

  /** The pool a load produces, given what the two catalog queries return: the chart songs in chart mode, else the
      artist's songs, or the chart songs when the artist has none; then only the songs with a preview. */
  function LoadPool(chartMode: bool, artistSongs: seq<Song>, chartSongs: seq<Song>): (r: Result<seq<Song>, string>)
    ensures r.Ok? ==> forall i :: 0 <= i < |r.value| ==> HasPreview(r.value[i])
  {
    var tracks := if chartMode then chartSongs else if artistSongs == [] then chartSongs else artistSongs;
    if tracks == [] then Err(NoTracks)
    else
      var playable := Filter(tracks, HasPreview);
      if playable == [] then Err(NoPlayableTracks) else Ok(playable)
  }

  /** The three outcomes of loading: chart songs in chart mode or when the artist has none; "No tracks" exactly
      when that source is empty; "No playable tracks" exactly when none of it has a preview; otherwise a
      non-empty part of it: every copy of each song that has a preview, and nothing else. */
  lemma LoadPoolOutcomes(chartMode: bool, artistSongs: seq<Song>, chartSongs: seq<Song>)
    ensures var r := LoadPool(chartMode, artistSongs, chartSongs);
            var source := if chartMode || artistSongs == [] then chartSongs else artistSongs;
            && (r == Err(NoTracks) <==> source == [])
            && (r == Err(NoPlayableTracks) <==> source != [] && forall i :: 0 <= i < |source| ==> !HasPreview(source[i]))
            && (r.Ok? <==> exists i :: 0 <= i < |source| && HasPreview(source[i]))
            && (r.Ok? ==> r.value != [] && forall s :: s in r.value <==> s in source && HasPreview(s))
            && (r.Ok? ==> forall s :: multiset(r.value)[s] == if HasPreview(s) then multiset(source)[s] else 0)
  {
    var source := if chartMode || artistSongs == [] then chartSongs else artistSongs;
    FilterEmpty(source, HasPreview);
    forall s ensures s in Filter(source, HasPreview) <==> s in source && HasPreview(s)
      ensures multiset(Filter(source, HasPreview))[s] == if HasPreview(s) then multiset(source)[s] else 0
    {
      FilterMembership(source, HasPreview, s);
      FilterMultiplicity(source, HasPreview, s);
    }
  }

  function TrackKey(s: Song): Option<int> { s.trackId }

  /** The hook's state: its arguments, its exposed values and the rotation over the loaded pool. */
  class TrackFeed {
    var artistId: Option<int>
    var artistName: Option<string>
    var data: Option<Display>
    var error: Option<string>
    var loading: bool
    const sampler: Sampler<Song, Option<int>>

    /** The rotation is consistent and the pool only ever holds songs with a preview. */
    ghost predicate Valid()
      reads this, sampler
    {
      sampler.key == TrackKey
      && forall i :: 0 <= i < |sampler.pool| ==> HasPreview(sampler.pool[i])
    }

    /** Mount: no data, loading, nothing loaded and nothing played. The mount also runs the reset effect, whose new
        empty pool re-creates `fetchTrack`, so a second load starts while the first is still waiting for its
        answers; both see the empty pool. Overlapping calls are not modelled: each `FetchTrack` is one whole call. */
    constructor (artistId: Option<int>, artistName: Option<string>)
      ensures Valid() && fresh(sampler)
      ensures this.artistId == artistId && this.artistName == artistName
      ensures data.None? && error.None? && loading && sampler.pool == [] && sampler.played == {}
    {
      this.artistId := artistId;
      this.artistName := artistName;
      data := None;
      error := None;
      loading := true;
      sampler := new Sampler(TrackKey);
    }

    /** One `fetchTrack` call. With an empty pool it only loads (the call still sees the empty pool, so the
        draw happens on the next call); with a pool it serves one song. `artistSongs` and `chartSongs` are what
        the catalog queries return, `r` the random value. */
    method FetchTrack(artistSongs: seq<Song>, chartSongs: seq<Song>, r: real)
      requires Valid() && IsRandom(r)
      modifies this, sampler
      ensures Valid() && artistId == old(artistId) && artistName == old(artistName)
      ensures !ShouldFetch(artistId) ==>
                data == old(data) && error == old(error) && loading == old(loading)
                && sampler.pool == old(sampler.pool) && sampler.played == old(sampler.played)
      ensures ShouldFetch(artistId) ==> !loading
      ensures ShouldFetch(artistId) && old(sampler.pool) == [] ==>
                data == old(data) && sampler.played == old(sampler.played)
                && match LoadPool(artistId == Some(0), artistSongs, chartSongs)
                   case Err(m) => error == Some(m) && sampler.pool == []
                   case Ok(p) => error.None? && sampler.pool == p
      ensures ShouldFetch(artistId) && old(sampler.pool) != [] ==>
                error.None? && sampler.pool == old(sampler.pool) && data.Some?
                && (data.value.track, sampler.played) == DrawFrom(old(sampler.pool), old(sampler.played), TrackKey, r)
                && data.value.artistName == DisplayName(artistName, artistId == Some(0))
                && data.value.totalTracks == |sampler.pool|
    {
      if !ShouldFetch(artistId) {
        return;
      }
      loading := true;
      error := None;
      var chartMode := artistId == Some(0);
      var displayName := DisplayName(artistName, chartMode);
      if sampler.pool == [] {
        var loaded := LoadPool(chartMode, artistSongs, chartSongs);
        match loaded {
          case Err(m) =>
            error := Some(m);
          case Ok(p) =>
            sampler.Load(p);
        }
      } else {
        var t := sampler.Draw(r);
        data := Some(Display(displayName, t, |sampler.pool|));
      }
      loading := false;
    }

    /** The commit that re-renders the hook with new arguments. A new artist id runs the reset effect, which clears
        the played set and queues an empty pool, and then, in the same commit, the fetch effect with the new
        `fetchTrack`. That call still sees this render's pool: with the previous artist's pool loaded it serves one
        of those songs under the new display name and records its id, and the queued empty pool lands after it;
        with no pool loaded it loads the new artist's, and the queued empty pool, a new array, re-creates
        `fetchTrack` once more, so the source starts a second load of the same artist beside this one (not
        modelled). A new name alone re-creates `fetchTrack` as well; that fetch is an ordinary `FetchTrack` call. */
    method ChangeArtist(id: Option<int>, name: Option<string>, artistSongs: seq<Song>, chartSongs: seq<Song>, r: real)
      requires Valid() && IsRandom(r)
      modifies this, sampler
      ensures Valid() && artistId == id && artistName == name
      ensures id == old(artistId) || !ShouldFetch(id) ==>
                data == old(data) && error == old(error) && loading == old(loading)
      ensures id == old(artistId) ==> sampler.pool == old(sampler.pool) && sampler.played == old(sampler.played)
      ensures id != old(artistId) && !ShouldFetch(id) ==> sampler.pool == [] && sampler.played == {}
      ensures id != old(artistId) && ShouldFetch(id) && old(sampler.pool) == [] ==>
                !loading && data == old(data) && sampler.played == {}
                && match LoadPool(id == Some(0), artistSongs, chartSongs)
                   case Err(m) => error == Some(m) && sampler.pool == []
                   case Ok(p) => error.None? && sampler.pool == p
      ensures id != old(artistId) && ShouldFetch(id) && old(sampler.pool) != [] ==>
                !loading && error.None? && sampler.pool == [] && data.Some?
                && (data.value.track, sampler.played) == DrawFrom(old(sampler.pool), {}, TrackKey, r)
                && data.value.artistName == DisplayName(name, id == Some(0))
                && data.value.totalTracks == |old(sampler.pool)|
    {
      if id == artistId {
        artistName := name;
        return;
      }
      var rendered := sampler.pool;
      sampler.ClearPlayed();
      artistId := id;
      artistName := name;
      FetchTrack(artistSongs, chartSongs, r);
      if rendered != [] {
        sampler.DropPool();
      }
    }

    /** The artist change the hook evidently intends: the fetch after the reset sees the emptied pool, so it loads
        the new artist's songs and the new rotation starts from an empty played set. */
    method ChangeArtistIntended(id: Option<int>, name: Option<string>, artistSongs: seq<Song>, chartSongs: seq<Song>,
                                r: real)
      requires Valid() && IsRandom(r)
      modifies this, sampler
      ensures Valid() && artistId == id && artistName == name && data == old(data)
      ensures id == old(artistId) ==>
                error == old(error) && loading == old(loading)
                && sampler.pool == old(sampler.pool) && sampler.played == old(sampler.played)
      ensures id != old(artistId) ==> sampler.played == {}
      ensures id != old(artistId) && !ShouldFetch(id) ==> sampler.pool == []
      ensures id != old(artistId) && ShouldFetch(id) ==>
                !loading
                && match LoadPool(id == Some(0), artistSongs, chartSongs)
                   case Err(m) => error == Some(m) && sampler.pool == []
                   case Ok(p) => error.None? && sampler.pool == p
    {
      if id == artistId {
        artistName := name;
        return;
      }
      sampler.Reset();
      artistId := id;
      artistName := name;
      FetchTrack(artistSongs, chartSongs, r);
    }
  }

  /** A song of the scenarios below: it has a preview and the given id. */
  function ScenarioSong(title: string, id: int): (s: Song)
    ensures HasPreview(s) && s.trackId == Some(id)
  {
    Song("track", "song", Some(id), "Artist", "Album", title, "https://audio.example/p.m4a", 1, 1, 1, 1, 30000, true)
  }

  /** Artist 1, whose only song is a, after two calls: the pool [a] is loaded and a has been served. */
  method ArtistOnePlayed(r: real) returns (feed: TrackFeed)
    requires IsRandom(r)
    ensures fresh(feed) && fresh(feed.sampler) && feed.Valid() && feed.artistId == Some(1)
    ensures feed.sampler.pool == [ScenarioSong("a", 1)] && feed.data.Some? && feed.data.value.artistName == "A"
  {
    var a, b := ScenarioSong("a", 1), ScenarioSong("b", 2);
    feed := new TrackFeed(Some(1), Some("A"));
    assert Filter([a], HasPreview) == [a];
    feed.FetchTrack([a], [a, b], r);
    feed.FetchTrack([a], [a, b], r);
  }

  /** As written: artist 1 has the single song a, and artist 2 has none, so it falls back to the chart, which holds
      a and b. After one song of artist 1, switching to artist 2 publishes a again, under artist 2's name; once
      artist 2's pool is loaded, its first draw must serve b, since a's id is still recorded as played. */
  method StaleArtistScenario(r: real) returns (first: Display, second: Display)
    requires IsRandom(r)
    ensures first.artistName == "B" && first.track == ScenarioSong("a", 1)
    ensures second.artistName == "B" && second.track == ScenarioSong("b", 2)
  {
    var a, b := ScenarioSong("a", 1), ScenarioSong("b", 2);
    var feed := ArtistOnePlayed(r);
    feed.ChangeArtist(Some(2), Some("B"), [], [a, b], r);
    first := feed.data.value;
    assert feed.sampler.played == {Some(1)};
    assert Filter([a, b], HasPreview) == [a, b];
    feed.FetchTrack([], [a, b], r);
    assert feed.sampler.pool == [a, b] && Some(2) in Ids(feed.sampler.pool, TrackKey) by {
      InIds([a, b], TrackKey, b);
    }
    feed.FetchTrack([], [a, b], r);
    second := feed.data.value;
  }

  /** With the intended artist change, the same steps publish nothing of artist 1 under artist 2's name, and artist
      2's rotation starts with nothing played, so `FullRotation` serves both of its songs in its first round. */
  method StaleArtistIntendedScenario(r: real) returns (feed: TrackFeed)
    requires IsRandom(r)
    ensures feed.data.Some? && feed.data.value.artistName == "A"
    ensures feed.sampler.pool == [ScenarioSong("a", 1), ScenarioSong("b", 2)] && feed.sampler.played == {}
  {
    var a, b := ScenarioSong("a", 1), ScenarioSong("b", 2);
    feed := ArtistOnePlayed(r);
    assert Filter([a, b], HasPreview) == [a, b];
    feed.ChangeArtistIntended(Some(2), Some("B"), [], [a, b], r);
  }
}
