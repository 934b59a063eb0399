/** The Spotify track hook: builds the searched artist's track pool from the albums endpoints (paged listing,
    chunked album lookups, main-artist filter, de-duplication by id), then serves one random unplayed track per
    call with the same rotation rule as the iTunes hook. */
module SpotifyHook {
  import opened Wrappers
  import opened Seqs
  import opened Rotation

  datatype Artist = Artist(id: string, name: string)

  /** An entry of the artist-albums listing: the album id and the id of its first artist. */
  datatype AlbumRef = AlbumRef(id: string, leadArtistId: string)

  /** A track; `albumId` is filled in from the album it was listed under. */
  datatype Track = Track(id: string, name: string, uri: string, leadArtistId: string, albumId: string)

  /** An album of the albums endpoint with its track list. */
  datatype Album = Album(id: string, leadArtistId: string, tracks: seq<Track>)

  const PageLimit: nat := 50
  const ChunkSize: nat := 20
  const NoTracksForArtist: string := "No tracks found for this artist"
  /** The exception raised when the search has no first item and its `id` is read. */
  const UndefinedArtistError: string := "Cannot read properties of undefined (reading 'id')"

  // ---------------------------------------------------------------- album paging

  /** One page of the listing: at most 50 entries from `offset`. */
  function Page(listing: seq<AlbumRef>, offset: nat): (r: seq<AlbumRef>)
    ensures |r| <= PageLimit
  {
    if offset >= |listing| then []
    else if offset + PageLimit <= |listing| then listing[offset..offset + PageLimit]
    else listing[offset..]
  }

  function AlbumLedBy(artistId: string): AlbumRef -> bool
  {
    (a: AlbumRef) => a.leadArtistId == artistId
  }

  /** The listed albums the hook keeps: in main-albums mode only those whose first artist is the searched one. */
  function KeptAlbums(listing: seq<AlbumRef>, artistId: string, mainOnly: bool): seq<AlbumRef>
  {
    if mainOnly then Filter(listing, AlbumLedBy(artistId)) else listing
  }

  function AlbumIds(albums: seq<AlbumRef>): (r: seq<string>)
    ensures |r| == |albums| && forall i :: 0 <= i < |r| ==> r[i] == albums[i].id
  {
    seq(|albums|, i requires 0 <= i < |albums| => albums[i].id)
  }

  /** The offsets requested for a listing of n albums: 0, 50, ..., up to and including the first offset whose
      page is short (so a listing of exactly 50k albums costs one more, empty, page). */
  function PageOffsets(n: nat): (r: seq<nat>)
    ensures |r| == n / PageLimit + 1
    ensures forall k :: 0 <= k < |r| ==> r[k] == PageLimit * k
  {
    Multiples(n / PageLimit + 1)
  }

  /** The first `count` multiples of the page size. */
  function Multiples(count: nat): (r: seq<nat>)
    ensures |r| == count
    ensures forall k :: 0 <= k < |r| ==> r[k] == PageLimit * k
  {
    if count == 0 then [] else Multiples(count - 1) + [PageLimit * (count - 1)]
  }

  lemma KeptAlbumsAppend(xs: seq<AlbumRef>, ys: seq<AlbumRef>, artistId: string, mainOnly: bool)
    ensures KeptAlbums(xs + ys, artistId, mainOnly) == KeptAlbums(xs, artistId, mainOnly) + KeptAlbums(ys, artistId, mainOnly)
  {
    if mainOnly {
      FilterAppend(xs, ys, AlbumLedBy(artistId));
    }
  }

  lemma DivByPage(n: nat, k: nat)
    requires PageLimit * k <= n < PageLimit * k + PageLimit
    ensures n / PageLimit == k
  {
  }

  /** Reading the page at `offset` extends the kept albums of the listing read so far; a short page ends the
      listing. */
  lemma PageStep(listing: seq<AlbumRef>, offset: nat, artistId: string, mainOnly: bool)
    requires offset <= |listing|
    ensures var items := Page(listing, offset);
            && offset + |items| <= |listing|
            && KeptAlbums(listing[..offset + |items|], artistId, mainOnly)
               == KeptAlbums(listing[..offset], artistId, mainOnly) + KeptAlbums(items, artistId, mainOnly)
            && (|items| < PageLimit ==> listing[..offset + |items|] == listing && |listing| < offset + PageLimit)
            && (|items| == PageLimit ==> offset + PageLimit <= |listing|)
  {
    var items := Page(listing, offset);
    assert listing[..offset + |items|] == listing[..offset] + items;
    KeptAlbumsAppend(listing[..offset], items, artistId, mainOnly);
  }

  /** The paging loop: requests pages until one is short, keeping the albums led by the artist in main-albums
      mode. Returns the kept album ids and the offsets it requested. */
  method FetchArtistAlbums(listing: seq<AlbumRef>, artistId: string, mainOnly: bool)
    returns (ids: seq<string>, offsets: seq<nat>)
    ensures offsets == PageOffsets(|listing|)
    ensures ids == AlbumIds(KeptAlbums(listing, artistId, mainOnly))
  {
    var offset: nat := 0;
    var kept: seq<AlbumRef> := [];
    offsets := [];
    while true
      invariant offset <= |listing| && offset == PageLimit * |offsets|
      invariant offsets == Multiples(|offsets|)
      invariant kept == KeptAlbums(listing[..offset], artistId, mainOnly)
      decreases |listing| - offset
    {
      offsets := offsets + [offset];
      var items := Page(listing, offset);
      PageStep(listing, offset, artistId, mainOnly);
      if mainOnly {
        kept := kept + Filter(items, AlbumLedBy(artistId));
      } else {
        kept := kept + items;
      }
      if |items| < PageLimit {
        DivByPage(|listing|, |offsets| - 1);
        break;
      }
      offset := offset + PageLimit;
    }
    ids := AlbumIds(kept);
  }

  // ---------------------------------------------------------------- chunked album lookups

  /** The id list cut into consecutive chunks of 20, the last one shorter. */
  function Chunks(ids: seq<string>): seq<seq<string>>
    decreases |ids|
  {
    if ids == [] then []
    else if |ids| <= ChunkSize then [ids]
    else [ids[..ChunkSize]] + Chunks(ids[ChunkSize..])
  }

  /** The chunks cover the id list exactly, in order; each holds 1 to 20 ids and all but the last hold 20. */
  lemma {:induction false} ChunksPartition(ids: seq<string>)
    ensures Flatten(Chunks(ids)) == ids
    ensures forall k :: 0 <= k < |Chunks(ids)| ==> 1 <= |Chunks(ids)[k]| <= ChunkSize
    ensures forall k :: 0 <= k < |Chunks(ids)| - 1 ==> |Chunks(ids)[k]| == ChunkSize
    ensures |Chunks(ids)| == (|ids| + ChunkSize - 1) / ChunkSize
    decreases |ids|
  {
    if ids == [] {
    } else if |ids| <= ChunkSize {
      FlattenSingle(ids);
    } else {
      ChunksPartition(ids[ChunkSize..]);
      var rest := Chunks(ids[ChunkSize..]);
      FlattenAppend([ids[..ChunkSize]], rest);
      FlattenSingle(ids[..ChunkSize]);
      assert ids == ids[..ChunkSize] + ids[ChunkSize..];
      assert Chunks(ids) == [ids[..ChunkSize]] + rest;
      forall k | 0 <= k < |Chunks(ids)| ensures 1 <= |Chunks(ids)[k]| <= ChunkSize {
        if k > 0 { assert Chunks(ids)[k] == rest[k - 1]; }
      }
      forall k | 0 <= k < |Chunks(ids)| - 1 ensures |Chunks(ids)[k]| == ChunkSize {
        if k > 0 { assert Chunks(ids)[k] == rest[k - 1]; }
      }
    }
  }

  /** What the albums endpoint answers for each chunk, in chunk order. */
  function Responses(chunks: seq<seq<string>>, respond: seq<string> -> seq<Album>): (r: seq<seq<Album>>)
    ensures |r| == |chunks| && forall k :: 0 <= k < |r| ==> r[k] == respond(chunks[k])
  {
    seq(|chunks|, k requires 0 <= k < |chunks| => respond(chunks[k]))
  }

  /** Cutting off the chunk at i leaves the chunks of the rest. */
  lemma ChunksStep(ids: seq<string>, i: nat, end: nat)
    requires i < |ids| && end == Min(i + ChunkSize, |ids|)
    ensures Chunks(ids[i..]) == [ids[i..end]] + Chunks(ids[end..])
  {
    if i + ChunkSize < |ids| {
      assert ids[i..][..ChunkSize] == ids[i..end];
      assert ids[i..][ChunkSize..] == ids[end..];
    } else {
      assert ids[i..] == ids[i..end];
      assert ids[end..] == [];
    }
  }

  lemma ResponsesSnoc(chunks: seq<seq<string>>, chunk: seq<string>, respond: seq<string> -> seq<Album>)
    ensures Flatten(Responses(chunks + [chunk], respond)) == Flatten(Responses(chunks, respond)) + respond(chunk)
  {
    assert Responses(chunks + [chunk], respond) == Responses(chunks, respond) + [respond(chunk)];
    FlattenAppend(Responses(chunks, respond), [respond(chunk)]);
    FlattenSingle(respond(chunk));
  }

  /** One round of the chunking loop keeps both loop invariants. */
  lemma ChunkLoopStep(ids: seq<string>, i: nat, end: nat, chunks: seq<seq<string>>,
                      respond: seq<string> -> seq<Album>)
    requires i < |ids| && end == Min(i + ChunkSize, |ids|)
    requires chunks + Chunks(ids[i..]) == Chunks(ids)
    ensures (chunks + [ids[i..end]]) + Chunks(ids[end..]) == Chunks(ids)
    ensures Flatten(Responses(chunks + [ids[i..end]], respond)) == Flatten(Responses(chunks, respond)) + respond(ids[i..end])
  {
    var chunk := ids[i..end];
    ChunksStep(ids, i, end);
    assert (chunks + [chunk]) + Chunks(ids[end..]) == chunks + ([chunk] + Chunks(ids[end..]));
    ResponsesSnoc(chunks, chunk, respond);
  }

  /** The chunking loop: looks up the albums 20 ids at a time and concatenates the answers. `respond` stands for
      the albums endpoint. */
  method FetchAlbumsWithTracks(albumIds: seq<string>, respond: seq<string> -> seq<Album>)
    returns (albums: seq<Album>, chunks: seq<seq<string>>)
    ensures chunks == Chunks(albumIds)
    ensures albums == Flatten(Responses(chunks, respond))
  {
    albums := [];
    chunks := [];
    var i := 0;
    while i < |albumIds|
      invariant i <= |albumIds|
      invariant chunks + Chunks(albumIds[i..]) == Chunks(albumIds)
      invariant albums == Flatten(Responses(chunks, respond))
      decreases |albumIds| - i
    {
      var end := Min(i + ChunkSize, |albumIds|);
      var chunk := albumIds[i..end];
      ChunkLoopStep(albumIds, i, end, chunks, respond);
      albums := albums + respond(chunk);
      chunks := chunks + [chunk];
      i := end;
    }
    assert albumIds[i..] == [];
    assert Chunks(albumIds[i..]) == [];
  }

  // ---------------------------------------------------------------- track shaping

  /** The tracks of one album, each tagged with the album it came from. */
  function AlbumTracks(a: Album): (r: seq<Track>)
    ensures |r| == |a.tracks|
    ensures forall j :: 0 <= j < |r| ==> r[j] == a.tracks[j].(albumId := a.id)
  {
    seq(|a.tracks|, j requires 0 <= j < |a.tracks| => a.tracks[j].(albumId := a.id))
  }

  /** `albums.flatMap(...)`: every album's tagged tracks, album by album. */
  function TracksOf(albums: seq<Album>): (r: seq<Track>)
    ensures forall t :: t in r ==> exists i :: 0 <= i < |albums| && t in AlbumTracks(albums[i])
  {
    if albums == [] then []
    else
      var r := AlbumTracks(albums[0]) + TracksOf(albums[1..]);
      assert forall t :: t in TracksOf(albums[1..]) ==> exists i :: 0 <= i < |albums[1..]| && t in AlbumTracks(albums[1..][i]);
      forall t | t in r ensures exists i :: 0 <= i < |albums| && t in AlbumTracks(albums[i]) {
        if t !in AlbumTracks(albums[0]) {
          var i :| 0 <= i < |albums[1..]| && t in AlbumTracks(albums[1..][i]);
          assert albums[1..][i] == albums[i + 1];
        }
      }
      r
  }

  function TrackLedBy(artistId: string): Track -> bool
  {
    (t: Track) => t.leadArtistId == artistId
  }

  /** In main-albums mode only the tracks whose first artist is the searched one. */
  function MainTracks(tracks: seq<Track>, artistId: string, mainOnly: bool): (r: seq<Track>)
    ensures mainOnly ==> forall i :: 0 <= i < |r| ==> r[i].leadArtistId == artistId
    ensures mainOnly ==> forall t :: t in r <==> t in tracks && t.leadArtistId == artistId
    ensures !mainOnly ==> r == tracks
  {
    if mainOnly then
      forall t ensures t in Filter(tracks, TrackLedBy(artistId)) <==> t in tracks && t.leadArtistId == artistId {
        FilterMembership(tracks, TrackLedBy(artistId), t);
      }
      Filter(tracks, TrackLedBy(artistId))
    else tracks
  }

  // ---------------------------------------------------------------- de-duplication by id

  /** The state of a JavaScript `Map` from track id to track: keys in insertion order and the stored values. */
  datatype Entries = Entries(keys: seq<string>, vals: map<string, Track>)

  /** `map.set(t.id, t)`: a new key goes to the end; an existing key keeps its place and takes the new value. */
  function Insert(m: Entries, t: Track): Entries
  {
    if t.id in m.vals then Entries(m.keys, m.vals[t.id := t])
    else Entries(m.keys + [t.id], m.vals[t.id := t])
  }

  /** The map built from the first n tracks. */
  function EntriesOf(ts: seq<Track>, n: nat): Entries
    requires n <= |ts|
  {
    if n == 0 then Entries([], map[]) else Insert(EntriesOf(ts, n - 1), ts[n - 1])
  }

  /** The position of the first of the first n tracks with id k. */
  function FirstWith(ts: seq<Track>, n: nat, k: string): (r: Option<nat>)
    requires n <= |ts|
    ensures r.Some? ==> r.value < n && ts[r.value].id == k && forall q :: 0 <= q < r.value ==> ts[q].id != k
    ensures r.None? ==> forall q :: 0 <= q < n ==> ts[q].id != k
  {
    if n == 0 then None
    else match FirstWith(ts, n - 1, k)
      case Some(p) => Some(p)
      case None => if ts[n - 1].id == k then Some(n - 1) else None
  }

  /** The position of the last of the first n tracks with id k. */
  function LastWith(ts: seq<Track>, n: nat, k: string): (r: Option<nat>)
    requires n <= |ts|
    ensures r.Some? ==> r.value < n && ts[r.value].id == k && forall q :: r.value < q < n ==> ts[q].id != k
    ensures r.None? ==> forall q :: 0 <= q < n ==> ts[q].id != k
  {
    if n == 0 then None
    else if ts[n - 1].id == k then Some(n - 1)
    else LastWith(ts, n - 1, k)
  }

  /** The keys of the map built from the first n tracks: each id seen, once. */
  ghost predicate KeysBuilt(ts: seq<Track>, n: nat, m: Entries)
    requires n <= |ts|
  {
    && Distinct(m.keys)
    && (forall i :: 0 <= i < |m.keys| ==> m.keys[i] in m.vals)
    && (forall k :: k in m.vals ==> k in m.keys)
    && (forall k :: k in m.vals <==> LastWith(ts, n, k).Some?)
  }

  /** The values of that map: each key holds the last track with that id. */
  ghost predicate ValsBuilt(ts: seq<Track>, n: nat, m: Entries)
    requires n <= |ts|
  {
    forall k :: k in m.vals ==> LastWith(ts, n, k).Some? && m.vals[k] == ts[LastWith(ts, n, k).value]
  }

  /** Both ids occur among the first n tracks, a first. */
  ghost predicate KeyBefore(ts: seq<Track>, n: nat, a: string, b: string)
    requires n <= |ts|
  {
    FirstWith(ts, n, a).Some? && FirstWith(ts, n, b).Some? && FirstWith(ts, n, a).value < FirstWith(ts, n, b).value
  }

  /** The key order of that map: by first occurrence. */
  ghost predicate OrderBuilt(ts: seq<Track>, n: nat, m: Entries)
    requires n <= |ts|
  {
    forall i, j :: 0 <= i < j < |m.keys| ==> KeyBefore(ts, n, m.keys[i], m.keys[j])
  }

  lemma KeysStep(ts: seq<Track>, n: nat, m: Entries)
    requires 0 < n <= |ts| && KeysBuilt(ts, n - 1, m)
    ensures KeysBuilt(ts, n, Insert(m, ts[n - 1]))
  {
    var t := ts[n - 1];
    assert forall k :: k != t.id ==> LastWith(ts, n, k) == LastWith(ts, n - 1, k);
    if t.id !in m.vals {
      assert t.id !in m.keys;
    }
  }

  lemma ValsStep(ts: seq<Track>, n: nat, m: Entries)
    requires 0 < n <= |ts| && ValsBuilt(ts, n - 1, m)
    ensures ValsBuilt(ts, n, Insert(m, ts[n - 1]))
  {
    var t := ts[n - 1];
    assert forall k :: k != t.id ==> LastWith(ts, n, k) == LastWith(ts, n - 1, k);
  }

  /** Positions of ids already present do not move when one more track is read. */
  lemma FirstWithStable(ts: seq<Track>, n: nat, m: Entries)
    requires 0 < n <= |ts| && KeysBuilt(ts, n - 1, m)
    ensures forall k :: k in m.vals ==> FirstWith(ts, n - 1, k).Some? && FirstWith(ts, n, k) == FirstWith(ts, n - 1, k)
  {
    forall k | k in m.vals ensures FirstWith(ts, n - 1, k).Some? && FirstWith(ts, n, k) == FirstWith(ts, n - 1, k) {
      assert LastWith(ts, n - 1, k).Some?;
    }
  }

  lemma OrderStep(ts: seq<Track>, n: nat, m: Entries)
    requires 0 < n <= |ts| && KeysBuilt(ts, n - 1, m) && OrderBuilt(ts, n - 1, m)
    ensures OrderBuilt(ts, n, Insert(m, ts[n - 1]))
  {
    var t := ts[n - 1];
    var m' := Insert(m, t);
    FirstWithStable(ts, n, m);
    if t.id !in m.vals {
      assert FirstWith(ts, n, t.id) == Some(n - 1);
      forall i, j | 0 <= i < j < |m'.keys| ensures KeyBefore(ts, n, m'.keys[i], m'.keys[j]) {
        assert m'.keys[i] == m.keys[i] && m.keys[i] in m.vals;
        if j < |m.keys| {
          assert m'.keys[j] == m.keys[j] && m.keys[j] in m.vals;
          assert KeyBefore(ts, n - 1, m.keys[i], m.keys[j]);
        }
      }
    } else {
      forall i, j | 0 <= i < j < |m'.keys| ensures KeyBefore(ts, n, m'.keys[i], m'.keys[j]) {
        assert m.keys[i] in m.vals && m.keys[j] in m.vals;
        assert KeyBefore(ts, n - 1, m.keys[i], m.keys[j]);
      }
    }
  }

  lemma {:induction false} EntriesBuilt(ts: seq<Track>, n: nat)
    requires n <= |ts|
    ensures KeysBuilt(ts, n, EntriesOf(ts, n))
    ensures ValsBuilt(ts, n, EntriesOf(ts, n))
    ensures OrderBuilt(ts, n, EntriesOf(ts, n))
    decreases n
  {
    if n > 0 {
      EntriesBuilt(ts, n - 1);
      KeysStep(ts, n, EntriesOf(ts, n - 1));
      ValsStep(ts, n, EntriesOf(ts, n - 1));
      OrderStep(ts, n, EntriesOf(ts, n - 1));
    }
  }

  /** The stored values in key order. */
  function Values(m: Entries): seq<Track>
    requires forall i :: 0 <= i < |m.keys| ==> m.keys[i] in m.vals
  {
    seq(|m.keys|, i requires 0 <= i < |m.keys| => m.vals[m.keys[i]])
  }

  lemma ValuesIds(ts: seq<Track>, m: Entries)
    requires KeysBuilt(ts, |ts|, m) && ValsBuilt(ts, |ts|, m)
    ensures forall i :: 0 <= i < |m.keys| ==> Values(m)[i].id == m.keys[i]
  {
    forall i | 0 <= i < |m.keys| ensures Values(m)[i].id == m.keys[i] {
      assert m.keys[i] in m.vals;
    }
  }

  lemma ValuesCover(ts: seq<Track>, m: Entries)
    requires KeysBuilt(ts, |ts|, m) && ValsBuilt(ts, |ts|, m)
    ensures forall t :: t in ts ==> exists i :: 0 <= i < |Values(m)| && Values(m)[i].id == t.id
  {
    ValuesIds(ts, m);
    forall t | t in ts ensures exists i :: 0 <= i < |Values(m)| && Values(m)[i].id == t.id {
      assert LastWith(ts, |ts|, t.id).Some?;
      var i :| 0 <= i < |m.keys| && m.keys[i] == t.id;
      assert Values(m)[i].id == t.id;
    }
  }

  /** Both ids occur in ts, the id of a first. */
  predicate FirstOccursBefore(ts: seq<Track>, a: Track, b: Track)
  {
    FirstWith(ts, |ts|, a.id).Some? && FirstWith(ts, |ts|, b.id).Some?
    && FirstWith(ts, |ts|, a.id).value < FirstWith(ts, |ts|, b.id).value
  }

  /** The ids of r appear in the order in which they first occur in ts. */
  predicate InFirstOccurrenceOrder(ts: seq<Track>, r: seq<Track>)
  {
    forall i, j :: 0 <= i < j < |r| ==> FirstOccursBefore(ts, r[i], r[j])
  }

  lemma ValuesOrder(ts: seq<Track>, m: Entries)
    requires KeysBuilt(ts, |ts|, m) && ValsBuilt(ts, |ts|, m) && OrderBuilt(ts, |ts|, m)
    ensures InFirstOccurrenceOrder(ts, Values(m))
  {
    ValuesIds(ts, m);
    var r := Values(m);
    assert |r| == |m.keys|;
    forall i, j | 0 <= i < j < |r|
      ensures FirstOccursBefore(ts, r[i], r[j])
    {
      assert r[i].id == m.keys[i] && r[j].id == m.keys[j];
      assert KeyBefore(ts, |ts|, m.keys[i], m.keys[j]);
    }
    assert InFirstOccurrenceOrder(ts, r);
  }

  /** `Array.from(new Map(tracks.map(t => [t.id, t])).values())`: one track per id, in order of each id's first
      occurrence, each being the last track with that id. */
  function Dedup(ts: seq<Track>): (r: seq<Track>)
    ensures forall i, j :: 0 <= i < j < |r| ==> r[i].id != r[j].id
    ensures forall t :: t in ts ==> exists i :: 0 <= i < |r| && r[i].id == t.id
    ensures forall i :: 0 <= i < |r| ==>
              LastWith(ts, |ts|, r[i].id).Some? && r[i] == ts[LastWith(ts, |ts|, r[i].id).value]
    ensures InFirstOccurrenceOrder(ts, r)
  {
    var m := EntriesOf(ts, |ts|);
    EntriesBuilt(ts, |ts|);
    ValuesIds(ts, m);
    ValuesCover(ts, m);
    ValuesOrder(ts, m);
    Values(m)
  }

  // ---------------------------------------------------------------- the hook

  /** The pool a load stores: the tracks of the kept albums, main-artist filtered, one per id. */
  function CatalogTracks(listing: seq<AlbumRef>, artist: Artist, mainOnly: bool,
                         respond: seq<string> -> seq<Album>): seq<Track>
  {
    var ids := AlbumIds(KeptAlbums(listing, artist.id, mainOnly));
    Dedup(MainTracks(TracksOf(Flatten(Responses(Chunks(ids), respond))), artist.id, mainOnly))
  }

  /** The hook fetches only with a non-empty access token and a non-empty artist name. */
  predicate ShouldFetch(accessToken: Option<string>, artistName: Option<string>)
  {
    accessToken.Some? && accessToken.value != "" && artistName.Some? && artistName.value != ""
  }

  /** What the hook exposes as `spotifyData`; `artist` is `None` when the search had no result. */
  datatype Display = Display(artist: Option<Artist>, track: Track, totalTracks: nat)

  function TrackKey(t: Track): string { t.id }

  /** No two tracks of a sequence share an id. */
  predicate DistinctIds(ts: seq<Track>)
  {
    forall i, j :: 0 <= i < j < |ts| ==> ts[i].id != ts[j].id
  }

  class TrackFeed {
    var accessToken: Option<string>
    var artistName: Option<string>
    var mainOnly: bool
    var data: Option<Display>
    var error: Option<string>
    var loading: bool
    const sampler: Sampler<Track, string>

    /** The rotation is consistent and the pool holds one track per id. */
    ghost predicate Valid()
      reads this, sampler
    {
      sampler.key == TrackKey && DistinctIds(sampler.pool)
    }

    constructor (accessToken: Option<string>, artistName: Option<string>, mainOnly: bool)
      ensures Valid() && fresh(sampler)
      ensures this.accessToken == accessToken && this.artistName == artistName && this.mainOnly == mainOnly
      ensures data.None? && error.None? && loading && sampler.pool == [] && sampler.played == {}
    {
      this.accessToken := accessToken;
      this.artistName := artistName;
      this.mainOnly := mainOnly;
      data := None;
      error := None;
      loading := true;
      sampler := new Sampler(TrackKey);
    }

    /** One `fetchTrack` call. `failure` is the message of the exception a request of this call raises, if any;
        `artist` is the first search result; `listing` is the artist's full album listing and `respond` the
        albums endpoint; `r` the random value. With an empty pool the call loads the pool and, still seeing the
        empty pool, reports that no tracks were found; with a pool it serves one track. */
    method FetchTrack(failure: Option<string>, artist: Option<Artist>, listing: seq<AlbumRef>,
                      respond: seq<string> -> seq<Album>, r: real)
      returns (offsets: seq<nat>, chunks: seq<seq<string>>)
      requires Valid() && IsRandom(r)
      modifies this, sampler
      ensures Valid()
      ensures accessToken == old(accessToken) && artistName == old(artistName) && mainOnly == old(mainOnly)
      ensures !ShouldFetch(accessToken, artistName) ==>
                data == old(data) && error == old(error) && loading == old(loading)
                && sampler.pool == old(sampler.pool) && sampler.played == old(sampler.played)
      ensures ShouldFetch(accessToken, artistName) ==> !loading
      ensures ShouldFetch(accessToken, artistName) && failure.Some? ==>
                error == failure && data == old(data)
                && sampler.pool == old(sampler.pool) && sampler.played == old(sampler.played)
      ensures ShouldFetch(accessToken, artistName) && failure.None? && old(sampler.pool) == [] ==>
                data == old(data) && sampler.played == old(sampler.played)
                && (artist.None? ==> error == Some(UndefinedArtistError) && sampler.pool == [])
                && (artist.Some? ==>
                      error == Some(NoTracksForArtist)
                      && sampler.pool == CatalogTracks(listing, artist.value, mainOnly, respond)
                      && offsets == PageOffsets(|listing|)
                      && chunks == Chunks(AlbumIds(KeptAlbums(listing, artist.value.id, mainOnly))))
      ensures ShouldFetch(accessToken, artistName) && failure.None? && old(sampler.pool) != [] ==>
                error.None? && sampler.pool == old(sampler.pool) && data.Some?
                && (data.value.track, sampler.played) == DrawFrom(old(sampler.pool), old(sampler.played), TrackKey, r)
                && data.value.artist == artist && data.value.totalTracks == |sampler.pool|
    {
      offsets, chunks := [], [];
      if !ShouldFetch(accessToken, artistName) {
        return;
      }
      loading := true;
      error := None;
      if failure.Some? {
        error := failure;
      } else if sampler.pool == [] {
        if artist.None? {
          error := Some(UndefinedArtistError);
        } else {
          var ids;
          ids, offsets := FetchArtistAlbums(listing, artist.value.id, mainOnly);
          var albums;
          albums, chunks := FetchAlbumsWithTracks(ids, respond);
          var tracks := MainTracks(TracksOf(albums), artist.value.id, mainOnly);
          var unique := Dedup(tracks);
          sampler.Load(unique);
          error := Some(NoTracksForArtist);
        }
      } else {
        var t := sampler.Draw(r);
        data := Some(Display(artist, t, |sampler.pool|));
      }
      loading := false;
    }

    /** The hook re-rendered with a new artist name: only the played set is cleared; the pool is kept. */
    method ChangeArtist(name: Option<string>)
      requires Valid()
      modifies this, sampler
      ensures Valid() && artistName == name && accessToken == old(accessToken) && mainOnly == old(mainOnly)
      ensures data == old(data) && error == old(error) && loading == old(loading)
      ensures sampler.pool == old(sampler.pool)
      ensures name != old(artistName) ==> sampler.played == {}
      ensures name == old(artistName) ==> sampler.played == old(sampler.played)
    {
      if name != artistName {
        sampler.ClearPlayed();
      }
      artistName := name;
    }

    /** The reset the hook evidently intends, as the iTunes hook does it: a new artist name clears the played set
        and the pool, so the next call loads the new artist's catalog. */
    method ChangeArtistIntended(name: Option<string>)
      requires Valid()
      modifies this, sampler
      ensures Valid() && artistName == name && accessToken == old(accessToken) && mainOnly == old(mainOnly)
      ensures data == old(data) && error == old(error) && loading == old(loading)
      ensures name != old(artistName) ==> sampler.pool == [] && sampler.played == {}
      ensures name == old(artistName) ==> sampler.pool == old(sampler.pool) && sampler.played == old(sampler.played)
    {
      if name != artistName {
        sampler.Reset();
      }
      artistName := name;
    }
  }

  /** As written: after the artist name changes, the next call still serves a track of the previous artist's
      pool, whatever the new artist's catalog holds. */
  method StaleCatalogScenario(feed: TrackFeed, name: string, artist: Option<Artist>, listing: seq<AlbumRef>,
                              respond: seq<string> -> seq<Album>, r: real)
    requires feed.Valid() && IsRandom(r) && feed.sampler.pool != []
    requires ShouldFetch(feed.accessToken, Some(name)) && feed.artistName != Some(name)
    modifies feed, feed.sampler
    ensures feed.artistName == Some(name) && feed.error.None? && feed.data.Some?
    ensures feed.data.value.track in old(feed.sampler.pool)
  {
    feed.ChangeArtist(Some(name));
    var _, _ := feed.FetchTrack(None, artist, listing, respond, r);
  }

  /** With the intended reset, the next call after the artist name changes loads the new artist's catalog
      instead of serving from the previous pool. */
  method StaleCatalogIntendedScenario(feed: TrackFeed, name: string, artist: Artist, listing: seq<AlbumRef>,
                                      respond: seq<string> -> seq<Album>, r: real)
    requires feed.Valid() && IsRandom(r)
    requires ShouldFetch(feed.accessToken, Some(name)) && feed.artistName != Some(name)
    modifies feed, feed.sampler
    ensures feed.artistName == Some(name) && feed.data == old(feed.data)
    ensures feed.sampler.pool == CatalogTracks(listing, artist, feed.mainOnly, respond) && feed.sampler.played == {}
  {
    feed.ChangeArtistIntended(Some(name));
    var _, _ := feed.FetchTrack(None, Some(artist), listing, respond, r);
  }

  /** A stored pool always satisfies the precondition of the full-rotation theorem: one track per id, so a
      fresh round of |pool| draws serves every track exactly once. */
  lemma {:induction false} CatalogPoolRotates(listing: seq<AlbumRef>, artist: Artist, mainOnly: bool,
                                              respond: seq<string> -> seq<Album>, rs: seq<real>)
    requires AllRandom(rs) && |rs| == |CatalogTracks(listing, artist, mainOnly, respond)|
    requires CatalogTracks(listing, artist, mainOnly, respond) != []
    ensures var pool := CatalogTracks(listing, artist, mainOnly, respond);
            multiset(DrawSeq(pool, {}, TrackKey, rs).0) == multiset(pool)
  {
    var pool := CatalogTracks(listing, artist, mainOnly, respond);
    FullRotation(pool, {}, TrackKey, rs);
  }
}
