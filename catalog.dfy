/**
 * The catalog records the app reads from the music catalog's JSON responses
 * (only the fields it touches) and the records it hands to the UI
 * (`TrackSuggestion`, and the artist record of the artist searches).
 * The shared pieces of the hit-to-record mappings live here.
 */
module Catalog {

  import opened Wrappers
  import opened JsText

  datatype Image = Image(url: string)

  /** An entry of a track's `artists` array. */
  datatype ArtistRef = ArtistRef(id: string, name: string)

  datatype Album = Album(id: string, name: string, images: seq<Image>)

  /** A track object of a search or top-tracks response; `popularity` may be
      absent. */
  datatype TrackHit = TrackHit(
    id: string,
    name: string,
    artists: seq<ArtistRef>,
    album: Album,
    popularity: Option<int>)

  /** The UI's simplified track record (`TrackSuggestion`). */
  datatype TrackSuggestion = TrackSuggestion(
    id: string,
    name: string,
    artist: string,
    albumArt: Option<string>,
    albumName: Option<string>,
    albumId: Option<string>,
    artistId: Option<string>,
    popularity: Option<int>)

  /** The artist object of an artist-search response: `images`, `followers`,
      `followers.total` and `genres` may be absent. */
  datatype RawArtist = RawArtist(
    id: string,
    name: string,
    uri: string,
    href: string,
    images: Option<seq<Image>>,
    followers: Option<Followers>,
    genres: Option<seq<string>>)

  datatype Followers = Followers(total: Option<int>)

  /** The artist record returned to the UI. */
  datatype Artist = Artist(
    id: string,
    name: string,
    kind: string,
    uri: string,
    href: string,
    images: seq<Image>,
    followers: int,
    genres: seq<string>)

  /** What an upstream call (token plus fetch) yields: the parsed body, or the
      message of the error it threw. */
  datatype Fetch<T> = Fetched(body: T) | FetchError(message: string)

  /** The query string of a catalog search request. */
  datatype SearchParams = SearchParams(q: string, kind: string, limit: int, market: string)

  function ArtistNames(artists: seq<ArtistRef>): (names: seq<string>)
    ensures |names| == |artists|
    ensures forall i :: 0 <= i < |artists| ==> names[i] == artists[i].name
  {
    seq(|artists|, i requires 0 <= i < |artists| => artists[i].name)
  }

  /** `artists.map(a => a.name).join(sep)`. */
  function JoinedNames(artists: seq<ArtistRef>, sep: string): string {
    Join(ArtistNames(artists), sep)
  }

  /** `artists[0]?.id`. */
  function FirstArtistId(artists: seq<ArtistRef>): (r: Option<string>)
    ensures r.None? <==> artists == []
    ensures artists != [] ==> r == Some(artists[0].id)
  {
    if artists == [] then None else Some(artists[0].id)
  }

  /** `images[0]?.url`. */
  function FirstImageUrl(images: seq<Image>): (r: Option<string>)
    ensures r.None? <==> images == []
    ensures images != [] ==> r == Some(images[0].url)
  {
    if images == [] then None else Some(images[0].url)
  }

  /** `popularity || 0`: a missing popularity (and a zero one) reads as 0. */
  function PopularityOrZero(p: Option<int>): (r: int)
    ensures p.Some? ==> r == p.value
    ensures p.None? ==> r == 0
  {
    p.GetOr(0)
  }

  /** The mapping shared by the track searches: `artist` is the artist names
      joined by ", ", `artistId` the first artist's id, `albumArt` the first
      album image; no popularity is carried. */
  function ToSuggestion(hit: TrackHit): (s: TrackSuggestion)
    ensures s.id == hit.id && s.name == hit.name && s.popularity.None?
    ensures s.artist == JoinedNames(hit.artists, ", ")
    ensures s.artistId == FirstArtistId(hit.artists)
    ensures s.albumArt == FirstImageUrl(hit.album.images)
    ensures s.albumName == Some(hit.album.name) && s.albumId == Some(hit.album.id)
  {
    TrackSuggestion(
      hit.id, hit.name, JoinedNames(hit.artists, ", "),
      FirstImageUrl(hit.album.images), Some(hit.album.name), Some(hit.album.id),
      FirstArtistId(hit.artists), None)
  }

  /** Every artist's name is a factor of the joined artist text, so a
      pattern found in one artist's name is found in the joined text. */
  lemma ArtistNameInJoined(artists: seq<ArtistRef>, sep: string, k: nat, p: string)
    requires k < |artists| && Contains(artists[k].name, p)
    ensures Contains(JoinedNames(artists, sep), p)
  {
    PartFactorInJoin(ArtistNames(artists), sep, k, p);
  }

  /** The artist-search mapping: `type` is "artist", missing `images` and
      `genres` become empty, a missing follower count becomes 0. */
  function ToArtist(raw: RawArtist): (a: Artist)
    ensures a.id == raw.id && a.name == raw.name && a.kind == "artist"
    ensures a.uri == raw.uri && a.href == raw.href
    ensures raw.images.None? ==> a.images == []
    ensures raw.images.Some? ==> a.images == raw.images.value
    ensures raw.genres.None? ==> a.genres == []
    ensures raw.genres.Some? ==> a.genres == raw.genres.value
    ensures raw.followers.None? || raw.followers.value.total.None? ==> a.followers == 0
    ensures raw.followers.Some? && raw.followers.value.total.Some? ==> a.followers == raw.followers.value.total.value
  {
    Artist(
      raw.id, raw.name, "artist", raw.uri, raw.href,
      raw.images.GetOr([]),
      match raw.followers
        case None => 0
        case Some(f) => PopularityOrZero(f.total),
      raw.genres.GetOr([]))
  }

  /** The request of a catalog search: `limit` defaults to 10 and is passed on
      unchanged; the market is always "US". */
  function SearchRequest(query: string, kind: string, limit: Option<int>): (p: SearchParams)
    ensures p.q == query && p.kind == kind && p.market == "US"
    ensures limit.None? ==> p.limit == 10
    ensures limit.Some? ==> p.limit == limit.value
  {
    SearchParams(query, kind, limit.GetOr(10), "US")
  }
}
