/**
 * The browser-side catalog service (src/services/spotify.ts): the
 * derivative-version filter, the static access-token cache, track search,
 * an artist's top tracks with offset/limit paging, and an album's tracks.
 * Every network exchange is an input: the token endpoint's response and the
 * parsed catalog responses (or the error the request threw).
 */
module SpotifyService {

  import opened Wrappers
  import opened JsText
  import opened JsArray
  import opened Catalog
  import opened KeywordFilter
  import opened TokenRule

  /** Karaoke, live, remix/arrangement and other derivative-version markers. */
  const ExcludedKeywords: seq<string> := [
    "カラオケ", "karaoke", "オフボーカル", "off vocal", "instrumental", "backing track",
    "歌ってみよう", "sing along",
    "live", "ライブ", "concert", "コンサート", "tour", "ツアー",
    "live version", "live at", "ライブバージョン",
    "remix", "リミックス", "edit", "extended", "radio edit",
    "acoustic", "アコースティック", "unplugged", "アンプラグド",
    "cover", "カバー", "tribute", "トリビュート",
    "demo", "デモ", "rough", "ラフ", ".Ver", ".ver"
  ]

  /** `shouldExcludeTrack(trackName, artistName)`. */
  predicate ShouldExcludeTrack(trackName: string, artistName: string) {
    Excludes(ExcludedKeywords, trackName, artistName)
  }

  /** The test is exactly "some keyword, lowered, is a factor of the lowered
      `title + " " + artist`". */
  lemma ShouldExcludeTrackIff(trackName: string, artistName: string)
    ensures ShouldExcludeTrack(trackName, artistName)
        <==> exists k :: k in ExcludedKeywords && Contains(Lower(trackName + " " + artistName), Lower(k))
  {
    ExcludesIff(ExcludedKeywords, trackName, artistName);
  }

  /** Matching is by factor, not by word: "Through" holds "rough". */
  lemma ThroughIsExcluded(artistName: string)
    ensures ShouldExcludeTrack("Through", artistName)
  {
    assert Lower("Through") == "through";
    assert Lower("rough") == "rough";
    ContainsAt("through", "rough", 2);
    ExcludedByTitle(ExcludedKeywords, "Through", artistName, "rough");
  }

  /** "Oliver" holds "live". */
  lemma OliverIsExcluded(trackName: string)
    ensures ShouldExcludeTrack(trackName, "Oliver")
  {
    assert Lower("Oliver") == "oliver";
    assert Lower("live") == "live";
    ContainsAt("oliver", "live", 1);
    ExcludedByArtist(ExcludedKeywords, trackName, "Oliver", "live");
  }

  /** "off vocal" is found across the space that joins title and artist: a
      title ending in "off" with an artist starting with "vocal" is excluded,
      though neither holds a keyword alone. */
  lemma OffVocalAcrossTheJoin(trackName: string, artistName: string, before: string, after: string)
    requires Lower(trackName) == before + "off" && Lower(artistName) == "vocal" + after
    ensures ShouldExcludeTrack(trackName, artistName)
  {
    LowerAroundSpace(trackName, artistName);
    assert Lower(trackName + " " + artistName) == before + "off vocal" + after;
    assert Lower("off vocal") == "off vocal";
    ContainsAt("off vocal", "off vocal", 0);
    ContainsInFactor(before, "off vocal", after, "off vocal");
    ExcludedByKeyword(ExcludedKeywords, trackName, artistName, "off vocal");
  }

  /** '.Ver' and '.ver' lower to the same keyword, so every casing of ".ver"
      anywhere in the lowered text excludes the track. */
  lemma AnyVerVariantIsExcluded(trackName: string, artistName: string)
    requires Contains(Lower(trackName + " " + artistName), ".ver")
    ensures ShouldExcludeTrack(trackName, artistName)
  {
    assert Lower(".Ver") == ".ver";
    assert ".Ver" in ExcludedKeywords;
    ShouldExcludeTrackIff(trackName, artistName);
  }

  lemma UpperVerIsExcluded(artistName: string)
    ensures ShouldExcludeTrack("Lemon .VER", artistName)
  {
    assert Lower("Lemon .VER") == "lemon .ver";
    assert Lower(".ver") == ".ver";
    ContainsAt("lemon .ver", ".ver", 6);
    ExcludedByTitle(ExcludedKeywords, "Lemon .VER", artistName, ".ver");
  }

  /** The filter callback of the track searches. */
  predicate KeepTrack(t: TrackSuggestion) {
    !ShouldExcludeTrack(t.name, t.artist)
  }

  // ---------------------------------------------------------------------
  // SpotifyTokenManager

  /** The static `token`/`tokenExpiry` pair of `SpotifyTokenManager`; one
      instance stands for the class's static state. */
  class SpotifyTokenManager {
    var token: Option<string>
    var tokenExpiry: int

    constructor ()
      ensures token == None && tokenExpiry == 0
    {
      token := None;
      tokenExpiry := 0;
    }

    /** `getAccessToken()` at clock `now`; `response` is what the token
        endpoint would answer, consulted only on a cache miss. */
    method GetAccessToken(now: int, response: TokenResponse) returns (r: Result<string>)
      modifies this
      ensures IsReusable(old(token), old(tokenExpiry), now) ==>
        r == Success(old(token).value) && token == old(token) && tokenExpiry == old(tokenExpiry)
      ensures !IsReusable(old(token), old(tokenExpiry), now) ==>
        match response
        case Unreachable(message) =>
          r == Failure(message) && token == old(token) && tokenExpiry == old(tokenExpiry)
        case NotOk(_) =>
          r == Failure("Failed to get Spotify access token") && token == old(token) && tokenExpiry == old(tokenExpiry)
        case Granted(accessToken, expiresIn) =>
          if Truthy(accessToken) then
            r == Success(accessToken.value) && token == accessToken
            && tokenExpiry == RefreshedExpiry(now, expiresIn)
          else
            r == Failure("No access token received from Spotify")
            && token == old(token) && tokenExpiry == old(tokenExpiry)
      ensures r.Success? ==> r.value != ""
    {
      if IsReusable(token, tokenExpiry, now) {
        return Success(token.value);
      }
      match response {
        case Unreachable(message) =>
          r := Failure(message);
        case NotOk(_) =>
          r := Failure("Failed to get Spotify access token");
        case Granted(accessToken, expiresIn) =>
          if !Truthy(accessToken) {
            r := Failure("No access token received from Spotify");
          } else {
            token := accessToken;
            tokenExpiry := now + (expiresIn - 300) * 1000;
            r := Success(accessToken.value);
          }
      }
    }
  }

  // ---------------------------------------------------------------------
  // SpotifySearchService.searchTracks

  /** `searchTracks(query, limit)`: `upstream` is the answer to
      `SearchRequest(query, "track", limit)`, or the error the token or the
      fetch threw. A blank query answers `[]` without any request. The result
      is the mapped hits with the derivative versions dropped, in order. */
  function SearchTracks(query: string, upstream: Fetch<seq<TrackHit>>): (r: Result<seq<TrackSuggestion>>)
    ensures IsBlank(query) ==> r == Success([])
    ensures !IsBlank(query) && upstream.FetchError? ==> r == Failure(upstream.message)
    ensures !IsBlank(query) && upstream.Fetched? ==>
      && r.Success?
      && IsSubsequence(r.value, Map(upstream.body, ToSuggestion))
      && (forall i :: 0 <= i < |r.value| ==> !ShouldExcludeTrack(r.value[i].name, r.value[i].artist))
      && (forall i :: 0 <= i < |upstream.body| && KeepTrack(ToSuggestion(upstream.body[i]))
            ==> ToSuggestion(upstream.body[i]) in r.value)
      && KeepsCounts(r.value, Map(upstream.body, ToSuggestion), KeepTrack)
  {
    if IsBlank(query) then Success([])
    else match upstream
      case FetchError(message) => Failure(message)
      case Fetched(hits) =>
        var mapped := Map(hits, ToSuggestion);
        FilterIsSubsequence(mapped, KeepTrack);
        FilterCount(mapped, KeepTrack);
        Success(Filter(mapped, KeepTrack))
  }

  /** Nothing removes duplicates: a kept hit that comes back twice is
      returned twice. */
  lemma RepeatedHitKeptTwice(query: string, hit: TrackHit)
    requires !IsBlank(query) && KeepTrack(ToSuggestion(hit))
    ensures var r := SearchTracks(query, Fetched([hit, hit]));
      r.Success? && multiset(r.value)[ToSuggestion(hit)] == 2
  {
    RepeatSurvivesMapFilter(hit, ToSuggestion, KeepTrack);
    assert SearchTracks(query, Fetched([hit, hit])) == Success(Filter(Map([hit, hit], ToSuggestion), KeepTrack));
  }

  // ---------------------------------------------------------------------
  // getArtistTracks

  /** The mapping of `getArtistTracks`: the shared mapping plus
      `popularity || 0`. */
  function ToArtistTrack(hit: TrackHit): TrackSuggestion {
    ToSuggestion(hit).(popularity := Some(PopularityOrZero(hit.popularity)))
  }

  /** `getArtistTracks` filters the raw top tracks (title and joined
      artists) before mapping them. */
  predicate KeepHit(hit: TrackHit) {
    !ShouldExcludeTrack(hit.name, JoinedNames(hit.artists, ", "))
  }

  lemma KeepHitAgrees()
    ensures forall h :: KeepHit(h) == KeepTrack(ToArtistTrack(h))
  {
    forall h ensures KeepHit(h) == KeepTrack(ToArtistTrack(h)) {
      var t := ToArtistTrack(h);
      assert t.name == h.name && t.artist == JoinedNames(h.artists, ", ");
    }
  }

  lemma ArtistTrackListAgrees(top: seq<TrackHit>)
    ensures Map(Filter(top, KeepHit), ToArtistTrack) == Filter(Map(top, ToArtistTrack), KeepTrack)
  {
    KeepHitAgrees();
    FilterMapCommute(top, ToArtistTrack, KeepTrack, KeepHit);
  }

  /** The filtered, mapped top tracks, before paging. Filtering before the
      mapping keeps the same records as filtering the mapped records. */
  function ArtistTrackList(top: seq<TrackHit>): (tracks: seq<TrackSuggestion>)
    ensures tracks == Filter(Map(top, ToArtistTrack), KeepTrack)
  {
    ArtistTrackListAgrees(top);
    Map(Filter(top, KeepHit), ToArtistTrack)
  }

  datatype ArtistTracksPage = ArtistTracksPage(tracks: seq<TrackSuggestion>, total: int, hasMore: bool)

  /** `{ tracks: tracks.slice(offset, offset + limit), total: tracks.length,
      hasMore: offset + limit < tracks.length }`. */
  function PageOf(tracks: seq<TrackSuggestion>, offset: int, limit: int): (p: ArtistTracksPage)
    ensures p.total == |tracks|
    ensures p.hasMore <==> offset + limit < p.total
    ensures 0 <= offset && 0 <= limit ==> |p.tracks| <= limit
    ensures 0 <= offset <= |tracks| && 0 <= limit ==>
      p.tracks == tracks[offset..if offset + limit < |tracks| then offset + limit else |tracks|]
    ensures 0 <= offset && 0 <= limit && p.hasMore ==> |p.tracks| == limit
  {
    SliceWindow(tracks, offset, offset + limit);
    ArtistTracksPage(Slice(tracks, offset, offset + limit), |tracks|, offset + limit < |tracks|)
  }

  /** `getArtistTracks(artistId, offset = 0, limit = 20)`; `upstream` is the
      top-tracks response or the error the token or the fetch threw. */
  function GetArtistTracks(offset: Option<int>, limit: Option<int>, upstream: Fetch<seq<TrackHit>>): (r: Result<ArtistTracksPage>)
    ensures upstream.FetchError? ==> r == Failure(upstream.message)
    ensures upstream.Fetched? ==>
      r == Success(PageOf(ArtistTrackList(upstream.body), offset.GetOr(0), limit.GetOr(20)))
  {
    match upstream
    case FetchError(message) => Failure(message)
    case Fetched(top) => Success(PageOf(ArtistTrackList(top), offset.GetOr(0), limit.GetOr(20)))
  }

  /** The tracks of the first `k` pages, in order. */
  function PagesUpTo(tracks: seq<TrackSuggestion>, limit: int, k: nat): seq<TrackSuggestion> {
    if k == 0 then [] else PagesUpTo(tracks, limit, k - 1) + PageOf(tracks, (k - 1) * limit, limit).tracks
  }

  /** One more page extends the records read so far by the next ones. */
  lemma PageStep(tracks: seq<TrackSuggestion>, offset: nat, limit: nat)
    ensures tracks[..if offset < |tracks| then offset else |tracks|] + PageOf(tracks, offset, limit).tracks
         == tracks[..if offset + limit < |tracks| then offset + limit else |tracks|]
  {
    var p := PageOf(tracks, offset, limit);
    if offset <= |tracks| {
      var end := if offset + limit < |tracks| then offset + limit else |tracks|;
      assert p.tracks == tracks[offset..end];
      assert tracks[..end] == tracks[..offset] + tracks[offset..end];
    } else {
      SliceWindow(tracks, offset, offset + limit);
    }
  }

  /** Walking the pages at offsets 0, limit, 2*limit, ... reads the list in
      order, without gaps or repeats: the first `k` pages are its first
      `k * limit` records. */
  lemma {:induction false} PagesTile(tracks: seq<TrackSuggestion>, limit: int, k: nat)
    requires limit > 0
    ensures PagesUpTo(tracks, limit, k) == tracks[..if k * limit < |tracks| then k * limit else |tracks|]
  {
    if k > 0 {
      PagesTile(tracks, limit, k - 1);
      var offset := (k - 1) * limit;
      NextOffset(k, limit);
      PageStep(tracks, offset, limit);
      assert PagesUpTo(tracks, limit, k) == PagesUpTo(tracks, limit, k - 1) + PageOf(tracks, offset, limit).tracks;
    }
  }

  lemma NextOffset(k: nat, limit: int)
    requires k > 0 && limit > 0
    ensures 0 <= (k - 1) * limit && (k - 1) * limit + limit == k * limit
  {
  }

  /** The first page whose `hasMore` is false ends the list. */
  lemma LastPageCompletesTheList(tracks: seq<TrackSuggestion>, limit: int, k: nat)
    requires limit > 0 && k > 0 && !PageOf(tracks, (k - 1) * limit, limit).hasMore
    ensures PagesUpTo(tracks, limit, k) == tracks
  {
    PagesTile(tracks, limit, k);
    assert (k - 1) * limit + limit == k * limit;
  }

  // ---------------------------------------------------------------------
  // getAlbumTracks

  /** An entry of an album's track listing (no album object of its own). */
  datatype AlbumTrackItem = AlbumTrackItem(id: string, name: string, artists: seq<ArtistRef>)

  /** The album-tracks mapping: album art, name and id come from the album
      response. */
  function ToAlbumTrack(album: Album, item: AlbumTrackItem): TrackSuggestion {
    TrackSuggestion(
      item.id, item.name, JoinedNames(item.artists, ", "),
      FirstImageUrl(album.images), Some(album.name), Some(album.id),
      FirstArtistId(item.artists), None)
  }

  /** The album's listing, mapped, with the derivative versions dropped. */
  function AlbumTrackList(listing: seq<AlbumTrackItem>, album: Album): (tracks: seq<TrackSuggestion>)
    ensures IsSubsequence(tracks, Map(listing, item => ToAlbumTrack(album, item)))
    ensures forall i :: 0 <= i < |tracks| ==> KeepTrack(tracks[i])
    ensures forall i :: 0 <= i < |listing| && KeepTrack(ToAlbumTrack(album, listing[i]))
              ==> ToAlbumTrack(album, listing[i]) in tracks
    ensures KeepsCounts(tracks, Map(listing, item => ToAlbumTrack(album, item)), KeepTrack)
  {
    var mapped := Map(listing, item => ToAlbumTrack(album, item));
    FilterIsSubsequence(mapped, KeepTrack);
    FilterCount(mapped, KeepTrack);
    Filter(mapped, KeepTrack)
  }

  /** The parsed body of the album request. Its status is never checked,
      so an error status yields the catalog's error object, which has no
      `images`, `name` or `id`. */
  datatype AlbumBody = AlbumObject(album: Album) | ErrorObject(status: int, message: string)

  datatype AlbumTracks = AlbumTracks(tracks: seq<TrackSuggestion>, album: AlbumBody)

  /** The TypeError the engine throws for `albumData.images[0]` when
      `images` is undefined. */
  const ImagesUndefined: string := "Cannot read properties of undefined (reading '0')"

  /** `getAlbumTracks(albumId)`: `items` is the track-listing response and
      `album` the album response (or the error either request threw). An
      error object in place of the album is returned as the album when the
      listing is empty, since the mapping never runs; otherwise the mapping's
      first `albumData.images[0]` throws. */
  function GetAlbumTracks(items: Fetch<seq<AlbumTrackItem>>, album: Fetch<AlbumBody>): (r: Result<AlbumTracks>)
    ensures items.FetchError? ==> r == Failure(items.message)
    ensures items.Fetched? && album.FetchError? ==> r == Failure(album.message)
    ensures items.Fetched? && album.Fetched? && album.body.AlbumObject? ==>
      r == Success(AlbumTracks(AlbumTrackList(items.body, album.body.album), album.body))
    ensures items.Fetched? && album.Fetched? && album.body.ErrorObject? ==>
      && (r.Success? <==> items.body == [])
      && (items.body == [] ==> r.value == AlbumTracks([], album.body))
      && (items.body != [] ==> r == Failure(ImagesUndefined))
  {
    match items
    case FetchError(message) => Failure(message)
    case Fetched(listing) =>
      match album
      case FetchError(message) => Failure(message)
      case Fetched(AlbumObject(a)) => Success(AlbumTracks(AlbumTrackList(listing, a), AlbumObject(a)))
      case Fetched(ErrorObject(status, message)) =>
        if listing == [] then Success(AlbumTracks([], ErrorObject(status, message)))
        else Failure(ImagesUndefined)
  }
}
