/**
 * The server-side search actions of `convex/functions/spotify.ts`: the
 * track search maps each hit to a record and sorts the records by the
 * Japanese-preference score, largest first; the artist search maps each
 * hit with defaults for the missing fields. A blank query answers `[]`
 * before any request; every failure after that is reported with one fixed
 * message per action.
 *
 * `upstream` answers a catalog search request with the parsed response, or
 * with the error the token exchange or the fetch threw.
 *
 * As written, the sort's comparator scores the mapped records, which carry
 * no `artists` array, so scoring throws and the action fails whenever the
 * sort compares two records. `SearchTracksAsWritten` models that;
 * `SearchTracks` models the evident intent, ranking the hits by their
 * score before mapping them.
 */
module ConvexSearch {

  import opened Wrappers
  import opened JsText
  import opened JsArray
  import opened Catalog
  import opened PreferenceScore

  const TrackSearchFailed: string := "楽曲の検索に失敗しました"
  const ArtistSearchFailed: string := "アーティストの検索に失敗しました"

  /** The record the track search builds: the shared mapping, with the hit's
      popularity (possibly absent) carried over. */
  function ToRankedRecord(hit: TrackHit): (t: TrackSuggestion)
    ensures t.id == hit.id && t.name == hit.name && t.popularity == hit.popularity
    ensures t.artist == JoinedNames(hit.artists, ", ") && t.artistId == FirstArtistId(hit.artists)
    ensures t.albumArt == FirstImageUrl(hit.album.images)
    ensures t.albumName == Some(hit.album.name) && t.albumId == Some(hit.album.id)
  {
    ToSuggestion(hit).(popularity := hit.popularity)
  }

  // ---------------------------------------------------------------------
  // The track search as written

  /** The sort as written, on mapped records: `None` when it throws. The
      engine calls the comparator only when there are two records or more,
      and every call scores a record without an `artists` array, which
      throws a TypeError. */
  function SortRecordsAsWritten(records: seq<TrackSuggestion>): (r: Option<seq<TrackSuggestion>>)
    ensures r.Some? <==> |records| < 2
    ensures r.Some? ==> r.value == records
  {
    if |records| < 2 then Some(records) else None
  }

  function SearchTracksAsWritten(query: string, limit: Option<int>, upstream: SearchParams -> Fetch<seq<TrackHit>>)
    : (r: Result<seq<TrackSuggestion>>)
    ensures IsBlank(query) ==> r == Success([])
    ensures r.Failure? ==> r.message == TrackSearchFailed
  {
    if IsBlank(query) then Success([])
    else match upstream(SearchRequest(query, "track", limit))
      case FetchError(_) => Failure(TrackSearchFailed)
      case Fetched(items) =>
        match SortRecordsAsWritten(Map(items, ToRankedRecord))
        case None => Failure(TrackSearchFailed)
        case Some(tracks) => Success(tracks)
  }

  /** As written, a search that finds two tracks or more fails. */
  lemma AsWrittenFailsOnTwoHits(query: string, limit: Option<int>, upstream: SearchParams -> Fetch<seq<TrackHit>>)
    requires !IsBlank(query)
    requires upstream(SearchRequest(query, "track", limit)).Fetched?
    requires |upstream(SearchRequest(query, "track", limit)).body| >= 2
    ensures SearchTracksAsWritten(query, limit, upstream) == Failure(TrackSearchFailed)
  {
  }

  /** A concrete instance: the query "lemon" with a response of two hits. */
  lemma AsWrittenFailsOnLemon(a: TrackHit, b: TrackHit)
    ensures SearchTracksAsWritten("lemon", None, (p: SearchParams) => Fetched([a, b])) == Failure(TrackSearchFailed)
  {
    BlankIffAllWhitespace("lemon");
    assert "lemon"[0] == 'l';
  }

  // ---------------------------------------------------------------------
  // The track search as intended

  /** The hits ranked by score, largest first, ties in response order. */
  function RankByPreference(hits: seq<TrackHit>): (ranked: seq<TrackHit>)
    ensures multiset(ranked) == multiset(hits) && |ranked| == |hits|
  {
    var ranked := SortDescendingBy(hits, Score);
    assert |multiset(ranked)| == |ranked|;
    ranked
  }

  lemma RankByPreferenceOrder(hits: seq<TrackHit>)
    ensures SortedDescendingBy(RankByPreference(hits), Score)
    ensures forall v :: Filter(RankByPreference(hits), KeyIs(Score, v)) == Filter(hits, KeyIs(Score, v))
  {
    SortDescendingByIsStable(hits, Score);
  }

  /** `searchTracks({ query, limit = 10 })` with the comparator applied to
      the hits it was written for. */
  function SearchTracks(query: string, limit: Option<int>, upstream: SearchParams -> Fetch<seq<TrackHit>>)
    : (r: Result<seq<TrackSuggestion>>)
    ensures IsBlank(query) ==> r == Success([])
    ensures !IsBlank(query) && upstream(SearchRequest(query, "track", limit)).FetchError? ==>
      r == Failure(TrackSearchFailed)
    ensures !IsBlank(query) && upstream(SearchRequest(query, "track", limit)).Fetched? ==>
      r.Success? && |r.value| == |upstream(SearchRequest(query, "track", limit)).body|
  {
    if IsBlank(query) then Success([])
    else match upstream(SearchRequest(query, "track", limit))
      case FetchError(_) => Failure(TrackSearchFailed)
      case Fetched(items) => Success(Map(RankByPreference(items), ToRankedRecord))
  }

  /** The records come in the order of any stable ranking of the hits by
      score, largest first: each record is the mapping of the hit at its
      place in that ranking. */
  lemma SearchTracksRanked(query: string, limit: Option<int>, upstream: SearchParams -> Fetch<seq<TrackHit>>, ranked: seq<TrackHit>)
    requires !IsBlank(query) && upstream(SearchRequest(query, "track", limit)).Fetched?
    requires SortedDescendingBy(ranked, Score)
    requires forall v :: Filter(ranked, KeyIs(Score, v))
                      == Filter(upstream(SearchRequest(query, "track", limit)).body, KeyIs(Score, v))
    ensures SearchTracks(query, limit, upstream) == Success(Map(ranked, ToRankedRecord))
  {
    var items := upstream(SearchRequest(query, "track", limit)).body;
    RankByPreferenceOrder(items);
    StableSortUnique(RankByPreference(items), ranked, Score);
  }

  /** The intended search and the written one agree when there is no pair
      to compare. */
  lemma AgreeBelowTwoHits(query: string, limit: Option<int>, upstream: SearchParams -> Fetch<seq<TrackHit>>)
    requires upstream(SearchRequest(query, "track", limit)).Fetched? ==>
      |upstream(SearchRequest(query, "track", limit)).body| < 2
    ensures SearchTracks(query, limit, upstream) == SearchTracksAsWritten(query, limit, upstream)
  {
    var response := upstream(SearchRequest(query, "track", limit));
    if !IsBlank(query) && response.Fetched? {
      SortShort(response.body, Score);
    }
  }

  /** A blank query is answered before any request: the answer is the same
      whatever the catalog would say. */
  lemma BlankTrackQueryMakesNoRequest(query: string, limit: Option<int>, u1: SearchParams -> Fetch<seq<TrackHit>>, u2: SearchParams -> Fetch<seq<TrackHit>>)
    requires IsBlank(query)
    ensures SearchTracks(query, limit, u1) == SearchTracks(query, limit, u2) == Success([])
  {
  }

  /** Only the answer to `SearchRequest(query, "track", limit)` is read: the
      limit (10 when absent) is the one sent to the catalog. */
  lemma TrackSearchReadsItsRequest(query: string, limit: Option<int>, u1: SearchParams -> Fetch<seq<TrackHit>>, u2: SearchParams -> Fetch<seq<TrackHit>>)
    requires u1(SearchRequest(query, "track", limit)) == u2(SearchRequest(query, "track", limit))
    ensures SearchTracks(query, limit, u1) == SearchTracks(query, limit, u2)
    ensures SearchRequest(query, "track", limit).limit == limit.GetOr(10)
  {
  }

  // ---------------------------------------------------------------------
  // searchArtists

  /** `searchArtists({ query, limit = 10 })`. */
  function SearchArtists(query: string, limit: Option<int>, upstream: SearchParams -> Fetch<seq<RawArtist>>)
    : (r: Result<seq<Artist>>)
    ensures IsBlank(query) ==> r == Success([])
    ensures !IsBlank(query) && upstream(SearchRequest(query, "artist", limit)).FetchError? ==>
      r == Failure(ArtistSearchFailed)
    ensures !IsBlank(query) && upstream(SearchRequest(query, "artist", limit)).Fetched? ==>
      r == Success(Map(upstream(SearchRequest(query, "artist", limit)).body, ToArtist))
  {
    if IsBlank(query) then Success([])
    else match upstream(SearchRequest(query, "artist", limit))
      case FetchError(_) => Failure(ArtistSearchFailed)
      case Fetched(items) => Success(Map(items, ToArtist))
  }
}
