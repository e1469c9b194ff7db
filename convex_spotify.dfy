/**
 * `convex/spotify.ts`: a module-level access-token cache (`cachedToken`,
 * `tokenExpiry`) shared by two search actions. The clock, the environment's
 * credentials, the token endpoint's answer and the catalog's answer are
 * inputs.
 *
 * Unlike the browser-side cache, this one checks the credentials before
 * its `try` (so their error escapes as it is), rewraps every failure of the
 * exchange as "Failed to get Spotify access token", and stores whatever
 * `access_token` the body holds, present or not.
 */
module ConvexSpotify {

  import opened Wrappers
  import opened JsText
  import opened JsArray
  import opened Catalog
  import opened TokenRule

  const CredentialsMissing: string := "Spotify credentials not configured in Convex environment"
  const TokenFailed: string := "Failed to get Spotify access token"
  const TrackSearchFailed: string := "楽曲の検索に失敗しました"
  const ArtistSearchFailed: string := "アーティストの検索に失敗しました"

  /** `SPOTIFY_CLIENT_ID` and `SPOTIFY_CLIENT_SECRET` from the environment. */
  datatype Credentials = Credentials(clientId: Option<string>, clientSecret: Option<string>)

  predicate Configured(c: Credentials) {
    Truthy(c.clientId) && Truthy(c.clientSecret)
  }

  /** The cache holds no usable token, so `getSpotifyAccessToken` exchanges
      the credentials, and the exchange grants a token. */
  predicate Refreshes(cachedToken: Option<string>, tokenExpiry: int, now: int,
                      credentials: Credentials, exchange: TokenResponse) {
    !IsReusable(cachedToken, tokenExpiry, now) && Configured(credentials) && exchange.Granted?
  }

  /** `getSpotifyAccessToken` hands out a token: the cached one, or a
      freshly granted one. */
  predicate TokenObtained(cachedToken: Option<string>, tokenExpiry: int, now: int,
                          credentials: Credentials, exchange: TokenResponse) {
    IsReusable(cachedToken, tokenExpiry, now) || Refreshes(cachedToken, tokenExpiry, now, credentials, exchange)
  }

  /** The module's token state. One instance stands for the module. */
  class TokenCache {
    var cachedToken: Option<string>
    var tokenExpiry: int

    /** The state at module load: no token, expiry 0. */
    constructor ()
      ensures cachedToken == None && tokenExpiry == 0
    {
      cachedToken := None;
      tokenExpiry := 0;
    }

    /** `getSpotifyAccessToken()` at clock `now`. The result is the token
        handed to the caller, which is absent when the exchange's body had
        no `access_token`. */
    method GetSpotifyAccessToken(now: int, credentials: Credentials, exchange: TokenResponse)
      returns (r: Result<Option<string>>)
      modifies this
      ensures IsReusable(old(cachedToken), old(tokenExpiry), now) ==>
        r == Success(old(cachedToken)) && cachedToken == old(cachedToken) && tokenExpiry == old(tokenExpiry)
      ensures !IsReusable(old(cachedToken), old(tokenExpiry), now) && !Configured(credentials) ==>
        r == Failure(CredentialsMissing) && cachedToken == old(cachedToken) && tokenExpiry == old(tokenExpiry)
      ensures !IsReusable(old(cachedToken), old(tokenExpiry), now) && Configured(credentials) && !exchange.Granted? ==>
        r == Failure(TokenFailed) && cachedToken == old(cachedToken) && tokenExpiry == old(tokenExpiry)
      ensures !IsReusable(old(cachedToken), old(tokenExpiry), now) && Configured(credentials) && exchange.Granted? ==>
        r == Success(exchange.accessToken) && cachedToken == exchange.accessToken
        && tokenExpiry == RefreshedExpiry(now, exchange.expiresIn)
    {
      if Truthy(cachedToken) && now < tokenExpiry {
        return Success(cachedToken);
      }
      if !Truthy(credentials.clientId) || !Truthy(credentials.clientSecret) {
        return Failure(CredentialsMissing);
      }
      match exchange {
        case Unreachable(_) =>
          r := Failure(TokenFailed);
        case NotOk(_) =>
          r := Failure(TokenFailed);
        case Granted(accessToken, expiresIn) =>
          cachedToken := accessToken;
          tokenExpiry := now + (expiresIn - 300) * 1000;
          r := Success(cachedToken);
      }
    }

    /** `searchTracks({ query, limit = 10 })`: `upstream` answers a request
        sent with a token. A blank query is answered before the token is
        looked at; every later failure, the credentials error included, is
        reported as the action's own message. */
    method SearchTracks(query: string, limit: Option<int>, now: int, credentials: Credentials,
                        exchange: TokenResponse, upstream: (Option<string>, SearchParams) -> Fetch<seq<TrackHit>>)
      returns (r: Result<seq<TrackSuggestion>>)
      modifies this
      ensures IsBlank(query) ==>
        r == Success([]) && cachedToken == old(cachedToken) && tokenExpiry == old(tokenExpiry)
      ensures r.Failure? ==> r.message == TrackSearchFailed
      ensures !IsBlank(query) ==>
        (r.Success? <==> TokenObtained(old(cachedToken), old(tokenExpiry), now, credentials, exchange)
                         && upstream(cachedToken, SearchRequest(query, "track", limit)).Fetched?)
      ensures r.Success? && !IsBlank(query) ==>
        r.value == Map(upstream(cachedToken, SearchRequest(query, "track", limit)).body, ToSuggestion)
      ensures !IsBlank(query) && Refreshes(old(cachedToken), old(tokenExpiry), now, credentials, exchange) ==>
        cachedToken == exchange.accessToken && tokenExpiry == RefreshedExpiry(now, exchange.expiresIn)
      ensures !IsBlank(query) && !Refreshes(old(cachedToken), old(tokenExpiry), now, credentials, exchange) ==>
        cachedToken == old(cachedToken) && tokenExpiry == old(tokenExpiry)
    {
      if IsBlank(query) {
        return Success([]);
      }
      var token := GetSpotifyAccessToken(now, credentials, exchange);
      if token.Failure? {
        return Failure(TrackSearchFailed);
      }
      match upstream(token.value, SearchRequest(query, "track", limit)) {
        case FetchError(_) =>
          r := Failure(TrackSearchFailed);
        case Fetched(items) =>
          r := Success(Map(items, ToSuggestion));
      }
    }

    /** `searchArtists({ query, limit = 10 })`, with the same guard and the
        artist mapping's defaults. */
    method SearchArtists(query: string, limit: Option<int>, now: int, credentials: Credentials,
                         exchange: TokenResponse, upstream: (Option<string>, SearchParams) -> Fetch<seq<RawArtist>>)
      returns (r: Result<seq<Artist>>)
      modifies this
      ensures IsBlank(query) ==>
        r == Success([]) && cachedToken == old(cachedToken) && tokenExpiry == old(tokenExpiry)
      ensures r.Failure? ==> r.message == ArtistSearchFailed
      ensures !IsBlank(query) ==>
        (r.Success? <==> TokenObtained(old(cachedToken), old(tokenExpiry), now, credentials, exchange)
                         && upstream(cachedToken, SearchRequest(query, "artist", limit)).Fetched?)
      ensures r.Success? && !IsBlank(query) ==>
        r.value == Map(upstream(cachedToken, SearchRequest(query, "artist", limit)).body, ToArtist)
      ensures !IsBlank(query) && Refreshes(old(cachedToken), old(tokenExpiry), now, credentials, exchange) ==>
        cachedToken == exchange.accessToken && tokenExpiry == RefreshedExpiry(now, exchange.expiresIn)
      ensures !IsBlank(query) && !Refreshes(old(cachedToken), old(tokenExpiry), now, credentials, exchange) ==>
        cachedToken == old(cachedToken) && tokenExpiry == old(tokenExpiry)
    {
      if IsBlank(query) {
        return Success([]);
      }
      var token := GetSpotifyAccessToken(now, credentials, exchange);
      if token.Failure? {
        return Failure(ArtistSearchFailed);
      }
      match upstream(token.value, SearchRequest(query, "artist", limit)) {
        case FetchError(_) =>
          r := Failure(ArtistSearchFailed);
        case Fetched(items) =>
          r := Success(Map(items, ToArtist));
      }
    }
  }
}
