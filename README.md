# Recall Notes: search, ranking, token cache, playlists and input state, in Dafny

Recall Notes is a playlist app: a user searches the music catalog, picks a
track, and stores it in their playlist. This project models the logic the
app runs between the network and the screen, and proves what that logic
promises:

- **Derivative-version filter** (`shouldExcludeTrack`). The title and the
  artist are joined by a space and lower-cased. A track is dropped when some
  keyword of a list occurs in that text. The browser service and the mock
  service each have their own list.
- **Browser catalog service.** It maps search hits to `TrackSuggestion`
  records and filters them, pages an artist's top tracks by offset and
  limit, and maps and filters an album's tracks. Its static access-token
  cache keeps a 300-second safety margin.
- **Mock search.** It matches over a fixed table of thirteen tracks,
  excludes derivative versions, and does an in-place stable sort into three
  relevance tiers (exact title, title prefix, the rest), then a cut to
  `limit`.
- **Japanese-preference score.** The score is the popularity, plus 50 once
  when a Japanese pattern matches, minus 20 once when an international
  pattern matches. Patterns are character ranges and whole-word regular
  expressions with ASCII `\b`.
- **Server-side search actions.** Both modules reject blank queries. One
  sorts by score, which fails as written: see "## Findings". The other
  holds a module-level token cache.
- **Playlist table.** `addPlaylist` checks for duplicates by catalog id
  when one is given, and otherwise by exact title and artist. The check
  covers only the user's own records.
- **Pagination component.** It computes the page count, the page-button
  list with '...' gaps, and the item range.
- **The two autocomplete inputs.** Their keyboard and selection handlers
  step the text, the list's visibility and the highlighted index.

Network exchanges, the clock and the environment become inputs. A fetch or
token exchange is a `Fetch` value (a parsed body or an error message). A
token endpoint answer is a `TokenResponse`. `Date.now()` is a `now`
parameter. Pure code is functions and lemmas. Code that changes state step
by step is imperative Dafny:

- the token caches and the playlist table are classes whose methods update
  fields;
- the mock sort is an insertion sort on an `array`;
- the page list and the scorer are methods with loops.

Each of these methods is proved equal to a specification function, or is
given its whole new state. The properties are proved about the
specification functions.

No action removes duplicate ids from search results: a hit that comes back
twice is returned twice. The keyword filter and the score are used by
different actions; no single pipeline both filters and ranks.

## Model

| member | source | states |
|---|---|---|
| JsText.BlankIffAllWhitespace | recall-notes/src/services/spotify.ts:102-104 | `!query.trim()` holds exactly when every character of the query is ECMAScript whitespace or a line terminator |
| JsText.Utf16Length | recall-notes/src/components/ArtistSearchInput.tsx:51 | `length` counts UTF-16 code units: between the number of code points and twice that |
| JsText.AtLeastTwoUnits | recall-notes/src/components/ArtistSearchInput.tsx:51 | `length >= 2` holds for two code points or more, and also for a single code point above U+FFFF |
| JsArray.FilterIsSubsequence | recall-notes/src/services/spotify.ts:145-150 | `filter` keeps an order-preserving subsequence whose members satisfy the callback, and keeps every member that does |
| JsArray.FilterCount | recall-notes/src/services/spotify.ts:145-150 | `filter` keeps every copy of a value the callback accepts and no copy of one it rejects, so with the subsequence property its result is fixed |
| JsArray.SliceWindow | recall-notes/src/services/spotify.ts:204 | `slice(start, end)` with `0 <= start <= end` yields at most `end - start` elements: `s[start..end]`, or the rest of `s`, or nothing past the end |
| JsArray.SortDescendingByIsStable | recall-notes/convex/functions/spotify.ts:64-68 | The descending sort by a key is sorted, and keeps each class of equal keys in input order |
| JsArray.StableSortUnique | recall-notes/convex/functions/spotify.ts:64-68 | Any two orderings that are sorted descending by a key and keep each key class in input order are equal, so a stable engine sort gives the modelled order |
| Catalog.FirstArtistId | recall-notes/src/services/spotify.ts:141 | `artists[0]?.id` is absent exactly when there are no artists, otherwise the first artist's id |
| Catalog.FirstImageUrl | recall-notes/src/services/spotify.ts:138 | `images[0]?.url` is absent exactly when there are no images, otherwise the first url |
| Catalog.PopularityOrZero | recall-notes/src/services/spotify.ts:198 | A missing popularity reads as 0, a present one as itself |
| Catalog.ToSuggestion | recall-notes/src/services/spotify.ts:134-142 | The hit-to-suggestion mapping copies id and title. Its artist is the artist names joined by ", ", its artist id the first artist's, its album art the album's first image, and its album name and id the album's. It carries no popularity |
| Catalog.ArtistNameInJoined | recall-notes/convex/lib/spotify.ts:40 | A text found in one artist's name is found in the joined artist text |
| Catalog.ToArtist | recall-notes/convex/functions/spotify.ts:120-129 | An artist record copies id, name, uri and href, and has type "artist". Present images and genres are copied, missing ones become empty. A missing follower count becomes 0, and a present one is copied |
| Catalog.SearchRequest | recall-notes/convex/functions/spotify.ts:29-34 | The search request carries the query and kind, market "US", and the limit: the given one, or 10 |
| KeywordFilter.CombinedText | recall-notes/src/services/spotify.ts:26 | The searched text is title, one space, artist, with the space at the title's length |
| KeywordFilter.SomeKeywordInIff | recall-notes/src/services/spotify.ts:28-30 | The left-to-right `some` scan finds a keyword exactly when some lowered keyword is a factor of the text |
| KeywordFilter.ExcludesIff | recall-notes/src/services/spotify.ts:25-31 | The exclusion test holds iff some lowered keyword is a factor of the lowered `title + " " + artist` |
| KeywordFilter.ExcludesIgnoresCase | recall-notes/src/services/spotify.ts:26 | Lower-casing title and artist beforehand does not change the verdict |
| KeywordFilter.ExcludedByKeyword | recall-notes/src/services/spotify.ts:26-29 | A keyword found anywhere in the combined text, even across the joining space, excludes the track |
| KeywordFilter.ExcludedByTitle | recall-notes/src/services/spotify.ts:26-29 | A keyword in the lowered title alone excludes the track, whatever the artist |
| KeywordFilter.ExcludedByArtist | recall-notes/src/services/spotify.ts:26-29 | A keyword in the lowered artist alone excludes the track, whatever the title |
| SpotifyService.ShouldExcludeTrackIff | recall-notes/src/services/spotify.ts:4-31 | With the service's keyword list, the track is excluded iff some lowered keyword is a factor of the lowered combined text |
| SpotifyService.ThroughIsExcluded | recall-notes/src/services/spotify.ts:19 | Matching is by substring: "Through" is excluded through "rough" |
| SpotifyService.OliverIsExcluded | recall-notes/src/services/spotify.ts:10 | The artist "Oliver" is excluded through "live" |
| SpotifyService.OffVocalAcrossTheJoin | recall-notes/src/services/spotify.ts:6 | A title ending in "off" with an artist starting with "vocal" is excluded through "off vocal" across the joining space |
| SpotifyService.AnyVerVariantIsExcluded | recall-notes/src/services/spotify.ts:19 | '.Ver' and '.ver' lower to one keyword, so ".ver" in any casing excludes the track |
| SpotifyService.UpperVerIsExcluded | recall-notes/src/services/spotify.ts:19 | "Lemon .VER" is excluded whatever the artist |
| SpotifyService.SpotifyTokenManager.constructor | recall-notes/src/services/spotify.ts:45-46 | The cache starts with no token and expiry 0 |
| SpotifyService.SpotifyTokenManager.GetAccessToken | recall-notes/src/services/spotify.ts:48-83 | The cached token is reused iff it is truthy and `now < expiry`. A not-ok response fails with "Failed to get Spotify access token". A missing or empty `access_token` fails with "No access token received from Spotify". A fetch error propagates. All failures leave the cache unchanged. A grant stores the token and `now + (expires_in - 300) * 1000`. A returned token is never empty |
| SpotifyService.SearchTracks | recall-notes/src/services/spotify.ts:98-159 | A blank query gives `[]`. An upstream error propagates. Otherwise the result is an order-preserving subsequence of the mapped hits, none excluded, holding each mapped hit that is not excluded as many times as the hits do |
| SpotifyService.RepeatedHitKeptTwice | recall-notes/src/services/spotify.ts:134-150 | No duplicate removal: a kept hit that the catalog returns twice is in the result twice |
| SpotifyService.KeepHitAgrees | recall-notes/src/services/spotify.ts:189 | Testing the raw hit's title and joined artists is the same as testing the mapped record |
| SpotifyService.ArtistTrackListAgrees | recall-notes/src/services/spotify.ts:188-199 | Filtering the raw top tracks and then mapping them equals mapping them and then filtering the records |
| SpotifyService.ArtistTrackList | recall-notes/src/services/spotify.ts:188-199 | The artist's list is the mapped top tracks, with popularity defaulting to 0 and derivative versions dropped, in order |
| SpotifyService.PageOf | recall-notes/src/services/spotify.ts:204-210 | `total` is the list's length. `hasMore` holds iff `offset + limit < total`. A page has at most `limit` records, exactly `limit` when there are more, and they are `tracks[offset .. min(offset+limit, total))` |
| SpotifyService.GetArtistTracks | recall-notes/src/services/spotify.ts:166-216 | Offset defaults to 0 and limit to 20. An upstream error propagates. Otherwise the result is that page of the filtered list |
| SpotifyService.PageStep | recall-notes/src/services/spotify.ts:204 | The records before an offset, followed by the page at that offset, are the records before `offset + limit` |
| SpotifyService.PagesTile | recall-notes/src/services/spotify.ts:204-209 | The pages at offsets 0, limit, 2·limit, ... read the list in order without gap or repeat: the first k pages are its first k·limit records |
| SpotifyService.LastPageCompletesTheList | recall-notes/src/services/spotify.ts:209 | Once a page reports no more, the pages read so far are the whole list |
| SpotifyService.AlbumTrackList | recall-notes/src/services/spotify.ts:255-267 | The album's records are an order-preserving subsequence of the mapped listing with album art, name and id from the album. None is excluded, and each record that is not excluded appears as many times as in the mapped listing |
| SpotifyService.GetAlbumTracks | recall-notes/src/services/spotify.ts:221-276 | An error thrown by either request propagates, the listing's first. With an album object the result is the filtered listing and the album. The album's status is not checked: an error object in its place is returned as the album with no tracks when the listing is empty, and otherwise the mapping throws on `albumData.images[0]` |
| TokenRule.RefreshedExpiry | recall-notes/src/services/spotify.ts:76 | The stored expiry lies `(expires_in - 300) * 1000` ms after the clock reading |
| TokenRule.FreshTokenLifetime | recall-notes/src/services/spotify.ts:50-76 | A freshly stored token is reused at a later time iff it is non-empty and less than its lifetime minus 300 s has passed |
| TokenRule.ShortGrantNeverReused | recall-notes/convex/spotify.ts:44-46 | A granted lifetime of 300 s or less is never reused at any later time |
| MockSpotify.ShouldExcludeTrackIff | recall-notes/src/services/mockSpotify.ts:4-20 | With the mock's list (adds "歌ってみた", lacks ".Ver"), the track is excluded iff some lowered keyword is a factor of the lowered combined text |
| MockSpotify.Compare | recall-notes/src/services/mockSpotify.ts:150-164 | The comparator's sign is the order of the relevance tiers: exact title 0, title prefix 1, otherwise 2 |
| MockSpotify.Sink | recall-notes/src/services/mockSpotify.ts:150-164 | One insertion step shifts the higher-tier tracks of the sorted prefix up by one and puts the track after every track of its tier or lower |
| MockSpotify.InsertAt | recall-notes/src/services/mockSpotify.ts:150-164 | After one insertion step the prefix is the rank order of the tracks seen so far, and the rest of the array is untouched |
| MockSpotify.SortByRelevance | recall-notes/src/services/mockSpotify.ts:150-164 | The in-place sort leaves the array in rank order: tier 0, then tier 1, then tier 2, each in input order |
| MockSpotify.RankedIsPermutation | recall-notes/src/services/mockSpotify.ts:150 | Ranking only reorders: same tracks, same multiplicities |
| MockSpotify.RankedSorted | recall-notes/src/services/mockSpotify.ts:150-164 | Tiers never decrease along the rank order |
| MockSpotify.RankedStable | recall-notes/src/services/mockSpotify.ts:150-164 | Within each tier the rank order keeps input order (the sort is stable) |
| MockSpotify.RankedDistinct | recall-notes/src/services/mockSpotify.ts:150-164 | Ranking a duplicate-free list leaves it duplicate-free |
| MockSpotify.SearchTracks | recall-notes/src/services/mockSpotify.ts:114-168 | The search returns the specified results, with the limit defaulting to 10 |
| MockSpotify.SortedCopy | recall-notes/src/services/mockSpotify.ts:142-164 | Sorting the filtered results in an array yields their rank order |
| MockSpotify.FilteredFrom | recall-notes/src/services/mockSpotify.ts:128-147 | Every track surviving both filters is a table entry that matches the query and is not excluded |
| MockSpotify.SearchResultsMatch | recall-notes/src/services/mockSpotify.ts:118-167 | Every returned track is a table entry. It matches the lowered, untrimmed query by title, artist or one of the three "lemon" aliases, and the mock's filter keeps it |
| MockSpotify.ExcludedTitleNeverReturned | recall-notes/src/services/mockSpotify.ts:142-147 | A title excluded whatever the artist is never returned |
| MockSpotify.KaraokeEntryExcluded | recall-notes/src/services/mockSpotify.ts:87 | "Lemon (カラオケ)" is excluded whatever the artist |
| MockSpotify.LiveEntryExcluded | recall-notes/src/services/mockSpotify.ts:93 | "Pretender (Live at 東京ドーム)" is excluded through "live", whatever the artist |
| MockSpotify.SungCoverEntryExcluded | recall-notes/src/services/mockSpotify.ts:99 | "マリーゴールド (歌ってみた)" is excluded through "歌ってみた", whatever the artist |
| MockSpotify.KaraokeNeverReturned | recall-notes/src/services/mockSpotify.ts:84-90 | No query returns the karaoke entry's title |
| MockSpotify.LiveNeverReturned | recall-notes/src/services/mockSpotify.ts:91-96 | No query returns the live entry's title |
| MockSpotify.SungCoverNeverReturned | recall-notes/src/services/mockSpotify.ts:97-102 | No query returns the sung-cover entry's title |
| MockSpotify.ExcludeEntriesNeverReturned | recall-notes/src/services/mockSpotify.ts:84-102 | None of the three `mock-exclude-*` titles is returned, for any query and limit |
| MockSpotify.SearchResultsBounded | recall-notes/src/services/mockSpotify.ts:167 | At most `limit` tracks are returned |
| MockSpotify.MockTracksDistinct | recall-notes/src/services/mockSpotify.ts:23-103 | The table has no repeated entry |
| MockSpotify.SearchResultsDistinct | recall-notes/src/services/mockSpotify.ts:128-167 | No track is returned twice |
| MockSpotify.SearchResultsInTierOrder | recall-notes/src/services/mockSpotify.ts:150-164 | Returned tracks come exact titles first, then title prefixes, then the rest |
| MockSpotify.SearchResultsStable | recall-notes/src/services/mockSpotify.ts:150-167 | Within each tier the returned tracks are the first candidates of that tier, in table order |
| MockSpotify.SearchReturnsAllCandidates | recall-notes/src/services/mockSpotify.ts:128-167 | When the limit admits all candidates, each is returned exactly once |
| MockSpotifyExamples.NameMatchesLemon | recall-notes/src/services/mockSpotify.ts:133 | A title beginning with "Lemon" matches the query "lemon" |
| MockSpotifyExamples.ArtistMatchesKome | recall-notes/src/services/mockSpotify.ts:134 | The artist 米津玄師 matches the query "米津" |
| MockSpotifyExamples.NoMatch | recall-notes/src/services/mockSpotify.ts:133-138 | A query that is not a "lemon" alias, with one character missing from the title and one missing from the artist in any case, does not match |
| MockSpotifyExamples.KomeMatches | recall-notes/src/services/mockSpotify.ts:128-139 | "米津" matches mock-1, mock-2 and mock-exclude-1, in table order |
| MockSpotifyExamples.KaraokeDropped | recall-notes/src/services/mockSpotify.ts:142-147 | The karaoke entry at the end of the matches is dropped by the keyword filter |
| MockSpotifyExamples.OneTierResults | recall-notes/src/services/mockSpotify.ts:150-167 | Candidates that share one tier and fit the default limit are returned as they are |
| MockSpotifyExamples.KomeQueryExample | recall-notes/src/services/mockSpotify.ts:25-35 | The query "米津" returns mock-1 then mock-2, each one if the keyword test keeps it |
| MockSpotifyExamples.LemonQueryExample | recall-notes/src/services/mockSpotify.ts:86-89 | The query "Lemon" returns at most mock-1: the karaoke entry matches but is excluded |
| PreferenceScore.Score | recall-notes/convex/lib/spotify.ts:43-69 | The score lies between the popularity (or 0) minus 20 and plus 50 |
| PreferenceScore.CalculateJapanesePreferenceScore | recall-notes/convex/lib/spotify.ts:38-72 | The two pattern loops with `break` compute popularity + 50 when some Japanese pattern matches the title, artists or album, and − 20 when some international one does |
| PreferenceScore.JapaneseFlagRaises | recall-notes/convex/lib/spotify.ts:57-62 | A Japanese-looking track outscores an otherwise equal one by exactly 50 |
| PreferenceScore.InternationalFlagLowers | recall-notes/convex/lib/spotify.ts:64-69 | An international-looking track scores exactly 20 below an otherwise equal one |
| PreferenceScore.BothFlags | recall-notes/convex/lib/spotify.ts:57-69 | With both flags the score is popularity + 30 |
| PreferenceScore.JapaneseCharSurvivesLower | recall-notes/convex/lib/spotify.ts:46 | A kana or kanji still matches the character-range pattern after lower-casing |
| PreferenceScore.JapaneseTitleChar | recall-notes/convex/lib/spotify.ts:39-58 | One character in U+3040–309F, U+30A0–30FF or U+4E00–9FAF in the title sets the Japanese flag |
| PreferenceScore.JapaneseAlbumChar | recall-notes/convex/lib/spotify.ts:41-58 | One such character in the album name sets it |
| PreferenceScore.JapaneseArtistChar | recall-notes/convex/lib/spotify.ts:40-58 | One such character in any artist's name sets it |
| PreferenceScore.NoWordAfterWordChar | recall-notes/convex/lib/spotify.ts:47-54 | A word starting with a word character does not match right after a word character (`\b` is ASCII) |
| PreferenceScore.NoWordBeforeWordChar | recall-notes/convex/lib/spotify.ts:47-54 | A word ending with a word character does not match right before a word character |
| PreferenceScore.DottedWordNeedsWordCharAfter | recall-notes/convex/lib/spotify.ts:52 | "feat." and "ft." match only when a letter, digit or underscore follows the dot |
| PreferenceScore.MusicIsNotUs | recall-notes/convex/lib/spotify.ts:54 | "music" does not trigger "us" or any other country word |
| PreferenceScore.RemixedIsNotRemix | recall-notes/convex/lib/spotify.ts:53 | "remixed" triggers none of "remix", "mix", "edit" |
| PreferenceScore.SpacedFeatLacksFeat | recall-notes/convex/lib/spotify.ts:52 | "(feat. guest)" holds no whole-word "feat." |
| PreferenceScore.SpacedFeatLacksFt | recall-notes/convex/lib/spotify.ts:52 | "(feat. guest)" holds no whole-word "ft." |
| PreferenceScore.SpacedFeatLacksFeaturing | recall-notes/convex/lib/spotify.ts:52 | "(feat. guest)" holds no "featuring" |
| PreferenceScore.SpacedFeatIsNotInternational | recall-notes/convex/lib/spotify.ts:52 | The usual credit "(feat. guest)" does not trigger the featuring pattern |
| PreferenceScore.GluedFeatIsInternational | recall-notes/convex/lib/spotify.ts:52 | "feat.guest" does trigger it |
| ConvexSearch.ToRankedRecord | recall-notes/convex/functions/spotify.ts:53-63 | The record has joined artist names, the first artist's id, the first image and the album. Its popularity is copied from the hit, possibly absent |
| ConvexSearch.SortRecordsAsWritten | recall-notes/convex/functions/spotify.ts:64-68 | Sorting the mapped records succeeds iff there are fewer than two, and then changes nothing |
| ConvexSearch.SearchTracksAsWritten | recall-notes/convex/functions/spotify.ts:9-76 | As written: a blank query gives `[]`, and every failure carries "楽曲の検索に失敗しました" |
| ConvexSearch.AsWrittenFailsOnTwoHits | recall-notes/convex/functions/spotify.ts:64-74 | As written, any non-blank search whose response holds two or more tracks fails |
| ConvexSearch.AsWrittenFailsOnLemon | recall-notes/convex/functions/spotify.ts:64-74 | The query "lemon" answered with any two tracks fails |
| ConvexSearch.RankByPreference | recall-notes/convex/functions/spotify.ts:64-68 | Ranking by score is a permutation of the hits |
| ConvexSearch.RankByPreferenceOrder | recall-notes/convex/functions/spotify.ts:64-68 | The ranking is by score descending (`scoreB - scoreA`), and equal scores keep response order |
| ConvexSearch.SearchTracks | recall-notes/convex/functions/spotify.ts:9-76 | Corrected search. A blank query gives `[]`. An upstream failure gives "楽曲の検索に失敗しました". A response gives one record per hit |
| ConvexSearch.SearchTracksRanked | recall-notes/convex/functions/spotify.ts:53-68 | The records are the mapping of any stable descending ranking of the hits by score |
| ConvexSearch.AgreeBelowTwoHits | recall-notes/convex/functions/spotify.ts:64-68 | The corrected and written searches agree whenever the response has fewer than two hits |
| ConvexSearch.BlankTrackQueryMakesNoRequest | recall-notes/convex/functions/spotify.ts:19-22 | A blank query's answer does not depend on the catalog at all |
| ConvexSearch.TrackSearchReadsItsRequest | recall-notes/convex/functions/spotify.ts:15-34 | Only the answer to the request with the query, kind "track" and the limit (10 by default) is read |
| ConvexSearch.SearchArtists | recall-notes/convex/functions/spotify.ts:81-137 | A blank query gives `[]`. An upstream failure gives "アーティストの検索に失敗しました". A response gives the artist mapping of each hit, in order |
| ConvexSpotify.TokenCache.constructor | recall-notes/convex/spotify.ts:7-8 | The module starts with no token and expiry 0 |
| ConvexSpotify.TokenCache.GetSpotifyAccessToken | recall-notes/convex/spotify.ts:10-53 | The cached token is reused iff it is truthy and `now < expiry`. Otherwise, missing credentials fail with their own message and leave the cache unchanged. A failed exchange fails with "Failed to get Spotify access token" and leaves it unchanged. A grant stores its `access_token` even when absent, with expiry `now + (expires_in - 300) * 1000` |
| ConvexSpotify.TokenCache.SearchTracks | recall-notes/convex/spotify.ts:58-118 | A blank query gives `[]` without touching the cache. Otherwise it succeeds exactly when a token is obtained (cached and reusable, or freshly granted) and the request sent with it is answered. Success is the mapped response, unfiltered and unsorted; any failure, including the token's, gives "楽曲の検索に失敗しました". The cache takes the granted token and its refreshed expiry when a grant happens, and is unchanged otherwise |
| ConvexSpotify.TokenCache.SearchArtists | recall-notes/convex/spotify.ts:123-179 | The same for artists, with "アーティストの検索に失敗しました" and the artist mapping: success exactly when a token is obtained and answered, and the cache's new state in each case |
| Playlists.PlaylistsByUser | recall-notes/convex/playlists.ts:4-12 | The user's records are exactly the table's records with that user id, each as often as in the table, in table order |
| Playlists.HasSpotifyId | recall-notes/convex/playlists.ts:15-29 | True iff some record of that user has that catalog id |
| Playlists.HasTitleArtist | recall-notes/convex/playlists.ts:32-52 | True iff some record of that user has exactly that title and artist, case-sensitive |
| Playlists.AcceptedInsertKeepsIdsUnique | recall-notes/convex/playlists.ts:70-96 | An insert that passed the check keeps every user's non-empty catalog ids unique |
| Playlists.InsertLeavesOtherUsers | recall-notes/convex/playlists.ts:96 | An insert leaves every other user's list unchanged |
| Playlists.InsertAppendsToOwnList | recall-notes/convex/playlists.ts:96 | An insert appends the record to the inserting user's list |
| Playlists.OtherUsersDoNotBlock | recall-notes/convex/playlists.ts:70-90 | Another user's record never makes an insert a duplicate |
| Playlists.PlaylistTable.AddPlaylist | recall-notes/convex/playlists.ts:54-98 | It rejects iff the user has the same catalog id (when the id is non-empty) or else the same title and artist. A rejection carries "この楽曲は既にプレイリストに追加されています" and leaves the table unchanged. Otherwise it appends `args` and returns the new record's position, and catalog-id uniqueness is preserved |
| Pagination.TotalPages | recall-notes/src/components/Pagination.tsx:18 | The page count is the ceiling: enough pages for every item, and the last page is non-empty |
| Pagination.Window | recall-notes/src/components/Pagination.tsx:28-31 | The loop's pages are `lo..hi`, consecutive, none when `hi < lo` |
| Pagination.GetVisiblePages | recall-notes/src/components/Pagination.tsx:23-49 | The loop and the pushes produce the specified page list |
| Pagination.VisiblePagesEnds | recall-notes/src/components/Pagination.tsx:34-46 | The list starts with page 1, and ends with the last page when there is more than one |
| Pagination.VisiblePagesGaps | recall-notes/src/components/Pagination.tsx:34-46 | A leading '...' appears iff `current - 2 > 2`; a trailing one iff `current + 2 < total - 1` |
| Pagination.VisiblePagesOrdered | recall-notes/src/components/Pagination.tsx:28-46 | Page numbers lie in `[1, total]`, strictly increase (so none repeats), and no two '...' are adjacent |
| Pagination.VisiblePagesNeighbours | recall-notes/src/components/Pagination.tsx:24-31 | Every page within 2 of the current one is offered |
| Pagination.ShownPages | recall-notes/src/components/Pagination.tsx:51 | No page buttons exactly when there is at most one page |
| Pagination.NavigationGuards | recall-notes/src/components/Pagination.tsx:19-55 | "Previous" is enabled from page 2. Without more to load, "next" is enabled iff before the last page. When nothing renders there are no buttons and nothing more to load |
| Pagination.ItemRangeWithinItems | recall-notes/src/components/Pagination.tsx:63 | On an existing page the range lies within `[1, total]`, spans at most one page, and on the last page ends at the last item |
| ListNavigation.ArrowsStayInList | recall-notes/src/components/SearchInput.tsx:76-88 | From −1 or a valid index, both arrows land on a valid index. Down from −1 gives 0 and down from n−1 wraps to 0. Up from −1 or 0 wraps to n−1 |
| ListNavigation.UpUndoesDown | recall-notes/src/components/SearchInput.tsx:76-88 | On a valid index, up undoes down and down undoes up |
| ListNavigation.DownTimesWithinList | recall-notes/src/components/SearchInput.tsx:76-81 | k < n presses of down from the first suggestion highlight suggestion k |
| ListNavigation.FullCycle | recall-notes/src/components/SearchInput.tsx:76-81 | n presses of down from the first suggestion return to it, and the highlight cycles with period n |
| SearchInput.TypingOpensList | recall-notes/src/components/SearchInput.tsx:43-54 | Typing sets the text, opens the list, and highlights nothing |
| SearchInput.KeysIgnoredWhileClosed | recall-notes/src/components/SearchInput.tsx:73 | No key changes anything while the list is closed or empty |
| SearchInput.ArrowKeepsHighlightInList | recall-notes/src/components/SearchInput.tsx:76-88 | An arrow on an open list keeps the highlight on a suggestion and changes nothing else |
| SearchInput.EnterPicksHighlighted | recall-notes/src/components/SearchInput.tsx:90-95 | Enter picks a track iff a suggestion is highlighted, and then the highlighted one. Otherwise nothing changes |
| SearchInput.PickClosesList | recall-notes/src/components/SearchInput.tsx:57-69 | Picking a track sets the text to "name - artist", hands the track over, and closes the list, so keys are ignored afterwards |
| SearchInput.TypeDownEnterPicksFirst | recall-notes/src/components/SearchInput.tsx:43-95 | Typing, then down, then Enter picks the first suggestion |
| SearchInput.EscapeAndClearClose | recall-notes/src/components/SearchInput.tsx:97-115 | Escape closes the list and drops the highlight. A positive clear signal does the same and also empties the text. No signal, or a non-positive one, changes nothing |
| SearchInput.SearchInputComponent.constructor | recall-notes/src/components/SearchInput.tsx:27-29 | Empty text, list closed, nothing highlighted |
| SearchInput.SearchInputComponent.HandleInputChange | recall-notes/src/components/SearchInput.tsx:43-54 | The new state is the typing step of the old one |
| SearchInput.SearchInputComponent.HandleTrackSelect | recall-notes/src/components/SearchInput.tsx:57-69 | The new state is the pick step of the old one |
| SearchInput.SearchInputComponent.HandleKeyDown | recall-notes/src/components/SearchInput.tsx:72-102 | The new state is the key step of the old one, with Enter going through the pick handler |
| SearchInput.SearchInputComponent.ClearTriggerChanged | recall-notes/src/components/SearchInput.tsx:105-115 | The new state is the clear step of the old one |
| ArtistSearchInput.TypingOpensListFromTwo | recall-notes/src/components/ArtistSearchInput.tsx:47-52 | Typing sets the query and drops the highlight. The list is open iff the query has at least two UTF-16 code units |
| ArtistSearchInput.FocusOnlyOpens | recall-notes/src/components/ArtistSearchInput.tsx:90-94 | Focus opens the list iff the query is long enough, never closes it, and changes nothing else |
| ArtistSearchInput.ShortQueryKeepsListClosed | recall-notes/src/components/ArtistSearchInput.tsx:47-94 | A query shorter than two units keeps the list closed through typing and focus, and then keys are ignored |
| ArtistSearchInput.KeysIgnoredWhileClosed | recall-notes/src/components/ArtistSearchInput.tsx:55 | No key changes anything while the list is closed or there are no artists |
| ArtistSearchInput.ArrowKeepsHighlightInList | recall-notes/src/components/ArtistSearchInput.tsx:58-69 | An arrow on an open list keeps the highlight on an artist and changes nothing else |
| ArtistSearchInput.EnterPicksHighlighted | recall-notes/src/components/ArtistSearchInput.tsx:70-75 | Enter picks an artist iff one is highlighted, and the artist's name becomes the query. Otherwise nothing changes |
| ArtistSearchInput.EscapeCloses | recall-notes/src/components/ArtistSearchInput.tsx:76-79 | Escape closes the list and drops the highlight, keeping the query |
| ArtistSearchInput.PickThenFocus | recall-notes/src/components/ArtistSearchInput.tsx:83-94 | After a pick, focusing reopens the list iff the artist's name is long enough, with nothing highlighted |
| ArtistSearchInput.ArtistSearchInputComponent.constructor | recall-notes/src/components/ArtistSearchInput.tsx:20-22 | Empty query, list closed, nothing highlighted |
| ArtistSearchInput.ArtistSearchInputComponent.HandleInputChange | recall-notes/src/components/ArtistSearchInput.tsx:47-52 | The new state is the typing step of the old one |
| ArtistSearchInput.ArtistSearchInputComponent.HandleFocus | recall-notes/src/components/ArtistSearchInput.tsx:90-94 | The new state is the focus step of the old one |
| ArtistSearchInput.ArtistSearchInputComponent.HandleArtistSelect | recall-notes/src/components/ArtistSearchInput.tsx:83-88 | The new state is the pick step of the old one |
| ArtistSearchInput.ArtistSearchInputComponent.HandleKeyDown | recall-notes/src/components/ArtistSearchInput.tsx:54-81 | The new state is the key step of the old one, with Enter going through the pick handler |

## Findings

| source | as written | input that shows it | evidently intended | confidence | as-written member | corrected member |
|---|---|---|---|---|---|---|
| recall-notes/convex/functions/spotify.ts:64-68 | The sort comparator scores the mapped records. These have no `artists` array, so the scorer's `track.artists.map` throws a TypeError on the first comparison. The action then reports "楽曲の検索に失敗しました" | the query "lemon" with a response of any two tracks | rank the hits by score, largest first, ties in response order, and return the mapped records | not executed | ConvexSearch.SearchTracksAsWritten, ConvexSearch.AsWrittenFailsOnTwoHits, ConvexSearch.AsWrittenFailsOnLemon | ConvexSearch.SearchTracks, ConvexSearch.SearchTracksRanked |

## Left out

- Network, authentication and environment are inputs, not modelled. This covers `fetch`, `response.json`, the `btoa` Basic-auth header, the OAuth client-credentials request, the search URLs and the environment variables. The answers are parameters (`Fetch`, `TokenResponse`, `Credentials`), and so is the clock (`now`). Logging with `console.error` is dropped.
- The mock's simulated latency (`Math.random`, `setTimeout`) and `hasSpotifyCredentials` are not modelled. They are timing and environment only.
- Asynchrony is not modelled. Each action is one atomic step, so concurrent calls racing on a token cache are not captured.
- One clock reading `now` serves both `Date.now()` calls of a token refresh. It also stands for the request time, so time passing within one call is not captured.
- `expires_in` is an integer. A missing or non-numeric value, which gives `NaN` in JavaScript and an expiry that never compares true, is not modelled.
- Lower-casing is ASCII only. JavaScript's `toLowerCase` folds all of Unicode. Kana and kanji have no case, but other non-ASCII letters (accented Latin, Greek, full-width letters) are left unchanged here.
- The page count is integer ceiling division and needs `itemsPerPage > 0`. A zero or fractional `itemsPerPage`, which JavaScript turns into `Infinity` or `NaN`, is not modelled.
- MockSpotifyExamples.KomeQueryExample and MockSpotifyExamples.LemonQueryExample state their results up to the keyword test on the tracks that reach it. The test is written `Filter([...], KeepTrack)` and not evaluated to a literal, because evaluating the keyword scan over literal strings costs more proof effort than it is worth.
- The artist-search `limit` and the client hook's `limit: 8` / `minQueryLength: 2` are only forwarded, so no property of them is stated. The hooks themselves (`useSimpleSpotifySearch`, `useSpotifyArtistSearch`), their debouncing and their error state are left out. The suggestions a key press sees are a parameter.
- In the track input, controlled mode hands the new text to the parent's `onChange` instead of storing it. Only the uncontrolled state is modelled, which is what the parent receives.
- Mouse and JSX behaviour is left out. This covers the click-outside listeners (SearchInput.tsx:118-133, ArtistSearchInput.tsx:32-45), `onMouseEnter` highlighting, the track input's `onFocus` that reopens the list, and the Pagination markup including the "(さらに読み込み可能)" suffix.
- The JavaScript engine's sort is modelled by a stable insertion sort, on an array for the mock search and on sequences for the score ranking. `Array.prototype.sort` is required to be stable, and JsArray.StableSortUnique shows that any stable sort gives the same order.
- GetAlbumTracks: the album error object is reduced to a status and a message, and the TypeError thrown on a non-empty listing carries the V8 engine's wording; other engines word it differently.
- Pages and presentational components, `convex/users.ts` and the schema and type declarations are not part of this model.
