/**
 * Two searches of the mock table worked out: the query "米津" and the
 * query "Lemon", with the default limit of 10. The match stage, the
 * exclusion of the karaoke entry, the relevance order and the cut are
 * evaluated; what is left is the keyword test on the tracks that reach it.
 */
module MockSpotifyExamples {

  import opened JsText
  import opened JsArray
  import opened Catalog
  import opened MockSpotify

  /** The titles that begin with "Lemon" match "lemon". */
  lemma NameMatchesLemon(q: string, t: TrackSuggestion)
    requires q == "lemon" && StartsWith(t.name, "Lemon")
    ensures MatchesQuery(t, q)
  {
    assert MatchAt(t.name, "Lemon", 0);
    LowerMatchAt(t.name, "Lemon", 0);
    assert Lower("Lemon") == q;
    ContainsAt(Lower(t.name), q, 0);
  }

  /** The entries by 米津玄師 match "米津". */
  lemma ArtistMatchesKome(q: string, t: TrackSuggestion)
    requires q == "米津" && t.artist == "米津玄師"
    ensures MatchesQuery(t, q)
  {
    assert MatchAt(t.artist, q, 0);
    LowerMatchAt(t.artist, q, 0);
    ContainsAt(Lower(t.artist), q, 0);
  }

  /** A track does not match a query, other than the three aliases, that
      holds a character missing from its title and one missing from its
      artist, in either case. */
  lemma NoMatch(t: TrackSuggestion, lowerQuery: string, inName: char, inArtist: char)
    requires inName in lowerQuery && MissingAnyCase(inName, t.name)
    requires inArtist in lowerQuery && MissingAnyCase(inArtist, t.artist)
    requires lowerQuery !in ["れも", "レモ", "lemo"]
    ensures !MatchesQuery(t, lowerQuery)
  {
    MissingFromLower(inName, t.name);
    AbsentChar(Lower(t.name), lowerQuery, inName);
    MissingFromLower(inArtist, t.artist);
    AbsentChar(Lower(t.artist), lowerQuery, inArtist);
  }

  /** Filtering a table made of a kept run, a dropped run, a kept run and a
      dropped run keeps the two kept runs. */
  lemma FilterRuns<T>(a: seq<T>, b: seq<T>, c: seq<T>, d: seq<T>, keep: T -> bool)
    requires forall i :: 0 <= i < |a| ==> keep(a[i])
    requires forall i :: 0 <= i < |b| ==> !keep(b[i])
    requires forall i :: 0 <= i < |c| ==> keep(c[i])
    requires forall i :: 0 <= i < |d| ==> !keep(d[i])
    ensures Filter(a + b + c + d, keep) == a + c
  {
    FilterAll(a, keep);
    FilterNone(b, keep);
    FilterAll(c, keep);
    FilterNone(d, keep);
    FilterAppend(a, b, keep);
    assert Filter(a + b, keep) == a;
    FilterAppend(a + b, c, keep);
    assert Filter(a + b + c, keep) == a + c;
    FilterAppend(a + b + c, d, keep);
  }

  /** When the candidates share one tier and fit the limit, the search
      returns them unchanged. */
  lemma OneTierResults(query: string, q: string, c: seq<TrackSuggestion>, k: nat)
    requires q == Lower(query) && !IsBlank(query) && Candidates(q) == c && |c| <= 10
    requires k <= 2 && forall i :: 0 <= i < |c| ==> Tier(c[i], q) == k
    ensures SearchResults(query, 10) == c
  {
    assert SearchResults(query, 10) == Slice(RankOrder(c, q), 0, 10);
    forall i | 0 <= i < |c| ensures TierBy(q)(c[i]) == k {
    }
    RankedOneTier(c, TierBy(q), k);
    SlicePrefix(c, 10);
  }

  // ---------------------------------------------------------------------
  // The query "米津": the three entries by 米津玄師 match.

  lemma PretenderMissesKome(q: string, t: TrackSuggestion)
    requires q == "米津" && t.name == "Pretender" && t.artist == "Official髭男dism"
    ensures !MatchesQuery(t, q)
  {
    NoMatch(t, q, '米', '米');
  }

  lemma MarigoldMissesKome(q: string, t: TrackSuggestion)
    requires q == "米津" && t.name == "マリーゴールド" && t.artist == "あいみょん"
    ensures !MatchesQuery(t, q)
  {
    NoMatch(t, q, '米', '米');
  }

  lemma WhiteLoveMissesKome(q: string, t: TrackSuggestion)
    requires q == "米津" && t.name == "White Love" && t.artist == "SPEED"
    ensures !MatchesQuery(t, q)
  {
    NoMatch(t, q, '米', '米');
  }

  lemma GurengeMissesKome(q: string, t: TrackSuggestion)
    requires q == "米津" && t.name == "紅蓮華" && t.artist == "LiSA"
    ensures !MatchesQuery(t, q)
  {
    NoMatch(t, q, '米', '米');
  }

  lemma DynamiteMissesKome(q: string, t: TrackSuggestion)
    requires q == "米津" && t.name == "Dynamite" && t.artist == "BTS"
    ensures !MatchesQuery(t, q)
  {
    NoMatch(t, q, '米', '米');
  }

  lemma RainyBlueMissesKome(q: string, t: TrackSuggestion)
    requires q == "米津" && t.name == "レイニーブルー" && t.artist == "徳永英明"
    ensures !MatchesQuery(t, q)
  {
    NoMatch(t, q, '米', '米');
  }

  lemma LandmarkMissesKome(q: string, t: TrackSuggestion)
    requires q == "米津" && t.name == "ランドマーク" && t.artist == "PEOPLE 1"
    ensures !MatchesQuery(t, q)
  {
    NoMatch(t, q, '米', '米');
  }

  lemma DryFlowerMissesKome(q: string, t: TrackSuggestion)
    requires q == "米津" && t.name == "ドライフラワー" && t.artist == "優里"
    ensures !MatchesQuery(t, q)
  {
    NoMatch(t, q, '米', '米');
  }

  lemma PretenderLiveMissesKome(q: string, t: TrackSuggestion)
    requires q == "米津" && t.name == "Pretender (Live at 東京ドーム)" && t.artist == "Official髭男dism"
    ensures !MatchesQuery(t, q)
  {
    NoMatch(t, q, '米', '米');
  }

  lemma MarigoldCoverMissesKome(q: string, t: TrackSuggestion)
    requires q == "米津" && t.name == "マリーゴールド (歌ってみた)" && t.artist == "あいみょん"
    ensures !MatchesQuery(t, q)
  {
    NoMatch(t, q, '米', '米');
  }

  /** No entry from index 2 to 9 matches "米津". */
  lemma KomeMissesMiddle(q: string)
    requires q == "米津"
    ensures forall i :: 0 <= i < |MockTracks[2..10]| ==> !Matches(q)(MockTracks[2..10][i])
  {
    PretenderMissesKome(q, MockTracks[2]);
    MarigoldMissesKome(q, MockTracks[3]);
    WhiteLoveMissesKome(q, MockTracks[4]);
    GurengeMissesKome(q, MockTracks[5]);
    DynamiteMissesKome(q, MockTracks[6]);
    RainyBlueMissesKome(q, MockTracks[7]);
    LandmarkMissesKome(q, MockTracks[8]);
    DryFlowerMissesKome(q, MockTracks[9]);
  }

  /** Neither of the last two entries matches "米津". */
  lemma KomeMissesTail(q: string)
    requires q == "米津"
    ensures forall i :: 0 <= i < |MockTracks[11..]| ==> !Matches(q)(MockTracks[11..][i])
  {
    PretenderLiveMissesKome(q, MockTracks[11]);
    MarigoldCoverMissesKome(q, MockTracks[12]);
  }

  /** "米津" matches mock-1, mock-2 and mock-exclude-1, in table order. */
  lemma KomeMatches(q: string)
    requires q == "米津"
    ensures Filter(MockTracks, Matches(q)) == [Lemon, LemonKana, LemonKaraoke]
  {
    var a, b, c, d := MockTracks[..2], MockTracks[2..10], [LemonKaraoke], MockTracks[11..];
    assert MockTracks == a + b + c + d;
    ArtistMatchesKome(q, MockTracks[0]);
    ArtistMatchesKome(q, MockTracks[1]);
    ArtistMatchesKome(q, MockTracks[10]);
    KomeMissesMiddle(q);
    KomeMissesTail(q);
    FilterRuns(a, b, c, d, Matches(q));
  }

  /** The karaoke entry is dropped when it ends the matched tracks. */
  lemma KaraokeDropped(kept: seq<TrackSuggestion>, matched: seq<TrackSuggestion>, karaoke: TrackSuggestion)
    requires karaoke.name == "Lemon (カラオケ)" && matched == kept + [karaoke]
    ensures Filter(matched, KeepTrack) == Filter(kept, KeepTrack)
  {
    KaraokeEntryExcluded(karaoke.artist);
    FilterAppend(kept, [karaoke], KeepTrack);
    FilterNone([karaoke], KeepTrack);
  }

  /** The candidates for "米津" are mock-1 and mock-2, as far as the keyword
      test keeps them. */
  lemma KomeCandidates(q: string)
    requires q == "米津"
    ensures Candidates(q) == Filter([Lemon, LemonKana], KeepTrack)
  {
    KomeMatches(q);
    KaraokeDropped([Lemon, LemonKana], [Lemon, LemonKana, LemonKaraoke], LemonKaraoke);
  }

  /** Neither candidate title is "米津" or begins with it. */
  lemma KomeTier(q: string, t: TrackSuggestion)
    requires q == "米津" && t in [Lemon, LemonKana]
    ensures Tier(t, q) == 2
  {
    assert Lower(t.name)[0] in "lレ";
  }

  lemma KomeQueryLowered(query: string)
    requires query == "米津"
    ensures Lower(query) == query && !IsBlank(query)
  {
  }


  /** `searchTracks("米津")` returns mock-1 then mock-2, each one if the
      keyword test keeps it: neither title is an exact match or a prefix
      match, so both keep their table order. */
  lemma KomeQueryExample(query: string)
    requires query == "米津"
    ensures SearchResults(query, 10) == Filter([Lemon, LemonKana], KeepTrack)
  {
    KomeQueryLowered(query);
    KomeCandidates(query);
    var c := Filter([Lemon, LemonKana], KeepTrack);
    forall i | 0 <= i < |c| ensures Tier(c[i], query) == 2 {
      KomeTier(query, c[i]);
    }
    OneTierResults(query, query, c, 2);
  }


  // ---------------------------------------------------------------------
  // The query "Lemon": the two titles that begin with "Lemon" match.

  lemma LemonKanaMissesLemon(q: string, t: TrackSuggestion)
    requires q == "lemon" && t.name == "レモン" && t.artist == "米津玄師"
    ensures !MatchesQuery(t, q)
  {
    NoMatch(t, q, 'l', 'l');
  }

  lemma PretenderMissesLemon(q: string, t: TrackSuggestion)
    requires q == "lemon" && t.name == "Pretender" && t.artist == "Official髭男dism"
    ensures !MatchesQuery(t, q)
  {
    NoMatch(t, q, 'l', 'e');
  }

  lemma MarigoldMissesLemon(q: string, t: TrackSuggestion)
    requires q == "lemon" && t.name == "マリーゴールド" && t.artist == "あいみょん"
    ensures !MatchesQuery(t, q)
  {
    NoMatch(t, q, 'l', 'l');
  }

  lemma WhiteLoveMissesLemon(q: string, t: TrackSuggestion)
    requires q == "lemon" && t.name == "White Love" && t.artist == "SPEED"
    ensures !MatchesQuery(t, q)
  {
    NoMatch(t, q, 'm', 'l');
  }

  lemma GurengeMissesLemon(q: string, t: TrackSuggestion)
    requires q == "lemon" && t.name == "紅蓮華" && t.artist == "LiSA"
    ensures !MatchesQuery(t, q)
  {
    NoMatch(t, q, 'l', 'e');
  }

  lemma DynamiteMissesLemon(q: string, t: TrackSuggestion)
    requires q == "lemon" && t.name == "Dynamite" && t.artist == "BTS"
    ensures !MatchesQuery(t, q)
  {
    NoMatch(t, q, 'l', 'l');
  }

  lemma RainyBlueMissesLemon(q: string, t: TrackSuggestion)
    requires q == "lemon" && t.name == "レイニーブルー" && t.artist == "徳永英明"
    ensures !MatchesQuery(t, q)
  {
    NoMatch(t, q, 'l', 'l');
  }

  lemma LandmarkMissesLemon(q: string, t: TrackSuggestion)
    requires q == "lemon" && t.name == "ランドマーク" && t.artist == "PEOPLE 1"
    ensures !MatchesQuery(t, q)
  {
    NoMatch(t, q, 'l', 'm');
  }

  lemma DryFlowerMissesLemon(q: string, t: TrackSuggestion)
    requires q == "lemon" && t.name == "ドライフラワー" && t.artist == "優里"
    ensures !MatchesQuery(t, q)
  {
    NoMatch(t, q, 'l', 'l');
  }

  lemma LiveTitleLacksO(name: string)
    requires name == "Pretender (Live at 東京ドーム)"
    ensures MissingAnyCase('o', name)
  {
  }

  lemma PretenderLiveMissesLemon(q: string, t: TrackSuggestion)
    requires q == "lemon" && t.name == "Pretender (Live at 東京ドーム)" && t.artist == "Official髭男dism"
    ensures !MatchesQuery(t, q)
  {
    LiveTitleLacksO(t.name);
    NoMatch(t, q, 'o', 'n');
  }

  lemma MarigoldCoverMissesLemon(q: string, t: TrackSuggestion)
    requires q == "lemon" && t.name == "マリーゴールド (歌ってみた)" && t.artist == "あいみょん"
    ensures !MatchesQuery(t, q)
  {
    NoMatch(t, q, 'l', 'l');
  }

  /** No entry from index 1 to 9 matches "lemon". */
  lemma LemonMissesMiddle(q: string)
    requires q == "lemon"
    ensures forall i :: 0 <= i < |MockTracks[1..10]| ==> !Matches(q)(MockTracks[1..10][i])
  {
    LemonKanaMissesLemon(q, MockTracks[1]);
    PretenderMissesLemon(q, MockTracks[2]);
    MarigoldMissesLemon(q, MockTracks[3]);
    WhiteLoveMissesLemon(q, MockTracks[4]);
    GurengeMissesLemon(q, MockTracks[5]);
    DynamiteMissesLemon(q, MockTracks[6]);
    RainyBlueMissesLemon(q, MockTracks[7]);
    LandmarkMissesLemon(q, MockTracks[8]);
    DryFlowerMissesLemon(q, MockTracks[9]);
  }

  /** Neither of the last two entries matches "lemon". */
  lemma LemonMissesTail(q: string)
    requires q == "lemon"
    ensures forall i :: 0 <= i < |MockTracks[11..]| ==> !Matches(q)(MockTracks[11..][i])
  {
    PretenderLiveMissesLemon(q, MockTracks[11]);
    MarigoldCoverMissesLemon(q, MockTracks[12]);
  }

  /** "lemon" matches mock-1 and mock-exclude-1 only. */
  lemma LemonMatches(q: string)
    requires q == "lemon"
    ensures Filter(MockTracks, Matches(q)) == [Lemon, LemonKaraoke]
  {
    var a, b, c, d := MockTracks[..1], MockTracks[1..10], [LemonKaraoke], MockTracks[11..];
    assert MockTracks == a + b + c + d;
    NameMatchesLemon(q, MockTracks[0]);
    NameMatchesLemon(q, MockTracks[10]);
    LemonMissesMiddle(q);
    LemonMissesTail(q);
    FilterRuns(a, b, c, d, Matches(q));
  }

  /** The candidates for "lemon" are mock-1, as far as the keyword test keeps it. */
  lemma LemonCandidates(q: string)
    requires q == "lemon"
    ensures Candidates(q) == Filter([Lemon], KeepTrack)
  {
    LemonMatches(q);
    KaraokeDropped([Lemon], [Lemon, LemonKaraoke], LemonKaraoke);
  }

  /** mock-1's title is exactly "lemon", ignoring case. */
  lemma LemonTier(q: string, t: TrackSuggestion)
    requires q == "lemon" && t in [Lemon]
    ensures Tier(t, q) == 0
  {
    assert t.name == "Lemon";
  }

  lemma LemonQueryLowered(query: string)
    requires query == "Lemon"
    ensures Lower(query) == "lemon" && !IsBlank(query)
  {
  }

  lemma LemonRanked(query: string, q: string)
    requires q == "lemon" && q == Lower(query) && !IsBlank(query)
    ensures SearchResults(query, 10) == Filter([Lemon], KeepTrack)
  {
    LemonCandidates(q);
    var c := Filter([Lemon], KeepTrack);
    forall i | 0 <= i < |c| ensures Tier(c[i], q) == 0 {
      LemonTier(q, c[i]);
    }
    OneTierResults(query, q, c, 0);
  }

  /** `searchTracks("Lemon")` returns at most mock-1: the karaoke version
      also matches but is excluded. */
  lemma LemonQueryExample(query: string)
    requires query == "Lemon"
    ensures SearchResults(query, 10) == Filter([Lemon], KeepTrack)
  {
    LemonQueryLowered(query);
    LemonRanked(query, Lower(query));
  }

}
