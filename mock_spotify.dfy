/**
 * The mock track search (src/services/mockSpotify.ts): a fixed table of
 * tracks, searched by lower-cased substring (with three "lemon" aliases),
 * filtered with this file's own derivative-version list, sorted in place by
 * relevance (exact title, then title prefix, then the rest, ties kept in
 * table order) and cut to `limit`. The simulated latency is not modelled.
 */
module MockSpotify {

  import opened Wrappers
  import opened JsText
  import opened JsArray
  import opened Catalog
  import opened KeywordFilter

  /** The mock's keyword list: the service's list plus "歌ってみた", without
      ".Ver"/".ver". */
  const MockExcludedKeywords: seq<string> := [
    "カラオケ", "karaoke", "オフボーカル", "off vocal", "instrumental", "backing track",
    "歌ってみた", "歌ってみよう", "sing along",
    "live", "ライブ", "concert", "コンサート", "tour", "ツアー",
    "live version", "live at", "ライブバージョン",
    "remix", "リミックス", "edit", "extended", "radio edit",
    "acoustic", "アコースティック", "unplugged", "アンプラグド",
    "cover", "カバー", "tribute", "トリビュート",
    "demo", "デモ", "rough", "ラフ"
  ]

  /** This file's `shouldExcludeTrack(trackName, artistName)`. */
  predicate ShouldExcludeTrack(trackName: string, artistName: string) {
    Excludes(MockExcludedKeywords, trackName, artistName)
  }

  lemma ShouldExcludeTrackIff(trackName: string, artistName: string)
    ensures ShouldExcludeTrack(trackName, artistName)
        <==> exists k :: k in MockExcludedKeywords && Contains(Lower(trackName + " " + artistName), Lower(k))
  {
    ExcludesIff(MockExcludedKeywords, trackName, artistName);
  }

  /** A table entry: only id, title, artist and album art are set. */
  function MockTrack(id: string, name: string, artist: string, albumArt: string): TrackSuggestion {
    TrackSuggestion(id, name, artist, Some(albumArt), None, None, None, None)
  }

  /** The entries of `MOCK_TRACKS`, in table order. */
  const Lemon: TrackSuggestion := MockTrack("mock-1", "Lemon", "米津玄師",
    "https://i.scdn.co/image/ab67616d0000b273c5716278abba6a103ad24d8d")
  const LemonKana: TrackSuggestion := MockTrack("mock-2", "レモン", "米津玄師",
    "https://i.scdn.co/image/ab67616d0000b273c5716278abba6a103ad24d8d")
  const Pretender: TrackSuggestion := MockTrack("mock-3", "Pretender", "Official髭男dism",
    "https://i.scdn.co/image/ab67616d0000b273f785ad745d162d8dd63e5c3c")
  const Marigold: TrackSuggestion := MockTrack("mock-4", "マリーゴールド", "あいみょん",
    "https://i.scdn.co/image/ab67616d0000b273e5e2b6ac47e5b6b1a8c1f1a4")
  const WhiteLove: TrackSuggestion := MockTrack("mock-5", "White Love", "SPEED",
    "https://i.scdn.co/image/ab67616d0000b273f8f9b9b9b9b9b9b9b9b9b9b9")
  const Gurenge: TrackSuggestion := MockTrack("mock-6", "紅蓮華", "LiSA",
    "https://i.scdn.co/image/ab67616d0000b273e0e2b6ac47e5b6b1a8c1f1a5")
  const Dynamite: TrackSuggestion := MockTrack("mock-7", "Dynamite", "BTS",
    "https://i.scdn.co/image/ab67616d0000b273f6b9b9b9b9b9b9b9b9b9b9b9")
  const RainyBlue: TrackSuggestion := MockTrack("mock-8", "レイニーブルー", "徳永英明",
    "https://i.scdn.co/image/ab67616d0000b273a1a1a1a1a1a1a1a1a1a1a1a1")
  const Landmark: TrackSuggestion := MockTrack("mock-9", "ランドマーク", "PEOPLE 1",
    "https://i.scdn.co/image/ab67616d0000b273b2b2b2b2b2b2b2b2b2b2b2b2")
  const DryFlower: TrackSuggestion := MockTrack("mock-10", "ドライフラワー", "優里",
    "https://i.scdn.co/image/ab67616d0000b273c3c3c3c3c3c3c3c3c3c3c3c3")
  const LemonKaraoke: TrackSuggestion := MockTrack("mock-exclude-1", "Lemon (カラオケ)", "米津玄師",
    "https://i.scdn.co/image/ab67616d0000b273c5716278abba6a103ad24d8d")
  const PretenderLive: TrackSuggestion := MockTrack("mock-exclude-2", "Pretender (Live at 東京ドーム)", "Official髭男dism",
    "https://i.scdn.co/image/ab67616d0000b273f785ad745d162d8dd63e5c3c")
  const MarigoldCover: TrackSuggestion := MockTrack("mock-exclude-3", "マリーゴールド (歌ってみた)", "あいみょん",
    "https://i.scdn.co/image/ab67616d0000b273e5e2b6ac47e5b6b1a8c1f1a4")

  /** `MOCK_TRACKS`: ten tracks, then three derivative versions that the
      filter is meant to drop. */
  const MockTracks: seq<TrackSuggestion> := [
    Lemon, LemonKana, Pretender, Marigold, WhiteLove, Gurenge, Dynamite,
    RainyBlue, Landmark, DryFlower, LemonKaraoke, PretenderLive, MarigoldCover
  ]

  /** The match callback for the lowered query: the lowered title or artist
      holds the query, or the query is one of the three "lemon" aliases and
      the lowered title holds "lemon". The query is not trimmed. */
  predicate MatchesQuery(t: TrackSuggestion, lowerQuery: string) {
    var name, artist := Lower(t.name), Lower(t.artist);
    || Contains(name, lowerQuery)
    || Contains(artist, lowerQuery)
    || (lowerQuery == "れも" && Contains(name, "lemon"))
    || (lowerQuery == "レモ" && Contains(name, "lemon"))
    || (lowerQuery == "lemo" && Contains(name, "lemon"))
  }

  function Matches(lowerQuery: string): TrackSuggestion -> bool {
    t => MatchesQuery(t, lowerQuery)
  }

  predicate KeepTrack(t: TrackSuggestion) {
    !ShouldExcludeTrack(t.name, t.artist)
  }

  /** `results.filter(...)` then `.filter(t => !shouldExcludeTrack(...))`. */
  function Candidates(lowerQuery: string): seq<TrackSuggestion> {
    Filter(Filter(MockTracks, Matches(lowerQuery)), KeepTrack)
  }

  // ---------------------------------------------------------------------
  // Relevance order

  /** The relevance tier against the lowered query: 0 for an exact title
      (ignoring case), 1 for a title that starts with the query, 2 otherwise. */
  function Tier(t: TrackSuggestion, lowerQuery: string): nat {
    var name := Lower(t.name);
    if name == lowerQuery then 0 else if StartsWith(name, lowerQuery) then 1 else 2
  }

  /** The sort comparator: exact titles first, then title prefixes, else 0.
      Its sign is the order of the tiers. */
  function Compare(a: TrackSuggestion, b: TrackSuggestion, lowerQuery: string): (c: int)
    ensures c < 0 <==> Tier(a, lowerQuery) < Tier(b, lowerQuery)
    ensures c > 0 <==> Tier(a, lowerQuery) > Tier(b, lowerQuery)
    ensures c == 0 <==> Tier(a, lowerQuery) == Tier(b, lowerQuery)
  {
    var aExact, bExact := Lower(a.name) == lowerQuery, Lower(b.name) == lowerQuery;
    if aExact && !bExact then -1
    else if !aExact && bExact then 1
    else
      var aStarts, bStarts := StartsWith(Lower(a.name), lowerQuery), StartsWith(Lower(b.name), lowerQuery);
      if aStarts && !bStarts then -1
      else if !aStarts && bStarts then 1
      else 0
  }

  /** The tier of each track against the lowered query, as a function value. */
  function TierBy(lowerQuery: string): TrackSuggestion -> nat {
    t => Tier(t, lowerQuery)
  }

  function HasTier<T>(tier: T -> nat, k: nat): T -> bool {
    x => tier(x) == k
  }

  /** The elements of tier `k`, in their order in `s`. */
  function Bucket<T(==)>(s: seq<T>, tier: T -> nat, k: nat): seq<T> {
    Filter(s, HasTier(tier, k))
  }

  /** What a stable sort into tiers 0, 1, 2 yields: the tier-0 elements, then
      the tier-1 elements, then the tier-2 elements, each group in input order. */
  function Ranked<T(==)>(s: seq<T>, tier: T -> nat): seq<T> {
    Bucket(s, tier, 0) + Bucket(s, tier, 1) + Bucket(s, tier, 2)
  }

  /** The order the relevance sort produces. */
  function RankOrder(s: seq<TrackSuggestion>, lowerQuery: string): seq<TrackSuggestion> {
    Ranked(s, TierBy(lowerQuery))
  }

  /** A sequence whose elements all share one tier is already ranked. */
  lemma RankedOneTier<T>(s: seq<T>, tier: T -> nat, k: nat)
    requires k <= 2 && forall i :: 0 <= i < |s| ==> tier(s[i]) == k
    ensures Ranked(s, tier) == s
  {
    forall j | 0 <= j <= 2 ensures Bucket(s, tier, j) == if j == k then s else [] {
      if j == k {
        FilterAll(s, HasTier(tier, j));
      } else {
        FilterNone(s, HasTier(tier, j));
      }
    }
  }

  lemma BucketAppend<T>(a: seq<T>, x: T, tier: T -> nat, k: nat)
    ensures Bucket(a + [x], tier, k) == Bucket(a, tier, k) + (if tier(x) == k then [x] else [])
  {
    FilterAppend(a, [x], HasTier(tier, k));
    assert [x][1..] == [];
  }

  /** Where `x` belongs in a ranked sequence: after every element of its
      tier or a lower one. */
  function Cut<T(==)>(p: seq<T>, tier: T -> nat, t: nat): nat {
    if t == 0 then |Bucket(p, tier, 0)|
    else if t == 1 then |Bucket(p, tier, 0)| + |Bucket(p, tier, 1)|
    else |Ranked(p, tier)|
  }

  /** Inserting at the cut ranks the extended sequence. */
  /** Inserting at the end of the first, second or third group of `a + b + c`. */
  lemma SpliceGroups<T>(a: seq<T>, b: seq<T>, c: seq<T>, x: T, t: nat)
    requires t <= 2
    ensures var s, j := a + b + c, if t == 0 then |a| else if t == 1 then |a| + |b| else |a| + |b| + |c|;
      s[..j] + [x] + s[j..] == if t == 0 then (a + [x]) + b + c
                               else if t == 1 then a + (b + [x]) + c
                               else a + b + (c + [x])
  {
    var s := a + b + c;
    if t == 0 {
      assert s[..|a|] == a && s[|a|..] == b + c;
    } else if t == 1 {
      assert s[..|a| + |b|] == a + b && s[|a| + |b|..] == c;
    } else {
      assert s[..|s|] == s && s[|s|..] == [];
    }
  }

  /** The same splice, with the extended groups given as "the group, plus
      `x` when `x` belongs to it". */
  lemma SpliceExtended<T>(a: seq<T>, b: seq<T>, c: seq<T>, a2: seq<T>, b2: seq<T>, c2: seq<T>, x: T, t: nat)
    requires t <= 2
    requires a2 == a + (if t == 0 then [x] else [])
    requires b2 == b + (if t == 1 then [x] else [])
    requires c2 == c + (if t == 2 then [x] else [])
    ensures var s, j := a + b + c, if t == 0 then |a| else if t == 1 then |a| + |b| else |a| + |b| + |c|;
      j <= |s| && s[..j] + [x] + s[j..] == a2 + b2 + c2
  {
    SpliceGroups(a, b, c, x, t);
    if t == 0 {
      assert b2 == b && c2 == c;
    } else if t == 1 {
      assert a2 == a && c2 == c;
    } else {
      assert a2 == a && b2 == b;
    }
  }

  lemma InsertAtCut<T>(p: seq<T>, x: T, tier: T -> nat)
    requires tier(x) <= 2
    ensures var s, j := Ranked(p, tier), Cut(p, tier, tier(x));
      j <= |s| && s[..j] + [x] + s[j..] == Ranked(p + [x], tier)
  {
    BucketAppend(p, x, tier, 0);
    BucketAppend(p, x, tier, 1);
    BucketAppend(p, x, tier, 2);
    SpliceExtended(Bucket(p, tier, 0), Bucket(p, tier, 1), Bucket(p, tier, 2),
                   Bucket(p + [x], tier, 0), Bucket(p + [x], tier, 1), Bucket(p + [x], tier, 2), x, tier(x));
  }

  /** A position that follows every element of a lower or equal tier and
      precedes every element of a higher tier is the cut. */
  lemma CutIsUnique<T>(p: seq<T>, x: T, tier: T -> nat, j: nat)
    requires forall y :: tier(y) <= 2
    requires j <= |Ranked(p, tier)|
    requires j == 0 || tier(Ranked(p, tier)[j - 1]) <= tier(x)
    requires forall m :: j <= m < |Ranked(p, tier)| ==> tier(Ranked(p, tier)[m]) > tier(x)
    ensures j == Cut(p, tier, tier(x))
  {
    var s := Ranked(p, tier);
    var t := tier(x);
    var cut := Cut(p, tier, t);
    assert j < |s| ==> tier(s[j]) > t;
    assert j > 0 ==> tier(s[j - 1]) <= t;
    RankedTiers(p, tier);
  }

  /** Placing `x` after the elements of its tier or lower and before the rest
      of an already ranked prefix ranks the extended prefix. */
  lemma InsertRanked<T>(p: seq<T>, x: T, tier: T -> nat, j: nat)
    requires forall y :: tier(y) <= 2
    requires j <= |Ranked(p, tier)|
    requires j == 0 || tier(Ranked(p, tier)[j - 1]) <= tier(x)
    requires forall m :: j <= m < |Ranked(p, tier)| ==> tier(Ranked(p, tier)[m]) > tier(x)
    ensures Ranked(p, tier)[..j] + [x] + Ranked(p, tier)[j..] == Ranked(p + [x], tier)
  {
    CutIsUnique(p, x, tier, j);
    InsertAtCut(p, x, tier);
  }

  lemma BucketTiers<T>(s: seq<T>, tier: T -> nat, k: nat)
    ensures forall i :: 0 <= i < |Bucket(s, tier, k)| ==> tier(Bucket(s, tier, k)[i]) == k
  {
    var r := Bucket(s, tier, k);
    forall i | 0 <= i < |r| ensures tier(r[i]) == k {
      assert HasTier(tier, k)(r[i]);
    }
  }

  /** The tier of each position of the ranked sequence: 0 up to the first
      cut, 1 up to the second, 2 after. */
  lemma RankedTiers<T>(s: seq<T>, tier: T -> nat)
    ensures forall i :: 0 <= i < |Ranked(s, tier)| ==>
      tier(Ranked(s, tier)[i]) == (if i < Cut(s, tier, 0) then 0 else if i < Cut(s, tier, 1) then 1 else 2)
  {
    var a, b, c := Bucket(s, tier, 0), Bucket(s, tier, 1), Bucket(s, tier, 2);
    BucketTiers(s, tier, 0);
    BucketTiers(s, tier, 1);
    BucketTiers(s, tier, 2);
    var r := Ranked(s, tier);
    forall i | 0 <= i < |r| ensures tier(r[i]) == if i < |a| then 0 else if i < |a| + |b| then 1 else 2 {
      if i < |a| {
        assert r[i] == a[i];
      } else if i < |a| + |b| {
        assert r[i] == b[i - |a|];
      } else {
        assert r[i] == c[i - |a| - |b|];
      }
    }
  }

  lemma TierByBounded(lowerQuery: string)
    ensures forall y :: TierBy(lowerQuery)(y) <= 2
  {
  }

  /** A sequence that agrees with `s` before `j`, holds `x` at `j` and `s`
      shifted by one after it, is `s` with `x` inserted at `j`. */
  lemma Spliced<T>(r: seq<T>, s: seq<T>, x: T, j: nat)
    requires j <= |s| && |r| == |s| + 1 && r[j] == x
    requires forall m :: 0 <= m < j ==> r[m] == s[m]
    requires forall m :: j < m < |r| ==> r[m] == s[m - 1]
    ensures r == s[..j] + [x] + s[j..]
  {
  }

  /** The inner loop of the insertion sort: the tracks of `a[..i]` that the
      comparator puts after `a[i]` move up by one, from the end, and `j` is
      the slot they leave. */
  method Sink(a: array<TrackSuggestion>, i: nat, lowerQuery: string) returns (j: nat)
    requires i < a.Length
    modifies a
    ensures j <= i
    ensures forall m :: 0 <= m < j ==> a[m] == old(a[m])
    ensures forall m :: j < m <= i ==> a[m] == old(a[m - 1])
    ensures forall m :: i < m < a.Length ==> a[m] == old(a[m])
    ensures a[j] == old(a[i])
    ensures j == 0 || Tier(old(a[j - 1]), lowerQuery) <= Tier(old(a[i]), lowerQuery)
    ensures forall m :: j <= m < i ==> Tier(old(a[m]), lowerQuery) > Tier(old(a[i]), lowerQuery)
  {
    var x := a[i];
    j := i;
    while j > 0 && Compare(a[j - 1], x, lowerQuery) > 0
      invariant 0 <= j <= i
      invariant forall m :: 0 <= m < j ==> a[m] == old(a[m])
      invariant forall m :: j < m <= i ==> a[m] == old(a[m - 1])
      invariant forall m :: i < m < a.Length ==> a[m] == old(a[m])
      invariant forall m :: j <= m < i ==> Tier(old(a[m]), lowerQuery) > Tier(x, lowerQuery)
    {
      a[j] := a[j - 1];
      j := j - 1;
    }
    a[j] := x;
  }

  /** One step of the insertion sort: `a[i]` moves in front of the tracks of
      a higher tier in the ranked prefix `a[..i]`. */
  method InsertAt(a: array<TrackSuggestion>, i: nat, ghost p: seq<TrackSuggestion>, lowerQuery: string)
    requires i < a.Length && a[..i] == RankOrder(p, lowerQuery)
    modifies a
    ensures a[..i + 1] == RankOrder(p + [old(a[i])], lowerQuery)
    ensures forall m :: i < m < a.Length ==> a[m] == old(a[m])
  {
    ghost var ranked := a[..i];
    ghost var x := a[i];
    var j := Sink(a, i, lowerQuery);
    TierByBounded(lowerQuery);
    InsertRanked(p, x, TierBy(lowerQuery), j);
    Spliced(a[..i + 1], ranked, x, j);
  }

  /** `filteredResults.sort(comparator)` on the array, modelled by a stable
      insertion sort: the array ends up in rank order. */
  method SortByRelevance(a: array<TrackSuggestion>, lowerQuery: string)
    modifies a
    ensures a[..] == RankOrder(old(a[..]), lowerQuery)
  {
    ghost var input := a[..];
    var i := 0;
    while i < a.Length
      invariant 0 <= i <= a.Length
      invariant a[..i] == RankOrder(input[..i], lowerQuery)
      invariant forall m :: i <= m < a.Length ==> a[m] == input[m]
    {
      InsertAt(a, i, input[..i], lowerQuery);
      assert input[..i + 1] == input[..i] + [input[i]];
      i := i + 1;
    }
    assert a[..] == a[..a.Length];
    assert input == input[..a.Length];
  }

  // ---------------------------------------------------------------------
  // The rank order is the stable sort

  /** Ranking only reorders: the same tracks, each as often. */
  /** Adding `x` to one of three groups adds it once to their concatenation. */
  lemma ExtendedMultiset<T>(a: seq<T>, b: seq<T>, c: seq<T>, a2: seq<T>, b2: seq<T>, c2: seq<T>, x: T, t: nat)
    requires t <= 2
    requires a2 == a + (if t == 0 then [x] else [])
    requires b2 == b + (if t == 1 then [x] else [])
    requires c2 == c + (if t == 2 then [x] else [])
    ensures multiset(a2 + b2 + c2) == multiset(a + b + c) + multiset{x}
  {
  }

  lemma {:induction false} RankedIsPermutation<T>(s: seq<T>, tier: T -> nat)
    requires forall y :: tier(y) <= 2
    ensures multiset(Ranked(s, tier)) == multiset(s)
    decreases |s|
  {
    if s != [] {
      var p, x := s[..|s| - 1], s[|s| - 1];
      assert s == p + [x];
      RankedIsPermutation(p, tier);
      BucketAppend(p, x, tier, 0);
      BucketAppend(p, x, tier, 1);
      BucketAppend(p, x, tier, 2);
      ExtendedMultiset(Bucket(p, tier, 0), Bucket(p, tier, 1), Bucket(p, tier, 2),
                       Bucket(s, tier, 0), Bucket(s, tier, 1), Bucket(s, tier, 2), x, tier(x));
    }
  }

  /** Tiers never decrease along the ranked sequence. */
  lemma RankedSorted<T>(s: seq<T>, tier: T -> nat)
    ensures forall i, j :: 0 <= i < j < |Ranked(s, tier)| ==> tier(Ranked(s, tier)[i]) <= tier(Ranked(s, tier)[j])
  {
    RankedTiers(s, tier);
  }

  lemma {:induction false} BucketOfBucket<T>(s: seq<T>, tier: T -> nat, k: nat, k': nat)
    ensures Bucket(Bucket(s, tier, k'), tier, k) == if k == k' then Bucket(s, tier, k) else []
  {
    if s != [] {
      BucketOfBucket(s[1..], tier, k, k');
    }
  }

  /** Ranking is stable: within each tier the elements keep their input order. */
  lemma RankedStable<T>(s: seq<T>, tier: T -> nat, k: nat)
    requires k <= 2
    ensures Bucket(Ranked(s, tier), tier, k) == Bucket(s, tier, k)
  {
    var a, b, c := Bucket(s, tier, 0), Bucket(s, tier, 1), Bucket(s, tier, 2);
    FilterAppend(a + b, c, HasTier(tier, k));
    FilterAppend(a, b, HasTier(tier, k));
    BucketOfBucket(s, tier, k, 0);
    BucketOfBucket(s, tier, k, 1);
    BucketOfBucket(s, tier, k, 2);
  }

  /** Ranking a duplicate-free sequence leaves it duplicate-free. */
  lemma RankedDistinct<T>(s: seq<T>, tier: T -> nat)
    requires Distinct(s)
    ensures Distinct(Ranked(s, tier))
  {
    var a, b, c := Bucket(s, tier, 0), Bucket(s, tier, 1), Bucket(s, tier, 2);
    FilterDistinct(s, HasTier(tier, 0));
    FilterDistinct(s, HasTier(tier, 1));
    FilterDistinct(s, HasTier(tier, 2));
    RankedTiers(s, tier);
    var r := Ranked(s, tier);
    forall i, j | 0 <= i < j < |r| ensures r[i] != r[j] {
      if j < |a| {
        assert r[i] == a[i] && r[j] == a[j];
      } else if i >= |a| && j < |a| + |b| {
        assert r[i] == b[i - |a|] && r[j] == b[j - |a|];
      } else if i >= |a| + |b| {
        assert r[i] == c[i - |a| - |b|] && r[j] == c[j - |a| - |b|];
      } else {
        assert tier(r[i]) != tier(r[j]);
      }
    }
  }

  // ---------------------------------------------------------------------
  // searchTracks

  /** What `searchTracks(query, limit)` resolves to: nothing for a blank
      query; otherwise the matching, non-excluded tables entries in relevance
      order, cut by `slice(0, limit)`. */
  function SearchResults(query: string, limit: int): seq<TrackSuggestion> {
    if IsBlank(query) then []
    else
      var lowerQuery := Lower(query);
      Slice(RankOrder(Candidates(lowerQuery), lowerQuery), 0, limit)
  }

  /** `MockSpotifySearchService.searchTracks(query, limit = 10)`; the delay
      before the search is not modelled. */
  method SearchTracks(query: string, limit: Option<int>) returns (r: seq<TrackSuggestion>)
    ensures r == SearchResults(query, limit.GetOr(10))
  {
    if IsBlank(query) {
      return [];
    }
    var lowerQuery := Lower(query);
    var sorted := SortedCopy(Candidates(lowerQuery), lowerQuery);
    r := Slice(sorted, 0, limit.GetOr(10));
  }

  /** The filtered results put in an array and sorted there. */
  method SortedCopy(filteredResults: seq<TrackSuggestion>, lowerQuery: string) returns (r: seq<TrackSuggestion>)
    ensures r == RankOrder(filteredResults, lowerQuery)
  {
    var a := new TrackSuggestion[|filteredResults|](i requires 0 <= i < |filteredResults| => filteredResults[i]);
    assert a[..] == filteredResults;
    SortByRelevance(a, lowerQuery);
    r := a[..];
  }

  /** The two filters keep only entries of the table that match and that the
      keyword filter keeps. */
  lemma FilteredFrom(table: seq<TrackSuggestion>, lowerQuery: string)
    ensures forall t :: t in Filter(Filter(table, Matches(lowerQuery)), KeepTrack) ==>
      t in table && MatchesQuery(t, lowerQuery) && KeepTrack(t)
  {
    var matched := Filter(table, Matches(lowerQuery));
    forall t | t in Filter(matched, KeepTrack)
      ensures t in table && MatchesQuery(t, lowerQuery) && KeepTrack(t)
    {
      assert t in matched;
      assert Matches(lowerQuery)(t);
    }
  }

  /** The members of `slice(0, limit)` of a ranking are members of what was
      ranked. */
  lemma RankedSliceFrom<T>(c: seq<T>, tier: T -> nat, limit: int)
    requires forall y :: tier(y) <= 2
    ensures forall i :: 0 <= i < |Slice(Ranked(c, tier), 0, limit)| ==> Slice(Ranked(c, tier), 0, limit)[i] in c
  {
    var ranked := Ranked(c, tier);
    RankedIsPermutation(c, tier);
    SlicePrefix(ranked, limit);
    forall i | 0 <= i < |Slice(ranked, 0, limit)| ensures Slice(ranked, 0, limit)[i] in c {
      assert Slice(ranked, 0, limit)[i] in multiset(ranked);
    }
  }

  /** Every returned track is a table entry that matches the query and that
      this file's filter keeps. */
  lemma SearchResultsMatch(query: string, limit: int)
    ensures forall i :: 0 <= i < |SearchResults(query, limit)| ==>
      var t := SearchResults(query, limit)[i];
      t in MockTracks && MatchesQuery(t, Lower(query)) && !ShouldExcludeTrack(t.name, t.artist)
  {
    if !IsBlank(query) {
      var lowerQuery := Lower(query);
      TierByBounded(lowerQuery);
      RankedSliceFrom(Candidates(lowerQuery), TierBy(lowerQuery), limit);
      FilteredFrom(MockTracks, lowerQuery);
    }
  }


  /** A title that is excluded whatever the artist is never returned. */
  lemma ExcludedTitleNeverReturned(query: string, limit: int, title: string)
    requires forall artistName :: ShouldExcludeTrack(title, artistName)
    ensures forall i :: 0 <= i < |SearchResults(query, limit)| ==> SearchResults(query, limit)[i].name != title
  {
    SearchResultsMatch(query, limit);
  }

  /** A keyword found at `pos` in the title (in the case it is written in
      there) excludes the track whatever the artist. */
  lemma ExcludedByTitleAt(trackName: string, artistName: string, k: string, written: string, pos: nat)
    requires k in MockExcludedKeywords && Lower(written) == Lower(k) && MatchAt(trackName, written, pos)
    ensures ShouldExcludeTrack(trackName, artistName)
  {
    LowerMatchAt(trackName, written, pos);
    ContainsAt(Lower(trackName), Lower(k), pos);
    ExcludedByTitle(MockExcludedKeywords, trackName, artistName, k);
  }

  /** Each derivative entry is caught by this file's keyword list, whatever
      its artist: "カラオケ", "live" (written "Live") and "歌ってみた". */
  lemma KaraokeEntryExcluded(artistName: string)
    ensures ShouldExcludeTrack("Lemon (カラオケ)", artistName)
  {
    ExcludedByTitleAt("Lemon (カラオケ)", artistName, "カラオケ", "カラオケ", 7);
  }

  lemma LiveEntryExcluded(artistName: string)
    ensures ShouldExcludeTrack("Pretender (Live at 東京ドーム)", artistName)
  {
    ExcludedByTitleAt("Pretender (Live at 東京ドーム)", artistName, "live", "Live", 11);
  }

  lemma SungCoverEntryExcluded(artistName: string)
    ensures ShouldExcludeTrack("マリーゴールド (歌ってみた)", artistName)
  {
    ExcludedByTitleAt("マリーゴールド (歌ってみた)", artistName, "歌ってみた", "歌ってみた", 9);
  }

  lemma KaraokeNeverReturned(query: string, limit: int)
    ensures forall i :: 0 <= i < |SearchResults(query, limit)| ==>
      SearchResults(query, limit)[i].name != "Lemon (カラオケ)"
  {
    forall artistName | true ensures ShouldExcludeTrack("Lemon (カラオケ)", artistName) {
      KaraokeEntryExcluded(artistName);
    }
    ExcludedTitleNeverReturned(query, limit, "Lemon (カラオケ)");
  }

  lemma LiveNeverReturned(query: string, limit: int)
    ensures forall i :: 0 <= i < |SearchResults(query, limit)| ==>
      SearchResults(query, limit)[i].name != "Pretender (Live at 東京ドーム)"
  {
    forall artistName | true ensures ShouldExcludeTrack("Pretender (Live at 東京ドーム)", artistName) {
      LiveEntryExcluded(artistName);
    }
    ExcludedTitleNeverReturned(query, limit, "Pretender (Live at 東京ドーム)");
  }

  lemma SungCoverNeverReturned(query: string, limit: int)
    ensures forall i :: 0 <= i < |SearchResults(query, limit)| ==>
      SearchResults(query, limit)[i].name != "マリーゴールド (歌ってみた)"
  {
    forall artistName | true ensures ShouldExcludeTrack("マリーゴールド (歌ってみた)", artistName) {
      SungCoverEntryExcluded(artistName);
    }
    ExcludedTitleNeverReturned(query, limit, "マリーゴールド (歌ってみた)");
  }

  /** The three derivative entries at the end of the table are never
      returned, whatever the query: no returned track bears one of their
      titles. */
  lemma ExcludeEntriesNeverReturned(query: string, limit: int)
    ensures forall i :: 0 <= i < |SearchResults(query, limit)| ==>
      SearchResults(query, limit)[i].name != "Lemon (カラオケ)" &&
      SearchResults(query, limit)[i].name != "Pretender (Live at 東京ドーム)" &&
      SearchResults(query, limit)[i].name != "マリーゴールド (歌ってみた)"
  {
    KaraokeNeverReturned(query, limit);
    LiveNeverReturned(query, limit);
    SungCoverNeverReturned(query, limit);
  }

  /** `slice(0, limit)` returns at most `limit` tracks. */
  lemma SearchResultsBounded(query: string, limit: int)
    requires limit >= 0
    ensures |SearchResults(query, limit)| <= limit
  {
    if !IsBlank(query) {
      var lowerQuery := Lower(query);
      SliceWindow(RankOrder(Candidates(lowerQuery), lowerQuery), 0, limit);
    }
  }

  lemma MockTracksDistinct()
    ensures Distinct(MockTracks)
  {
  }

  /** No track is returned twice. */
  lemma SearchResultsDistinct(query: string, limit: int)
    ensures Distinct(SearchResults(query, limit))
  {
    if !IsBlank(query) {
      var lowerQuery := Lower(query);
      var ranked := RankOrder(Candidates(lowerQuery), lowerQuery);
      CandidatesDistinct(lowerQuery);
      RankedDistinct(Candidates(lowerQuery), TierBy(lowerQuery));
      SlicePrefix(ranked, limit);
      PrefixDistinct(ranked, RelativeIndex(limit, |ranked|));
    }
  }

  lemma CandidatesDistinct(lowerQuery: string)
    ensures Distinct(Candidates(lowerQuery))
  {
    MockTracksDistinct();
    FilterDistinct(MockTracks, Matches(lowerQuery));
    FilterDistinct(Filter(MockTracks, Matches(lowerQuery)), KeepTrack);
  }

  /** The returned tracks come in relevance order: exact titles, then title
      prefixes, then the rest. */
  lemma SearchResultsInTierOrder(query: string, limit: int)
    ensures forall i, j :: 0 <= i < j < |SearchResults(query, limit)| ==>
      Tier(SearchResults(query, limit)[i], Lower(query)) <= Tier(SearchResults(query, limit)[j], Lower(query))
  {
    if !IsBlank(query) {
      var lowerQuery := Lower(query);
      var ranked := RankOrder(Candidates(lowerQuery), lowerQuery);
      RankedSorted(Candidates(lowerQuery), TierBy(lowerQuery));
      SlicePrefix(ranked, limit);
      var r := SearchResults(query, limit);
      forall i, j | 0 <= i < j < |r| ensures Tier(r[i], lowerQuery) <= Tier(r[j], lowerQuery) {
        assert r[i] == ranked[i] && r[j] == ranked[j];
        assert TierBy(lowerQuery)(ranked[i]) <= TierBy(lowerQuery)(ranked[j]);
      }
    }
  }

  /** Cutting a ranking to its first elements keeps, in each tier, a prefix
      of that tier's elements in input order. */
  lemma RankedSliceStable<T>(c: seq<T>, tier: T -> nat, limit: int, k: nat)
    requires k <= 2
    ensures var kept := Bucket(Slice(Ranked(c, tier), 0, limit), tier, k);
      |kept| <= |Bucket(c, tier, k)| && kept == Bucket(c, tier, k)[..|kept|]
  {
    var ranked := Ranked(c, tier);
    SlicePrefix(ranked, limit);
    var n := RelativeIndex(limit, |ranked|);
    assert ranked == ranked[..n] + ranked[n..];
    FilterAppend(ranked[..n], ranked[n..], HasTier(tier, k));
    RankedStable(c, tier, k);
  }

  /** A cut that admits all elements keeps them all. */
  lemma RankedSliceAll<T>(c: seq<T>, tier: T -> nat, limit: int)
    requires forall y :: tier(y) <= 2
    requires limit >= |c|
    ensures multiset(Slice(Ranked(c, tier), 0, limit)) == multiset(c)
  {
    var ranked := Ranked(c, tier);
    RankedIsPermutation(c, tier);
    assert |ranked| == |c| by {
      assert |multiset(ranked)| == |multiset(c)|;
    }
    SliceWindow(ranked, 0, limit);
    assert ranked[0..] == ranked;
    assert Slice(ranked, 0, limit) == ranked;
  }

  /** Ties keep table order: within each tier, the returned tracks are the
      first candidates of that tier, in table order. */
  lemma SearchResultsStable(query: string, limit: int, k: nat)
    requires !IsBlank(query) && k <= 2
    ensures var tier, c := TierBy(Lower(query)), Candidates(Lower(query));
      var kept := Bucket(SearchResults(query, limit), tier, k);
      |kept| <= |Bucket(c, tier, k)| && kept == Bucket(c, tier, k)[..|kept|]
  {
    RankedSliceStable(Candidates(Lower(query)), TierBy(Lower(query)), limit, k);
  }

  /** When the limit admits them all, every candidate is returned, each once. */
  lemma SearchReturnsAllCandidates(query: string, limit: int)
    requires !IsBlank(query) && limit >= |Candidates(Lower(query))|
    ensures multiset(SearchResults(query, limit)) == multiset(Candidates(Lower(query)))
  {
    TierByBounded(Lower(query));
    RankedSliceAll(Candidates(Lower(query)), TierBy(Lower(query)), limit);
  }
}
