/**
 * The Japanese-preference score of a catalog track: its popularity (0 when
 * missing), plus 50 once if a "Japanese" pattern matches the lower-cased
 * title, the space-joined lower-cased artist names or the lower-cased album
 * name, minus 20 once if an "international" pattern matches one of them.
 *
 * The patterns are regular expressions: a character class over three
 * code-point ranges, and alternations of words between `\b` anchors under
 * the `i` flag. `\b` is a change between a word character ([A-Za-z0-9_])
 * and anything else, so "music" does not contain the word "us".
 */
module PreferenceScore {

  import opened Wrappers
  import opened JsText
  import opened Catalog

  // ---------------------------------------------------------------------
  // The patterns

  /** The character class of the first Japanese pattern: U+3040-U+309F
      (hiragana), U+30A0-U+30FF (katakana) and U+4E00-U+9FAF (CJK
      ideographs). */
  predicate IsJapaneseChar(c: char) {
    ('\U{3040}' <= c <= '\U{309F}') || ('\U{30A0}' <= c <= '\U{30FF}') || ('\U{4E00}' <= c <= '\U{9FAF}')
  }

  /** A regular-expression word character. */
  predicate IsWordChar(c: char) {
    ('a' <= c <= 'z') || ('A' <= c <= 'Z') || ('0' <= c <= '9') || c == '_'
  }

  /** Position `i` of `s` holds a word character; positions outside `s` do not. */
  predicate WordCharAt(s: string, i: int) {
    0 <= i < |s| && IsWordChar(s[i])
  }

  /** `\b` holds at position `i`: a word character on exactly one side. */
  predicate BoundaryAt(s: string, i: int) {
    WordCharAt(s, i - 1) != WordCharAt(s, i)
  }

  /** `\bw\b` matches at `i`. */
  predicate WholeWordAt(s: string, w: string, i: int) {
    MatchAt(s, w, i) && BoundaryAt(s, i) && BoundaryAt(s, i + |w|)
  }

  predicate HasWholeWord(s: string, w: string) {
    exists i | 0 <= i <= |s| :: WholeWordAt(s, w, i)
  }

  /** The two shapes of pattern the scorer uses. */
  datatype Pattern = JapaneseScript | Words(words: seq<string>)

  /** `pattern.test(s)`. The texts tested are already lower-cased and every
      word is lower-case, so the `i` flag changes nothing. */
  predicate Test(p: Pattern, s: string) {
    match p
    case JapaneseScript => exists i | 0 <= i < |s| :: IsJapaneseChar(s[i])
    case Words(ws) => exists k | 0 <= k < |ws| :: HasWholeWord(s, ws[k])
  }

  const JapanesePatterns: seq<Pattern> := [
    JapaneseScript,
    Words(["jp", "japan", "japanese", "jpn"]),
    Words(["tokyo", "osaka", "kyoto", "nagoya"])
  ]

  const InternationalPatterns: seq<Pattern> := [
    Words(["feat.", "ft.", "featuring"]),
    Words(["remix", "mix", "edit"]),
    Words(["us", "uk", "usa", "america", "britain"])
  ]

  // ---------------------------------------------------------------------
  // The score

  /** The three texts the patterns are tested on. */
  function TrackText(hit: TrackHit): string { Lower(hit.name) }
  function ArtistText(hit: TrackHit): string { Lower(JoinedNames(hit.artists, " ")) }
  function AlbumText(hit: TrackHit): string { Lower(hit.album.name) }

  predicate MatchesSomeText(p: Pattern, hit: TrackHit) {
    Test(p, TrackText(hit)) || Test(p, ArtistText(hit)) || Test(p, AlbumText(hit))
  }

  predicate SomePatternMatches(patterns: seq<Pattern>, hit: TrackHit) {
    exists k | 0 <= k < |patterns| :: MatchesSomeText(patterns[k], hit)
  }

  predicate LooksJapanese(hit: TrackHit) {
    SomePatternMatches(JapanesePatterns, hit)
  }

  predicate LooksInternational(hit: TrackHit) {
    SomePatternMatches(InternationalPatterns, hit)
  }

  /** The score as a formula: each flag counts once, however many patterns
      and texts match. */
  function Score(hit: TrackHit): (score: int)
    ensures PopularityOrZero(hit.popularity) - 20 <= score <= PopularityOrZero(hit.popularity) + 50
  {
    PopularityOrZero(hit.popularity)
      + (if LooksJapanese(hit) then 50 else 0)
      - (if LooksInternational(hit) then 20 else 0)
  }

  /** `calculateJapanesePreferenceScore(track)`: two passes over the pattern
      lists, each stopping at the first pattern that matches one of the
      three texts. */
  method CalculateJapanesePreferenceScore(hit: TrackHit) returns (score: int)
    ensures score == Score(hit)
  {
    var trackName := Lower(hit.name);
    var artistName := Lower(JoinedNames(hit.artists, " "));
    var albumName := Lower(hit.album.name);
    score := PopularityOrZero(hit.popularity);
    ghost var base := score;

    for i := 0 to |JapanesePatterns|
      invariant score == base
      invariant forall k :: 0 <= k < i ==> !MatchesSomeText(JapanesePatterns[k], hit)
    {
      var pattern := JapanesePatterns[i];
      if Test(pattern, trackName) || Test(pattern, artistName) || Test(pattern, albumName) {
        score := score + 50;
        break;
      }
    }
    assert score == base + (if LooksJapanese(hit) then 50 else 0);
    ghost var afterBonus := score;

    for i := 0 to |InternationalPatterns|
      invariant score == afterBonus
      invariant forall k :: 0 <= k < i ==> !MatchesSomeText(InternationalPatterns[k], hit)
    {
      var pattern := InternationalPatterns[i];
      if Test(pattern, trackName) || Test(pattern, artistName) || Test(pattern, albumName) {
        score := score - 20;
        break;
      }
    }
  }

  // ---------------------------------------------------------------------
  // What the formula implies for the order

  /** A Japanese-looking track outscores an otherwise equal one that is not. */
  lemma JapaneseFlagRaises(a: TrackHit, b: TrackHit)
    requires PopularityOrZero(a.popularity) == PopularityOrZero(b.popularity)
    requires LooksInternational(a) == LooksInternational(b)
    requires LooksJapanese(a) && !LooksJapanese(b)
    ensures Score(a) == Score(b) + 50
  {
  }

  /** An international-looking track scores below an otherwise equal one. */
  lemma InternationalFlagLowers(a: TrackHit, b: TrackHit)
    requires PopularityOrZero(a.popularity) == PopularityOrZero(b.popularity)
    requires LooksJapanese(a) == LooksJapanese(b)
    requires LooksInternational(a) && !LooksInternational(b)
    ensures Score(a) == Score(b) - 20
  {
  }

  /** With both flags, a track scores its popularity plus 30. */
  lemma BothFlags(hit: TrackHit)
    requires LooksJapanese(hit) && LooksInternational(hit)
    ensures Score(hit) == PopularityOrZero(hit.popularity) + 30
  {
  }

  // ---------------------------------------------------------------------
  // The character class

  /** Lower-casing keeps a Japanese character where it is. */
  lemma JapaneseCharSurvivesLower(s: string, i: int)
    requires 0 <= i < |s| && IsJapaneseChar(s[i])
    ensures Test(JapaneseScript, Lower(s))
  {
    assert Lower(s)[i] == s[i];
  }

  /** One kana or kanji in the title makes a track look Japanese. */
  lemma JapaneseTitleChar(hit: TrackHit, i: int)
    requires 0 <= i < |hit.name| && IsJapaneseChar(hit.name[i])
    ensures LooksJapanese(hit)
  {
    JapaneseCharSurvivesLower(hit.name, i);
    assert MatchesSomeText(JapanesePatterns[0], hit);
  }

  /** So does one in the album name. */
  lemma JapaneseAlbumChar(hit: TrackHit, i: int)
    requires 0 <= i < |hit.album.name| && IsJapaneseChar(hit.album.name[i])
    ensures LooksJapanese(hit)
  {
    JapaneseCharSurvivesLower(hit.album.name, i);
    assert MatchesSomeText(JapanesePatterns[0], hit);
  }

  /** So does one in any artist's name: the joined artist text holds it. */
  lemma JapaneseArtistChar(hit: TrackHit, k: int, i: int)
    requires 0 <= k < |hit.artists|
    requires 0 <= i < |hit.artists[k].name| && IsJapaneseChar(hit.artists[k].name[i])
    ensures LooksJapanese(hit)
  {
    var c := hit.artists[k].name[i];
    assert MatchAt(hit.artists[k].name, [c], i);
    ArtistNameInJoined(hit.artists, " ", k, [c]);
    var joined := JoinedNames(hit.artists, " ");
    var j :| 0 <= j <= |joined| - 1 && MatchAt(joined, [c], j);
    assert joined[j] == c;
    JapaneseCharSurvivesLower(joined, j);
    assert MatchesSomeText(JapanesePatterns[0], hit);
  }

  // ---------------------------------------------------------------------
  // Whole words

  /** A word that starts with a word character is not matched where a word
      character precedes it: the word must start a word of the text. */
  lemma {:induction false} NoWordAfterWordChar(s: string, w: string, i: int)
    requires |w| > 0 && IsWordChar(w[0]) && MatchAt(s, w, i) && WordCharAt(s, i - 1)
    ensures !WholeWordAt(s, w, i)
  {
    assert s[i] == w[0];
  }

  /** A word ending in a word character is not matched where a word
      character follows it. */
  lemma {:induction false} NoWordBeforeWordChar(s: string, w: string, i: int)
    requires |w| > 0 && IsWordChar(w[|w| - 1]) && MatchAt(s, w, i) && WordCharAt(s, i + |w|)
    ensures !WholeWordAt(s, w, i)
  {
    assert s[i + |w| - 1] == w[|w| - 1];
  }

  /** "feat." and "ft." end in a non-word character, so `\b` after them
      needs a word character right after the dot: "feat. guest" (with a
      space) is not a match, "feat.guest" is. */
  lemma {:induction false} DottedWordNeedsWordCharAfter(s: string, w: string, i: int)
    requires |w| > 0 && w[|w| - 1] == '.' && WholeWordAt(s, w, i)
    ensures i + |w| < |s| && IsWordChar(s[i + |w|])
  {
    assert s[i + |w| - 1] == '.';
  }

  /** "music" does not contain the word "us", nor any other word of the
      country pattern. */
  lemma MusicIsNotUs(text: string)
    requires text == "music"
    ensures !Test(InternationalPatterns[2], text)
  {
    forall k, i | 0 <= k < 5 && 0 <= i <= |text|
      ensures !WholeWordAt(text, ["us", "uk", "usa", "america", "britain"][k], i)
    {
      if k == 0 && i == 1 {
        NoWordAfterWordChar(text, "us", 1);
      }
    }
  }

  /** "remixed" does not contain the word "remix" (nor "mix" or "edit"). */
  lemma RemixedIsNotRemix(text: string)
    requires text == "remixed"
    ensures !Test(InternationalPatterns[1], text)
  {
    forall k, i | 0 <= k < 3 && 0 <= i <= |text|
      ensures !WholeWordAt(text, ["remix", "mix", "edit"][k], i)
    {
      if k == 0 && i == 0 {
        NoWordBeforeWordChar(text, "remix", 0);
      } else if k == 1 && i == 2 {
        NoWordAfterWordChar(text, "mix", 2);
      }
    }
  }

  lemma SpacedFeatLacksFeat(text: string)
    requires text == "(feat. guest)"
    ensures !HasWholeWord(text, "feat.")
  {
    forall i | 0 <= i <= |text| ensures !WholeWordAt(text, "feat.", i) {
      if i == 1 && WholeWordAt(text, "feat.", 1) {
        DottedWordNeedsWordCharAfter(text, "feat.", 1);
        assert false;
      }
    }
  }

  lemma SpacedFeatLacksFt(text: string)
    requires text == "(feat. guest)"
    ensures !HasWholeWord(text, "ft.")
  {
    forall i | 0 <= i <= |text| ensures !MatchAt(text, "ft.", i) {
      if i + 3 <= |text| {
        if i == 1 {
          assert text[i + 1] != 't';
        } else {
          assert text[i] != 'f';
        }
      }
    }
  }

  lemma SpacedFeatLacksFeaturing(text: string)
    requires text == "(feat. guest)"
    ensures !HasWholeWord(text, "featuring")
  {
    assert 'r' !in text;
    AbsentChar(text, "featuring", 'r');
  }

  /** The usual credit "(feat. guest)" is not penalised: after "feat." comes
      a space, so there is no `\b` there. */
  lemma SpacedFeatIsNotInternational(text: string)
    requires text == "(feat. guest)"
    ensures !Test(InternationalPatterns[0], text)
  {
    SpacedFeatLacksFeat(text);
    SpacedFeatLacksFt(text);
    SpacedFeatLacksFeaturing(text);
    assert InternationalPatterns[0].words == ["feat.", "ft.", "featuring"];
  }

  /** "feat." directly followed by a word character is a match. */
  lemma GluedFeatIsInternational(text: string)
    requires text == "feat.guest"
    ensures Test(InternationalPatterns[0], text)
  {
    assert WholeWordAt(text, "feat.", 0);
    assert HasWholeWord(text, ["feat.", "ft.", "featuring"][0]);
  }
}
