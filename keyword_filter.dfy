/**
 * The derivative-version test both track services apply
 * (`shouldExcludeTrack`): the title and the artist text are joined with a
 * space, lower-cased, and searched for each keyword of a list, itself
 * lower-cased, with `Array.prototype.some`.
 */
module KeywordFilter {

  import opened JsText

  /** `keywords.some(k => text.includes(k.toLowerCase()))`, scanned left to right. */
  predicate SomeKeywordIn(text: string, keywords: seq<string>)
    decreases |keywords|
  {
    |keywords| > 0 && (Contains(text, Lower(keywords[0])) || SomeKeywordIn(text, keywords[1..]))
  }

  /** The text searched: `${trackName} ${artistName}`.toLowerCase(). */
  function CombinedText(trackName: string, artistName: string): (t: string)
    ensures |t| == |trackName| + 1 + |artistName|
    ensures t[|trackName|] == ' '
  {
    Lower(trackName + " " + artistName)
  }

  predicate Excludes(keywords: seq<string>, trackName: string, artistName: string) {
    SomeKeywordIn(CombinedText(trackName, artistName), keywords)
  }

  /** The scan finds a keyword exactly when some keyword of the list, lowered,
      is a factor of the text. */
  lemma {:induction false} SomeKeywordInIff(text: string, keywords: seq<string>)
    ensures SomeKeywordIn(text, keywords) <==> exists k :: k in keywords && Contains(text, Lower(k))
  {
    if keywords != [] {
      SomeKeywordInIff(text, keywords[1..]);
      if Contains(text, Lower(keywords[0])) {
        assert keywords[0] in keywords;
      } else if SomeKeywordIn(text, keywords[1..]) {
        var k :| k in keywords[1..] && Contains(text, Lower(k));
        assert k in keywords;
      } else {
        forall k | k in keywords ensures !Contains(text, Lower(k)) {
          if k != keywords[0] { assert k in keywords[1..]; }
        }
      }
    }
  }

  lemma ExcludesIff(keywords: seq<string>, trackName: string, artistName: string)
    ensures Excludes(keywords, trackName, artistName)
        <==> exists k :: k in keywords && Contains(Lower(trackName + " " + artistName), Lower(k))
  {
    SomeKeywordInIff(CombinedText(trackName, artistName), keywords);
  }

  /** The test ignores case: lowering the title and the artist first changes nothing. */
  lemma ExcludesIgnoresCase(keywords: seq<string>, trackName: string, artistName: string)
    ensures Excludes(keywords, Lower(trackName), Lower(artistName)) == Excludes(keywords, trackName, artistName)
  {
    LowerAroundSpace(trackName, artistName);
    LowerAroundSpace(Lower(trackName), Lower(artistName));
    LowerIdempotent(trackName);
    LowerIdempotent(artistName);
  }

  /** A keyword found anywhere in the combined text, even across the joining
      space, excludes the track. */
  lemma ExcludedByKeyword(keywords: seq<string>, trackName: string, artistName: string, k: string)
    requires k in keywords && Contains(Lower(trackName + " " + artistName), Lower(k))
    ensures Excludes(keywords, trackName, artistName)
  {
    ExcludesIff(keywords, trackName, artistName);
  }

  /** A keyword that occurs in the lowered title alone excludes the track,
      whatever the artist text is. */
  lemma ExcludedByTitle(keywords: seq<string>, trackName: string, artistName: string, k: string)
    requires k in keywords && Contains(Lower(trackName), Lower(k))
    ensures Excludes(keywords, trackName, artistName)
  {
    LowerAppend(trackName, " " + artistName);
    assert Lower(trackName + " " + artistName) == "" + Lower(trackName) + Lower(" " + artistName);
    ContainsInFactor("", Lower(trackName), Lower(" " + artistName), Lower(k));
    ExcludesIff(keywords, trackName, artistName);
  }

  /** Likewise a keyword in the lowered artist text alone. */
  lemma ExcludedByArtist(keywords: seq<string>, trackName: string, artistName: string, k: string)
    requires k in keywords && Contains(Lower(artistName), Lower(k))
    ensures Excludes(keywords, trackName, artistName)
  {
    LowerAppend(trackName + " ", artistName);
    assert trackName + " " + artistName == (trackName + " ") + artistName;
    assert Lower(trackName + " " + artistName) == Lower(trackName + " ") + Lower(artistName) + "";
    ContainsInFactor(Lower(trackName + " "), Lower(artistName), "", Lower(k));
    ExcludesIff(keywords, trackName, artistName);
  }
}
