/**
 * The JavaScript string built-ins the application relies on, with the
 * semantics the app observes: `toLowerCase` (restricted to ASCII letters),
 * `includes`, `startsWith`, `trim` (only through the emptiness test
 * `!s.trim()`) and `Array.prototype.join` over strings.
 */
module JsText {

  /** `toLowerCase` on one code unit: ASCII upper-case letters are lowered,
      every other code point is left as it is. */
  function LowerChar(c: char): (r: char)
    ensures 'A' <= c <= 'Z' ==> r as int == c as int + 32
    ensures !('A' <= c <= 'Z') ==> r == c
    ensures !('A' <= r <= 'Z')
  {
    if 'A' <= c <= 'Z' then (c as int + 32) as char else c
  }

  function Lower(s: string): (r: string)
    ensures |r| == |s|
    ensures forall i :: 0 <= i < |s| ==> r[i] == LowerChar(s[i])
  {
    seq(|s|, i requires 0 <= i < |s| => LowerChar(s[i]))
  }

  lemma {:induction false} LowerAppend(a: string, b: string)
    ensures Lower(a + b) == Lower(a) + Lower(b)
  {
    assert |Lower(a + b)| == |Lower(a) + Lower(b)|;
    forall i | 0 <= i < |a + b|
      ensures Lower(a + b)[i] == (Lower(a) + Lower(b))[i]
    {
      if i < |a| {
        assert (a + b)[i] == a[i];
      } else {
        assert (a + b)[i] == b[i - |a|];
      }
    }
  }

  lemma LowerAroundSpace(a: string, b: string)
    ensures Lower(a + " " + b) == Lower(a) + " " + Lower(b)
  {
    var l, r := Lower(a + " " + b), Lower(a) + " " + Lower(b);
    assert |l| == |r|;
    forall i | 0 <= i < |l| ensures l[i] == r[i] {
      if i < |a| {
        assert (a + " " + b)[i] == a[i];
      } else if i == |a| {
        assert (a + " " + b)[i] == ' ';
      } else {
        assert (a + " " + b)[i] == b[i - |a| - 1];
      }
    }
  }

  /** Lowering twice is lowering once: a lowered text has no upper-case letter left. */
  lemma LowerIdempotent(s: string)
    ensures Lower(Lower(s)) == Lower(s)
  {
    assert |Lower(Lower(s))| == |Lower(s)|;
    forall i | 0 <= i < |s| ensures Lower(Lower(s))[i] == Lower(s)[i] {
      assert !('A' <= Lower(s)[i] <= 'Z');
    }
  }

  predicate StartsWith(s: string, prefix: string) {
    |prefix| <= |s| && s[..|prefix|] == prefix
  }

  /** `s` has `p` as the factor that begins at index `i`. */
  predicate MatchAt(s: string, p: string, i: int) {
    0 <= i && i + |p| <= |s| && s[i..i + |p|] == p
  }

  /** `s.includes(p)`. */
  predicate Contains(s: string, p: string) {
    exists i | 0 <= i <= |s| - |p| :: MatchAt(s, p, i)
  }

  lemma ContainsAt(s: string, p: string, i: int)
    requires MatchAt(s, p, i)
    ensures Contains(s, p)
  {
  }

  /** A factor of `b` is a factor of `a + b + c`. */
  lemma ContainsInFactor(a: string, b: string, c: string, p: string)
    requires Contains(b, p)
    ensures Contains(a + b + c, p)
  {
    var i :| 0 <= i <= |b| - |p| && MatchAt(b, p, i);
    assert (a + b + c)[|a| + i..|a| + i + |p|] == b[i..i + |p|];
    ContainsAt(a + b + c, p, |a| + i);
  }

  /** A pattern holding a character that the text lacks is not in the text. */
  lemma AbsentChar(s: string, p: string, c: char)
    requires c in p && c !in s
    ensures !Contains(s, p)
  {
    var j :| 0 <= j < |p| && p[j] == c;
    forall i | 0 <= i <= |s| - |p| ensures !MatchAt(s, p, i) {
      assert s[i + j] in s;
      assert s[i..i + |p|][j] == s[i + j];
    }
  }

  /** Some character of `p` does not occur in `s` (checked left to right). */
  predicate HasAbsentChar(p: string, s: string)
    decreases |p|
  {
    |p| > 0 && (p[0] !in s || HasAbsentChar(p[1..], s))
  }

  lemma {:induction false} AbsentCharWitness(p: string, s: string)
    requires HasAbsentChar(p, s)
    ensures exists c :: c in p && c !in s
  {
    if p[0] in s {
      AbsentCharWitness(p[1..], s);
      var c :| c in p[1..] && c !in s;
      assert c in p;
    }
  }

  lemma NotContains(s: string, p: string)
    requires HasAbsentChar(p, s)
    ensures !Contains(s, p)
  {
    AbsentCharWitness(p, s);
    var c :| c in p && c !in s;
    AbsentChar(s, p, c);
  }

  /** Lowering keeps factors: a factor of `s` at `i`, lowered, is a factor of
      the lowered `s` at `i`. */
  lemma LowerMatchAt(s: string, p: string, i: int)
    requires MatchAt(s, p, i)
    ensures MatchAt(Lower(s), Lower(p), i)
  {
    assert forall k :: 0 <= k < |p| ==> s[i + k] == p[k];
  }

  /** `c` is not in `s` under either case: neither `c` nor, for a lower-case
      ASCII letter, its upper-case form. */
  predicate MissingAnyCase(c: char, s: string) {
    c !in s && !('a' <= c <= 'z' && (c as int - 32) as char in s)
  }

  /** Some character of `p`, lowered, is missing from `s` under either case. */
  predicate HasCaselessAbsentChar(p: string, s: string)
    decreases |p|
  {
    |p| > 0 && (MissingAnyCase(LowerChar(p[0]), s) || HasCaselessAbsentChar(p[1..], s))
  }

  lemma MissingFromLower(c: char, s: string)
    requires MissingAnyCase(c, s)
    ensures c !in Lower(s)
  {
    forall i | 0 <= i < |s| ensures Lower(s)[i] != c {
      assert s[i] in s;
    }
  }

  /** A pattern with a character missing from `s` under either case is,
      lowered, not a factor of the lowered `s`. */
  lemma {:induction false} NotInLower(s: string, p: string)
    requires HasCaselessAbsentChar(p, s)
    ensures HasAbsentChar(Lower(p), Lower(s))
  {
    if MissingAnyCase(LowerChar(p[0]), s) {
      MissingFromLower(LowerChar(p[0]), s);
    } else {
      NotInLower(s, p[1..]);
      assert Lower(p)[1..] == Lower(p[1..]);
    }
  }

  /** The code points `String.prototype.trim` removes: ECMAScript WhiteSpace
      (tab, vertical tab, form feed, U+FEFF and the Zs space separators) and
      LineTerminator. */
  predicate IsJsWhitespace(c: char) {
    || c == '\t' || c == '\U{B}' || c == '\U{C}' || c == ' ' || c == '\U{A0}' || c == '\U{FEFF}'
    || c == '\U{1680}' || ('\U{2000}' <= c <= '\U{200A}') || c == '\U{202F}' || c == '\U{205F}'
    || c == '\U{3000}'
    || c == '\n' || c == '\r' || c == '\U{2028}' || c == '\U{2029}'
  }

  function TrimStart(s: string): (r: string)
    ensures |r| <= |s| && r == s[|s| - |r|..]
    ensures r == [] || !IsJsWhitespace(r[0])
  {
    if s != [] && IsJsWhitespace(s[0]) then TrimStart(s[1..]) else s
  }

  function TrimEnd(s: string): (r: string)
    ensures |r| <= |s| && r == s[..|r|]
    ensures r == [] || !IsJsWhitespace(r[|r| - 1])
  {
    if s != [] && IsJsWhitespace(s[|s| - 1]) then TrimEnd(s[..|s| - 1]) else s
  }

  /** `s.trim()`. */
  function Trim(s: string): string {
    TrimEnd(TrimStart(s))
  }

  /** `!s.trim()`: the trimmed string is the empty string, which is falsy. */
  predicate IsBlank(s: string) {
    Trim(s) == ""
  }

  lemma {:induction false} TrimStartEmpty(s: string)
    ensures TrimStart(s) == [] <==> forall c :: c in s ==> IsJsWhitespace(c)
  {
    if s != [] {
      TrimStartEmpty(s[1..]);
      assert forall c :: c in s <==> c == s[0] || c in s[1..];
    }
  }

  /** A query is blank exactly when every one of its characters is whitespace. */
  lemma BlankIffAllWhitespace(s: string)
    ensures IsBlank(s) <==> forall c :: c in s ==> IsJsWhitespace(c)
  {
    TrimStartEmpty(s);
    var t := TrimStart(s);
    if t != [] {
      assert TrimEnd(t) != [] by {
        if TrimEnd(t) == [] { TrimEndKeepsNonWhite(t); }
      }
    }
  }

  lemma {:induction false} TrimEndKeepsNonWhite(s: string)
    requires s != [] && !IsJsWhitespace(s[0])
    ensures TrimEnd(s) != []
  {
    if IsJsWhitespace(s[|s| - 1]) {
      TrimEndKeepsNonWhite(s[..|s| - 1]);
    }
  }

  /** `parts.join(sep)`. */
  function Join(parts: seq<string>, sep: string): string {
    if parts == [] then ""
    else if |parts| == 1 then parts[0]
    else parts[0] + sep + Join(parts[1..], sep)
  }

  /** Every part of a join appears in it: `Join(parts, sep)` splits as
      something, then `parts[k]`, then something. */
  lemma {:induction false} JoinContainsPart(parts: seq<string>, sep: string, k: nat)
    requires k < |parts|
    ensures exists pre, post :: Join(parts, sep) == pre + parts[k] + post
  {
    if |parts| == 1 {
      assert Join(parts, sep) == "" + parts[0] + "";
    } else if k == 0 {
      assert Join(parts, sep) == "" + parts[0] + (sep + Join(parts[1..], sep));
    } else {
      JoinContainsPart(parts[1..], sep, k - 1);
      var pre, post :| Join(parts[1..], sep) == pre + parts[1..][k - 1] + post;
      assert Join(parts, sep) == (parts[0] + sep + pre) + parts[k] + post;
    }
  }

  /** Hence a text found in one part of a join is found in the join. */
  lemma PartFactorInJoin(parts: seq<string>, sep: string, k: nat, p: string)
    requires k < |parts| && Contains(parts[k], p)
    ensures Contains(Join(parts, sep), p)
  {
    JoinContainsPart(parts, sep, k);
    var pre, post :| Join(parts, sep) == pre + parts[k] + post;
    ContainsInFactor(pre, parts[k], post, p);
  }

  /** `s.length`: JavaScript counts UTF-16 code units, so a code point
      above U+FFFF (an emoji, say) counts twice. */
  function Utf16Length(s: string): (n: nat)
    ensures |s| <= n <= 2 * |s|
  {
    if s == [] then 0 else (if s[0] as int > 0xFFFF then 2 else 1) + Utf16Length(s[1..])
  }

  /** `s.length >= 2` holds for two characters or more, and also for a
      single character outside the Basic Multilingual Plane. */
  lemma AtLeastTwoUnits(s: string)
    ensures Utf16Length(s) >= 2 <==> |s| >= 2 || (|s| == 1 && s[0] as int > 0xFFFF)
  {
    if |s| == 1 {
      assert s[1..] == [];
    }
  }
}
