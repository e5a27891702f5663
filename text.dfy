/** The string operations the views use: `toLowerCase` (restricted to ASCII
    letters), `includes` (substring search) and `trim`. */
module Text {

  /** ASCII upper-case letters map to lower case; every other character is kept. */
  function LowerChar(c: char): (d: char)
    ensures 'A' <= c <= 'Z' ==> 'a' <= d <= 'z' && d as int - c as int == 32
    ensures !('A' <= c <= 'Z') ==> d == c
  {
    if 'A' <= c <= 'Z' then (c as int + 32) as char else c
  }

  /** `s.toLowerCase()`, on ASCII letters. */
  function ToLower(s: string): (r: string)
    ensures |r| == |s|
    ensures forall i :: 0 <= i < |s| ==> r[i] == LowerChar(s[i])
  {
    if s == [] then [] else [LowerChar(s[0])] + ToLower(s[1..])
  }

  /** Lower-casing twice is lower-casing once. */
  lemma ToLowerIdempotent(s: string)
    ensures ToLower(ToLower(s)) == ToLower(s)
  {
  }

  predicate IsPrefix(p: string, s: string)
  {
    |p| <= |s| && s[..|p|] == p
  }

  /** `hay.includes(needle)`: `needle` occurs at some position of `hay`. */
  predicate Contains(hay: string, needle: string)
    decreases |hay|
  {
    IsPrefix(needle, hay) || (hay != [] && Contains(hay[1..], needle))
  }

  /** `needle` occurs in `hay` starting at index `i`. */
  predicate OccursAt(hay: string, needle: string, i: int)
  {
    0 <= i && i + |needle| <= |hay| && hay[i..i + |needle|] == needle
  }

  /** `Contains` holds exactly when there is an occurrence at some index. */
  lemma {:induction false} ContainsAt(hay: string, needle: string)
    ensures Contains(hay, needle) <==> exists i :: OccursAt(hay, needle, i)
    decreases |hay|
  {
    if IsPrefix(needle, hay) {
      assert OccursAt(hay, needle, 0);
    } else if hay != [] {
      ContainsAt(hay[1..], needle);
      if Contains(hay[1..], needle) {
        var i :| OccursAt(hay[1..], needle, i);
        assert hay[i + 1..i + 1 + |needle|] == hay[1..][i..i + |needle|];
        assert OccursAt(hay, needle, i + 1);
      }
      if exists i :: OccursAt(hay, needle, i) {
        var i :| OccursAt(hay, needle, i);
        assert i != 0;
        assert hay[1..][i - 1..i - 1 + |needle|] == hay[i..i + |needle|];
        assert OccursAt(hay[1..], needle, i - 1);
      }
    }
  }

  /** A needle that occurs at no index is not contained. */
  lemma NotContained(hay: string, needle: string)
    requires forall i :: !OccursAt(hay, needle, i)
    ensures !Contains(hay, needle)
  {
    ContainsAt(hay, needle);
  }

  /** A haystack that never holds the needle's first character does not include the needle. */
  lemma {:induction false} NotContainedFirstChar(hay: string, needle: string)
    requires needle != []
    requires forall i :: 0 <= i < |hay| ==> hay[i] != needle[0]
    ensures !Contains(hay, needle)
  {
    if hay != [] {
      if |needle| <= |hay| {
        assert hay[..|needle|][0] == hay[0];
      }
      NotContainedFirstChar(hay[1..], needle);
    }
  }

  /** A haystack in which the needle's first two characters never appear side by
      side does not include the needle. */
  lemma {:induction false} NotContainedFirstPair(hay: string, needle: string)
    requires |needle| >= 2
    requires forall i :: 0 <= i < |hay| - 1 ==> !(hay[i] == needle[0] && hay[i + 1] == needle[1])
    ensures !Contains(hay, needle)
  {
    if hay != [] {
      if |needle| <= |hay| {
        assert hay[..|needle|][0] == hay[0] && hay[..|needle|][1] == hay[1];
      }
      forall i | 0 <= i < |hay[1..]| - 1 ensures !(hay[1..][i] == needle[0] && hay[1..][i + 1] == needle[1]) {
        assert hay[1..][i] == hay[i + 1] && hay[1..][i + 1] == hay[i + 2];
      }
      NotContainedFirstPair(hay[1..], needle);
    }
  }

  /** Every string includes the empty string. */
  lemma ContainsEmpty(hay: string)
    ensures Contains(hay, "")
  {
    assert IsPrefix("", hay);
  }

  /** Case-insensitive substring test, as the search boxes do it: both sides are lower-cased. */
  predicate MatchesIgnoringCase(field: string, query: string)
  {
    Contains(ToLower(field), ToLower(query))
  }

  /** The empty query matches every field. */
  lemma EmptyQueryMatches(field: string)
    ensures MatchesIgnoringCase(field, "")
  {
    assert ToLower("") == "";
    ContainsEmpty(ToLower(field));
  }

  /** Some tag of `tags` matches the query (`tags.some(...)`). */
  predicate SomeMatches(tags: seq<string>, query: string)
  {
    exists i :: 0 <= i < |tags| && MatchesIgnoringCase(tags[i], query)
  }

  /** The characters `String.prototype.trim` removes: the white space and line
      terminator code points of section 12.2 and 12.3 of ECMA-262. */
  predicate IsWhiteSpace(c: char)
  {
    c == ' ' || c == '\t' || c == '\n' || c == '\r' ||
    c as int in {0x0B, 0x0C, 0xA0, 0x1680, 0x2028, 0x2029, 0x202F, 0x205F, 0x3000, 0xFEFF} ||
    (0x2000 <= c as int <= 0x200A)
  }

  function TrimStart(s: string): (r: string)
    ensures |r| <= |s| && r == s[|s| - |r|..]
    ensures r != [] ==> !IsWhiteSpace(r[0])
    ensures forall i :: 0 <= i < |s| - |r| ==> IsWhiteSpace(s[i])
  {
    if s != [] && IsWhiteSpace(s[0]) then TrimStart(s[1..]) else s
  }

  function TrimEnd(s: string): (r: string)
    ensures |r| <= |s| && r == s[..|r|]
    ensures r != [] ==> !IsWhiteSpace(r[|r| - 1])
    ensures forall i :: |r| <= i < |s| ==> IsWhiteSpace(s[i])
  {
    if s != [] && IsWhiteSpace(s[|s| - 1]) then TrimEnd(s[..|s| - 1]) else s
  }

  /** `s.trim()`. */
  function Trim(s: string): string
  {
    TrimEnd(TrimStart(s))
  }

  /** `!s.trim()`: the trimmed string is empty. */
  predicate IsBlank(s: string)
  {
    Trim(s) == ""
  }

  /** A string is blank exactly when every character of it is white space. */
  lemma BlankIffAllWhiteSpace(s: string)
    ensures IsBlank(s) <==> forall i :: 0 <= i < |s| ==> IsWhiteSpace(s[i])
  {
    var t := TrimStart(s);
    if IsBlank(s) {
      assert t == [];
    }
  }
}
