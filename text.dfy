/** Python's `str.strip()` with no argument, and substring search (`needle in hay`),
    as far as the session controller uses them. */
module Text {

  /** The characters Python's `str.isspace` accepts, which are the ones a
      no-argument `strip()` removes. */
  predicate IsSpace(c: char) {
    || c == '\t' || c == '\n' || c == '\U{B}' || c == '\U{C}' || c == '\r'
    || ('\U{1C}' <= c <= '\U{1F}')
    || c == ' ' || c == '\U{85}' || c == '\U{A0}' || c == '\U{1680}'
    || ('\U{2000}' <= c <= '\U{200A}')
    || c == '\U{2028}' || c == '\U{2029}' || c == '\U{202F}' || c == '\U{205F}' || c == '\U{3000}'
  }

  /** Every character of `s` is whitespace (this includes the empty string). */
  predicate AllSpace(s: string) {
    forall i :: 0 <= i < |s| ==> IsSpace(s[i])
  }

  /** Drops the leading whitespace: the result is the suffix of `s` that starts at its
      first non-whitespace character. */
  function TrimStart(s: string): (r: string)
    ensures |r| <= |s| && r == s[|s| - |r|..]
    ensures AllSpace(s[..|s| - |r|])
    ensures r == [] || !IsSpace(r[0])
  {
    if s == [] || !IsSpace(s[0]) then s else TrimStart(s[1..])
  }

  /** Drops the trailing whitespace: the result is the prefix of `s` that ends at its
      last non-whitespace character. */
  function TrimEnd(s: string): (r: string)
    ensures |r| <= |s| && r == s[..|r|]
    ensures AllSpace(s[|r|..])
    ensures r == [] || !IsSpace(r[|r| - 1])
  {
    if s == [] || !IsSpace(s[|s| - 1]) then s else TrimEnd(s[..|s| - 1])
  }

  /** `s.strip()`: the result is the slice `s[i..i + |r|]` that remains once the
      whitespace on both sides is dropped. It is empty exactly when `s` is all
      whitespace, and otherwise it begins and ends with a non-whitespace character. */
  function Strip(s: string): (r: string)
    ensures |r| <= |s|
    ensures exists i :: IsTrimmedSlice(s, i, r)
    ensures r == [] <==> AllSpace(s)
    ensures r != [] ==> !IsSpace(r[0]) && !IsSpace(r[|r| - 1])
  {
    TrimBothEmptyIffAllSpace(s);
    TrimBothIsSlice(s);
    TrimEnd(TrimStart(s))
  }

  /** Trimming both ends leaves a slice of `s` with only whitespace around it. */
  lemma TrimBothIsSlice(s: string)
    ensures IsTrimmedSlice(s, |s| - |TrimStart(s)|, TrimEnd(TrimStart(s)))
  {
    var t := TrimStart(s);
    var r := TrimEnd(t);
    var i := |s| - |t|;
    assert s[i..] == t;
    assert s[i..i + |r|] == t[..|r|];
    assert s[i + |r|..] == t[|r|..];
  }

  /** `r` is `s[i..i + |r|]`, and everything of `s` outside that slice is whitespace. */
  predicate IsTrimmedSlice(s: string, i: int, r: string) {
    && 0 <= i <= i + |r| <= |s|
    && r == s[i..i + |r|]
    && AllSpace(s[..i])
    && AllSpace(s[i + |r|..])
  }

  /** Trimming both ends leaves nothing exactly when every character was whitespace. */
  lemma TrimBothEmptyIffAllSpace(s: string)
    ensures TrimEnd(TrimStart(s)) == [] <==> AllSpace(s)
  {
    var t := TrimStart(s);
    var k := |s| - |t|;
    if TrimEnd(t) == [] {
      assert t[0..] == t;
      forall i | 0 <= i < |s| ensures IsSpace(s[i]) {
        if i < k {
          assert s[i] == s[..k][i];
        } else {
          assert s[i] == t[i - k];
        }
      }
    } else {
      assert t != [] && s[k] == t[0];
    }
  }

  /** `not s.strip()` in Python: nothing but whitespace is left. */
  predicate IsBlank(s: string) {
    Strip(s) == []
  }

  /** `hay.startswith(needle)`. */
  predicate StartsWith(hay: string, needle: string) {
    |needle| <= |hay| && hay[..|needle|] == needle
  }

  /** `needle in hay` for two strings: `needle` starts at some position of `hay`. */
  predicate Contains(hay: string, needle: string)
    decreases |hay|
  {
    StartsWith(hay, needle) || (hay != [] && Contains(hay[1..], needle))
  }

  /** A non-empty needle whose first character never occurs in `hay` is not in `hay`. */
  lemma {:induction false} NotContainsWithoutFirstChar(hay: string, needle: string)
    requires needle != []
    requires forall i :: 0 <= i < |hay| ==> hay[i] != needle[0]
    ensures !Contains(hay, needle)
  {
    if hay != [] {
      if |needle| <= |hay| {
        assert hay[..|needle|][0] == hay[0];
      }
      NotContainsWithoutFirstChar(hay[1..], needle);
    }
  }
}
