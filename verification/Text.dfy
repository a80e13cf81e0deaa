/** The string operations the parsers use, with Python's meaning. */
module Text {

  /**
    `str.isspace()` (and what `\s` matches in a `str` pattern): the ASCII
    whitespace and separators and the Unicode space characters.
  */
  predicate IsSpace(c: char)
  {
    || c == ' ' || c == '\t' || c == '\n' || c == '\r' || c == '\U{000B}' || c == '\U{000C}'
    || ('\U{001C}' <= c <= '\U{001F}') || c == '\U{0085}' || c == '\U{00A0}' || c == '\U{1680}'
    || ('\U{2000}' <= c <= '\U{200A}') || c == '\U{2028}' || c == '\U{2029}' || c == '\U{202F}'
    || c == '\U{205F}' || c == '\U{3000}'
  }

  /** An ASCII decimal digit. */
  predicate IsDigit(c: char)
  {
    '0' <= c <= '9'
  }

  predicate AllSpace(s: string)
  {
    forall i :: 0 <= i < |s| ==> IsSpace(s[i])
  }

  predicate AllDigits(s: string)
  {
    forall i :: 0 <= i < |s| ==> IsDigit(s[i])
  }

  /** `pat` occurs in `text` starting at index `i`. */
  predicate OccursAt(text: string, pat: string, i: int)
  {
    0 <= i <= |text| - |pat| && text[i..i + |pat|] == pat
  }

  /** `pat in text`. */
  function Contains(text: string, pat: string): (r: bool)
    ensures r <==> exists i :: OccursAt(text, pat, i)
  {
    if |text| < |pat| then false
    else if text[..|pat|] == pat then
      assert OccursAt(text, pat, 0);
      true
    else
      var r := Contains(text[1..], pat);
      assert r ==> exists i :: OccursAt(text, pat, i) by {
        if r {
          var j :| OccursAt(text[1..], pat, j);
          assert text[1..][j..j + |pat|] == text[j + 1..j + 1 + |pat|];
          assert OccursAt(text, pat, j + 1);
        }
      }
      assert (exists i :: OccursAt(text, pat, i)) ==> r by {
        if exists i :: OccursAt(text, pat, i) {
          var i :| OccursAt(text, pat, i);
          assert i != 0;
          assert text[1..][i - 1..i - 1 + |pat|] == text[i..i + |pat|];
          assert OccursAt(text[1..], pat, i - 1);
        }
      }
      r
  }

  /** `text.replace(pat, "")` for a non-empty `pat`: occurrences removed left to right. */
  function RemoveAll(text: string, pat: string): string
    requires pat != []
  {
    if |text| < |pat| then text
    else if text[..|pat|] == pat then RemoveAll(text[|pat|..], pat)
    else [text[0]] + RemoveAll(text[1..], pat)
  }

  /** No whitespace at either end. */
  predicate Stripped(s: string)
  {
    s == [] || (!IsSpace(s[0]) && !IsSpace(s[|s| - 1]))
  }

  /** `text.strip()`: `lstrip` and then `rstrip`, leaving the middle between two runs of whitespace. */
  function Strip(text: string): (r: string)
    ensures Stripped(r)
    ensures exists i, j :: 0 <= i <= j <= |text| && AllSpace(text[..i]) && r == text[i..j] && AllSpace(text[j..])
  {
    var i := Span(text, 0, IsSpace);
    var left := text[i..];
    var j := SpanBack(left, |left|, IsSpace);
    assert AllSpace(text[..i]) by {
      forall k | 0 <= k < i
        ensures IsSpace(text[..i][k])
      {
        assert text[..i][k] == text[k];
      }
    }
    var tail := text[i + j..];
    assert AllSpace(tail) by {
      forall k | 0 <= k < |tail|
        ensures IsSpace(tail[k])
      {
        assert tail[k] == left[j + k];
      }
    }
    assert left[..j] == text[i..i + j];
    left[..j]
  }

  /** Stripping a string that has no whitespace at either end leaves it unchanged. */
  lemma StripStripped(text: string)
    requires Stripped(text)
    ensures Strip(text) == text
  {
  }

  /** `text.replace(c, "")` for a single character. */
  function Delete(text: string, c: char): (r: string)
    ensures c !in r
  {
    if text == [] then [] else (if text[0] == c then [] else [text[0]]) + Delete(text[1..], c)
  }

  /** `text.replace(c, d)` for single characters. */
  function Substitute(text: string, c: char, d: char): (r: string)
    ensures |r| == |text|
    ensures forall i :: 0 <= i < |text| ==> r[i] == if text[i] == c then d else text[i]
  {
    if text == [] then [] else [if text[0] == c then d else text[0]] + Substitute(text[1..], c, d)
  }

  /** The prefix of `text` before its first line break (all of it when there is none). */
  function FirstLine(text: string): (r: string)
    ensures '\n' !in r
    ensures |r| <= |text| && r == text[..|r|]
    ensures |r| < |text| ==> text[|r|] == '\n'
  {
    if text == [] || text[0] == '\n' then [] else [text[0]] + FirstLine(text[1..])
  }

  /** A line without a line break is its own first line. */
  lemma {:induction false} FirstLineOfLine(text: string)
    requires '\n' !in text
    ensures FirstLine(text) == text
  {
    if text != [] {
      assert '\n' !in text[1..];
      FirstLineOfLine(text[1..]);
    }
  }

  /** The end of the longest run of characters satisfying `p` that starts at index `i`. */
  function Span(text: string, i: nat, p: char -> bool): (j: nat)
    requires i <= |text|
    ensures i <= j <= |text|
    ensures forall k :: i <= k < j ==> p(text[k])
    ensures j < |text| ==> !p(text[j])
    decreases |text| - i
  {
    if i == |text| || !p(text[i]) then i else Span(text, i + 1, p)
  }

  /** The start of the longest run of characters satisfying `p` that ends just before index `j`. */
  function SpanBack(text: string, j: nat, p: char -> bool): (i: nat)
    requires j <= |text|
    ensures i <= j
    ensures forall k :: i <= k < j ==> p(text[k])
    ensures 0 < i ==> !p(text[i - 1])
  {
    if j == 0 || !p(text[j - 1]) then j else SpanBack(text, j - 1, p)
  }

  /** A run is maximal in one way only: any end with the two properties of a span is the span's end. */
  lemma SpanUnique(text: string, i: nat, p: char -> bool, j: nat)
    requires i <= j <= |text|
    requires forall k :: i <= k < j ==> p(text[k])
    requires j < |text| ==> !p(text[j])
    ensures Span(text, i, p) == j
  {
  }
}
