/**
  The row logic of the spreadsheet reader for investment position statements.
  Once a sheet has been read into rows of cells, a header state machine walks
  the rows: main-category headers and sub-category headers ("28,3% | Pós-Fixado")
  set the current section, and every other row may describe a position, whose
  value is a Brazilian currency string ("R$ 1.234,56") in one of a few columns.
*/
module XlsxParser {
  import opened Basics
  import opened Text
  import opened Grouping

  /** A cell as the text `str(cell)`; `None` for an empty (NaN) cell. */
  type Cell = Option<string>

  type Row = seq<Cell>

  /** A position read from a statement. */
  datatype InvestmentPosition = InvestmentPosition(
    name: string,
    value: real,
    mainCategory: string,
    subCategory: string)

  function Value(p: InvestmentPosition): real { p.value }

  // ---------------------------------------------------------------------------
  // Main-category headers
  // ---------------------------------------------------------------------------

  /** `MAIN_CATEGORIES` in the dictionary's order: the text looked for, and the category it names. */
  const MainCategories: seq<(string, string)> := [
    ("Fundos de Investimentos", "Fundos de Investimentos"),
    ("Renda Fixa", "Renda Fixa"),
    ("Posição de Fundos Imobiliários", "Fundos Imobiliários"),
    ("Previdência Privada", "Previdência Privada"),
    ("COE", "COE")]

  /** A category a main-category header can name. */
  predicate IsMainCategory(category: string)
  {
    exists i :: 0 <= i < |MainCategories| && MainCategories[i].1 == category
  }

  /** The category of the first entry of `table`, from index `k` on, whose text occurs in `text`. */
  function FirstMatch(text: string, table: seq<(string, string)>, k: nat): (r: Option<string>)
    requires k <= |table|
    ensures r.None? <==> forall i :: k <= i < |table| ==> !Contains(text, table[i].0)
    ensures r.Some? ==>
      exists i :: k <= i < |table| && Contains(text, table[i].0) && r.value == table[i].1
        && forall j :: k <= j < i ==> !Contains(text, table[j].0)
    decreases |table| - k
  {
    if k == |table| then None
    else if Contains(text, table[k].0) then Some(table[k].1)
    else FirstMatch(text, table, k + 1)
  }

  /** The loop of `_identify_main_category`, over any table of `(text, category)` entries. */
  method FindCategory(text: string, table: seq<(string, string)>) returns (category: Option<string>)
    ensures category == FirstMatch(text, table, 0)
  {
    for i := 0 to |table|
      invariant FirstMatch(text, table, i) == FirstMatch(text, table, 0)
    {
      if Contains(text, table[i].0) {
        return Some(table[i].1);
      }
    }
    return None;
  }

  /** `_identify_main_category`: the first table entry whose text occurs in `text`. */
  method IdentifyMainCategory(text: string) returns (category: Option<string>)
    ensures category == FirstMatch(text, MainCategories, 0)
  {
    category := FindCategory(text, MainCategories);
  }

  /** Whatever a main-category header matches, the category it sets is one of the table's. */
  lemma MatchedIsMainCategory(text: string)
    ensures FirstMatch(text, MainCategories, 0).Some? ==> IsMainCategory(FirstMatch(text, MainCategories, 0).value)
  {
  }

  // ---------------------------------------------------------------------------
  // Sub-category headers: `[\d,\.]+%\s*\|\s*(.+)` matched at the start
  // ---------------------------------------------------------------------------

  /** A character of `[\d,\.]`. */
  predicate IsPercentChar(c: char)
  {
    IsDigit(c) || c == ',' || c == '.'
  }

  /** The last index in `[lo, hi)` that does not hold a line break. */
  function LastNonNewline(text: string, lo: nat, hi: nat): (k: Option<nat>)
    requires lo <= hi <= |text|
    ensures k.None? ==> forall j :: lo <= j < hi ==> text[j] == '\n'
    ensures k.Some? ==> lo <= k.value < hi && text[k.value] != '\n'
    ensures k.Some? ==> forall j :: k.value < j < hi ==> text[j] == '\n'
    decreases hi
  {
    if hi == lo then None
    else if text[hi - 1] != '\n' then Some(hi - 1)
    else LastNonNewline(text, lo, hi - 1)
  }

  /**
    Where the group of `[\d,\.]+%\s*\|\s*(.+)`, matched at the start of
    `text`, begins. The percentage run, the `%`, the first `\s*` and the `|`
    can only match one way. The second `\s*` is greedy: the group starts
    after all the whitespace when something follows it, and otherwise, by
    backtracking, at the last whitespace character that is not a line break.
  */
  function GroupStart(text: string): (g: Option<nat>)
    ensures g.Some? ==> g.value < |text|
  {
    var a := Span(text, 0, IsPercentChar);
    if a == 0 || a == |text| || text[a] != '%' then None
    else
      var b := Span(text, a + 1, IsSpace);
      if b == |text| || text[b] != '|' then None
      else
        var c := Span(text, b + 1, IsSpace);
        if c < |text| then Some(c) else LastNonNewline(text, b + 1, |text|)
  }

  /** `_identify_sub_category`: the group, up to the first line break (`.+`), stripped. */
  function IdentifySubCategory(text: string): (r: Option<string>)
    ensures r.Some? ==> '\n' !in r.value && Stripped(r.value)
  {
    match GroupStart(text)
    case None => None
    case Some(g) => Some(Strip(FirstLine(text[g..])))
  }

  /**
    The regular expression matches with `(.+)` starting at index `c`: a
    non-empty run of `[\d,\.]` up to index `a`, a `%`, whitespace up to index
    `b`, a `|`, whitespace up to index `c`, and at `c` a character `.` matches.
  */
  predicate SubCategoryMatch(text: string, a: int, b: int, c: int)
  {
    && 0 < a < b < c < |text|
    && (forall i :: 0 <= i < a ==> IsPercentChar(text[i]))
    && text[a] == '%'
    && (forall i :: a < i < b ==> IsSpace(text[i]))
    && text[b] == '|'
    && (forall i :: b < i < c ==> IsSpace(text[i]))
    && text[c] != '\n'
  }

  /** The group start found is that of a match. */
  lemma GroupStartMatches(text: string)
    requires GroupStart(text).Some?
    ensures exists a, b :: SubCategoryMatch(text, a, b, GroupStart(text).value)
  {
    var a := Span(text, 0, IsPercentChar);
    var b := Span(text, a + 1, IsSpace);
    var c := Span(text, b + 1, IsSpace);
    assert SubCategoryMatch(text, a, b, GroupStart(text).value);
  }

  /** Any match fixes where the percentage and the bar are. */
  lemma MatchPositions(text: string, a: int, b: int, c: int)
    requires SubCategoryMatch(text, a, b, c)
    ensures Span(text, 0, IsPercentChar) == a
    ensures Span(text, a + 1, IsSpace) == b
  {
    SpanUnique(text, 0, IsPercentChar, a);
    SpanUnique(text, a + 1, IsSpace, b);
  }

  /** Every match has its group start at or before the one found. */
  lemma MatchHasGroupStart(text: string, a: int, b: int, c: int)
    requires SubCategoryMatch(text, a, b, c)
    ensures GroupStart(text).Some? && c <= GroupStart(text).value
  {
    MatchPositions(text, a, b, c);
    var s := Span(text, b + 1, IsSpace);
  }

  /**
    The recogniser agrees with the regular expression: it answers exactly
    when some match exists, and then with the stripped first line from the
    latest start of the group, the one a backtracking matcher settles on.
  */
  lemma SubCategoryPattern(text: string)
    ensures IdentifySubCategory(text).Some? <==> exists a, b, c :: SubCategoryMatch(text, a, b, c)
    ensures IdentifySubCategory(text).Some? ==>
      exists a, b, c :: SubCategoryMatch(text, a, b, c)
        && IdentifySubCategory(text).value == Strip(FirstLine(text[c..]))
        && forall a', b', c' :: SubCategoryMatch(text, a', b', c') ==> c' <= c
  {
    if GroupStart(text).Some? {
      GroupStartMatches(text);
      forall a', b', c' | SubCategoryMatch(text, a', b', c')
        ensures c' <= GroupStart(text).value
      {
        MatchHasGroupStart(text, a', b', c');
      }
    } else {
      forall a', b', c'
        ensures !SubCategoryMatch(text, a', b', c')
      {
        if SubCategoryMatch(text, a', b', c') {
          MatchHasGroupStart(text, a', b', c');
        }
      }
    }
  }

  /** The three runs of a header, once found, place the group. */
  lemma GroupStartAt(text: string, a: nat, b: nat, c: nat)
    requires 0 < a < |text| && Span(text, 0, IsPercentChar) == a && text[a] == '%'
    requires a < b < |text| && Span(text, a + 1, IsSpace) == b && text[b] == '|'
    requires b < c < |text| && Span(text, b + 1, IsSpace) == c
    ensures GroupStart(text) == Some(c)
  {
  }

  /** What a header is made of: a percentage, `%`, blanks, `|`, blanks and a name. */
  predicate HeaderParts(percent: string, gap1: string, gap2: string, name: string)
  {
    && percent != [] && (forall i :: 0 <= i < |percent| ==> IsPercentChar(percent[i]))
    && AllSpace(gap1) && AllSpace(gap2)
    && name != [] && !IsSpace(name[0])
  }

  /** A sub-category header such as `28,3% | Pós-Fixado`, assembled from its parts. */
  function Header(percent: string, gap1: string, gap2: string, name: string): string
  {
    percent + ['%'] + gap1 + ['|'] + gap2 + name
  }

  lemma HeaderPercent(percent: string, gap1: string, gap2: string, name: string)
    requires HeaderParts(percent, gap1, gap2, name)
    ensures Span(Header(percent, gap1, gap2, name), 0, IsPercentChar) == |percent|
    ensures Header(percent, gap1, gap2, name)[|percent|] == '%'
  {
    var h := Header(percent, gap1, gap2, name);
    forall k | 0 <= k < |percent|
      ensures IsPercentChar(h[k])
    {
      assert h[k] == percent[k];
    }
    SpanUnique(h, 0, IsPercentChar, |percent|);
  }

  lemma HeaderFirstGap(percent: string, gap1: string, gap2: string, name: string)
    requires HeaderParts(percent, gap1, gap2, name)
    ensures Span(Header(percent, gap1, gap2, name), |percent| + 1, IsSpace) == |percent| + 1 + |gap1|
    ensures Header(percent, gap1, gap2, name)[|percent| + 1 + |gap1|] == '|'
  {
    var h := Header(percent, gap1, gap2, name);
    var a := |percent|;
    assert forall k :: a + 1 <= k < a + 1 + |gap1| ==> IsSpace(h[k]) by {
      forall k | a + 1 <= k < a + 1 + |gap1|
        ensures IsSpace(h[k])
      {
        assert h[k] == gap1[k - a - 1];
      }
    }
    assert h[a + 1 + |gap1|] == '|';
    SpanUnique(h, a + 1, IsSpace, a + 1 + |gap1|);
  }

  lemma HeaderSecondGap(percent: string, gap1: string, gap2: string, name: string)
    requires HeaderParts(percent, gap1, gap2, name)
    ensures Span(Header(percent, gap1, gap2, name), |percent| + 2 + |gap1|, IsSpace) == |percent| + |gap1| + |gap2| + 2
  {
    var h := Header(percent, gap1, gap2, name);
    var b := |percent| + 1 + |gap1|;
    assert forall k :: b + 1 <= k < b + 1 + |gap2| ==> IsSpace(h[k]) by {
      forall k | b + 1 <= k < b + 1 + |gap2|
        ensures IsSpace(h[k])
      {
        assert h[k] == gap2[k - b - 1];
      }
    }
    assert !IsSpace(h[b + 1 + |gap2|]) by {
      assert h[b + 1 + |gap2|] == name[0];
    }
    SpanUnique(h, b + 1, IsSpace, b + 1 + |gap2|);
  }

  /** In a header, the group starts at the name. */
  lemma HeaderGroupStart(percent: string, gap1: string, gap2: string, name: string)
    requires HeaderParts(percent, gap1, gap2, name)
    ensures GroupStart(Header(percent, gap1, gap2, name)) == Some(|percent| + |gap1| + |gap2| + 2)
  {
    HeaderPercent(percent, gap1, gap2, name);
    HeaderFirstGap(percent, gap1, gap2, name);
    HeaderSecondGap(percent, gap1, gap2, name);
    var b := |percent| + 1 + |gap1|;
    GroupStartAt(Header(percent, gap1, gap2, name), |percent|, b, b + 1 + |gap2|);
  }

  /** A header reads back as its name, whenever the name is one line with no blanks at either end. */
  lemma SubCategoryHeader(percent: string, gap1: string, gap2: string, name: string)
    requires HeaderParts(percent, gap1, gap2, name)
    requires '\n' !in name && Stripped(name)
    ensures IdentifySubCategory(Header(percent, gap1, gap2, name)) == Some(name)
  {
    HeaderGroupStart(percent, gap1, gap2, name);
    assert Header(percent, gap1, gap2, name)[|percent| + |gap1| + |gap2| + 2..] == name;
    FirstLineOfLine(name);
    StripStripped(name);
  }

  // ---------------------------------------------------------------------------
  // Brazilian currency strings
  // ---------------------------------------------------------------------------

  /** `re.sub(r'[^\d\.\-]', '', text)`: only digits, points and minus signs survive. */
  function KeepNumeric(text: string): (r: string)
    ensures forall c :: c in r ==> IsDigit(c) || c == '.' || c == '-'
  {
    if text == [] then []
    else
      var c := text[0];
      (if IsDigit(c) || c == '.' || c == '-' then [c] else []) + KeepNumeric(text[1..])
  }

  function DigitValue(c: char): nat
    requires IsDigit(c)
  {
    c as int - '0' as int
  }

  /** The number a string of decimal digits spells. */
  function DigitsValue(s: string): nat
    requires AllDigits(s)
  {
    if s == [] then 0 else DigitsValue(s[..|s| - 1]) * 10 + DigitValue(s[|s| - 1])
  }

  /** The value of the digits after a decimal point: "56" is 0.56. */
  function FractionValue(s: string): (r: real)
    requires AllDigits(s)
    ensures 0.0 <= r < 1.0
  {
    if s == [] then 0.0 else (DigitValue(s[0]) as real + FractionValue(s[1..])) / 10.0
  }

  /** `s.find(c)`, or `|s|` when `c` does not occur. */
  function IndexOf(s: string, c: char): (i: nat)
    ensures i <= |s|
    ensures i < |s| ==> s[i] == c
    ensures forall j :: 0 <= j < i ==> s[j] != c
  {
    if s == [] || s[0] == c then 0 else 1 + IndexOf(s[1..], c)
  }

  /** Digits with at most one point among them, and at least one digit. */
  predicate NumberBody(body: string)
  {
    && (forall k :: 0 <= k < |body| ==> IsDigit(body[k]) || body[k] == '.')
    && (forall i, j :: 0 <= i < j < |body| && body[i] == '.' ==> body[j] != '.')
    && (exists k :: 0 <= k < |body| && IsDigit(body[k]))
  }

  /** What `float` accepts of digits, points and minus signs: an optional leading `-`, then a number body. */
  predicate NumberText(s: string)
  {
    s != [] && NumberBody(if s[0] == '-' then s[1..] else s)
  }

  /**
    Splitting at the first point leaves digits on both sides, not both empty,
    exactly when the text is a number body.
  */
  lemma SplitAtPoint(body: string)
    ensures var point := IndexOf(body, '.');
            var whole := body[..point];
            var fraction := if point < |body| then body[point + 1..] else [];
            AllDigits(whole) && AllDigits(fraction) && |whole| + |fraction| > 0 <==> NumberBody(body)
  {
    var point := IndexOf(body, '.');
    var whole := body[..point];
    var fraction := if point < |body| then body[point + 1..] else [];
    if AllDigits(whole) && AllDigits(fraction) && |whole| + |fraction| > 0 {
      DigitsAroundPoint(body, point);
    }
    if NumberBody(body) {
      PointSplitsBody(body, point);
    }
  }

  lemma DigitsAroundPoint(body: string, point: nat)
    requires point == IndexOf(body, '.')
    requires AllDigits(body[..point])
    requires point < |body| ==> AllDigits(body[point + 1..])
    requires point > 0 || point + 1 < |body|
    ensures NumberBody(body)
  {
    forall k | 0 <= k < |body| && k != point ensures IsDigit(body[k]) {
      if k < point {
        assert body[k] == body[..point][k];
      } else {
        assert body[k] == body[point + 1..][k - point - 1];
      }
    }
    var d := if point > 0 then 0 else point + 1;
    assert IsDigit(body[d]);
  }

  lemma PointSplitsBody(body: string, point: nat)
    requires point == IndexOf(body, '.') && NumberBody(body)
    ensures AllDigits(body[..point])
    ensures point < |body| ==> AllDigits(body[point + 1..])
    ensures point > 0 || point + 1 < |body|
  {
    var whole := body[..point];
    forall k | 0 <= k < point ensures IsDigit(whole[k]) {
      assert whole[k] == body[k];
    }
    if point < |body| {
      var fraction := body[point + 1..];
      forall k | 0 <= k < |fraction| ensures IsDigit(fraction[k]) {
        assert fraction[k] == body[point + 1 + k];
      }
    }
    var k :| 0 <= k < |body| && IsDigit(body[k]);
    assert k != point;
  }

  /**
    `float(text)` on a string of digits, points and minus signs: an optional
    leading `-`, digits with at most one point, and at least one digit.
    Anything else raises, which `_parse_currency` turns into `None`.
  */
  function ParseFloat(s: string): (r: Option<real>)
    ensures r.Some? ==> exists k :: 0 <= k < |s| && IsDigit(s[k])
    ensures r.Some? ==> forall k :: 0 < k < |s| ==> s[k] != '-'
  {
    if s == [] then None
    else
      var negative := s[0] == '-';
      var body := if negative then s[1..] else s;
      var point := IndexOf(body, '.');
      var whole := body[..point];
      var fraction := if point < |body| then body[point + 1..] else [];
      if AllDigits(whole) && AllDigits(fraction) && |whole| + |fraction| > 0 then
        var magnitude := DigitsValue(whole) as real + FractionValue(fraction);
        assert |whole| > 0 ==> IsDigit(body[0]);
        assert |whole| == 0 ==> IsDigit(body[point + 1]);
        assert forall k :: 0 <= k < |body| && k != point ==> IsDigit(body[k]) by {
          forall k | 0 <= k < |body| && k != point
            ensures IsDigit(body[k])
          {
            if k < point {
              assert body[k] == whole[k];
            } else {
              assert body[k] == fraction[k - point - 1];
            }
          }
        }
        assert negative ==> forall k :: 0 < k < |s| ==> s[k] == body[k - 1];
        Some(if negative then -magnitude else magnitude)
      else
        None
  }

  /** `float` reads exactly the number texts: an optional leading minus, digits, at most one point, some digit. */
  lemma ParseFloatAccepts(s: string)
    ensures ParseFloat(s).Some? <==> NumberText(s)
  {
    if s != [] {
      SplitAtPoint(if s[0] == '-' then s[1..] else s);
    }
  }

  /**
    `_parse_currency`: drop "R$", strip, delete every thousands point, turn
    the decimal comma into a point, keep only digits, points and minus
    signs, and read what is left as a float.
  */
  function ParseCurrency(text: string): (r: Option<real>)
    ensures r == ParseFloat(Clean(text))
  {
    RewritesClean(Strip(RemoveAll(text, "R$")));
    StripClean(RemoveAll(text, "R$"));
    RemoveSignClean(text);
    var t := Strip(RemoveAll(text, "R$"));
    var t := Delete(t, '.');
    var t := Substitute(t, ',', '.');
    ParseFloat(KeepNumeric(t))
  }

  /** What the cleaning keeps of one character: a digit or minus sign, the comma as a point, nothing else. */
  function CleanChar(c: char): string
  {
    if IsDigit(c) || c == '-' then [c] else if c == ',' then "." else []
  }

  /** The cleaned text, character by character. */
  function Clean(text: string): string
  {
    if text == [] then [] else CleanChar(text[0]) + Clean(text[1..])
  }

  lemma {:induction false} CleanAppend(x: string, y: string)
    ensures Clean(x + y) == Clean(x) + Clean(y)
  {
    if x != [] {
      assert (x + y)[0] == x[0] && (x + y)[1..] == x[1..] + y;
      CleanAppend(x[1..], y);
      assert Clean(x + y) == CleanChar(x[0]) + (Clean(x[1..]) + Clean(y));
    } else {
      assert x + y == y;
    }
  }

  lemma {:induction false} CleanOfSpace(s: string)
    requires AllSpace(s)
    ensures Clean(s) == []
  {
    if s != [] {
      assert IsSpace(s[0]);
      CleanOfSpace(s[1..]);
    }
  }

  lemma {:induction false} KeepNumericAppend(x: string, y: string)
    ensures KeepNumeric(x + y) == KeepNumeric(x) + KeepNumeric(y)
  {
    if x != [] {
      assert (x + y)[0] == x[0] && (x + y)[1..] == x[1..] + y;
      KeepNumericAppend(x[1..], y);
    } else {
      assert x + y == y;
    }
  }

  /** The point deletion, comma substitution and filter, applied in turn, clean the text. */
  lemma {:induction false} RewritesClean(text: string)
    ensures KeepNumeric(Substitute(Delete(text, '.'), ',', '.')) == Clean(text)
  {
    if text != [] {
      var c := text[0];
      var head: string := if c == '.' then [] else [c];
      var rest := Delete(text[1..], '.');
      assert Delete(text, '.') == head + rest;
      assert Substitute(head + rest, ',', '.') == Substitute(head, ',', '.') + Substitute(rest, ',', '.');
      KeepNumericAppend(Substitute(head, ',', '.'), Substitute(rest, ',', '.'));
      RewriteChar(c);
      RewritesClean(text[1..]);
    }
  }

  /** The three rewrites, on one character, keep what the cleaning keeps. */
  lemma RewriteChar(c: char)
    ensures KeepNumeric(Substitute(if c == '.' then [] else [c], ',', '.')) == CleanChar(c)
  {
    if c != '.' {
      var d := if c == ',' then '.' else c;
      assert Substitute([c], ',', '.') == [d];
      assert KeepNumeric([d]) == (if IsDigit(d) || d == '.' || d == '-' then [d] else []) + KeepNumeric([]);
    }
  }

  /** Removing "R$" changes nothing the cleaning keeps. */
  lemma {:induction false} RemoveSignClean(text: string)
    ensures Clean(RemoveAll(text, "R$")) == Clean(text)
    decreases |text|
  {
    if |text| >= 2 {
      if text[..2] == "R$" {
        assert text == "R$" + text[2..];
        CleanAppend("R$", text[2..]);
        RemoveSignClean(text[2..]);
      } else {
        CleanAppend([text[0]], RemoveAll(text[1..], "R$"));
        RemoveSignClean(text[1..]);
      }
    } else if |text| == 1 {
      assert RemoveAll(text, "R$") == text;
    }
  }

  /** Stripping changes nothing the cleaning keeps. */
  lemma StripClean(text: string)
    ensures Clean(Strip(text)) == Clean(text)
  {
    var i, j :| 0 <= i <= j <= |text| && AllSpace(text[..i]) && Strip(text) == text[i..j] && AllSpace(text[j..]);
    var lead, middle, trail := text[..i], text[i..j], text[j..];
    assert text == lead + middle + trail;
    CleanAppend(lead + middle, trail);
    CleanAppend(lead, middle);
    CleanOfSpace(lead);
    CleanOfSpace(trail);
  }

  lemma CleanPoint(x: string, y: string)
    ensures Clean(x + ['.'] + y) == Clean(x + y)
  {
    CleanAppend(x + ['.'], y);
    CleanAppend(x, ['.']);
    CleanAppend(x, y);
  }

  /** Thousands points are ignored wherever they stand. */
  lemma ThousandsPoint(x: string, y: string)
    ensures ParseCurrency(x + ['.'] + y) == ParseCurrency(x + y)
  {
    CleanPoint(x, y);
  }

  /** Text without a single digit never parses. */
  lemma NoDigitNoValue(text: string)
    requires forall k :: 0 <= k < |text| ==> !IsDigit(text[k])
    ensures ParseCurrency(text) == None
  {
    NoDigitClean(text);
  }

  lemma {:induction false} NoDigitClean(text: string)
    requires forall k :: 0 <= k < |text| ==> !IsDigit(text[k])
    ensures forall k :: 0 <= k < |Clean(text)| ==> !IsDigit(Clean(text)[k])
  {
    if text != [] {
      NoDigitClean(text[1..]);
    }
  }

  /** An amount as a statement writes it, without thousands points: "R$ ", the reais, a comma, the centavos. */
  function Written(whole: string, fraction: string): string
  {
    ['R', '$', ' '] + whole + [','] + fraction
  }

  lemma CleanWritten(whole: string, fraction: string)
    requires AllDigits(whole) && AllDigits(fraction)
    ensures Clean(Written(whole, fraction)) == whole + ['.'] + fraction
  {
    CleanAppend(['R', '$', ' '] + whole + [','], fraction);
    CleanAppend(['R', '$', ' '] + whole, [',']);
    CleanAppend(['R', '$', ' '], whole);
    DigitsClean(whole);
    DigitsClean(fraction);
  }

  /** Digits, a point and digits read as a decimal number. */
  lemma ParseDecimal(whole: string, fraction: string)
    requires whole != [] && AllDigits(whole) && AllDigits(fraction)
    ensures ParseFloat(whole + ['.'] + fraction) == Some(DigitsValue(whole) as real + FractionValue(fraction))
  {
    var s := whole + ['.'] + fraction;
    assert s[0] == whole[0];
    assert s[..|whole|] == whole && s[|whole| + 1..] == fraction;
    assert IndexOf(s, '.') == |whole| by {
      assert s[|whole|] == '.';
      assert forall k :: 0 <= k < |whole| ==> s[k] == whole[k];
    }
    ParseUnsigned(s, |whole|);
  }

  /** A leading minus negates what the rest reads as, and a text the rest does not read stays unread. */
  lemma ParseNegative(t: string)
    requires t != [] && t[0] != '-'
    ensures ParseFloat(['-'] + t) == if ParseFloat(t).Some? then Some(-ParseFloat(t).value) else None
  {
    assert (['-'] + t)[1..] == t;
  }

  /** Without a sign, `float` reads the digits before the first point and the digits after it. */
  lemma ParseUnsigned(s: string, point: nat)
    requires 0 < point < |s| && s[0] != '-' && IndexOf(s, '.') == point
    requires AllDigits(s[..point]) && AllDigits(s[point + 1..])
    ensures ParseFloat(s) == Some(DigitsValue(s[..point]) as real + FractionValue(s[point + 1..]))
  {
  }

  /** Digits alone read as a whole number. */
  lemma ParseWhole(whole: string)
    requires whole != [] && AllDigits(whole)
    ensures ParseFloat(whole) == Some(DigitsValue(whole) as real)
  {
    assert IndexOf(whole, '.') == |whole|;
    assert whole[..|whole|] == whole;
  }

  /** Whatever cleans to digits, a point and digits reads as that decimal number. */
  lemma ParseCleaned(text: string, whole: string, fraction: string)
    requires whole != [] && AllDigits(whole) && AllDigits(fraction)
    requires Clean(text) == whole + ['.'] + fraction
    ensures ParseCurrency(text) == Some(DigitsValue(whole) as real + FractionValue(fraction))
  {
    ParseDecimal(whole, fraction);
  }

  /** A written amount reads as its reais plus its centavos. */
  lemma ParseWritten(whole: string, fraction: string)
    requires whole != [] && AllDigits(whole) && AllDigits(fraction)
    ensures ParseCurrency(Written(whole, fraction)) == Some(DigitsValue(whole) as real + FractionValue(fraction))
  {
    CleanWritten(whole, fraction);
    ParseCleaned(Written(whole, fraction), whole, fraction);
  }

  lemma {:induction false} DigitsClean(s: string)
    requires AllDigits(s)
    ensures Clean(s) == s
  {
    if s != [] {
      assert IsDigit(s[0]);
      DigitsClean(s[1..]);
    }
  }

  /**
    A numeric cell reaches the parser as its text `str(cell)`, whose point is
    then deleted as a thousands separator: the text of a float such as
    1234.56 reads as the whole number 123456.
  */
  lemma PointedDigits(whole: string, fraction: string)
    requires whole != [] && AllDigits(whole) && AllDigits(fraction)
    ensures ParseCurrency(whole + ['.'] + fraction) == Some(DigitsValue(whole + fraction) as real)
  {
    var digits := whole + fraction;
    ThousandsPoint(whole, fraction);
    assert AllDigits(digits) by {
      forall k | 0 <= k < |digits|
        ensures IsDigit(digits[k])
      {
        if k < |whole| {
          assert digits[k] == whole[k];
        } else {
          assert digits[k] == fraction[k - |whole|];
        }
      }
    }
    DigitsClean(digits);
    ParseWhole(digits);
  }

  // ---------------------------------------------------------------------------
  // Rows
  // ---------------------------------------------------------------------------

  /** `row[col]` when the column exists; `None` otherwise and for an empty cell. */
  function CellAt(row: Row, col: nat): Cell
  {
    if col < |row| then row[col] else None
  }

  /** The first cell's text, `''` when it is empty. */
  function FirstCell(row: Row): string
  {
    match CellAt(row, 0)
    case Some(text) => text
    case None => ""
  }

  /** The columns that may hold a position's value, in the order they are tried. */
  const ValueColumns: seq<nat> := [1, 6, 7]

  /** The positive amount column `col` holds (`value and value > 0`), if any. */
  function ValueAt(row: Row, col: nat): (v: Option<real>)
    ensures v.Some? ==> v.value > 0.0
  {
    match CellAt(row, col)
    case None => None
    case Some(text) =>
      var parsed := ParseCurrency(text);
      if parsed.Some? && parsed.value > 0.0 then parsed else None
  }

  /** The positive amount each of `cols` holds, in the order the columns are listed. */
  function ColumnValues(row: Row, cols: seq<nat>): (values: seq<Option<real>>)
    ensures |values| == |cols|
    ensures forall i :: 0 <= i < |cols| ==> values[i] == ValueAt(row, cols[i])
  {
    seq(|cols|, i requires 0 <= i < |cols| => ValueAt(row, cols[i]))
  }

  /** The first value present in `values` from index `k` on. */
  function FirstSome(values: seq<Option<real>>, k: nat): (r: Option<real>)
    requires k <= |values|
    ensures r.None? <==> forall i :: k <= i < |values| ==> values[i].None?
    ensures r.Some? ==>
      exists i :: k <= i < |values| && values[i] == r
        && forall j :: k <= j < i ==> values[j].None?
    decreases |values| - k
  {
    if k == |values| then None
    else if values[k].Some? then values[k]
    else FirstSome(values, k + 1)
  }

  /** The positive amount in the first of columns 1, 6 and 7 that holds one. */
  function FirstValue(row: Row): (r: Option<real>)
    ensures r.None? <==> forall i :: 0 <= i < |ValueColumns| ==> ValueAt(row, ValueColumns[i]).None?
    ensures r.Some? ==>
      exists i :: 0 <= i < |ValueColumns| && ValueAt(row, ValueColumns[i]) == r
        && forall j :: 0 <= j < i ==> ValueAt(row, ValueColumns[j]).None?
    ensures r.Some? ==> r.value > 0.0
  {
    FirstSome(ColumnValues(row, ValueColumns), 0)
  }

  /** `_extract_value_from_row`: columns 1, 6 and 7 in turn, the first positive amount. */
  method ExtractValueFromRow(row: Row) returns (value: Option<real>)
    ensures value == FirstValue(row)
  {
    ghost var values := ColumnValues(row, ValueColumns);
    for i := 0 to |ValueColumns|
      invariant FirstSome(values, i) == FirstSome(values, 0)
    {
      var col := ValueColumns[i];
      if col >= |row| {
        continue;
      }
      var cell := row[col];
      if cell.None? {
        continue;
      }
      var parsed := ParseCurrency(cell.value);
      if parsed.Some? && parsed.value > 0.0 {
        return parsed;
      }
    }
    return None;
  }

  /** A name that cannot be a position's: missing, shorter than 5, or holding "Posição" or "%". */
  predicate RejectedName(name: Cell)
  {
    name.None? || name.value == "" || |name.value| < 5
    || Contains(name.value, "Posição") || Contains(name.value, "%")
  }

  /** `_extract_position_from_row`: the position a data row describes, if it passes the filters. */
  function PositionFromRow(row: Row, mainCategory: string, subCategory: string): (p: Option<InvestmentPosition>)
    ensures p.None? <==> RejectedName(CellAt(row, 0)) || FirstValue(row).None?
    ensures p.Some? ==>
      && p.value.name == FirstCell(row) && p.value.value == FirstValue(row).value
      && p.value.mainCategory == mainCategory && p.value.subCategory == subCategory
  {
    var name := CellAt(row, 0);
    if RejectedName(name) then None
    else
      var value := FirstValue(row);
      if value.None? || value.value == 0.0 then None
      else Some(InvestmentPosition(name.value, value.value, mainCategory, subCategory))
  }

  /** `_extract_position_from_row`, with the value scan as a loop. */
  method ExtractPositionFromRow(row: Row, mainCategory: string, subCategory: string)
    returns (position: Option<InvestmentPosition>)
    ensures position == PositionFromRow(row, mainCategory, subCategory)
  {
    var name := if |row| > 0 then row[0] else None;
    if RejectedName(name) {
      return None;
    }
    var value := ExtractValueFromRow(row);
    if value.None? || value.value == 0.0 {
      return None;
    }
    return Some(InvestmentPosition(name.value, value.value, mainCategory, subCategory));
  }

  // ---------------------------------------------------------------------------
  // The header state machine
  // ---------------------------------------------------------------------------

  /** The current main and sub-category while the rows are walked. */
  datatype ScanState = ScanState(main: Option<string>, sub: Option<string>)

  const Start: ScanState := ScanState(None, None)

  /** A row whose first cell names a sub-category (a non-empty one). */
  predicate IsSubHeader(row: Row)
  {
    var sub := IdentifySubCategory(FirstCell(row));
    sub.Some? && sub.value != ""
  }

  /** One row: the state after it, and the position it yields. */
  function Step(st: ScanState, row: Row): (r: (ScanState, Option<InvestmentPosition>))
    ensures r.1.Some? ==>
      && r.0 == st && st.main.Some? && st.sub.Some?
      && r.1.value.mainCategory == st.main.value && r.1.value.subCategory == st.sub.value
    ensures r.0.main != st.main ==> r.0.sub.None?
    ensures st.main.Some? ==> r.0.main.Some?
  {
    var first := FirstCell(row);
    var mainCategory := FirstMatch(first, MainCategories, 0);
    if mainCategory.Some? then (ScanState(mainCategory, None), None)
    else if IsSubHeader(row) then (ScanState(st.main, IdentifySubCategory(first)), None)
    else if st.main.Some? && st.sub.Some? then (st, PositionFromRow(row, st.main.value, st.sub.value))
    else (st, None)
  }

  function Emitted(p: Option<InvestmentPosition>): seq<InvestmentPosition>
  {
    match p
    case None => []
    case Some(x) => [x]
  }

  /** The state after walking `rows` from `st`. */
  function After(rows: seq<Row>, st: ScanState): ScanState
  {
    if rows == [] then st else Step(After(rows[..|rows| - 1], st), rows[|rows| - 1]).0
  }

  /** The positions walking `rows` from `st` yields, in row order. */
  function Scan(rows: seq<Row>, st: ScanState): (r: seq<InvestmentPosition>)
    ensures |r| <= |rows|
  {
    if rows == [] then []
    else
      var init := rows[..|rows| - 1];
      Scan(init, st) + Emitted(Step(After(init, st), rows[|rows| - 1]).1)
  }

  /** One more row: the state and positions of a prefix one row longer. */
  lemma ScanStep(rows: seq<Row>, i: nat, st: ScanState)
    requires i < |rows|
    ensures After(rows[..i + 1], st) == Step(After(rows[..i], st), rows[i]).0
    ensures Scan(rows[..i + 1], st) == Scan(rows[..i], st) + Emitted(Step(After(rows[..i], st), rows[i]).1)
  {
    assert rows[..i + 1][..i] == rows[..i];
  }

  /** Walking two blocks of rows is walking the first, then the second from where the first left off. */
  lemma {:induction false} ScanAppend(xs: seq<Row>, ys: seq<Row>, st: ScanState)
    ensures After(xs + ys, st) == After(ys, After(xs, st))
    ensures Scan(xs + ys, st) == Scan(xs, st) + Scan(ys, After(xs, st))
    decreases |ys|
  {
    if ys == [] {
      assert xs + ys == xs;
    } else {
      var init := ys[..|ys| - 1];
      assert (xs + ys)[..|xs + ys| - 1] == xs + init;
      ScanAppend(xs, init, st);
    }
  }

  /** A main-category header sets the main category, clears the sub-category and yields nothing. */
  lemma MainHeaderRow(row: Row, rest: seq<Row>, st: ScanState)
    requires FirstMatch(FirstCell(row), MainCategories, 0).Some?
    ensures Scan([row] + rest, st) == Scan(rest, ScanState(FirstMatch(FirstCell(row), MainCategories, 0), None))
  {
    ScanAppend([row], rest, st);
    assert [row][..0] == [];
  }

  /** A sub-category header keeps the main category, sets the sub-category and yields nothing. */
  lemma SubHeaderRow(row: Row, rest: seq<Row>, st: ScanState)
    requires FirstMatch(FirstCell(row), MainCategories, 0).None? && IsSubHeader(row)
    ensures Scan([row] + rest, st) == Scan(rest, ScanState(st.main, IdentifySubCategory(FirstCell(row))))
  {
    ScanAppend([row], rest, st);
    assert [row][..0] == [];
  }

  /** Until a sub-category header is met, rows walked without a sub-category yield nothing. */
  lemma {:induction false} NothingBeforeSubCategory(rows: seq<Row>, st: ScanState)
    requires st.sub.None?
    requires forall i :: 0 <= i < |rows| ==> !IsSubHeader(rows[i])
    ensures After(rows, st).sub.None?
    ensures Scan(rows, st) == []
  {
    if rows != [] {
      NothingBeforeSubCategory(rows[..|rows| - 1], st);
    }
  }

  /** The current section only ever names a main category of the table and a clean sub-category. */
  predicate ValidState(st: ScanState)
  {
    && (st.main.Some? ==> IsMainCategory(st.main.value))
    && (st.sub.Some? ==> st.sub.value != "" && '\n' !in st.sub.value && Stripped(st.sub.value))
  }

  /** What every position the walk yields satisfies. */
  predicate WellFormed(p: InvestmentPosition)
  {
    && |p.name| >= 5 && !Contains(p.name, "Posição") && !Contains(p.name, "%")
    && p.value > 0.0
    && IsMainCategory(p.mainCategory)
    && p.subCategory != "" && '\n' !in p.subCategory && Stripped(p.subCategory)
  }

  /** One row keeps the state valid, and the position it yields passed the filters. */
  lemma StepWellFormed(st: ScanState, row: Row)
    requires ValidState(st)
    ensures ValidState(Step(st, row).0)
    ensures forall p :: p in Emitted(Step(st, row).1) ==> WellFormed(p)
  {
    MatchedIsMainCategory(FirstCell(row));
  }

  /** Every position yielded passed the row filters and carries a valid section. */
  lemma {:induction false} ScanWellFormed(rows: seq<Row>, st: ScanState)
    requires ValidState(st)
    ensures ValidState(After(rows, st))
    ensures forall p :: p in Scan(rows, st) ==> WellFormed(p)
  {
    if rows != [] {
      var init := rows[..|rows| - 1];
      ScanWellFormed(init, st);
      StepWellFormed(After(init, st), rows[|rows| - 1]);
    }
  }

  // ---------------------------------------------------------------------------
  // The parser
  // ---------------------------------------------------------------------------

  /** `get_summary`'s figures: count, total value and one entry per "main - sub" section. */
  datatype Summary = Summary(totalPositions: nat, totalValue: real, categories: map<string, Stats>)

  function SectionKey(p: InvestmentPosition): string
  {
    p.mainCategory + " - " + p.subCategory
  }

  /** The body of the row loop of `_extract_positions`: a header updates the categories, a data row may yield a position. */
  method ProcessRow(main: Option<string>, sub: Option<string>, row: Row)
    returns (main': Option<string>, sub': Option<string>, position: Option<InvestmentPosition>)
    ensures ScanState(main', sub') == Step(ScanState(main, sub), row).0
    ensures position == Step(ScanState(main, sub), row).1
  {
    main', sub', position := main, sub, None;
    var first := FirstCell(row);
    var mainCategory := IdentifyMainCategory(first);
    if mainCategory.Some? {
      main', sub' := mainCategory, None;
      return;
    }
    var subCategory := IdentifySubCategory(first);
    if subCategory.Some? && subCategory.value != "" {
      sub' := subCategory;
      return;
    }
    if main.Some? && sub.Some? {
      position := ExtractPositionFromRow(row, main.value, sub.value);
    }
  }

  /** The row loop of `_extract_positions`: the positions of the sheet, in row order. */
  method WalkRows(rows: seq<Row>) returns (found: seq<InvestmentPosition>)
    ensures found == Scan(rows, Start)
  {
    found := [];
    var main: Option<string> := None;
    var sub: Option<string> := None;
    for idx := 0 to |rows|
      invariant ScanState(main, sub) == After(rows[..idx], Start)
      invariant found == Scan(rows[..idx], Start)
    {
      ScanStep(rows, idx, Start);
      var position;
      main, sub, position := ProcessRow(main, sub, rows[idx]);
      if position.Some? {
        found := found + [position.value];
      }
    }
    assert rows[..|rows|] == rows;
  }

  /** `XLSXParser` over a sheet already read into rows. */
  class XlsxParser {
    /** The sheet, row by row, with no header row. */
    const rows: seq<Row>

    /** The positions extracted so far. */
    var positions: seq<InvestmentPosition>

    constructor(rows: seq<Row>)
      ensures this.rows == rows && positions == []
    {
      this.rows := rows;
      positions := [];
    }

    /** `_extract_positions`: walk the rows, appending the positions they yield. */
    method ExtractPositions()
      modifies this
      ensures positions == old(positions) + Scan(rows, Start)
    {
      var found := WalkRows(rows);
      positions := positions + found;
    }

    /** `parse` without the metadata: the positions of the whole sheet. */
    method Parse() returns (result: seq<InvestmentPosition>)
      modifies this
      ensures positions == old(positions) + Scan(rows, Start)
      ensures result == positions
    {
      ExtractPositions();
      result := positions;
    }

    /** `get_summary`: nothing for no positions; otherwise count, total and per-section figures. */
    method GetSummary() returns (summary: Option<Summary>)
      ensures summary.None? <==> positions == []
      ensures summary.Some? ==>
        && summary.value.totalPositions == |positions|
        && summary.value.totalValue == Total(positions, Value)
        && summary.value.categories.Keys == KeysOf(positions, SectionKey)
        && (forall k :: k in summary.value.categories ==>
              summary.value.categories[k]
                == Stats(CountWhere(positions, SectionKey, k), TotalWhere(positions, SectionKey, k, Value)))
        && SumOf(summary.value.categories, StatCount) == |positions| as real
        && SumOf(summary.value.categories, StatValue) == summary.value.totalValue
    {
      if positions == [] {
        return None;
      }
      var totalValue := Total(positions, Value);
      var categories := GroupStats(positions, SectionKey, Value);
      return Some(Summary(|positions|, totalValue, categories));
    }
  }
}
