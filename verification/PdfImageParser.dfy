/**
  The bookkeeping the PDF and image statement reader does around the
  extraction itself: the summary of the positions read, the record of the
  pages each asset was read from, and the detection of assets read more than
  once. The extraction (page rendering and the vision model) is outside the
  model; what it returns for a page is an input here.
*/
module PdfImageParser {
  import opened Grouping
  import opened XlsxParser

  function Name(p: InvestmentPosition): string { p.name }

  function MainCategory(p: InvestmentPosition): string { p.mainCategory }

  // ---------------------------------------------------------------------------
  // get_summary

  /**
    `get_summary`: all zero for no positions; otherwise the count, the total
    value and, per main category, the count and total of its positions.
  */
  method GetSummary(positions: seq<InvestmentPosition>) returns (summary: Summary)
    ensures positions == [] ==> summary == Summary(0, 0.0, map[])
    ensures summary.totalPositions == |positions|
    ensures summary.totalValue == Total(positions, Value)
    ensures summary.categories.Keys == KeysOf(positions, MainCategory)
    ensures forall k :: k in summary.categories ==>
              summary.categories[k]
                == Stats(CountWhere(positions, MainCategory, k), TotalWhere(positions, MainCategory, k, Value))
    ensures SumOf(summary.categories, StatCount) == |positions| as real
    ensures SumOf(summary.categories, StatValue) == summary.totalValue
  {
    if positions == [] {
      return Summary(0, 0.0, map[]);
    }
    var totalValue := Total(positions, Value);
    var categories := GroupStats(positions, MainCategory, Value);
    summary := Summary(|positions|, totalValue, categories);
  }

  // ---------------------------------------------------------------------------
  // Lists of numbers per name

  /** A name and a number recorded against it: a position's index, or the page it was read from. */
  type Entry = (string, int)

  /** The numbers recorded against `name`, in the order they were recorded. */
  function ListOf(entries: seq<Entry>, name: string): seq<int>
  {
    if entries == [] then []
    else
      var last := entries[|entries| - 1];
      ListOf(entries[..|entries| - 1], name) + (if last.0 == name then [last.1] else [])
  }

  /** `lists` holds a list for exactly the names recorded in `entries`, each the numbers recorded against it. */
  ghost predicate Lists(lists: map<string, seq<int>>, entries: seq<Entry>)
  {
    && (forall name :: name in lists <==> ListOf(entries, name) != [])
    && (forall name :: name in lists ==> lists[name] == ListOf(entries, name))
  }

  /** `if name not in d: d[name] = []`, then `d[name].append(v)`. */
  function AppendTo(lists: map<string, seq<int>>, name: string, v: int): (r: map<string, seq<int>>)
    ensures r.Keys == lists.Keys + {name}
    ensures r[name] == (if name in lists then lists[name] else []) + [v]
    ensures forall n :: n in lists && n != name ==> r[n] == lists[n]
  {
    var seeded := if name in lists then lists else lists[name := []];
    seeded[name := seeded[name] + [v]]
  }

  /** Appending one entry to the lists keeps them the lists of the entries, that entry included. */
  lemma ListsStep(lists: map<string, seq<int>>, entries: seq<Entry>, e: Entry)
    requires Lists(lists, entries)
    ensures Lists(AppendTo(lists, e.0, e.1), entries + [e])
  {
    var all := entries + [e];
    assert all[..|entries|] == entries;
    var r := AppendTo(lists, e.0, e.1);
    forall name
      ensures name in r <==> ListOf(all, name) != []
      ensures name in r ==> r[name] == ListOf(all, name)
    {
      assert ListOf(all, name) == ListOf(entries, name) + (if e.0 == name then [e.1] else []);
    }
  }

  /** `{name: v for name, v in d.items() if len(v) > 1}`: the names with more than one number. */
  function Repeated(lists: map<string, seq<int>>): (r: map<string, seq<int>>)
    ensures forall name :: name in r <==> name in lists && |lists[name]| > 1
    ensures forall name :: name in r ==> r[name] == lists[name]
  {
    map name | name in lists && |lists[name]| > 1 :: lists[name]
  }

  lemma {:induction false} ListOfAppend(xs: seq<Entry>, ys: seq<Entry>, name: string)
    ensures ListOf(xs + ys, name) == ListOf(xs, name) + ListOf(ys, name)
    decreases |ys|
  {
    if ys == [] {
      assert xs + ys == xs;
    } else {
      var init := ys[..|ys| - 1];
      assert (xs + ys)[..|xs + ys| - 1] == xs + init;
      ListOfAppend(xs, init, name);
    }
  }

  // ---------------------------------------------------------------------------
  // detect_duplicates

  /** `enumerate(positions)`: each position's name with its index. */
  function Indexed(positions: seq<InvestmentPosition>): (r: seq<Entry>)
    ensures |r| == |positions|
    ensures forall i :: 0 <= i < |r| ==> r[i] == (positions[i].name, i)
  {
    seq(|positions|, i requires 0 <= i < |positions| => (positions[i].name, i))
  }

  /** The indices at which `name` occurs among `positions`. */
  function IndicesOf(positions: seq<InvestmentPosition>, name: string): seq<int>
  {
    ListOf(Indexed(positions), name)
  }

  /** The one more position of a longer list adds its own index, if it carries the name. */
  lemma IndicesStep(positions: seq<InvestmentPosition>, name: string)
    requires positions != []
    ensures var k := |positions| - 1;
            IndicesOf(positions, name)
            == IndicesOf(positions[..k], name) + (if positions[k].name == name then [k] else [])
  {
    var k := |positions| - 1;
    assert Indexed(positions)[..k] == Indexed(positions[..k]);
  }

  /**
    The indices of a name are exactly the indices of the positions carrying
    it, in strictly increasing order, one per such position.
  */
  lemma {:induction false} IndicesOfName(positions: seq<InvestmentPosition>, name: string)
    ensures var r := IndicesOf(positions, name);
            && (forall i :: i in r <==> 0 <= i < |positions| && positions[i].name == name)
            && (forall a, b :: 0 <= a < b < |r| ==> r[a] < r[b])
            && |r| == CountWhere(positions, Name, name)
  {
    if positions != [] {
      var k := |positions| - 1;
      var init := positions[..k];
      IndicesOfName(init, name);
      IndicesStep(positions, name);
      var prev := IndicesOf(init, name);
      var r := IndicesOf(positions, name);
      forall i ensures i in r <==> 0 <= i < |positions| && positions[i].name == name {
        if 0 <= i < k {
          assert positions[i] == init[i];
        }
      }
      forall a, b | 0 <= a < b < |r| ensures r[a] < r[b] {
        if b < |prev| {
          assert r[a] == prev[a] && r[b] == prev[b];
        } else {
          assert r[a] == prev[a] && prev[a] in prev;
        }
      }
    }
  }

  /**
    `detect_duplicates`: the names carried by at least two positions, each
    with the indices of all the positions carrying it, in increasing order.
  */
  method DetectDuplicates(positions: seq<InvestmentPosition>) returns (duplicates: map<string, seq<int>>)
    ensures forall name :: name in duplicates <==> CountWhere(positions, Name, name) >= 2
    ensures forall name :: name in duplicates ==> duplicates[name] == IndicesOf(positions, name)
    ensures positions == [] ==> duplicates == map[]
  {
    var found: map<string, seq<int>> := map[];
    var tagged := Indexed(positions);
    for idx := 0 to |positions|
      invariant Lists(found, tagged[..idx])
    {
      assert tagged[..idx + 1] == tagged[..idx] + [tagged[idx]];
      ListsStep(found, tagged[..idx], tagged[idx]);
      found := AppendTo(found, positions[idx].name, idx);
    }
    assert tagged[..|positions|] == tagged;
    duplicates := Repeated(found);
    forall name ensures name in duplicates <==> CountWhere(positions, Name, name) >= 2 {
      IndicesOfName(positions, name);
    }
  }

  // ---------------------------------------------------------------------------
  // parse_multiple_pages: which page each position came from

  /** What the extraction of one page returned: the positions read, or a failure that skips the page. */
  datatype PageResult =
    | Extracted(pageNumber: int, positions: seq<InvestmentPosition>)
    | Failed(pageNumber: int)

  /** The positions of one page, each name tagged with the page's number. */
  function OnPage(positions: seq<InvestmentPosition>, page: int): (r: seq<Entry>)
    ensures |r| == |positions|
    ensures forall i :: 0 <= i < |r| ==> r[i] == (positions[i].name, page)
  {
    seq(|positions|, i requires 0 <= i < |positions| => (positions[i].name, page))
  }

  /** The entries of the pages read, in the order the pages were processed. */
  function Sourced(results: seq<PageResult>): seq<Entry>
  {
    if results == [] then []
    else
      var last := results[|results| - 1];
      Sourced(results[..|results| - 1]) + (if last.Extracted? then OnPage(last.positions, last.pageNumber) else [])
  }

  /** `all_positions`: the positions of the pages read, in page order. */
  function AllPositions(results: seq<PageResult>): seq<InvestmentPosition>
  {
    if results == [] then []
    else
      var last := results[|results| - 1];
      AllPositions(results[..|results| - 1]) + (if last.Extracted? then last.positions else [])
  }

  /**
    The page loop of `parse_multiple_pages`: the positions of every page read,
    the pages each name was read from (one entry per position, in processing
    order), and the names read more than once with those pages.
  */
  method CollectPages(results: seq<PageResult>)
    returns (allPositions: seq<InvestmentPosition>, pageSources: map<string, seq<int>>,
             duplicateWarnings: map<string, seq<int>>)
    ensures allPositions == AllPositions(results)
    ensures Lists(pageSources, Sourced(results))
    ensures forall name :: name in duplicateWarnings <==> |ListOf(Sourced(results), name)| > 1
    ensures forall name :: name in duplicateWarnings ==> duplicateWarnings[name] == ListOf(Sourced(results), name)
  {
    allPositions := [];
    pageSources := map[];
    for i := 0 to |results|
      invariant allPositions == AllPositions(results[..i])
      invariant Lists(pageSources, Sourced(results[..i]))
    {
      assert results[..i + 1][..i] == results[..i];
      if results[i].Extracted? {
        pageSources := RecordPage(pageSources, Sourced(results[..i]), results[i].positions, results[i].pageNumber);
        allPositions := allPositions + results[i].positions;
        assert Sourced(results[..i + 1]) == Sourced(results[..i]) + OnPage(results[i].positions, results[i].pageNumber);
      } else {
        assert Sourced(results[..i]) + [] == Sourced(results[..i]);
        assert AllPositions(results[..i]) + [] == AllPositions(results[..i]);
      }
    }
    assert results[..|results|] == results;
    duplicateWarnings := Repeated(pageSources);
  }

  /** The loop over one page's positions, recording the page against each position's name. */
  method RecordPage(pageSources: map<string, seq<int>>, ghost before: seq<Entry>,
                    positions: seq<InvestmentPosition>, page: int)
    returns (after: map<string, seq<int>>)
    requires Lists(pageSources, before)
    ensures Lists(after, before + OnPage(positions, page))
  {
    after := pageSources;
    var tagged := OnPage(positions, page);
    assert before + tagged[..0] == before;
    for j := 0 to |positions|
      invariant Lists(after, before + tagged[..j])
    {
      assert before + tagged[..j + 1] == (before + tagged[..j]) + [tagged[j]];
      ListsStep(after, before + tagged[..j], tagged[j]);
      after := AppendTo(after, positions[j].name, page);
    }
    assert tagged[..|positions|] == tagged;
  }

  lemma {:induction false} OnPageCount(positions: seq<InvestmentPosition>, page: int, name: string)
    ensures |ListOf(OnPage(positions, page), name)| == CountWhere(positions, Name, name)
  {
    if positions != [] {
      var k := |positions| - 1;
      assert OnPage(positions, page)[..k] == OnPage(positions[..k], page);
      OnPageCount(positions[..k], page, name);
    }
  }

  lemma {:induction false} CountWhereAppend(xs: seq<InvestmentPosition>, ys: seq<InvestmentPosition>, name: string)
    ensures CountWhere(xs + ys, Name, name) == CountWhere(xs, Name, name) + CountWhere(ys, Name, name)
    decreases |ys|
  {
    if ys == [] {
      assert xs + ys == xs;
    } else {
      var init := ys[..|ys| - 1];
      assert (xs + ys)[..|xs + ys| - 1] == xs + init;
      CountWhereAppend(xs, init, name);
    }
  }

  /**
    A name gets one page entry per position read under it, so it is warned
    about exactly when it was read more than once, on different pages or on
    the same page.
  */
  lemma {:induction false} SourcedCount(results: seq<PageResult>, name: string)
    ensures |ListOf(Sourced(results), name)| == CountWhere(AllPositions(results), Name, name)
  {
    if results != [] {
      var init := results[..|results| - 1];
      var last := results[|results| - 1];
      SourcedCount(init, name);
      if last.Extracted? {
        ListOfAppend(Sourced(init), OnPage(last.positions, last.pageNumber), name);
        OnPageCount(last.positions, last.pageNumber, name);
        CountWhereAppend(AllPositions(init), last.positions, name);
      } else {
        assert Sourced(init) + [] == Sourced(init);
        assert AllPositions(init) + [] == AllPositions(init);
      }
    }
  }

  /** Each page entry of a name is the number of a page that was read and holds a position under that name. */
  lemma {:induction false} SourcedPages(results: seq<PageResult>, name: string)
    ensures forall p :: p in ListOf(Sourced(results), name) ==>
              exists i :: 0 <= i < |results| && results[i].Extracted? && results[i].pageNumber == p
                          && exists pos :: pos in results[i].positions && pos.name == name
  {
    if results != [] {
      var k := |results| - 1;
      var init := results[..k];
      var last := results[k];
      SourcedPages(init, name);
      var page := if last.Extracted? then OnPage(last.positions, last.pageNumber) else [];
      ListOfAppend(Sourced(init), page, name);
      forall p | p in ListOf(Sourced(results), name)
        ensures exists i :: 0 <= i < |results| && results[i].Extracted? && results[i].pageNumber == p
                            && exists pos :: pos in results[i].positions && pos.name == name
      {
        if p in ListOf(Sourced(init), name) {
          var i :| 0 <= i < |init| && init[i].Extracted? && init[i].pageNumber == p
                   && exists pos :: pos in init[i].positions && pos.name == name;
          assert results[i] == init[i];
        } else {
          assert last.Extracted?;
          OnPageMember(last.positions, last.pageNumber, name, p);
        }
      }
    }
  }

  lemma {:induction false} OnPageMember(positions: seq<InvestmentPosition>, page: int, name: string, p: int)
    requires p in ListOf(OnPage(positions, page), name)
    ensures p == page && exists pos :: pos in positions && pos.name == name
  {
    var k := |positions| - 1;
    assert OnPage(positions, page)[..k] == OnPage(positions[..k], page);
    if p in ListOf(OnPage(positions[..k], page), name) {
      OnPageMember(positions[..k], page, name, p);
      var pos :| pos in positions[..k] && pos.name == name;
      assert pos in positions;
    } else {
      assert positions[k] in positions;
    }
  }
}
