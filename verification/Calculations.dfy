/**
  The portfolio allocation and rebalancing engine (`PortfolioCalculator`).

  Money and percentages are `real`, so the formulas hold exactly. Labels of
  the two input maps are visited in an arbitrary order (the source iterates a
  Python set), so results are stated as "exactly one analysis per category of the
  union, each equal to the analysis of its category, sorted by the source's key".
*/
module Calculations {
  import opened Basics
  import opened Grouping

  /** Half a percentage point either side of the target counts as balanced. */
  const Tolerance: real := 0.5

  /** Label of positions that have no custom label. */
  const Unclassified: string := "Não Classificado"

  /** The fields of a stored position that the engine reads. */
  datatype Position = Position(
    name: string,
    value: real,
    mainCategory: string,
    subCategory: string,
    customLabel: Option<string>)

  datatype Status = Balanced | Overweight | Underweight

  datatype AllocationAnalysis = AllocationAnalysis(
    category: string,
    currentValue: real,
    currentPercentage: real,
    targetPercentage: real,
    differencePercentage: real,
    rebalanceAmount: real,  // positive: money to add; negative: money to take out
    status: Status)

  /** Structured form of the advice lines the plan carries, one constructor per kind of line. */
  datatype Suggestion =
    | Available(amount: real)                  // "you have R$ X to invest"
    | NewMoneyHeading                          // heading of the investment list
    | Invest(category: string, amount: real)   // put this much of the new money here
    | Leftover(amount: real)                   // new money no underweight category absorbs
    | ReallocationHeading                      // heading of the list of reductions
    | Reduce(category: string, amount: real)   // take this much out of an overweight category
    | TargetsHeading                           // heading of the list of increases
    | Increase(category: string, amount: real) // add this much to an underweight category

  datatype RebalancingPlan = RebalancingPlan(
    totalPortfolioValue: real,
    analyses: seq<AllocationAnalysis>,
    additionalInvestmentNeeded: real,
    suggestions: seq<Suggestion>)

  datatype Growth = Growth(oldValue: real, newValue: real, growth: real, growthPct: real)

  // ---------------------------------------------------------------------------
  // Grouping positions into an allocation map

  function PositionValue(p: Position): real { p.value }

  /** The custom label when it is a non-empty string, else the sentinel label. */
  function CustomLabelKey(p: Position): (k: string)
    ensures p.customLabel.Some? && p.customLabel.value != "" ==> k == p.customLabel.value
    ensures p.customLabel.None? || p.customLabel.value == "" ==> k == Unclassified
  {
    if p.customLabel.Some? && p.customLabel.value != "" then p.customLabel.value else Unclassified
  }

  function SubCategoryKey(p: Position): string { p.subCategory }

  function GroupingKey(useCustomLabels: bool): Position -> string
  {
    if useCustomLabels then CustomLabelKey else SubCategoryKey
  }

  /** Sums position values per category; the map's values add up to the positions' values. */
  method CalculateCurrentAllocation(positions: seq<Position>, useCustomLabels: bool := true)
    returns (allocation: map<string, real>)
    ensures allocation.Keys == KeysOf(positions, GroupingKey(useCustomLabels))
    ensures forall k :: k in allocation ==>
              allocation[k] == TotalWhere(positions, GroupingKey(useCustomLabels), k, PositionValue)
    ensures SumValues(allocation) == Total(positions, PositionValue)
  {
    allocation := GroupSum(positions, GroupingKey(useCustomLabels), PositionValue);
  }

  // ---------------------------------------------------------------------------
  // Percentages

  /** `{k: v / total * 100}`, or all zeros when the values sum to zero. */
  ghost function Percentages(allocation: map<string, real>): map<string, real>
  {
    var total := SumValues(allocation);
    if total == 0.0 then map k | k in allocation :: 0.0
    else Shares(allocation, total)
  }

  /** Each value's share of `total`, in percent. */
  ghost function Shares(m: map<string, real>, total: real): (r: map<string, real>)
    requires total != 0.0
    ensures r.Keys == m.Keys
  {
    map k | k in m :: m[k] / total * 100.0
  }

  lemma ShareOfSum(a: real, b: real, total: real)
    requires total != 0.0
    ensures a / total * 100.0 + b / total * 100.0 == (a + b) / total * 100.0
  {
  }

  lemma SharesRemove(m: map<string, real>, total: real, k: string)
    requires total != 0.0 && k in m
    ensures Shares(m, total) - {k} == Shares(m - {k}, total)
  {
  }

  lemma {:induction false} SumOfShares(m: map<string, real>, total: real)
    requires total != 0.0
    ensures SumValues(Shares(m, total)) == SumValues(m) / total * 100.0
    decreases m.Keys
  {
    var sh := Shares(m, total);
    if m.Keys == {} {
      assert sh == map[];
      assert SumValues(sh) == 0.0;
      assert SumValues(m) == 0.0;
      assert 0.0 / total * 100.0 == 0.0;
    } else {
      var k := Pick(m.Keys);
      var rest := m - {k};
      SumOfRemove(m, k, Identity);
      SumOfRemove(sh, k, Identity);
      SharesRemove(m, total, k);
      SumOfShares(rest, total);
      var x, y := m[k], SumValues(rest);
      assert SumValues(m) == x + y;
      assert SumValues(sh) == x / total * 100.0 + y / total * 100.0;
      ShareOfSum(x, y, total);
      assert SumValues(sh) == (x + y) / total * 100.0;
      assert SumValues(m) / total * 100.0 == (x + y) / total * 100.0;
    }
  }

  /** Whenever the allocation does not sum to zero, the percentages sum to 100. */
  lemma PercentagesSumTo100(allocation: map<string, real>)
    requires SumValues(allocation) != 0.0
    ensures SumValues(Percentages(allocation)) == 100.0
  {
    var total := SumValues(allocation);
    SumOfShares(allocation, total);
    assert total / total * 100.0 == 100.0;
  }

  method CalculateAllocationPercentages(allocation: map<string, real>) returns (percentages: map<string, real>)
    ensures percentages == Percentages(allocation)
    ensures percentages.Keys == allocation.Keys
    ensures SumValues(allocation) == 0.0 ==> forall k :: k in percentages ==> percentages[k] == 0.0
    ensures SumValues(allocation) != 0.0 ==>
              && (forall k :: k in percentages ==>
                    percentages[k] == allocation[k] / SumValues(allocation) * 100.0)
              && SumValues(percentages) == 100.0
  {
    var total := SumMapValues(allocation);
    if total == 0.0 {
      percentages := map k | k in allocation :: 0.0;
    } else {
      percentages := map k | k in allocation :: allocation[k] / total * 100.0;
      assert percentages == Shares(allocation, total);
      PercentagesSumTo100(allocation);
    }
  }

  // ---------------------------------------------------------------------------
  // Classification of one category

  /** Balanced within the inclusive tolerance band, else by the sign of the difference. */
  function Classify(diff: real): (s: Status)
    ensures s == Balanced <==> -Tolerance <= diff <= Tolerance
    ensures s == Overweight <==> diff > Tolerance
    ensures s == Underweight <==> diff < -Tolerance
  {
    if Abs(diff) <= Tolerance then Balanced
    else if diff > 0.0 then Overweight
    else Underweight
  }

  /** The analysis of one category, with percentages and amounts relative to `referenceTotal`. */
  function Assess(category: string, currentValue: real, currentPct: real, targetPct: real, referenceTotal: real)
    : AllocationAnalysis
  {
    var diff := currentPct - targetPct;
    var targetValue := (targetPct / 100.0) * referenceTotal;
    AllocationAnalysis(category, currentValue, currentPct, targetPct, diff, targetValue - currentValue, Classify(diff))
  }

  /**
    When the current percentage is the value's share of a non-zero reference
    total, the amount to rebalance is the difference in points scaled back to
    money, with the opposite sign; for a positive total an overweight category
    must shrink and an underweight category must grow.
  */
  lemma SignConvention(category: string, currentValue: real, targetPct: real, referenceTotal: real)
    requires referenceTotal != 0.0
    ensures var a := Assess(category, currentValue, currentValue / referenceTotal * 100.0, targetPct, referenceTotal);
            && a.rebalanceAmount == -a.differencePercentage * referenceTotal / 100.0
            && (referenceTotal > 0.0 ==>
                  && (a.status == Overweight ==> a.rebalanceAmount < 0.0)
                  && (a.status == Underweight ==> a.rebalanceAmount > 0.0)
                  && (a.status == Balanced ==> Abs(a.rebalanceAmount) <= Tolerance * referenceTotal / 100.0))
  {
    var pct := currentValue / referenceTotal * 100.0;
    var a := Assess(category, currentValue, pct, targetPct, referenceTotal);
    assert pct * referenceTotal / 100.0 == currentValue;
    assert a.rebalanceAmount == -(pct - targetPct) * referenceTotal / 100.0;
    if referenceTotal > 0.0 {
      var d := a.differencePercentage;
      if a.status == Overweight {
        assert d * referenceTotal > 0.0;
      } else if a.status == Underweight {
        assert d * referenceTotal < 0.0;
      } else {
        ScaledBound(d, referenceTotal);
      }
    }
  }

  lemma ScaledBound(d: real, total: real)
    requires Abs(d) <= Tolerance && total > 0.0
    ensures Abs(-d * total / 100.0) <= Tolerance * total / 100.0
  {
    assert Abs(-d * total / 100.0) == Abs(d) * total / 100.0;
    assert Abs(d) * total <= Tolerance * total;
  }

  // ---------------------------------------------------------------------------
  // Lists of analyses: coverage and ordering

  /** The categories that occur in `xs`. */
  ghost function LabelsOf(xs: seq<AllocationAnalysis>): set<string>
  {
    if xs == [] then {} else LabelsOf(xs[..|xs| - 1]) + {xs[|xs| - 1].category}
  }

  lemma {:induction false} LabelsOfMembers(xs: seq<AllocationAnalysis>)
    ensures forall a :: a in xs ==> a.category in LabelsOf(xs)
    ensures forall c :: c in LabelsOf(xs) ==> exists a :: a in xs && a.category == c
  {
    if xs != [] {
      var init := xs[..|xs| - 1];
      LabelsOfMembers(init);
      assert xs == init + [xs[|xs| - 1]];
    }
  }

  lemma LabelsOfAppend(xs: seq<AllocationAnalysis>, a: AllocationAnalysis)
    ensures LabelsOf(xs + [a]) == LabelsOf(xs) + {a.category}
  {
    assert (xs + [a])[..|xs|] == xs;
  }

  /** No analysis occurs twice and no two analyses share a category. */
  ghost predicate DistinctLabels(xs: seq<AllocationAnalysis>)
  {
    && (forall a | a in xs :: multiset(xs)[a] == 1)
    && (forall a, b | a in xs && b in xs && a.category == b.category :: a == b)
  }

  /** Exactly one analysis for each category of `labels`, and nothing else. */
  ghost predicate OnePerLabel(xs: seq<AllocationAnalysis>, labels: set<string>)
  {
    DistinctLabels(xs) && LabelsOf(xs) == labels
  }

  /** A sort key compared lexicographically, larger first. */
  datatype Rank = Rank(group: int, magnitude: real)

  predicate RankAtLeast(x: Rank, y: Rank)
  {
    x.group > y.group || (x.group == y.group && x.magnitude >= y.magnitude)
  }

  /** `key=abs(difference_percentage), reverse=True`. */
  function DeviationRank(a: AllocationAnalysis): Rank
  {
    Rank(0, Abs(a.differencePercentage))
  }

  /** `key=(status != 'underweight', abs(difference_percentage)), reverse=True`. */
  function PlanRank(a: AllocationAnalysis): Rank
  {
    Rank(if a.status != Underweight then 1 else 0, Abs(a.differencePercentage))
  }

  ghost predicate SortedBy(xs: seq<AllocationAnalysis>, rank: AllocationAnalysis -> Rank)
  {
    forall i, j :: 0 <= i < j < |xs| ==> RankAtLeast(rank(xs[i]), rank(xs[j]))
  }

  /** Places `x` after every element ranked at least as high, so equal ranks keep their order. */
  function Insert(x: AllocationAnalysis, xs: seq<AllocationAnalysis>, rank: AllocationAnalysis -> Rank)
    : (r: seq<AllocationAnalysis>)
    ensures multiset(r) == multiset(xs) + multiset{x}
  {
    if xs == [] then [x]
    else if RankAtLeast(rank(xs[0]), rank(x)) then
      assert xs == [xs[0]] + xs[1..];
      [xs[0]] + Insert(x, xs[1..], rank)
    else
      [x] + xs
  }

  lemma {:induction false} InsertSorted(x: AllocationAnalysis, xs: seq<AllocationAnalysis>,
                                        rank: AllocationAnalysis -> Rank)
    requires SortedBy(xs, rank)
    ensures SortedBy(Insert(x, xs, rank), rank)
  {
    if xs != [] && RankAtLeast(rank(xs[0]), rank(x)) {
      var tail := xs[1..];
      InsertSorted(x, tail, rank);
      var r := Insert(x, tail, rank);
      forall y | y in r ensures RankAtLeast(rank(xs[0]), rank(y)) {
        InsertMember(x, tail, rank, y);
        if y != x {
          var j :| 0 <= j < |tail| && tail[j] == y;
          assert xs[j + 1] == y;
        }
      }
      ConsSorted(xs[0], r, rank);
    }
  }

  lemma InsertMember(x: AllocationAnalysis, xs: seq<AllocationAnalysis>, rank: AllocationAnalysis -> Rank,
                     y: AllocationAnalysis)
    requires y in Insert(x, xs, rank)
    ensures y == x || y in xs
  {
    assert y in multiset(Insert(x, xs, rank));
  }

  /** A sorted list stays sorted behind a head ranked at least as high as all of it. */
  lemma ConsSorted(h: AllocationAnalysis, r: seq<AllocationAnalysis>, rank: AllocationAnalysis -> Rank)
    requires SortedBy(r, rank)
    requires forall y :: y in r ==> RankAtLeast(rank(h), rank(y))
    ensures SortedBy([h] + r, rank)
  {
    var full := [h] + r;
    forall i, j | 0 <= i < j < |full| ensures RankAtLeast(rank(full[i]), rank(full[j])) {
      if i == 0 {
        assert full[j] in r;
      } else {
        assert full[i] == r[i - 1] && full[j] == r[j - 1];
      }
    }
  }

  /** A permutation of a list with distinct labels has distinct labels. */
  lemma PermutationKeepsDistinct(xs: seq<AllocationAnalysis>, ys: seq<AllocationAnalysis>)
    requires multiset(xs) == multiset(ys) && DistinctLabels(xs)
    ensures DistinctLabels(ys)
  {
    PermutationKeepsLabels(xs, ys);
  }

  /** `list.sort(key=rank, reverse=True)`: a stable insertion sort, largest rank first. */
  method SortByRank(xs: seq<AllocationAnalysis>, rank: AllocationAnalysis -> Rank)
    returns (ys: seq<AllocationAnalysis>)
    ensures SortedBy(ys, rank)
    ensures multiset(ys) == multiset(xs)
  {
    ys := [];
    for i := 0 to |xs|
      invariant SortedBy(ys, rank)
      invariant multiset(ys) == multiset(xs[..i])
    {
      InsertSorted(xs[i], ys, rank);
      ys := Insert(xs[i], ys, rank);
      assert xs[..i + 1] == xs[..i] + [xs[i]];
    }
    assert xs[..|xs|] == xs;
  }

  /** A permutation keeps the set of labels and every element. */
  lemma PermutationKeepsLabels(xs: seq<AllocationAnalysis>, ys: seq<AllocationAnalysis>)
    requires multiset(xs) == multiset(ys)
    ensures LabelsOf(xs) == LabelsOf(ys)
    ensures forall a :: a in ys <==> a in xs
  {
    forall a ensures a in ys <==> a in xs {
      assert a in ys <==> a in multiset(ys);
      assert a in xs <==> a in multiset(xs);
    }
    LabelsOfMembers(xs);
    LabelsOfMembers(ys);
  }

  /**
    Two lists that hold one analysis per category of the same set, each analysis
    determined by its category, are permutations of each other: the order in
    which labels are visited changes nothing but the order of the list.
  */
  lemma {:induction false} OnePerLabelUnique(xs: seq<AllocationAnalysis>, ys: seq<AllocationAnalysis>,
                                              labels: set<string>)
    requires OnePerLabel(xs, labels) && OnePerLabel(ys, labels)
    requires forall a, b :: a in xs && b in ys && a.category == b.category ==> a == b
    ensures multiset(xs) == multiset(ys)
  {
    LabelsOfMembers(xs);
    LabelsOfMembers(ys);
    forall a ensures multiset(xs)[a] == multiset(ys)[a] {
      if a in xs {
        assert a.category in LabelsOf(ys);
        var b :| b in ys && b.category == a.category;
        assert a in ys;
      }
      if a in ys {
        assert a.category in LabelsOf(xs);
        var b :| b in xs && b.category == a.category;
        assert a in xs;
      }
    }
  }

  // ---------------------------------------------------------------------------
  // analyze_allocation

  /** The analysis `analyze_allocation` produces for `category`, relative to the current total. */
  ghost function CurrentAnalysis(category: string, current: map<string, real>, targets: map<string, real>)
    : AllocationAnalysis
  {
    AnalysisFor(category, current, targets, Percentages(current), SumValues(current))
  }

  /** One iteration of the loop: the category's value, percentage and target, each defaulting to 0. */
  function AnalysisFor(category: string, current: map<string, real>, targets: map<string, real>,
                       percentages: map<string, real>, total: real): (a: AllocationAnalysis)
    ensures a.category == category
    ensures a.currentValue == GetOr(current, category, 0.0)
    ensures a.currentPercentage == GetOr(percentages, category, 0.0)
    ensures a.targetPercentage == GetOr(targets, category, 0.0)
    ensures a.differencePercentage == a.currentPercentage - a.targetPercentage
    ensures a.currentValue + a.rebalanceAmount == a.targetPercentage / 100.0 * total
    ensures a.status == Classify(a.differencePercentage)
  {
    Assess(category, GetOr(current, category, 0.0), GetOr(percentages, category, 0.0),
           GetOr(targets, category, 0.0), total)
  }

  /** With a non-zero current total, `analyze_allocation` follows the sign convention. */
  lemma CurrentAnalysisSign(category: string, current: map<string, real>, targets: map<string, real>)
    requires SumValues(current) != 0.0
    ensures var a := CurrentAnalysis(category, current, targets);
            var total := SumValues(current);
            && a.currentPercentage == a.currentValue / total * 100.0
            && a.rebalanceAmount == -a.differencePercentage * total / 100.0
            && (total > 0.0 ==> a.status == Overweight ==> a.rebalanceAmount < 0.0)
            && (total > 0.0 ==> a.status == Underweight ==> a.rebalanceAmount > 0.0)
  {
    var total := SumValues(current);
    SignConvention(category, GetOr(current, category, 0.0), GetOr(targets, category, 0.0), total);
  }

  /** Appending an analysis of a category not yet listed keeps the labels distinct. */
  lemma AppendFresh(xs: seq<AllocationAnalysis>, a: AllocationAnalysis)
    requires DistinctLabels(xs) && a.category !in LabelsOf(xs)
    ensures DistinctLabels(xs + [a])
    ensures LabelsOf(xs + [a]) == LabelsOf(xs) + {a.category}
  {
    LabelsOfMembers(xs);
    LabelsOfAppend(xs, a);
    assert a !in xs;
    assert forall b :: b in xs + [a] <==> b in xs || b == a;
  }

  /** Every analysis of `xs` is the one `analyse` computes for its category. */
  ghost predicate AllAnalysed(xs: seq<AllocationAnalysis>, analyse: string -> AllocationAnalysis)
  {
    forall i :: 0 <= i < |xs| ==> xs[i] == analyse(xs[i].category)
  }

  lemma AllAnalysedAppend(xs: seq<AllocationAnalysis>, analyse: string -> AllocationAnalysis, category: string)
    requires AllAnalysed(xs, analyse) && analyse(category).category == category
    ensures AllAnalysed(xs + [analyse(category)], analyse)
  {
  }

  lemma VisitOne(visited: set<string>, remaining: set<string>, all: set<string>, category: string)
    requires visited == all - remaining && remaining <= all && category in remaining
    ensures visited + {category} == all - (remaining - {category})
    ensures category !in visited
  {
  }

  /**
    The loop both `analyze_allocation` and `create_rebalancing_plan` run over
    the union of categories, in whatever order the set yields them.
  */
  method AnalyzeEach(labels: set<string>, analyse: string -> AllocationAnalysis)
    returns (unsorted: seq<AllocationAnalysis>)
    requires forall c :: analyse(c).category == c
    ensures OnePerLabel(unsorted, labels)
    ensures AllAnalysed(unsorted, analyse)
  {
    unsorted := [];
    var remaining := labels;
    while remaining != {}
      invariant remaining <= labels
      invariant LabelsOf(unsorted) == labels - remaining
      invariant DistinctLabels(unsorted)
      invariant AllAnalysed(unsorted, analyse)
      decreases remaining
    {
      var category :| category in remaining;
      var a := analyse(category);
      VisitOne(LabelsOf(unsorted), remaining, labels, category);
      AppendFresh(unsorted, a);
      AllAnalysedAppend(unsorted, analyse, category);
      unsorted := unsorted + [a];
      remaining := remaining - {category};
    }
  }

  /**
    `analyze_allocation`: one analysis per category that is held or targeted,
    measured against the current total, largest absolute deviation first.
  */
  method AnalyzeAllocation(current: map<string, real>, targets: map<string, real>)
    returns (analyses: seq<AllocationAnalysis>)
    ensures OnePerLabel(analyses, current.Keys + targets.Keys)
    ensures forall a :: a in analyses ==> a == CurrentAnalysis(a.category, current, targets)
    ensures forall i, j :: 0 <= i < j < |analyses| ==>
              Abs(analyses[i].differencePercentage) >= Abs(analyses[j].differencePercentage)
  {
    var totalValue := SumMapValues(current);
    var currentPercentages := CalculateAllocationPercentages(current);
    var unsorted := AnalyzeEach(current.Keys + targets.Keys,
                                c => AnalysisFor(c, current, targets, currentPercentages, totalValue));
    analyses := SortByRank(unsorted, DeviationRank);
    PermutationKeepsLabels(unsorted, analyses);
    PermutationKeepsDistinct(unsorted, analyses);
    forall i, j | 0 <= i < j < |analyses|
      ensures Abs(analyses[i].differencePercentage) >= Abs(analyses[j].differencePercentage)
    {
      assert RankAtLeast(DeviationRank(analyses[i]), DeviationRank(analyses[j]));
    }
  }

  // ---------------------------------------------------------------------------
  // create_rebalancing_plan

  /**
    The analysis `create_rebalancing_plan` produces for `category`: the current
    value measured against the total after the additional investment (0% when
    that total is not positive) and the money that brings the category to its
    target share of that total.
  */
  function PlanAnalysisFor(category: string, current: map<string, real>, targets: map<string, real>,
                           newTotal: real): (a: AllocationAnalysis)
    ensures a.category == category
    ensures a.currentValue == GetOr(current, category, 0.0)
    ensures newTotal > 0.0 ==> a.currentPercentage * newTotal == a.currentValue * 100.0
    ensures newTotal <= 0.0 ==> a.currentPercentage == 0.0
    ensures a.targetPercentage == GetOr(targets, category, 0.0)
    ensures a.differencePercentage == a.currentPercentage - a.targetPercentage
    ensures a.currentValue + a.rebalanceAmount == a.targetPercentage / 100.0 * newTotal
    ensures a.status == Classify(a.differencePercentage)
  {
    var currentValue := GetOr(current, category, 0.0);
    var pct := if newTotal > 0.0 then currentValue / newTotal * 100.0 else 0.0;
    Assess(category, currentValue, pct, GetOr(targets, category, 0.0), newTotal)
  }

  /**
    With a positive total after the new money, following a plan's rebalance
    amount lands the category exactly on its target share of that total; an
    overweight category is told to shrink, an underweight one to grow, and a
    balanced one moves by at most the tolerance's worth of money.
  */
  lemma PlanSign(category: string, current: map<string, real>, targets: map<string, real>, newTotal: real)
    requires newTotal > 0.0
    ensures var a := PlanAnalysisFor(category, current, targets, newTotal);
            && a.currentValue + a.rebalanceAmount == a.targetPercentage / 100.0 * newTotal
            && (a.status == Overweight ==> a.rebalanceAmount < 0.0)
            && (a.status == Underweight ==> a.rebalanceAmount > 0.0)
            && (a.status == Balanced ==> Abs(a.rebalanceAmount) <= Tolerance * newTotal / 100.0)
  {
    SignConvention(category, GetOr(current, category, 0.0), GetOr(targets, category, 0.0), newTotal);
  }

  /**
    Without new money and with a positive portfolio, the plan analyses a
    category exactly as `analyze_allocation` does.
  */
  lemma PlanAgreesWithAnalysis(category: string, current: map<string, real>, targets: map<string, real>)
    requires SumValues(current) > 0.0
    ensures PlanAnalysisFor(category, current, targets, SumValues(current) + 0.0)
            == CurrentAnalysis(category, current, targets)
  {
    var total := SumValues(current);
    var value := GetOr(current, category, 0.0);
    assert GetOr(Percentages(current), category, 0.0) == value / total * 100.0;
  }

  /** `sum(max(0, a.rebalance_amount) for a in analyses)`: the money the under-target categories lack. */
  function Shortfall(xs: seq<AllocationAnalysis>): (r: real)
    ensures r >= 0.0
    ensures r == 0.0 <==> forall a :: a in xs ==> a.rebalanceAmount <= 0.0
  {
    if xs == [] then 0.0
    else
      assert forall a :: a in xs <==> a == xs[0] || a in xs[1..];
      Max(0.0, xs[0].rebalanceAmount) + Shortfall(xs[1..])
  }

  /**
    `[a for a in analyses if a.status == status]`: every analysis of that
    status as often as it occurs, and no other (the order is kept, see
    `WithStatusAppend`).
  */
  function WithStatus(xs: seq<AllocationAnalysis>, status: Status): (r: seq<AllocationAnalysis>)
    ensures forall a :: a in r <==> a in xs && a.status == status
  {
    if xs == [] then []
    else
      assert forall a :: a in xs <==> a == xs[0] || a in xs[1..];
      (if xs[0].status == status then [xs[0]] else []) + WithStatus(xs[1..], status)
  }

  /** The filter keeps every analysis of that status as often as it occurs. */
  lemma {:induction false} WithStatusCount(xs: seq<AllocationAnalysis>, status: Status)
    ensures forall a :: multiset(WithStatus(xs, status))[a] == if a.status == status then multiset(xs)[a] else 0
  {
    if xs != [] {
      assert xs == [xs[0]] + xs[1..];
      WithStatusCount(xs[1..], status);
    }
  }

  /** Concatenation is associative (stated apart, so that the solver sees it without the filters' axioms). */
  lemma Regroup(head: seq<AllocationAnalysis>, rest: seq<AllocationAnalysis>, tail: seq<AllocationAnalysis>)
    ensures head + (rest + tail) == (head + rest) + tail
  {
  }

  /** Filtering keeps the order: what comes first in the list comes first in the filtered list. */
  lemma {:induction false} WithStatusAppend(xs: seq<AllocationAnalysis>, ys: seq<AllocationAnalysis>, status: Status)
    ensures WithStatus(xs + ys, status) == WithStatus(xs, status) + WithStatus(ys, status)
  {
    if xs == [] {
      assert xs + ys == ys;
    } else {
      var head := if xs[0].status == status then [xs[0]] else [];
      assert (xs + ys)[0] == xs[0] && (xs + ys)[1..] == xs[1..] + ys;
      assert WithStatus(xs + ys, status) == head + WithStatus(xs[1..] + ys, status);
      WithStatusAppend(xs[1..], ys, status);
      var rest, tail := WithStatus(xs[1..], status), WithStatus(ys, status);
      assert WithStatus(xs, status) == head + rest;
      Regroup(head, rest, tail);
    }
  }

  /** An analysis new money may go to: underweight, with a positive rebalance amount. */
  predicate CanFund(a: AllocationAnalysis)
  {
    a.status == Underweight && a.rebalanceAmount > 0.0
  }

  /**
    The categories new money may go to, each as often as it occurs, and no
    other (the order is kept, see `FundableAppend`).
  */
  function Fundable(xs: seq<AllocationAnalysis>): (r: seq<AllocationAnalysis>)
    ensures forall a :: a in r <==> a in xs && a.status == Underweight && a.rebalanceAmount > 0.0
  {
    if xs == [] then []
    else
      assert forall a :: a in xs <==> a == xs[0] || a in xs[1..];
      (if CanFund(xs[0]) then [xs[0]] else []) + Fundable(xs[1..])
  }

  /** The fundable analyses are kept as often as they occur. */
  lemma {:induction false} FundableCount(xs: seq<AllocationAnalysis>)
    ensures forall a :: multiset(Fundable(xs))[a] == if CanFund(a) then multiset(xs)[a] else 0
  {
    if xs != [] {
      assert xs == [xs[0]] + xs[1..];
      FundableCount(xs[1..]);
    }
  }

  /** Filtering keeps the order: new money reaches the candidates in the order of the plan. */
  lemma {:induction false} FundableAppend(xs: seq<AllocationAnalysis>, ys: seq<AllocationAnalysis>)
    ensures Fundable(xs + ys) == Fundable(xs) + Fundable(ys)
  {
    if xs == [] {
      assert xs + ys == ys;
    } else {
      var head := if CanFund(xs[0]) then [xs[0]] else [];
      assert (xs + ys)[0] == xs[0] && (xs + ys)[1..] == xs[1..] + ys;
      assert Fundable(xs + ys) == head + Fundable(xs[1..] + ys);
      FundableAppend(xs[1..], ys);
      var rest, tail := Fundable(xs[1..]), Fundable(ys);
      assert Fundable(xs) == head + rest;
      Regroup(head, rest, tail);
    }
  }

  /** The sum of the rebalance amounts of `xs`. */
  function TotalRebalance(xs: seq<AllocationAnalysis>): real
  {
    if xs == [] then 0.0 else xs[0].rebalanceAmount + TotalRebalance(xs[1..])
  }

  /**
    The investment loop: candidates in order, each receiving what it lacks or
    what money remains, whichever is smaller, until the money runs out.
  */
  function GreedyInvest(candidates: seq<AllocationAnalysis>, remaining: real): seq<Suggestion>
  {
    if candidates == [] || remaining <= 0.0 then []
    else
      var amount := Min(candidates[0].rebalanceAmount, remaining);
      [Invest(candidates[0].category, amount)] + GreedyInvest(candidates[1..], remaining - amount)
  }

  /** The money left when the investment loop ends. */
  function Unspent(candidates: seq<AllocationAnalysis>, remaining: real): real
  {
    if candidates == [] || remaining <= 0.0 then remaining
    else Unspent(candidates[1..], remaining - Min(candidates[0].rebalanceAmount, remaining))
  }

  function ReduceEach(xs: seq<AllocationAnalysis>): (r: seq<Suggestion>)
    ensures |r| == |xs|
    ensures forall i :: 0 <= i < |xs| ==> r[i] == Reduce(xs[i].category, Abs(xs[i].rebalanceAmount))
  {
    if xs == [] then [] else [Reduce(xs[0].category, Abs(xs[0].rebalanceAmount))] + ReduceEach(xs[1..])
  }

  function IncreaseEach(xs: seq<AllocationAnalysis>): (r: seq<Suggestion>)
    ensures |r| == |xs|
    ensures forall i :: 0 <= i < |xs| ==> r[i] == Increase(xs[i].category, xs[i].rebalanceAmount)
  {
    if xs == [] then [] else [Increase(xs[0].category, xs[0].rebalanceAmount)] + IncreaseEach(xs[1..])
  }

  /**
    The suggestions `_generate_suggestions` emits for `analyses` (in plan order):
    with new money, the investment advice; without, the reallocation advice.
  */
  function Suggestions(analyses: seq<AllocationAnalysis>, additional: real): (r: seq<Suggestion>)
    ensures additional > 0.0 <==> r != [] && r[0] == Available(additional)
  {
    if additional > 0.0 then NewMoneySuggestions(analyses, additional) else ReallocationSuggestions(analyses)
  }

  /**
    Announce the new money, then, if some category can absorb money, the
    investment loop followed by whatever it leaves over.
  */
  function NewMoneySuggestions(analyses: seq<AllocationAnalysis>, additional: real): (r: seq<Suggestion>)
    ensures r != [] && r[0] == Available(additional)
    ensures |r| == 1 <==> Fundable(analyses) == []
  {
    var candidates := Fundable(analyses);
    [Available(additional)] +
    if candidates == [] then []
    else
      var left := Unspent(candidates, additional);
      [NewMoneyHeading] + GreedyInvest(candidates, additional) + (if left > 0.0 then [Leftover(left)] else [])
  }

  /**
    When some category is over and some under target: up to three reductions
    and up to three increases, in list order; otherwise nothing.
  */
  function ReallocationSuggestions(analyses: seq<AllocationAnalysis>): (r: seq<Suggestion>)
    ensures r != [] <==> WithStatus(analyses, Overweight) != [] && WithStatus(analyses, Underweight) != []
    ensures r != [] ==> r[0] == ReallocationHeading
    ensures |r| <= 8
  {
    var over := WithStatus(analyses, Overweight);
    var under := WithStatus(analyses, Underweight);
    if over != [] && under != [] then
      [ReallocationHeading] + ReduceEach(Take(over, 3)) + [TargetsHeading] + IncreaseEach(Take(under, 3))
    else []
  }

  /** `_generate_suggestions`. */
  method GenerateSuggestions(analyses: seq<AllocationAnalysis>, additional: real)
    returns (suggestions: seq<Suggestion>)
    ensures suggestions == Suggestions(analyses, additional)
  {
    if additional > 0.0 {
      suggestions := SuggestInvestments(analyses, additional);
    } else {
      suggestions := SuggestReallocation(analyses);
    }
  }

  /** The `additional_investment > 0` branch of `_generate_suggestions`. */
  method SuggestInvestments(analyses: seq<AllocationAnalysis>, additional: real)
    returns (suggestions: seq<Suggestion>)
    ensures suggestions == NewMoneySuggestions(analyses, additional)
  {
    suggestions := [Available(additional)];
    var underweight := Fundable(analyses);
    if underweight != [] {
      var invested, remaining := InvestLoop(underweight, additional);
      var leftover := if remaining > 0.0 then [Leftover(remaining)] else [];
      suggestions := suggestions + ([NewMoneyHeading] + invested + leftover);
    } else {
      assert suggestions == suggestions + [];
    }
  }

  /** The loop that spreads the new money over the candidates, stopping when none is left. */
  method InvestLoop(candidates: seq<AllocationAnalysis>, additional: real)
    returns (invested: seq<Suggestion>, remaining: real)
    ensures invested == GreedyInvest(candidates, additional)
    ensures remaining == Unspent(candidates, additional)
  {
    invested := [];
    remaining := additional;
    var i := 0;
    while i < |candidates|
      invariant 0 <= i <= |candidates|
      invariant invested + GreedyInvest(candidates[i..], remaining) == GreedyInvest(candidates, additional)
      invariant Unspent(candidates[i..], remaining) == Unspent(candidates, additional)
    {
      if remaining <= 0.0 {
        break;
      }
      assert candidates[i..][1..] == candidates[i + 1..];
      var amount := Min(candidates[i].rebalanceAmount, remaining);
      assert GreedyInvest(candidates[i..], remaining)
          == [Invest(candidates[i].category, amount)] + GreedyInvest(candidates[i + 1..], remaining - amount);
      invested := invested + [Invest(candidates[i].category, amount)];
      remaining := remaining - amount;
      i := i + 1;
    }
    assert GreedyInvest(candidates[i..], remaining) == [];
    assert invested + [] == invested;
  }

  /** The `else` branch of `_generate_suggestions`: reallocation without new money. */
  method SuggestReallocation(analyses: seq<AllocationAnalysis>) returns (suggestions: seq<Suggestion>)
    ensures suggestions == ReallocationSuggestions(analyses)
  {
    suggestions := [];
    var overweight := WithStatus(analyses, Overweight);
    var underweight := WithStatus(analyses, Underweight);
    if overweight != [] && underweight != [] {
      var reductions := SuggestReductions(Take(overweight, 3));
      var increases := SuggestIncreases(Take(underweight, 3));
      suggestions := [ReallocationHeading] + reductions + [TargetsHeading] + increases;
    }
  }

  /** The loop over the overweight categories shown. */
  method SuggestReductions(top: seq<AllocationAnalysis>) returns (suggestions: seq<Suggestion>)
    ensures suggestions == ReduceEach(top)
  {
    suggestions := [];
    for i := 0 to |top|
      invariant suggestions == ReduceEach(top[..i])
    {
      assert top[..i + 1] == top[..i] + [top[i]];
      ReduceEachAppend(top[..i], top[i]);
      suggestions := suggestions + [Reduce(top[i].category, Abs(top[i].rebalanceAmount))];
    }
    assert top[..|top|] == top;
  }

  /** The loop over the underweight categories shown. */
  method SuggestIncreases(top: seq<AllocationAnalysis>) returns (suggestions: seq<Suggestion>)
    ensures suggestions == IncreaseEach(top)
  {
    suggestions := [];
    for i := 0 to |top|
      invariant suggestions == IncreaseEach(top[..i])
    {
      assert top[..i + 1] == top[..i] + [top[i]];
      IncreaseEachAppend(top[..i], top[i]);
      suggestions := suggestions + [Increase(top[i].category, top[i].rebalanceAmount)];
    }
    assert top[..|top|] == top;
  }

  /** How many of `n` listed categories the reallocation advice names: Python's `[:3]`. */
  function Shown(n: nat): (k: nat)
    ensures k <= 3 && k <= n && (k < 3 ==> k == n)
  {
    if n < 3 then n else 3
  }

  /** Whenever there is reallocation advice, it has the layout of the advice for the overweight and the underweight analyses. */
  lemma ReallocationLayout(analyses: seq<AllocationAnalysis>)
    ensures var s := ReallocationSuggestions(analyses);
            s != [] ==> AdviceLaidOut(s, WithStatus(analyses, Overweight), WithStatus(analyses, Underweight))
  {
    var s := ReallocationSuggestions(analyses);
    var over := WithStatus(analyses, Overweight);
    var under := WithStatus(analyses, Underweight);
    if s != [] {
      assert s == [ReallocationHeading] + ReduceEach(Take(over, 3)) + [TargetsHeading] + IncreaseEach(Take(under, 3));
      AdviceLayout(s, over, under);
    }
  }

  /**
    The layout of the advice for two lists: the first heading, the reductions
    of the first (at most three) analyses of `over`, the second heading, the
    increases of the first (at most three) analyses of `under`.
  */
  ghost predicate AdviceLaidOut(s: seq<Suggestion>, over: seq<AllocationAnalysis>, under: seq<AllocationAnalysis>)
  {
    var k, m := Shown(|over|), Shown(|under|);
    && |s| == k + m + 2
    && s[0] == ReallocationHeading
    && (forall n :: 1 <= n <= k ==> s[n] == Reduce(over[n - 1].category, Abs(over[n - 1].rebalanceAmount)))
    && s[k + 1] == TargetsHeading
    && (forall j :: 0 <= j < m ==> s[k + 2 + j] == Increase(under[j].category, under[j].rebalanceAmount))
  }

  /** The advice for two lists, whatever they hold, has that layout. */
  lemma AdviceLayout(s: seq<Suggestion>, over: seq<AllocationAnalysis>, under: seq<AllocationAnalysis>)
    requires s == [ReallocationHeading] + ReduceEach(Take(over, 3)) + [TargetsHeading] + IncreaseEach(Take(under, 3))
    ensures AdviceLaidOut(s, over, under)
  {
    ReductionsFirst(over);
    IncreasesLast([ReallocationHeading] + ReduceEach(Take(over, 3)), under);
  }

  /** The heading, then the reductions of the first (at most three) listed analyses. */
  lemma ReductionsFirst(over: seq<AllocationAnalysis>)
    ensures var s := [ReallocationHeading] + ReduceEach(Take(over, 3));
            && |s| == Shown(|over|) + 1
            && s[0] == ReallocationHeading
            && (forall n :: 1 <= n < |s| ==> s[n] == Reduce(over[n - 1].category, Abs(over[n - 1].rebalanceAmount)))
  {
    var top := Take(over, 3);
    var reductions := ReduceEach(top);
    var s := [ReallocationHeading] + reductions;
    forall n | 1 <= n <= |top| ensures s[n] == Reduce(over[n - 1].category, Abs(over[n - 1].rebalanceAmount)) {
      assert s[n] == reductions[n - 1];
      assert top[n - 1] == over[n - 1];
    }
  }

  /** The increases of the first (at most three) listed analyses, at the end. */
  lemma IncreasesLast(front: seq<Suggestion>, under: seq<AllocationAnalysis>)
    ensures var s := front + [TargetsHeading] + IncreaseEach(Take(under, 3));
            var k := |front|;
            && |s| == k + 1 + Shown(|under|)
            && (forall n :: 0 <= n < k ==> s[n] == front[n])
            && s[k] == TargetsHeading
            && (forall n :: k + 1 <= n < |s| ==>
                  s[n] == Increase(under[n - k - 1].category, under[n - k - 1].rebalanceAmount))
  {
    var bottom := Take(under, 3);
    var increases := IncreaseEach(bottom);
    var s := front + [TargetsHeading] + increases;
    forall n | |front| + 1 <= n < |s|
      ensures s[n] == Increase(under[n - |front| - 1].category, under[n - |front| - 1].rebalanceAmount)
    {
      assert s[n] == increases[n - |front| - 1];
      assert bottom[n - |front| - 1] == under[n - |front| - 1];
    }
  }

  /**
    Reallocation advice appears exactly when some category is over and some
    under target; it names at most three of each, each reduction the amount
    an overweight category must shed and each increase the amount an
    underweight category lacks, and never mentions new money.
  */
  lemma ReallocationShape(analyses: seq<AllocationAnalysis>)
    ensures ReallocationSuggestions(analyses) != [] <==>
      (exists a :: a in analyses && a.status == Overweight) && (exists a :: a in analyses && a.status == Underweight)
    ensures |ReallocationSuggestions(analyses)| <= 8
    ensures forall x :: x in ReallocationSuggestions(analyses) && x.Reduce? ==>
      exists a :: a in analyses && a.status == Overweight && x == Reduce(a.category, Abs(a.rebalanceAmount))
    ensures forall x :: x in ReallocationSuggestions(analyses) && x.Increase? ==>
      exists a :: a in analyses && a.status == Underweight && x == Increase(a.category, a.rebalanceAmount)
    ensures forall x :: x in ReallocationSuggestions(analyses) ==> !(x.Available? || x.Invest? || x.Leftover?)
  {
    var s := ReallocationSuggestions(analyses);
    var over := WithStatus(analyses, Overweight);
    var under := WithStatus(analyses, Underweight);
    ReallocationLayout(analyses);
    if s != [] {
      assert over[0] in over && under[0] in under;
      AdviceMembers(s, over, under);
      forall x | x in s
        ensures x.Reduce? ==> exists a :: a in analyses && a.status == Overweight && x == Reduce(a.category, Abs(a.rebalanceAmount))
        ensures x.Increase? ==> exists a :: a in analyses && a.status == Underweight && x == Increase(a.category, a.rebalanceAmount)
        ensures !(x.Available? || x.Invest? || x.Leftover?)
      {
        if x.Reduce? {
          var a :| a in over && x == Reduce(a.category, Abs(a.rebalanceAmount));
        } else if x.Increase? {
          var a :| a in under && x == Increase(a.category, a.rebalanceAmount);
        }
      }
    } else {
      assert forall a :: a in analyses && a.status == Overweight ==> a in over;
      assert forall a :: a in analyses && a.status == Underweight ==> a in under;
    }
  }

  /** Every record of the advice for two lists is a heading, a reduction of the first or an increase of the second. */
  lemma AdviceMembers(s: seq<Suggestion>, over: seq<AllocationAnalysis>, under: seq<AllocationAnalysis>)
    requires AdviceLaidOut(s, over, under)
    ensures forall x :: x in s ==>
      || x == ReallocationHeading
      || x == TargetsHeading
      || (exists a :: a in over && x == Reduce(a.category, Abs(a.rebalanceAmount)))
      || (exists a :: a in under && x == Increase(a.category, a.rebalanceAmount))
  {
    var k := Shown(|over|);
    forall x | x in s
      ensures || x == ReallocationHeading
              || x == TargetsHeading
              || (exists a :: a in over && x == Reduce(a.category, Abs(a.rebalanceAmount)))
              || (exists a :: a in under && x == Increase(a.category, a.rebalanceAmount))
    {
      var n :| 0 <= n < |s| && s[n] == x;
      if n == 0 {
        assert x == ReallocationHeading;
      } else if n <= k {
        var a := over[n - 1];
        assert a in over && x == Reduce(a.category, Abs(a.rebalanceAmount));
      } else if n == k + 1 {
        assert x == TargetsHeading;
      } else {
        var j := n - k - 2;
        var a := under[j];
        assert a in under && x == Increase(a.category, a.rebalanceAmount);
      }
    }
  }

  lemma ReduceEachAppend(xs: seq<AllocationAnalysis>, a: AllocationAnalysis)
    ensures ReduceEach(xs + [a]) == ReduceEach(xs) + [Reduce(a.category, Abs(a.rebalanceAmount))]
  {
  }

  lemma IncreaseEachAppend(xs: seq<AllocationAnalysis>, a: AllocationAnalysis)
    ensures IncreaseEach(xs + [a]) == IncreaseEach(xs) + [Increase(a.category, a.rebalanceAmount)]
  {
  }

  // ---------------------------------------------------------------------------
  // What the suggestions add up to

  /** The money the suggestions put into categories. */
  function Invested(s: seq<Suggestion>): real
  {
    if s == [] then 0.0 else (if s[0].Invest? then s[0].amount else 0.0) + Invested(s[1..])
  }

  /** The new money the suggestions report as left over. */
  function Unallocated(s: seq<Suggestion>): real
  {
    if s == [] then 0.0 else (if s[0].Leftover? then s[0].amount else 0.0) + Unallocated(s[1..])
  }

  lemma {:induction false} AmountsAppend(s: seq<Suggestion>, t: seq<Suggestion>)
    ensures Invested(s + t) == Invested(s) + Invested(t)
    ensures Unallocated(s + t) == Unallocated(s) + Unallocated(t)
  {
    if s != [] {
      assert (s + t)[1..] == s[1..] + t;
      AmountsAppend(s[1..], t);
    } else {
      assert s + t == t;
    }
  }

  ghost predicate AllNeedMoney(xs: seq<AllocationAnalysis>)
  {
    forall a :: a in xs ==> a.rebalanceAmount > 0.0
  }

  lemma {:induction false} TotalRebalancePositive(xs: seq<AllocationAnalysis>)
    requires AllNeedMoney(xs)
    ensures TotalRebalance(xs) >= 0.0
    ensures xs != [] ==> TotalRebalance(xs) > 0.0
  {
    if xs != [] {
      assert xs[0] in xs;
      assert AllNeedMoney(xs[1..]) by {
        forall a | a in xs[1..] ensures a.rebalanceAmount > 0.0 {
          assert a in xs;
        }
      }
      TotalRebalancePositive(xs[1..]);
    }
  }

  /**
    The investment loop visits candidates in order: the k-th investment goes to
    the k-th candidate, is positive and no more than what that candidate lacks,
    and every candidate before the last one reached receives all it lacks.
  */
  lemma {:induction false} GreedyShape(candidates: seq<AllocationAnalysis>, remaining: real)
    requires AllNeedMoney(candidates)
    ensures var g := GreedyInvest(candidates, remaining);
            && |g| <= |candidates|
            && (forall i :: 0 <= i < |g| ==>
                  && g[i].Invest? && g[i].category == candidates[i].category
                  && 0.0 < g[i].amount <= candidates[i].rebalanceAmount)
            && (forall i :: 0 <= i < |g| - 1 ==> g[i].amount == candidates[i].rebalanceAmount)
  {
    if candidates != [] && remaining > 0.0 {
      var c := candidates[0];
      assert c in candidates;
      var amount := Min(c.rebalanceAmount, remaining);
      var tail := candidates[1..];
      assert AllNeedMoney(tail) by {
        forall a | a in tail ensures a.rebalanceAmount > 0.0 {
          assert a in candidates;
        }
      }
      GreedyShape(tail, remaining - amount);
      var rest := GreedyInvest(tail, remaining - amount);
      var g := [Invest(c.category, amount)] + rest;
      assert g == GreedyInvest(candidates, remaining);
      forall i | 0 <= i < |g|
        ensures g[i].Invest? && g[i].category == candidates[i].category
        ensures 0.0 < g[i].amount <= candidates[i].rebalanceAmount
      {
        if i > 0 {
          assert g[i] == rest[i - 1] && candidates[i] == tail[i - 1];
        }
      }
      forall i | 0 <= i < |g| - 1 ensures g[i].amount == candidates[i].rebalanceAmount {
        if i == 0 {
          assert rest != [];
          assert remaining - amount > 0.0;
        } else {
          assert g[i] == rest[i - 1] && candidates[i] == tail[i - 1];
        }
      }
    }
  }

  /**
    The loop invests the smaller of the money available and the total the
    candidates lack, and what it invests plus what it leaves is exactly the
    money it started with.
  */
  lemma {:induction false} GreedyAccounting(candidates: seq<AllocationAnalysis>, remaining: real)
    requires AllNeedMoney(candidates) && remaining >= 0.0
    ensures Invested(GreedyInvest(candidates, remaining)) == Min(remaining, TotalRebalance(candidates))
    ensures Invested(GreedyInvest(candidates, remaining)) + Unspent(candidates, remaining) == remaining
    ensures Unspent(candidates, remaining) >= 0.0
  {
    TotalRebalancePositive(candidates);
    if candidates != [] && remaining > 0.0 {
      var c := candidates[0];
      assert c in candidates;
      var amount := Min(c.rebalanceAmount, remaining);
      var tail := candidates[1..];
      assert AllNeedMoney(tail) by {
        forall a | a in tail ensures a.rebalanceAmount > 0.0 {
          assert a in candidates;
        }
      }
      GreedyAccounting(tail, remaining - amount);
      TotalRebalancePositive(tail);
      var rest := GreedyInvest(tail, remaining - amount);
      assert ([Invest(c.category, amount)] + rest)[1..] == rest;
      assert Invested(GreedyInvest(candidates, remaining)) == amount + Invested(rest);
    }
  }

  /** The three parts of the new-money advice: the announcement, the investment loop, the leftover. */
  lemma NewMoneyParts(analyses: seq<AllocationAnalysis>, additional: real)
    ensures var candidates := Fundable(analyses);
            var left := Unspent(candidates, additional);
            NewMoneySuggestions(analyses, additional)
            == if candidates == [] then [Available(additional)]
               else [Available(additional), NewMoneyHeading] + GreedyInvest(candidates, additional)
                    + (if left > 0.0 then [Leftover(left)] else [])
  {
  }

  /**
    With new money, the suggestions announce it first, and every investment
    goes to an underweight category with a positive rebalance amount and is
    no more than that amount.
  */
  lemma NewMoneyTargets(analyses: seq<AllocationAnalysis>, additional: real)
    requires additional > 0.0
    ensures var s := Suggestions(analyses, additional);
            && s[0] == Available(additional)
            && forall x :: x in s && x.Invest? ==>
                 exists a :: a in Fundable(analyses) && a.category == x.category && 0.0 < x.amount <= a.rebalanceAmount
  {
    var s := NewMoneySuggestions(analyses, additional);
    var candidates := Fundable(analyses);
    NewMoneyParts(analyses, additional);
    if candidates != [] {
      var g := GreedyInvest(candidates, additional);
      GreedyShape(candidates, additional);
      forall x | x in s && x.Invest?
        ensures exists a :: a in candidates && a.category == x.category && 0.0 < x.amount <= a.rebalanceAmount
      {
        assert x in g;
        var i :| 0 <= i < |g| && g[i] == x;
        assert candidates[i] in candidates;
      }
    }
  }

  /**
    With new money and some fundable category, the investments follow the
    announcement and the heading, one per fundable category in plan order:
    the k-th goes to the k-th fundable category, and every one before the
    last receives all that category lacks.
  */
  lemma NewMoneyOrder(analyses: seq<AllocationAnalysis>, additional: real)
    requires additional > 0.0
    ensures var s := Suggestions(analyses, additional);
            var c := Fundable(analyses);
            var g := GreedyInvest(c, additional);
            c != [] ==>
              && |g| <= |c| && 2 + |g| <= |s|
              && s[1] == NewMoneyHeading
              && (forall i :: 0 <= i < |g| ==>
                    && s[2 + i].Invest? && s[2 + i].category == c[i].category
                    && 0.0 < s[2 + i].amount <= c[i].rebalanceAmount)
              && (forall i :: 0 <= i < |g| - 1 ==> s[2 + i] == Invest(c[i].category, c[i].rebalanceAmount))
  {
    var c := Fundable(analyses);
    if c != [] {
      var g := GreedyInvest(c, additional);
      var left := Unspent(c, additional);
      var tail := if left > 0.0 then [Leftover(left)] else [];
      var s := Suggestions(analyses, additional);
      assert s == [Available(additional), NewMoneyHeading] + g + tail by {
        NewMoneyParts(analyses, additional);
      }
      AfterHeadings(additional, g, tail);
      assert AllNeedMoney(c);
      GreedyShape(c, additional);
      forall i | 0 <= i < |g|
        ensures s[2 + i].Invest? && s[2 + i].category == c[i].category
        ensures 0.0 < s[2 + i].amount <= c[i].rebalanceAmount
      {
        assert s[2 + i] == g[i];
      }
      forall i | 0 <= i < |g| - 1 ensures s[2 + i] == Invest(c[i].category, c[i].rebalanceAmount) {
        assert s[2 + i] == g[i];
      }
    }
  }

  /** The investments sit right after the announcement and the heading. */
  lemma AfterHeadings(additional: real, g: seq<Suggestion>, tail: seq<Suggestion>)
    ensures var s := [Available(additional), NewMoneyHeading] + g + tail;
            |s| == 2 + |g| + |tail| && s[1] == NewMoneyHeading && forall i :: 0 <= i < |g| ==> s[2 + i] == g[i]
  {
  }

  /**
    With new money, the investments add up to the smaller of the new money and
    what the fundable categories lack; when any category is fundable,
    investments plus the reported leftover are exactly the new money, and a
    leftover is reported exactly when those categories lack less than it.
  */
  lemma NewMoneyAccounting(analyses: seq<AllocationAnalysis>, additional: real)
    requires additional > 0.0
    ensures var s := Suggestions(analyses, additional);
            var candidates := Fundable(analyses);
            && Invested(s) == Min(additional, TotalRebalance(candidates))
            && (candidates != [] ==> Invested(s) + Unallocated(s) == additional)
            && (Unallocated(s) > 0.0 <==> candidates != [] && TotalRebalance(candidates) < additional)
  {
    var s := NewMoneySuggestions(analyses, additional);
    var candidates := Fundable(analyses);
    TotalRebalancePositive(candidates);
    NewMoneyParts(analyses, additional);
    if candidates != [] {
      var g := GreedyInvest(candidates, additional);
      var left := Unspent(candidates, additional);
      var tail := if left > 0.0 then [Leftover(left)] else [];
      GreedyShape(candidates, additional);
      GreedyAccounting(candidates, additional);
      NoLeftoverInInvestments(g);
      assert s == [Available(additional)] + ([NewMoneyHeading] + g + tail);
      AmountsAppend([Available(additional)], [NewMoneyHeading] + g + tail);
      AmountsAppend([NewMoneyHeading] + g, tail);
      AmountsAppend([NewMoneyHeading], g);
    }
  }

  lemma {:induction false} NoLeftoverInInvestments(g: seq<Suggestion>)
    requires forall i :: 0 <= i < |g| ==> g[i].Invest?
    ensures Unallocated(g) == 0.0
  {
    if g != [] {
      NoLeftoverInInvestments(g[1..]);
    }
  }

  // ---------------------------------------------------------------------------
  // Signs of the suggested amounts

  /** Every overweight analysis must shrink and every underweight one must grow. */
  ghost predicate SignsHold(xs: seq<AllocationAnalysis>)
  {
    forall a :: a in xs ==>
      && (a.status == Overweight ==> a.rebalanceAmount < 0.0)
      && (a.status == Underweight ==> a.rebalanceAmount > 0.0)
  }

  /** The suggestion's amount, when it carries one, is positive. */
  predicate PositiveAmount(x: Suggestion)
  {
    match x
    case Available(amount) => amount > 0.0
    case Invest(_, amount) => amount > 0.0
    case Leftover(amount) => amount > 0.0
    case Reduce(_, amount) => amount > 0.0
    case Increase(_, amount) => amount > 0.0
    case _ => true
  }

  lemma {:induction false} FundableIsUnderweight(xs: seq<AllocationAnalysis>)
    requires SignsHold(xs)
    ensures Fundable(xs) == WithStatus(xs, Underweight)
  {
    if xs != [] {
      assert xs[0] in xs;
      assert SignsHold(xs[1..]) by {
        forall a | a in xs[1..] ensures a in xs {
        }
      }
      FundableIsUnderweight(xs[1..]);
    }
  }

  /** Under the sign convention, every amount the suggestions carry is positive. */
  lemma SuggestedAmountsPositive(analyses: seq<AllocationAnalysis>, additional: real)
    requires SignsHold(analyses)
    ensures forall x :: x in Suggestions(analyses, additional) ==> PositiveAmount(x)
  {
    if additional > 0.0 {
      NewMoneyPositive(analyses, additional);
    } else {
      ReallocationPositive(analyses);
    }
  }

  lemma NewMoneyPositive(analyses: seq<AllocationAnalysis>, additional: real)
    requires additional > 0.0
    ensures forall x :: x in NewMoneySuggestions(analyses, additional) ==> PositiveAmount(x)
  {
    var s := NewMoneySuggestions(analyses, additional);
    var candidates := Fundable(analyses);
    NewMoneyParts(analyses, additional);
    if candidates != [] {
      var g := GreedyInvest(candidates, additional);
      GreedyShape(candidates, additional);
      forall x | x in s ensures PositiveAmount(x) {
        if x in g {
          var i :| 0 <= i < |g| && g[i] == x;
        }
      }
    }
  }

  lemma ReallocationPositive(analyses: seq<AllocationAnalysis>)
    requires SignsHold(analyses)
    ensures forall x :: x in ReallocationSuggestions(analyses) ==> PositiveAmount(x)
  {
    var over := WithStatus(analyses, Overweight);
    var under := WithStatus(analyses, Underweight);
    if over != [] && under != [] {
      ReductionsPositive(Take(over, 3));
      IncreasesPositive(Take(under, 3));
    }
  }

  lemma ReductionsPositive(top: seq<AllocationAnalysis>)
    requires forall a :: a in top ==> a.rebalanceAmount < 0.0
    ensures forall x :: x in ReduceEach(top) ==> PositiveAmount(x)
  {
    forall x | x in ReduceEach(top) ensures PositiveAmount(x) {
      var i :| 0 <= i < |top| && ReduceEach(top)[i] == x;
      assert top[i] in top;
    }
  }

  lemma IncreasesPositive(top: seq<AllocationAnalysis>)
    requires forall a :: a in top ==> a.rebalanceAmount > 0.0
    ensures forall x :: x in IncreaseEach(top) ==> PositiveAmount(x)
  {
    forall x | x in IncreaseEach(top) ensures PositiveAmount(x) {
      var i :| 0 <= i < |top| && IncreaseEach(top)[i] == x;
      assert top[i] in top;
    }
  }

  /**
    In a plan whose total after the new money is positive, new money goes to
    exactly the underweight categories, and every amount in the suggestions is
    positive: reductions name money to take out of categories that must
    shrink, increases and investments money for categories that must grow.
  */
  lemma PlanSuggestionsPositive(analyses: seq<AllocationAnalysis>, current: map<string, real>,
                                targets: map<string, real>, newTotal: real, additional: real)
    requires newTotal > 0.0
    requires forall a :: a in analyses ==> a == PlanAnalysisFor(a.category, current, targets, newTotal)
    ensures Fundable(analyses) == WithStatus(analyses, Underweight)
    ensures forall x :: x in Suggestions(analyses, additional) ==> PositiveAmount(x)
  {
    forall a | a in analyses
      ensures a.status == Overweight ==> a.rebalanceAmount < 0.0
      ensures a.status == Underweight ==> a.rebalanceAmount > 0.0
    {
      PlanSign(a.category, current, targets, newTotal);
    }
    FundableIsUnderweight(analyses);
    SuggestedAmountsPositive(analyses, additional);
  }

  // ---------------------------------------------------------------------------
  // The plan

  /**
    `create_rebalancing_plan`: one analysis per held or targeted category,
    measured against the total after the new money; categories that are not
    underweight first, then the underweight ones, each block by decreasing
    absolute deviation; the money still needed (nothing when new money is
    given, else what the under-target categories lack); and the suggestions.
  */
  method CreateRebalancingPlan(current: map<string, real>, targets: map<string, real>, additional: real := 0.0)
    returns (plan: RebalancingPlan)
    ensures plan.totalPortfolioValue == SumValues(current) + additional
    ensures OnePerLabel(plan.analyses, current.Keys + targets.Keys)
    ensures forall a :: a in plan.analyses ==> a == PlanAnalysisFor(a.category, current, targets, plan.totalPortfolioValue)
    ensures PlanOrdered(plan.analyses)
    ensures plan.additionalInvestmentNeeded == if additional > 0.0 then 0.0 else Shortfall(plan.analyses)
    ensures plan.suggestions == Suggestions(plan.analyses, additional)
  {
    var totalValue := SumMapValues(current);
    var newTotal := totalValue + additional;
    var analyses := PlanAnalyses(current, targets, newTotal);
    var suggestions := GenerateSuggestions(analyses, additional);
    var needed := if additional > 0.0 then 0.0 else Shortfall(analyses);
    plan := RebalancingPlan(newTotal, analyses, needed, suggestions);
  }

  /** The analysis loop and the sort of `create_rebalancing_plan`, against the total after the new money. */
  method PlanAnalyses(current: map<string, real>, targets: map<string, real>, newTotal: real)
    returns (analyses: seq<AllocationAnalysis>)
    ensures OnePerLabel(analyses, current.Keys + targets.Keys)
    ensures forall a :: a in analyses ==> a == PlanAnalysisFor(a.category, current, targets, newTotal)
    ensures PlanOrdered(analyses)
  {
    var unsorted := AnalyzeEach(current.Keys + targets.Keys, c => PlanAnalysisFor(c, current, targets, newTotal));
    analyses := SortByRank(unsorted, PlanRank);
    PermutationKeepsLabels(unsorted, analyses);
    PermutationKeepsDistinct(unsorted, analyses);
    PlanOrder(analyses);
  }

  /** Every underweight analysis comes after all the others, and each block runs by decreasing deviation. */
  ghost predicate PlanOrdered(xs: seq<AllocationAnalysis>)
  {
    forall i, j :: 0 <= i < j < |xs| ==>
      && (xs[i].status == Underweight ==> xs[j].status == Underweight)
      && ((xs[i].status == Underweight) == (xs[j].status == Underweight) ==>
            Abs(xs[i].differencePercentage) >= Abs(xs[j].differencePercentage))
  }

  /** Sorting by the plan's key puts every underweight analysis last, each block by decreasing deviation. */
  lemma PlanOrder(analyses: seq<AllocationAnalysis>)
    requires SortedBy(analyses, PlanRank)
    ensures PlanOrdered(analyses)
  {
    forall i, j | 0 <= i < j < |analyses|
      ensures analyses[i].status == Underweight ==> analyses[j].status == Underweight
      ensures (analyses[i].status == Underweight) == (analyses[j].status == Underweight) ==>
                Abs(analyses[i].differencePercentage) >= Abs(analyses[j].differencePercentage)
    {
      assert RankAtLeast(PlanRank(analyses[i]), PlanRank(analyses[j]));
    }
  }

  // ---------------------------------------------------------------------------
  // calculate_historical_growth

  /** The growth of one category between two snapshots; percentage 0 when the old value is not positive. */
  function GrowthBetween(oldValue: real, newValue: real): (g: Growth)
    ensures g.oldValue == oldValue && g.newValue == newValue
    ensures g.oldValue + g.growth == g.newValue
    ensures oldValue > 0.0 ==> g.growthPct * oldValue == g.growth * 100.0
    ensures oldValue > 0.0 ==> (g.growthPct > 0.0 <==> newValue > oldValue)
    ensures oldValue <= 0.0 ==> g.growthPct == 0.0
  {
    var growth := newValue - oldValue;
    Growth(oldValue, newValue, growth, if oldValue > 0.0 then growth / oldValue * 100.0 else 0.0)
  }

  function GrowthAmount(g: Growth): real { g.growth }

  /** `m` restricted to the keys of `keys`. */
  ghost function Restrict(m: map<string, real>, keys: set<string>): (r: map<string, real>)
    ensures r.Keys == m.Keys * keys
  {
    map k | k in m && k in keys :: m[k]
  }

  /** Adding one key to the restriction adds that key's value (0 when absent) to the sum. */
  lemma RestrictStep(m: map<string, real>, keys: set<string>, k: string)
    requires k !in keys
    ensures SumValues(Restrict(m, keys + {k})) == SumValues(Restrict(m, keys)) + GetOr(m, k, 0.0)
  {
    var before := Restrict(m, keys);
    if k in m {
      assert Restrict(m, keys + {k}) == before[k := m[k]];
      SumOfUpdate(before, k, m[k], Identity);
    } else {
      assert Restrict(m, keys + {k}) == before;
    }
  }

  /**
    `calculate_historical_growth`: a growth record for every category of either
    snapshot, a missing side counting as 0; the growth amounts add up to the
    change of the portfolio's total.
  */
  method CalculateHistoricalGrowth(oldAllocation: map<string, real>, newAllocation: map<string, real>)
    returns (growth: map<string, Growth>)
    ensures growth.Keys == oldAllocation.Keys + newAllocation.Keys
    ensures forall k :: k in growth ==>
              growth[k] == GrowthBetween(GetOr(oldAllocation, k, 0.0), GetOr(newAllocation, k, 0.0))
    ensures SumOf(growth, GrowthAmount) == SumValues(newAllocation) - SumValues(oldAllocation)
  {
    var allLabels := oldAllocation.Keys + newAllocation.Keys;
    growth := RecordEach(allLabels, k => GrowthBetween(GetOr(oldAllocation, k, 0.0), GetOr(newAllocation, k, 0.0)));
    GrowthTotal(growth, oldAllocation, newAllocation);
    GrowthComplete(growth, oldAllocation, newAllocation);
  }

  /** The loop of `calculate_historical_growth`: one record per category, in whatever order the set yields them. */
  method RecordEach(labels: set<string>, record: string -> Growth) returns (records: map<string, Growth>)
    ensures records.Keys == labels
    ensures forall k :: k in records ==> records[k] == record(k)
  {
    records := map[];
    var remaining := labels;
    while remaining != {}
      invariant remaining <= labels
      invariant forall k :: k in records <==> k in labels && k !in remaining
      invariant forall k :: k in records ==> records[k] == record(k)
      decreases remaining
    {
      var category :| category in remaining;
      records := records[category := record(category)];
      remaining := remaining - {category};
    }
  }

  /** Records that are each the growth of their category add up to the change over those categories. */
  lemma {:induction false} GrowthTotal(growth: map<string, Growth>, oldAllocation: map<string, real>,
                                       newAllocation: map<string, real>)
    requires forall k :: k in growth ==>
               growth[k] == GrowthBetween(GetOr(oldAllocation, k, 0.0), GetOr(newAllocation, k, 0.0))
    ensures GrowthRecords(growth, oldAllocation, newAllocation)
    decreases growth.Keys
  {
    if growth == map[] {
      GrowthStart(oldAllocation, newAllocation);
    } else {
      var k :| k in growth;
      var rest := growth - {k};
      assert rest.Keys < growth.Keys;
      GrowthTotal(rest, oldAllocation, newAllocation);
      assert growth == rest[k := growth[k]];
      GrowthStep(rest, k, growth[k], oldAllocation, newAllocation);
    }
  }

  lemma GrowthStart(oldAllocation: map<string, real>, newAllocation: map<string, real>)
    ensures GrowthRecords(map[], oldAllocation, newAllocation)
  {
    assert Restrict(newAllocation, {}) == map[];
    assert Restrict(oldAllocation, {}) == map[];
  }

  lemma GrowthComplete(growth: map<string, Growth>, oldAllocation: map<string, real>,
                       newAllocation: map<string, real>)
    requires GrowthRecords(growth, oldAllocation, newAllocation)
    requires growth.Keys == oldAllocation.Keys + newAllocation.Keys
    ensures SumOf(growth, GrowthAmount) == SumValues(newAllocation) - SumValues(oldAllocation)
  {
    assert Restrict(newAllocation, growth.Keys) == newAllocation;
    assert Restrict(oldAllocation, growth.Keys) == oldAllocation;
  }

  /**
    Every record is the growth of its category, and the records' growth adds up
    to the change of the total over the categories recorded so far.
  */
  ghost predicate GrowthRecords(growth: map<string, Growth>, oldAllocation: map<string, real>,
                                newAllocation: map<string, real>)
  {
    && (forall k :: k in growth ==>
          growth[k] == GrowthBetween(GetOr(oldAllocation, k, 0.0), GetOr(newAllocation, k, 0.0)))
    && SumOf(growth, GrowthAmount)
       == SumValues(Restrict(newAllocation, growth.Keys)) - SumValues(Restrict(oldAllocation, growth.Keys))
  }

  lemma GrowthStep(growth: map<string, Growth>, category: string, g: Growth,
                   oldAllocation: map<string, real>, newAllocation: map<string, real>)
    requires category !in growth
    requires g == GrowthBetween(GetOr(oldAllocation, category, 0.0), GetOr(newAllocation, category, 0.0))
    requires GrowthRecords(growth, oldAllocation, newAllocation)
    ensures GrowthRecords(growth[category := g], oldAllocation, newAllocation)
  {
    var next := growth[category := g];
    assert next.Keys == growth.Keys + {category};
    SumOfUpdate(growth, category, g, GrowthAmount);
    RestrictStep(newAllocation, growth.Keys, category);
    RestrictStep(oldAllocation, growth.Keys, category);
  }
}
