/**
  PGBL (a Brazilian private pension plan) tax arithmetic: contributions are
  deductible up to 12% of the year's gross taxable income, 13th salary and
  profit sharing (PLR) being taxed separately and so excluded.
*/
module PgblTax {
  import opened Grouping

  /** One income record of the year. */
  datatype AnnualIncomeEntry = AnnualIncomeEntry(
    amount: real,
    entryType: string,   // "salary", "vacation", ..., "thirteenth", "plr", "other"
    month: int,          // 1 to 12
    isTaxable: bool)

  /** Income types excluded from the deduction base. */
  const NonTaxableTypes: seq<string> := ["thirteenth", "plr"]

  /** The share of taxable income that may be deducted. */
  const DeductibleShare: real := 0.12

  /** The default marginal rate, the top bracket of 27.5%. */
  const TopBracket: real := 0.275

  function Amount(e: AnnualIncomeEntry): real { e.amount }

  function TaxableAmount(e: AnnualIncomeEntry): real { if e.isTaxable then e.amount else 0.0 }

  function EntryType(e: AnnualIncomeEntry): string { e.entryType }

  function Month(e: AnnualIncomeEntry): int { e.month }

  /** The entries flagged taxable, in order, each as often as it occurs. */
  function TaxableEntries(entries: seq<AnnualIncomeEntry>): (r: seq<AnnualIncomeEntry>)
    ensures forall e :: e in r <==> e in entries && e.isTaxable
    ensures forall e :: multiset(r)[e] == if e.isTaxable then multiset(entries)[e] else 0
  {
    if entries == [] then []
    else
      var init := entries[..|entries| - 1];
      var last := entries[|entries| - 1];
      assert entries == init + [last];
      assert forall e :: e in entries <==> e in init || e == last;
      TaxableEntries(init) + if last.isTaxable then [last] else []
  }

  /** `calculate_taxable_income`: the running total over the entries flagged taxable. */
  method CalculateTaxableIncome(entries: seq<AnnualIncomeEntry>) returns (taxableTotal: real)
    ensures taxableTotal == Total(TaxableEntries(entries), Amount)
  {
    taxableTotal := 0.0;
    for i := 0 to |entries|
      invariant taxableTotal == Total(entries[..i], TaxableAmount)
    {
      assert entries[..i + 1][..i] == entries[..i];
      if entries[i].isTaxable {
        taxableTotal := taxableTotal + entries[i].amount;
      }
    }
    assert entries[..|entries|] == entries;
    TaxableTotal(entries);
  }

  /**
    Summing the taxable share of every entry is summing the amounts of the
    taxable entries alone: an entry that is not taxable contributes nothing.
  */
  lemma {:induction false} TaxableTotal(entries: seq<AnnualIncomeEntry>)
    ensures Total(entries, TaxableAmount) == Total(TaxableEntries(entries), Amount)
  {
    if entries != [] {
      var init := entries[..|entries| - 1];
      var last := entries[|entries| - 1];
      TaxableTotal(init);
      var kept := TaxableEntries(init);
      if last.isTaxable {
        var r := kept + [last];
        assert TaxableEntries(entries) == r;
        assert r[..|r| - 1] == kept;
        assert Total(r, Amount) == Total(kept, Amount) + last.amount;
      } else {
        assert TaxableEntries(entries) == kept + [] == kept;
      }
      assert Total(entries, TaxableAmount) == Total(init, TaxableAmount) + TaxableAmount(last);
    }
  }

  /** `calculate_pgbl_limit`: 12% of the taxable income. */
  function PgblLimit(taxableIncome: real): (limit: real)
    ensures taxableIncome >= 0.0 ==> 0.0 <= limit <= taxableIncome
    ensures limit * 100.0 == 12.0 * taxableIncome
  {
    taxableIncome * DeductibleShare
  }

  /** `calculate_remaining_investment`: negative once contributions pass the limit. */
  function RemainingInvestment(pgblLimit: real, contributions: real): (remaining: real)
    ensures contributions + remaining == pgblLimit
    ensures remaining < 0.0 <==> contributions > pgblLimit
  {
    pgblLimit - contributions
  }

  /** `project_annual_income`: the monthly average scaled to a year, 0 before any month is entered. */
  function ProjectAnnualIncome(ytdIncome: real, monthsEntered: int): (projection: real)
    ensures monthsEntered == 0 ==> projection == 0.0
    ensures monthsEntered != 0 ==> projection * (monthsEntered as real) == ytdIncome * 12.0
  {
    if monthsEntered == 0 then 0.0
    else
      var avgMonthly := ytdIncome / (monthsEntered as real);
      avgMonthly * 12.0
  }

  /** A year already entered in full projects to itself; a steady monthly income projects to twelve of it. */
  lemma ProjectionOfSteadyIncome(monthly: real, monthsEntered: int)
    requires monthsEntered > 0
    ensures ProjectAnnualIncome(monthly * (monthsEntered as real), monthsEntered) == monthly * 12.0
    ensures ProjectAnnualIncome(monthly * 12.0, 12) == monthly * 12.0
  {
    var m := monthsEntered as real;
    assert monthly * m / m == monthly;
  }

  /** `calculate_tax_benefit`: the tax saved on a contribution at the given marginal rate. */
  function TaxBenefit(contribution: real, taxBracket: real := TopBracket): (benefit: real)
    ensures contribution >= 0.0 && 0.0 <= taxBracket <= 1.0 ==> 0.0 <= benefit <= contribution
    ensures taxBracket == TopBracket ==> benefit * 1000.0 == contribution * 275.0
  {
    assert contribution >= 0.0 && 0.0 <= taxBracket <= 1.0 ==> contribution * taxBracket <= contribution * 1.0;
    contribution * taxBracket
  }

  /** Contributing exactly the limit at the top bracket saves 3.3% of the taxable income. */
  lemma FullContributionBenefit(taxableIncome: real)
    ensures TaxBenefit(PgblLimit(taxableIncome)) * 1000.0 == 33.0 * taxableIncome
  {
    assert PgblLimit(taxableIncome) == taxableIncome * 0.12;
  }

  /** `categorize_income_by_type`: one total per entry type present, adding up to all income. */
  method CategorizeIncomeByType(entries: seq<AnnualIncomeEntry>) returns (categories: map<string, real>)
    ensures categories.Keys == KeysOf(entries, EntryType)
    ensures forall t :: t in categories ==> categories[t] == TotalWhere(entries, EntryType, t, Amount)
    ensures SumValues(categories) == Total(entries, Amount)
  {
    categories := GroupSum(entries, EntryType, Amount);
  }

  /** `categorize_income_by_month`: one total per month present, adding up to all income. */
  method CategorizeIncomeByMonth(entries: seq<AnnualIncomeEntry>) returns (monthly: map<int, real>)
    ensures monthly.Keys == KeysOf(entries, Month)
    ensures forall m :: m in monthly ==> monthly[m] == TotalWhere(entries, Month, m, Amount)
    ensures SumValues(monthly) == Total(entries, Amount)
  {
    monthly := GroupSum(entries, Month, Amount);
  }

  /** `calculate_completion_percentage`: the share of the limit already used, 0 for a zero limit. */
  function CompletionPercentage(pgblLimit: real, contributions: real): (pct: real)
    ensures pgblLimit == 0.0 ==> pct == 0.0
    ensures pgblLimit != 0.0 ==> pct * pgblLimit == contributions * 100.0
  {
    if pgblLimit == 0.0 then 0.0 else (contributions / pgblLimit) * 100.0
  }

  /** With a positive limit, the limit is used in full exactly when nothing remains to invest. */
  lemma CompleteIffNothingRemains(pgblLimit: real, contributions: real)
    requires pgblLimit > 0.0
    ensures CompletionPercentage(pgblLimit, contributions) >= 100.0
            <==> RemainingInvestment(pgblLimit, contributions) <= 0.0
  {
    var pct := CompletionPercentage(pgblLimit, contributions);
    assert pct * pgblLimit == contributions * 100.0;
    if pct >= 100.0 {
      assert pct * pgblLimit >= 100.0 * pgblLimit;
    } else {
      assert pct * pgblLimit < 100.0 * pgblLimit;
    }
  }

  /** The `(status, emoji, color)` triple shown for a completion percentage. */
  datatype StatusInfo = StatusInfo(status: string, emoji: string, color: string)

  const Optimized: StatusInfo := StatusInfo("optimized", "✅", "green")
  const AlmostComplete: StatusInfo := StatusInfo("almost_complete", "⚠️", "orange")
  const RoomToInvest: StatusInfo := StatusInfo("room_to_invest", "\U{1F4CA}", "blue")

  /** `get_status_info`: thresholds at 100% and 90%, both inclusive. */
  function GetStatusInfo(completionPct: real): (info: StatusInfo)
    ensures info == Optimized <==> completionPct >= 100.0
    ensures info == AlmostComplete <==> 90.0 <= completionPct < 100.0
    ensures info == RoomToInvest <==> completionPct < 90.0
  {
    if completionPct >= 100.0 then Optimized
    else if completionPct >= 90.0 then AlmostComplete
    else RoomToInvest
  }

  /** How far along a status is: room to invest, almost complete, optimized. */
  function Level(info: StatusInfo): nat
  {
    if info == Optimized then 2 else if info == AlmostComplete then 1 else 0
  }

  /** A larger completion percentage never shows a lower status. */
  lemma StatusMonotone(p: real, q: real)
    requires p <= q
    ensures Level(GetStatusInfo(p)) <= Level(GetStatusInfo(q))
  {
  }

  /** `is_taxable_income_type`. */
  function IsTaxableIncomeType(entryType: string): (taxable: bool)
    ensures !taxable <==> entryType == "thirteenth" || entryType == "plr"
  {
    entryType !in NonTaxableTypes
  }
}
