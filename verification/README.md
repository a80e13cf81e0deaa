# Portfolio rebalancing engine, PGBL calculator and statement parsers, in Dafny

This project models the core of a personal investment tracker. The tracker reads position
statements: spreadsheets with "R$ 1.234,56" amounts under main-category and
"28,3% | Pós-Fixado" sub-category headers, and PDF pages whose positions are extracted
elsewhere. It groups the positions by label and compares each label with its target share.
It then builds a rebalancing plan for a given amount of new money. Separately, it computes
how much of the yearly PGBL (a Brazilian private pension) tax deduction has been used.

The modules follow the repository's files:

- `Calculations`: `PortfolioCalculator` from `utils/calculations.py`.
  - It covers the allocation map, the percentages and the analysis of each label.
  - It covers the rebalancing plan and its sorted analyses.
  - The advice lines are modelled as structured records (`Suggestion`), one constructor per kind of line.
  - It covers the growth between two snapshots.
  - The analysis field `category` stands for the source's `label`.
- `PgblTax`: the functions of `utils/pgbl_tax_calculator.py`.
- `XlsxParser`: the row logic of `parsers/xlsx_parser.py`, run once a sheet has been read into rows of optional cells.
  - It covers the header state machine.
  - It covers the main-category table lookup.
  - It covers the sub-category regular expression, with its backtracking.
  - It covers the cleaning and parsing of currency text, the row filters, the value columns and the summary.
- `PdfImageParser`:
  - `get_summary` and `detect_duplicates` from `parsers/pdf_image_parser.py`;
  - the page-source bookkeeping of `parse_multiple_pages`, which records the pages each name was read from and warns about names read more than once.
- `Grouping` and `Basics`: shared pieces.
  - `Grouping` holds the dictionary-accumulation loops that several of these functions repeat (group-by-sum and group-by-count-and-sum) and the sums over map values they are proved against.
  - `Basics` holds `Option` and small arithmetic helpers.
- `Text`: Python's string operations as the parsers use them (`in`, `replace`, `strip`, `isspace`).

Money and percentages are `real` throughout, so every formula holds exactly. Python sets and dictionaries are iterated in an order the model does not fix. Each loop over them picks an arbitrary remaining label, and the results are stated so that the order does not matter.

## Model

| member | source | states |
|---|---|---|
| Calculations.CustomLabelKey | utils/calculations.py:50-53 | the grouping key is the custom label when it is a non-empty string, else "Não Classificado" |
| Calculations.CalculateCurrentAllocation | utils/calculations.py:36-60 | one entry per key present (custom label or sub-category), each the total value of the positions under that key; the entries add up to the value of all positions |
| Calculations.CalculateAllocationPercentages | utils/calculations.py:63-70 | same keys as the allocation; all zeros when the values sum to 0; otherwise each value's share of the total in percent, the shares summing to 100 |
| Calculations.PercentagesSumTo100 | utils/calculations.py:70 | whenever the allocation does not sum to zero, its percentages sum to exactly 100 |
| Calculations.Classify | utils/calculations.py:107-112 | balanced exactly when the difference is within ±0.5 inclusive, overweight exactly above +0.5, underweight exactly below −0.5 |
| Calculations.SignConvention | utils/calculations.py:17 | when the current percentage is the value's share of a non-zero total, the rebalance amount is −difference·total/100; for a positive total, overweight means a negative amount and underweight a positive one ("positive = need to add") |
| Calculations.AnalysisFor | utils/calculations.py:95-122 | one pass of the loop: the label's value, percentage and target read with default 0; the difference is current minus target percentage; value plus rebalance amount is the target share of the reference total; the status classifies the difference |
| Calculations.CurrentAnalysisSign | utils/calculations.py:96-104 | `analyze_allocation` follows the sign convention against the current total whenever that total is non-zero |
| Calculations.SortByRank | utils/calculations.py:125 | the sort returns a permutation of its input, ordered by the key, largest first |
| Calculations.OnePerLabelUnique | utils/calculations.py:93-95 | two lists holding one analysis per label of the same set, each analysis fixed by its label, are permutations of each other: the order of visiting the set changes only the order of the list |
| Calculations.AnalyzeEach | utils/calculations.py:95-122 | visiting the labels of the union in any order yields exactly one analysis per label, each the one computed for that label |
| Calculations.AnalyzeAllocation | utils/calculations.py:73-127 | exactly one analysis per label of the union of the two maps, with missing values and targets read as 0, each measured against the current total; the list runs by non-increasing absolute difference |
| Calculations.PlanAnalysisFor | utils/calculations.py:153-183 | one pass of the plan's loop: the value and target read with default 0; the percentage is the value's share of the total after the new money, 0 when that total is not positive; value plus rebalance amount is the target share of that total; the status classifies the difference |
| Calculations.PlanSign | utils/calculations.py:158-164 | with a positive total after the new money, value plus rebalance amount is exactly the target share of that total; overweight means a negative amount, underweight a positive one, balanced a move of at most 0.5% of the total |
| Calculations.PlanAgreesWithAnalysis | utils/calculations.py:153-164 | without new money and with a positive portfolio, the plan analyses a label exactly as `analyze_allocation` does |
| Calculations.PlanOrder | utils/calculations.py:185 | sorting by `(status != 'underweight', abs(diff))` in reverse puts every underweight analysis after all the others, each block by non-increasing absolute difference |
| Calculations.PlanAnalyses | utils/calculations.py:150-185 | one analysis per label of the union, each against the total after the new money, in plan order |
| Calculations.CreateRebalancingPlan | utils/calculations.py:130-197 | the total is the current total plus the new money; one analysis per label of the union, each against that total, in plan order; the money still needed is 0 with new money and otherwise the sum of the positive rebalance amounts; the suggestions are those the analyses call for |
| Calculations.Shortfall | utils/calculations.py:193-195 | the money still needed is never negative, and is 0 exactly when no analysis has a positive rebalance amount |
| Calculations.Fundable | utils/calculations.py:208 | new money may go to exactly the underweight analyses with a positive rebalance amount |
| Calculations.FundableCount | utils/calculations.py:208 | each such analysis is kept as many times as it occurs, every other analysis not at all |
| Calculations.FundableAppend | utils/calculations.py:208 | the filter keeps the plan order: the candidates of a concatenation are those of the first part followed by those of the second |
| Calculations.WithStatus | utils/calculations.py:233-234 | the filtered list holds exactly the analyses of the given status |
| Calculations.WithStatusCount | utils/calculations.py:233-234 | each analysis of that status is kept as many times as it occurs, every other analysis not at all |
| Calculations.WithStatusAppend | utils/calculations.py:233-234 | the filter keeps the plan order: filtering a concatenation gives the filtered first part followed by the filtered second part |
| Calculations.Suggestions | utils/calculations.py:200-254 | the advice opens with the announcement of the new money exactly when there is new money |
| Calculations.NewMoneySuggestions | utils/calculations.py:204-230 | the new-money advice always opens with the announcement, and is nothing more exactly when no label is fundable |
| Calculations.ReallocationSuggestions | utils/calculations.py:231-252 | the reallocation advice is non-empty exactly when some analysis is overweight and some underweight, then opens with its heading, and never holds more than 8 records |
| Calculations.GenerateSuggestions | utils/calculations.py:200-254 | with new money, the investment advice; otherwise the reallocation advice |
| Calculations.SuggestInvestments | utils/calculations.py:204-230 | the announcement, then, when some label can take money, the investment loop and the leftover record when money is left |
| Calculations.InvestLoop | utils/calculations.py:212-223 | the loop with its early `break` gives each candidate in order the smaller of what it lacks and what remains, until nothing remains |
| Calculations.SuggestReallocation | utils/calculations.py:231-252 | without new money: the reallocation advice |
| Calculations.SuggestReductions | utils/calculations.py:239-244 | one reduction per overweight analysis shown, for the absolute value of its rebalance amount, in order |
| Calculations.SuggestIncreases | utils/calculations.py:247-252 | one increase per underweight analysis shown, for its rebalance amount, in order |
| Calculations.GreedyShape | utils/calculations.py:214-223 | the i-th investment goes to the i-th candidate, for a positive amount no larger than what it lacks; every candidate but the last one reached receives all it lacks |
| Calculations.GreedyAccounting | utils/calculations.py:212-230 | the loop invests the smaller of the new money and what the candidates lack; invested plus unspent is the new money, and the unspent money is never negative |
| Calculations.NewMoneyTargets | utils/calculations.py:204-223 | with new money, the advice announces it first, and every investment goes to an underweight label with a positive rebalance amount, for a positive amount no larger than that amount |
| Calculations.NewMoneyOrder | utils/calculations.py:204-223 | with new money and some fundable label, the heading comes second and the investments follow in plan order: the i-th goes to the i-th fundable label for a positive amount no larger than what it lacks, and each before the last receives all it lacks |
| Calculations.NewMoneyAccounting | utils/calculations.py:212-230 | the investments add up to the smaller of the new money and what the candidates lack; with candidates, investments plus leftover are exactly the new money; a leftover record appears exactly when the candidates lack less than the new money |
| Calculations.ReallocationLayout | utils/calculations.py:233-252 | with k = min(3, overweight count) and m = min(3, underweight count): the heading, then the reductions of the first k overweight analyses in plan order (each by the absolute value of its amount), the second heading, then the increases of the first m underweight ones in plan order; k + m + 2 records in all |
| Calculations.AdviceLayout | utils/calculations.py:237-252 | for any two lists, the heading, the reductions of the first (at most three) of the first list, the second heading and the increases of the first (at most three) of the second list lie at exactly those positions, in list order |
| Calculations.ReallocationShape | utils/calculations.py:233-252 | reallocation advice appears exactly when some label is over and some under target; it holds at most 8 records; every reduction is for an overweight label by the absolute value of its amount, and every increase is for an underweight label by its amount; it never mentions new money |
| Calculations.SuggestedAmountsPositive | utils/calculations.py:204-252 | when overweight labels must shrink and underweight ones grow, every amount in the advice is positive |
| Calculations.PlanSuggestionsPositive | utils/calculations.py:159-252 | in a plan with a positive total, new money goes to exactly the underweight labels, and every amount the plan's advice carries is positive |
| Calculations.GrowthBetween | utils/calculations.py:271-274 | growth is new minus old; the percentage is growth/old·100 when old is positive, and then it is positive exactly when the value grew; otherwise it is 0 |
| Calculations.CalculateHistoricalGrowth | utils/calculations.py:257-283 | one record per label of the union, missing values read as 0; the growths add up to the change in total value |
| Calculations.RecordEach | utils/calculations.py:270-281 | visiting the labels in any order fills exactly one record per label, each the record of that label |
| PgblTax.CalculateTaxableIncome | utils/pgbl_tax_calculator.py:31-48 | the running total is the sum of the amounts of the entries flagged taxable |
| PgblTax.TaxableTotal | utils/pgbl_tax_calculator.py:44-46 | an entry not flagged taxable contributes nothing to the total |
| PgblTax.TaxableEntries | utils/pgbl_tax_calculator.py:45 | the entries counted are exactly those flagged taxable, each as many times as it occurs, and no other |
| PgblTax.PgblLimit | utils/pgbl_tax_calculator.py:51-61 | the limit is exactly 12% of the taxable income, and lies between 0 and that income when the income is not negative |
| PgblTax.RemainingInvestment | utils/pgbl_tax_calculator.py:64-75 | contributions plus remaining is the limit; the remaining amount is negative exactly when contributions pass the limit |
| PgblTax.ProjectAnnualIncome | utils/pgbl_tax_calculator.py:78-93 | 0 when no month is entered; otherwise the projection times the number of months is twelve times the income so far |
| PgblTax.ProjectionOfSteadyIncome | utils/pgbl_tax_calculator.py:89-93 | a steady monthly income projects to twelve times itself, whatever the number of months entered |
| PgblTax.TaxBenefit | utils/pgbl_tax_calculator.py:96-110 | at a rate between 0 and 100%, the tax saved lies between 0 and the contribution; at the default rate it is exactly 27.5% of the contribution |
| PgblTax.FullContributionBenefit | utils/pgbl_tax_calculator.py:51-61 | contributing exactly the limit at the default 27.5% rate saves 3.3% of the taxable income |
| PgblTax.CategorizeIncomeByType | utils/pgbl_tax_calculator.py:113-130 | one total per entry type present, each the sum of that type's amounts, adding up to all income |
| PgblTax.CategorizeIncomeByMonth | utils/pgbl_tax_calculator.py:133-150 | one total per month present, each the sum of that month's amounts, adding up to all income |
| PgblTax.CompletionPercentage | utils/pgbl_tax_calculator.py:153-167 | 0 for a zero limit; otherwise the percentage times the limit is 100 times the contributions |
| PgblTax.CompleteIffNothingRemains | utils/pgbl_tax_calculator.py:64-75 | with a positive limit, the completion reaches 100% exactly when nothing remains to invest |
| PgblTax.GetStatusInfo | utils/pgbl_tax_calculator.py:170-188 | "optimized" exactly at 100% and above, "almost_complete" exactly in [90, 100), "room_to_invest" exactly below 90 |
| PgblTax.StatusMonotone | utils/pgbl_tax_calculator.py:183-188 | a larger completion percentage never shows a lower status |
| PgblTax.IsTaxableIncomeType | utils/pgbl_tax_calculator.py:226-236 | an income type is non-taxable exactly when it is "thirteenth" or "plr" |
| XlsxParser.FirstMatch | parsers/xlsx_parser.py:135-138 | None exactly when no table entry occurs in the text; otherwise the category of the first entry, in table order, that occurs |
| XlsxParser.IdentifyMainCategory | parsers/xlsx_parser.py:133-138 | the loop returns the category of the first `MAIN_CATEGORIES` entry contained in the text, or None |
| XlsxParser.MatchedIsMainCategory | parsers/xlsx_parser.py:49-55 | any category a header sets is one of the table's |
| XlsxParser.IdentifySubCategory | parsers/xlsx_parser.py:140-145 | a recognised name is one line with no whitespace at either end |
| XlsxParser.SubCategoryPattern | parsers/xlsx_parser.py:58 | the recogniser answers exactly when `[\d,\.]+%\s*\|\s*(.+)` matches at the start of the text, and then with the stripped group of the match a backtracking matcher settles on |
| XlsxParser.SubCategoryHeader | parsers/xlsx_parser.py:58 | a header made of a percentage, `%`, blanks, `\|`, blanks and a one-line name reads back as that name, as "28,3% \| Pós-Fixado" reads as "Pós-Fixado" |
| XlsxParser.ParseCurrency | parsers/xlsx_parser.py:241-260 | the currency parse depends only on the cleaned text: digits and minus signs in order, each comma as the decimal point, everything else ignored |
| XlsxParser.ThousandsPoint | parsers/xlsx_parser.py:253 | a point anywhere in the text changes nothing the parse reads |
| XlsxParser.NoDigitNoValue | parsers/xlsx_parser.py:251-260 | text without a digit never parses |
| XlsxParser.ParseFloatAccepts | parsers/xlsx_parser.py:258 | `float` reads a string exactly when it is an optional leading minus, then digits with at most one point among them and at least one digit; otherwise it fails (`None`) |
| XlsxParser.SplitAtPoint | parsers/xlsx_parser.py:258 | digits before the first point and digits after it, not both empty, is the same as a number body |
| XlsxParser.ParseNegative | parsers/xlsx_parser.py:258 | a leading minus negates the value of the rest, and leaves unread a rest that does not read |
| XlsxParser.ParseDecimal | parsers/xlsx_parser.py:258 | digits, a point and digits read as the whole part plus the fraction they spell |
| XlsxParser.ParseWritten | parsers/xlsx_parser.py:241-260 | "R$ " followed by the reais, a comma and the centavos parses to the amount they spell, as "R$ 1234,56" reads as 1234.56 (and, by the previous row, so does "R$ 1.234,56") |
| XlsxParser.PointedDigits | parsers/xlsx_parser.py:253 | a cell holding a plain decimal such as "1234.56" reads as the whole number 123456, because every point is dropped as a thousands separator |
| XlsxParser.FirstValue | parsers/xlsx_parser.py:188-201 | the first of columns 1, 6 and 7, in that order, whose cell parses to a positive amount; None exactly when none does |
| XlsxParser.ExtractValueFromRow | parsers/xlsx_parser.py:183-201 | the column loop, skipping missing columns and empty cells, returns that first positive amount |
| XlsxParser.PositionFromRow | parsers/xlsx_parser.py:155-181 | no position exactly when the name is missing, empty, shorter than 5, or holds "Posição" or "%", or no value is found; otherwise the row's name and value under the current categories |
| XlsxParser.ExtractPositionFromRow | parsers/xlsx_parser.py:147-181 | the method returns the position the row describes, as above |
| XlsxParser.Step | parsers/xlsx_parser.py:106-131 | a row that yields a position leaves the state unchanged, needs both categories set and carries them; a change of main category clears the sub-category; once set, the main category stays set |
| XlsxParser.Scan | parsers/xlsx_parser.py:99-131 | the walk yields at most one position per row |
| XlsxParser.ScanAppend | parsers/xlsx_parser.py:105-131 | walking two blocks of rows is walking the first, then the second from the state the first leaves |
| XlsxParser.MainHeaderRow | parsers/xlsx_parser.py:110-114 | a main-category header sets the main category, clears the sub-category and yields nothing |
| XlsxParser.SubHeaderRow | parsers/xlsx_parser.py:117-120 | a sub-category header keeps the main category, sets the sub-category and yields nothing |
| XlsxParser.NothingBeforeSubCategory | parsers/xlsx_parser.py:123 | rows walked before any sub-category header yield no position |
| XlsxParser.ScanWellFormed | parsers/xlsx_parser.py:99-131 | every position yielded passed the row filters, has a positive value, a main category from the table and a clean non-empty sub-category |
| XlsxParser.ProcessRow | parsers/xlsx_parser.py:106-131 | one iteration of the row loop: the new categories and the position the row yields |
| XlsxParser.WalkRows | parsers/xlsx_parser.py:99-131 | the row loop yields the positions of the sheet in row order |
| XlsxParser.XlsxParser.ExtractPositions | parsers/xlsx_parser.py:99-131 | the parser's positions grow by the positions of its rows, in row order |
| XlsxParser.XlsxParser.Parse | parsers/xlsx_parser.py:66-70 | parsing extracts the positions and returns the parser's list |
| XlsxParser.XlsxParser.GetSummary | parsers/xlsx_parser.py:262-282 | nothing exactly when there are no positions; otherwise the count, the total value and one count and total per "main - sub" section, the sections adding up to the count and the total |
| PdfImageParser.GetSummary | parsers/pdf_image_parser.py:241-276 | all zero for no positions; otherwise the count, the total value and one count and total per main category, the categories adding up to the count and the total |
| PdfImageParser.IndicesOfName | parsers/pdf_image_parser.py:488-491 | the indices recorded for a name are exactly those of the positions carrying it, strictly increasing, one per such position |
| PdfImageParser.DetectDuplicates | parsers/pdf_image_parser.py:476-494 | exactly the names carried by at least two positions, each with the indices of all positions carrying it; nothing for no positions |
| PdfImageParser.Repeated | parsers/pdf_image_parser.py:494 | the filter keeps exactly the names with more than one entry, with their lists |
| PdfImageParser.RecordPage | parsers/pdf_image_parser.py:426-429 | recording a page appends that page's number once per position, under the position's name |
| PdfImageParser.CollectPages | parsers/pdf_image_parser.py:384-461 | all positions of the pages read, in page order; the pages each name was read from, one entry per position; a warning exactly for the names read more than once, with those pages |
| PdfImageParser.SourcedCount | parsers/pdf_image_parser.py:426-431 | a name's page list has one entry per position carrying it, so it is warned about exactly when it was read more than once |
| PdfImageParser.SourcedPages | parsers/pdf_image_parser.py:426-429 | each page recorded for a name is a page that was read and holds a position under that name |

## Left out

- The Streamlit interface, the SQLite store, Google Drive backup and the OpenAI client are not part of this model. They are user interface, persistence and network code.
- Reading files is not modelled: `pd.read_excel`, the PDF-to-image conversion, the image extraction call and `_convert_to_positions`. The spreadsheet arrives as rows of cells. Each cell holds the text `str(cell)`, or nothing for an empty (NaN) cell. The PDF pages arrive as the positions extracted from each page, or as a failure.
- `_extract_metadata` and the date fields are not modelled: the position date, the summary's `date` key and the metadata dictionaries. They come from regular expressions and `strptime` over the sheet, or from the clock.
- `_find_invested_value`, `_find_percentage` and `_find_quantity` are not modelled. A position carries only name, value and categories.
- `calculate_days_until_deadline` is not modelled, because it reads the clock.
- `get_income_type_display_name` is not modelled. It is a display lookup with `str.capitalize`.
- The wording and number formatting of the suggestion lines are not modelled. Each line is a `Suggestion` record with its label and amount.
- The unused `current_pct` of `create_rebalancing_plan` is not modelled.
- The page loop of `parse_multiple_pages`: progress messages, cost and token bookkeeping are not modelled. A page that raises is modelled as contributing nothing. An exception raised after the page's positions were recorded (while estimating the cost) is not modelled.
- The sheet is read with no header row (`header=None`), and an empty row is read as a row whose first cell is empty.
- Floating-point rounding is not modelled. Amounts are exact reals and the 0.5-point tolerance is exact.
- `\d` in the patterns and `float()` also accept non-ASCII decimal digits in Python. The model accepts ASCII digits only.
- `AnnualIncomeEntry` is imported by the calculator from a models module that is not part of this model. It is declared here with the four fields the calculator reads.
- `_parse_currency`: the `isinstance(text, (int, float))` branch is not modelled, because after `str.strip()` the value is always a string and the branch never runs.
- `_extract_value_from_row`: its unused `main_category` parameter is left out.
- `PgblTax.GetStatusInfo`: the docstring of `get_status_info` lists "over_limit" and the colours yellow and red, which the code never returns. The model follows the code.
- `XlsxParser.XlsxParser.GetSummary`: the empty dictionary returned for no positions is `None`, and the `date` entry of the summary is not modelled.
- `XlsxParser.IdentifySubCategory`: a header whose group strips to the empty string is recognised as `Some("")`. The caller treats that as no sub-category, so the row falls through to the data-row check, as in the source.
- `XlsxParser.XlsxParser.ExtractPositions`: the positions of the walk are appended in one step, after the loop rather than one at a time. No other state is observable in between.
