# Financial-ratio dashboard: a verified model of its data shaping

The repository scrapes annual statements of Indonesian listed companies with yfinance. It computes
liquidity, profitability, leverage and activity ratios per year, and shows them in a React dashboard.
This project models, in Dafny, the deterministic part of that pipeline and proves what it promises:

- **Scraper** (`paste.py`). This covers:
  - the first-match item lookups (`_find_financial_item`, `get_bs_val`, `get_is_val`);
  - the bank / non-bank ratio key schema and its zero-denominator guards;
  - the four-column cap and the `ratios_by_period` loop with its `try`/`except`;
  - the company table;
  - the choice of the latest period, and the `trends["<category>_<ratio>"]` assembly of `get_company_data`.
- **FinancialChart** (`FinancialChart.tsx`). This covers:
  - `transformTrendData`: the sample fallback, the prefix filter, the insertion-ordered set of periods, the sort, one row per period with cleaned field names, and the last six rows;
  - the choice of plotted keys and line colours;
  - `getCleanMetricName`;
  - the caption and footer.
- **DashboardHeader**: the selected-company lookup, the case-insensitive search filter, the button fallbacks and the drop-down contents.
- **DashboardSidebar**: the category table, `categoriesToShow`, the active button, the header and the empty state.
- **HealthScoreGauge**: the score bands for text colour, label and ring colour.
- **MetricCard**: the sign flags, the trend icon, the badge classes, the magnitude shown, and the optional rows.

Shared modules:
- `Wrappers`: `Option`, and `Result`, whose `Raised` stands for a Python exception.
- `Numbers`: a double is `NaN` or a finite real.
- `Text`: ASCII case mapping, `startsWith`/`includes`, `replace`, `trim`, and string order.
- `ChartKeys`: the display field name the chart gives a series key.
- `Ordering`: insertion sort of strings.
- `Dicts`: insertion-ordered dictionaries. Assigning an existing key keeps its position, as in Python dictionaries and JavaScript objects.
- `Sequences`: `filter`, sub-sequences, and `slice(-n)`.

Modelling choices:
- Loops in the source are methods with loop invariants. Each is proved equal to a specification function, and the properties are proved about that function. This covers:
  - `_find_financial_item`, `get_bs_val`, and the extraction part of the period loop;
  - `_calculate_ratios`, the trend loops, and `get_company_data`;
  - `transformTrendData` and its `forEach` loops.
- Ratio values are symbolic. A ratio is either the guard's `0` or the quotient it would round: `Zero` or `Quotient(num, den, percent)`.
- A pandas DataFrame is a list of row labels, a list of column dates and a cell function.
  - `df.loc[row, col]` succeeds only when the label and the column each occur once; anything else raises.
  - Whatever raises inside `_calculate_ratios` yields `{}`, as its `except` does.
- `get_bs_val` writes `float(x) or 0`, which keeps NaN, because NaN is truthy. `_find_financial_item` maps NaN to `0.0`. The two are modelled apart.
- The yfinance fetch becomes a parameter: `None` for a failed fetch, or the two statements. A missing statement is `None`.
- String order is lexicographic on characters. For ASCII keys this is what both JavaScript's default `sort` and Python's `sorted` do.

## Model

| member | source | states |
|---|---|---|
| Scraper.Loc | paste.py:74 | `df.loc[row, column]` succeeds exactly when the row label and the column each occur once in the frame |
| Scraper.FindFinancialItem | paste.py:67-76 | the loop returns exactly the value `FinancialItem` specifies |
| Scraper.FinancialItemSpec | paste.py:72-76 | no listed key in the index gives 0.0; otherwise the first listed key in the index is read, with NaN turned into 0.0; a successful result is never NaN |
| Scraper.ZeroIfNaN | paste.py:75 | the result is a number, and equals the input when the input is a number |
| Scraper.FirstListed | paste.py:72-73 | the position of the first key present, and no earlier key is present; none when no key is present |
| Scraper.LowerIndexKeys | paste.py:104-105 | the lower-cased index has distinct keys, exactly the lower-case forms of the labels |
| Scraper.LowerIndexLast | paste.py:104-105 | a lower-case form maps to the last label having that form |
| Scraper.GetVal | paste.py:108-118 | the early-return loop of `get_bs_val`/`get_is_val` returns exactly `StatementValue` |
| Scraper.StatementValueSpec | paste.py:108-118 | the first candidate present in the lower-cased index is read, NaN kept; no candidate present gives 0 |
| Scraper.TotalLiabilities | paste.py:125-127 | the reported value changes only when it is 0 while assets and equity are both positive, and then it becomes assets minus equity |
| Scraper.ItemsOf | paste.py:120-160 | a period whose lookups succeed has bank items exactly when the company is a bank |
| Scraper.PeriodItems | paste.py:104-135 | the extraction of one period returns exactly `ItemsOf`, where any raising lookup makes the period raise |
| Scraper.Guarded | paste.py:141 | a ratio is 0 exactly when its denominator equals 0, so a NaN denominator is divided by; otherwise it keeps its numerator, denominator and percent flag |
| Scraper.RatiosOf | paste.py:139-181 | the ratio dictionary has the four categories liquidity, profitability, leverage and activity, in that order, and the activity category is empty exactly for a bank |
| Scraper.Schema | paste.py:139-181 | lists the categories and, per category, the ratio names, in order |
| Scraper.RatiosSchema | paste.py:139-181 | bank items give exactly liquidity {loanToDepositRatio}, profitability {roe, roa, nim}, leverage {equityMultiplier, debtToAssets}, activity {}; other items give exactly the non-bank key set |
| Scraper.RatiosGuarded | paste.py:141-179 | every ratio is 0 exactly when its own denominator (`Denominator`, an independent table) is 0, and otherwise divides by that denominator |
| Scraper.Take | paste.py:97 | `columns[:n]` is the prefix of length min(len, n) |
| Scraper.InfoOf | paste.py:207 | a listed ticker gets its table entry; an unknown ticker gets its own ticker as name and "Unknown" as sector |
| Scraper.CompanySectors | paste.py:25-41 | exactly the first four table entries are in the Banking sector, and they are the four bank tickers |
| Scraper.BankTickersAreBanks | paste.py:91-92 | a ticker is treated as a bank exactly when it is one of the four bank tickers; unknown tickers are not banks |
| Scraper.PeriodLookupSector | paste.py:139-181 | every successful period yields the schema of the company's kind |
| Scraper.CalculateRatios | paste.py:78-189 | the `for period` loop returns exactly `RatiosByPeriodOf` |
| Scraper.AccumulateStep | paste.py:99-183 | one more iteration assigns the period's year key to its ratios, or raises when that period raises |
| Scraper.AccumulatePrefixRaised | paste.py:83-189 | once an iteration raises, the whole loop raises |
| Scraper.AccumulateKeys | paste.py:99-183 | a successful loop has distinct keys, exactly the year strings of the processed periods |
| Scraper.AccumulateUniform | paste.py:139-183 | a successful loop gives every period the schema of the company's kind |
| Scraper.AccumulateShape | paste.py:99-183 | a successful loop has distinct year keys and one schema throughout |
| Scraper.AccumulateLast | paste.py:99-183 | on success every period succeeded, and each year holds the ratios of its last processed column |
| Scraper.AccumulateRaisedAt | paste.py:83-189 | the loop raises only if some period's lookups raise |
| Scraper.AccumulateRaises | paste.py:83-189 | any period's lookups raising makes the loop raise |
| Scraper.RatiosByPeriodShape | paste.py:87-183 | a missing or empty statement gives `{}`; otherwise at most four distinct keys, exactly the year strings of the first four columns, all on one schema |
| Scraper.RatiosByPeriodEmpty | paste.py:83-189 | with both statements present and non-empty, the result is `{}` exactly when some processed period raises |
| Scraper.RatiosByPeriodValue | paste.py:99-183 | each year's ratios are those of the last of the first four columns with that year |
| Scraper.SeriesPoints | paste.py:219-223 | at most one point per period; each point's period is one of the periods, and its value is that period's value of the ratio |
| Scraper.SeriesAscending | paste.py:220-223 | points follow the period order, so ascending periods give strictly ascending points |
| Scraper.SeriesComplete | paste.py:221-223 | a period that has the ratio gets its point: periods are skipped only when the value is `None` |
| Scraper.SeriesFull | paste.py:219-223 | when every period has the ratio, there is one point per period, in period order |
| Scraper.BuildSeries | paste.py:219-223 | the append loop returns exactly `SeriesPoints` over the sorted periods |
| Scraper.BuildCategoryTrends | paste.py:218-224 | the ratio loop of one category returns exactly `PutSeries` |
| Scraper.BuildTrends | paste.py:215-224 | the nested trend loops return exactly `TrendsOf` the latest ratios |
| Scraper.JoinInjective | paste.py:224 | `f"{category}_{ratio}"` is injective when categories contain no `_` |
| Scraper.PutSeriesHit | paste.py:224 | after one category's loop, each of its keys holds that ratio's trend |
| Scraper.PutSeriesMiss | paste.py:224 | keys of other categories keep their value |
| Scraper.PutSeriesKeys | paste.py:218-224 | keys stay distinct, and the new keys are exactly `category_name` for the category's names |
| Scraper.CategoriesSeparable | paste.py:139-181 | the four category names are distinct and contain no `_` |
| Scraper.SchemasSeparable | paste.py:139-181 | both schemas have distinct categories without `_` |
| Scraper.TrendsOf | paste.py:215-224 | the trends have distinct keys, exactly `category_ratio` for the ratios of the latest period |
| Scraper.TrendsHit | paste.py:217-224 | each ratio of the latest period has, under its key, the last four points of its series |
| Scraper.GetCompanyData | paste.py:191-234 | the method returns exactly `CompanyDataOf` |
| Scraper.CompanyDataSpec | paste.py:197-205 | the result is `{}` exactly when the fetch failed or no ratios were computed; otherwise it is the record of the computed ratios |
| Scraper.LatestIsGreatest | paste.py:210-212 | the latest period is a key, greater than every other key, and the dictionary has an entry for it |
| Scraper.RecordLatest | paste.py:207-233 | the record's latest period is the greatest key, and its ratios are that period's, on the common schema; name and sector come from the table, or default |
| Scraper.RatioAtUniform | paste.py:221 | with one schema throughout, each ratio of the schema is present in every period |
| Scraper.LastAligned | paste.py:224 | the last four of period-aligned points are aligned with the last four periods, ascending, and keep their values |
| Scraper.SeriesUniform | paste.py:219-223 | with one schema throughout, a ratio's series has a point for every period |
| Scraper.TrendUniform | paste.py:219-224 | with one schema throughout, a ratio's trend has one point for each of the last four periods, in ascending order, with that period's value |
| Scraper.RecordTrendKeys | paste.py:215-224 | the record's trends are keyed by exactly the `category_ratio` pairs of the schema |
| Scraper.RecordTrend | paste.py:215-224 | each trend of the record holds the ratio's values at the last four periods, in ascending order |
| FinancialChart.SelectByPrefix | src/components/dashboard/FinancialChart.tsx:37 | keeps, in order, exactly the series whose key starts with the filter |
| FinancialChart.Relevant | src/components/dashboard/FinancialChart.tsx:36-38 | an order-preserving sub-list; with a non-empty filter, exactly the series whose key starts with it; otherwise all series |
| FinancialChart.FirstValue | src/components/dashboard/FinancialChart.tsx:57-58 | none exactly when the series has no point at that period; otherwise the value of a point at that period |
| FinancialChart.AddPeriodsSpec | src/components/dashboard/FinancialChart.tsx:47 | adding points keeps the set duplicate-free and adds exactly their periods |
| FinancialChart.CollectPeriodsSpec | src/components/dashboard/FinancialChart.tsx:45-48 | the set holds each period of the retained series exactly once |
| FinancialChart.CollectAllPeriods | src/components/dashboard/FinancialChart.tsx:45-48 | the nested `forEach` returns exactly `CollectPeriods` |
| FinancialChart.SortedPeriods | src/components/dashboard/FinancialChart.tsx:50 | strictly ascending, and drawn exactly from the union of the retained series' periods |
| FinancialChart.Labelled | src/components/dashboard/FinancialChart.tsx:60-64 | each retained series under its cleaned field name, order kept |
| FinancialChart.FillRow | src/components/dashboard/FinancialChart.tsx:54-69 | the row of a period has `period` as its first field and no field twice, whatever the series write into it |
| FinancialChart.BuildRow | src/components/dashboard/FinancialChart.tsx:54-69 | the chart row of one period starts with `period` and has distinct field names |
| FinancialChart.BuildDataPoint | src/components/dashboard/FinancialChart.tsx:54-69 | the row-filling `forEach` returns exactly `BuildRow` |
| FinancialChart.RowsOf | src/components/dashboard/FinancialChart.tsx:53-70 | one row per period, in the periods' order |
| FinancialChart.BuildDataPoints | src/components/dashboard/FinancialChart.tsx:53-70 | the `map` returns exactly `RowsOf` |
| FinancialChart.TransformTrendData | src/components/dashboard/FinancialChart.tsx:30-73 | the method returns exactly `ChartRows` |
| FinancialChart.ChartRows | src/components/dashboard/FinancialChart.tsx:30-73 | the sample when there is nothing to plot; otherwise min(6, number of distinct periods) rows, each starting with `period` and with distinct field names |
| FinancialChart.SampleWhenNothingToPlot | src/components/dashboard/FinancialChart.tsx:31-42 | an empty or absent trends object, or a filter no key starts with, gives the six-row sample unchanged |
| FinancialChart.ChartPeriods | src/components/dashboard/FinancialChart.tsx:45-72 | the periods shown are strictly ascending and from the union; there are min(6, number of distinct periods) of them; every period left out is earlier than every period shown |
| FinancialChart.ChartRowsShown | src/components/dashboard/FinancialChart.tsx:53-72 | with real data, the result is one row per displayed period, in order |
| FinancialChart.LastRows | src/components/dashboard/FinancialChart.tsx:72 | the last six rows are the rows of the last six periods |
| FinancialChart.RowKeys | src/components/dashboard/FinancialChart.tsx:54-66 | a row has distinct keys, `period` first; any other field is present exactly when some series with that field name has a point at the period; nothing is zero-filled |
| FinancialChart.RowMetricValue | src/components/dashboard/FinancialChart.tsx:57-65 | a field holds the value of the first point, at that period, of the last series writing that field |
| FinancialChart.RowPeriodValue | src/components/dashboard/FinancialChart.tsx:54 | `period` holds the row's period unless a series' field name is itself "period" |
| ChartKeys.CleanKeyOfCamelCase | src/components/dashboard/FinancialChart.tsx:60-64 | for every key `<category>_<name>` whose name starts lower-case and ends in a visible character (every ratio key does), the display name is the name's first letter upper-cased followed by the rest of the name with a space before each capital |
| ChartKeys.CleanKeyKeepsOtherPrefix | src/components/dashboard/FinancialChart.tsx:61-64 | for every such name that does not contain the removed prefix, all its text is kept; only the spacing before capitals and the first letter change |
| ChartKeys.CleanKey | src/components/dashboard/FinancialChart.tsx:60-64 | a key starting with `<category>_` is displayed as the rest of the key spaced, capitalised and trimmed; a key not containing that prefix is displayed as the whole key spaced, capitalised and trimmed |
| ChartKeys.CleanKeyNoCapital | src/components/dashboard/FinancialChart.tsx:60-64 | a name without a capital, such as `roe`, `roa` or `nim`, is only capitalised: `profitability_roe` shows as `Roe` |
| ChartKeys.CleanKeyCapitals | src/components/dashboard/FinancialChart.tsx:60-64 | a camel-case name of any number of words (a lower-case first word, then words each starting with its only capital) shows as its words separated by single spaces, the first one capitalised |
| ChartKeys.CleanKeyLoanToDeposit | src/components/dashboard/FinancialChart.tsx:60-64 | `<category>_loanToDepositRatio` shows as `Loan To Deposit Ratio` |
| Text.SpaceBeforeCapitalsWords | src/components/dashboard/FinancialChart.tsx:62 | camel-case words run together get one space back before each word after the first |
| Text.SpaceBeforeCapitalsSpec | src/components/dashboard/FinancialChart.tsx:62 | `replace(/([A-Z])/g, ' $1')` keeps every character in order and adds one space per capital, right before it: dropping those spaces gives the input back, and every capital of the result follows a space |
| ChartKeys.ReplaceLeadingPrefix | src/components/dashboard/FinancialChart.tsx:61 | replacing a leading prefix with "" drops exactly that prefix |
| FinancialChart.WithoutKey | src/components/dashboard/FinancialChart.tsx:78 | an order-preserving sub-list of exactly the keys other than the one removed |
| FinancialChart.DataKeys | src/components/dashboard/FinancialChart.tsx:78 | the first row's keys other than `period`, in insertion order; none when there is no row |
| FinancialChart.PlottedKeys | src/components/dashboard/FinancialChart.tsx:155 | the first min(4, n) data keys |
| FinancialChart.SampleKeys | src/components/dashboard/FinancialChart.tsx:14-21 | the sample's data keys are currentRatio, quickRatio and industryAvg, all plotted |
| FinancialChart.PlottedKeysOfData | src/components/dashboard/FinancialChart.tsx:53-78 | a retained series gives a data key exactly when it has a point at the first period shown |
| FinancialChart.NameOr | src/components/dashboard/FinancialChart.tsx:108 | a key missing from the table is returned as it is |
| FinancialChart.NameOrEntry | src/components/dashboard/FinancialChart.tsx:108 | a table key gets its entry's name, unless that name is empty |
| FinancialChart.NameMapShape | src/components/dashboard/FinancialChart.tsx:92-106 | 13 distinct keys, each with a non-empty display name different from the key |
| FinancialChart.CleanMetricNames | src/components/dashboard/FinancialChart.tsx:91-109 | a listed key gets its display name, any other key is returned unchanged |
| FinancialChart.CleanMetricName | src/components/dashboard/FinancialChart.tsx:91-109 | a key of the name table is shown as its entry's display name, which differs from the key; any other key is shown as it is |
| FinancialChart.Lines | src/components/dashboard/FinancialChart.tsx:155-169 | one line per plotted key, coloured by position in the palette |
| FinancialChart.ChartCardLines | src/components/dashboard/FinancialChart.tsx:155-183 | at most four lines, the first data keys in order, each in its own colour; the industry line is drawn exactly when some line is |
| FinancialChart.PlottedLines | src/components/dashboard/FinancialChart.tsx:155-169 | at most four lines, the first data keys, with pairwise different colours |
| FinancialChart.CaptionMislabelsSample | src/components/dashboard/FinancialChart.tsx:116-196 | as written, data whose keys all miss the category plots the sample, yet is captioned and footnoted as real data with 3 metrics |
| FinancialChart.ChartCardHonest | src/components/dashboard/FinancialChart.tsx:116-196 | in the corrected card, the caption says "sample data" and the footer is absent exactly when the sample is plotted; otherwise the rows are the last six of the real rows |
| FinancialChart.Caption | src/components/dashboard/FinancialChart.tsx:115-118 | the caption is the sample caption exactly when the data is not real |
| FinancialChart.Footer | src/components/dashboard/FinancialChart.tsx:189-196 | the note is shown exactly for real data, and carries the top-4 remark exactly when more than four metrics exist |
| FinancialChart.ChartViewAsWritten | src/components/dashboard/FinancialChart.tsx:115-196 | the card plots `transformTrendData`'s rows, yet shows the sample caption and hides the note exactly when `data` is empty or absent, whatever is plotted |
| FinancialChart.ChartCard | src/components/dashboard/FinancialChart.tsx:115-196 | the corrected card plots the same rows, shows the sample caption exactly when the sample is plotted, and hides the note exactly when the caption is the sample one |
| DashboardHeader.FindCompany | src/components/dashboard/DashboardHeader.tsx:28 | a found company is in the list and has the selected ticker; none exactly when no company has it |
| DashboardHeader.FindCompanyFirst | src/components/dashboard/DashboardHeader.tsx:28 | the company found is the first one with the selected ticker |
| DashboardHeader.FilterCompanies | src/components/dashboard/DashboardHeader.tsx:29-32 | an order-preserving sub-list; a company is kept, with its multiplicity, exactly when its lower-cased name or ticker contains the lower-cased term |
| DashboardHeader.EmptyTermKeepsAll | src/components/dashboard/DashboardHeader.tsx:26-32 | an empty search term keeps every company |
| DashboardHeader.MatchIgnoresCase | src/components/dashboard/DashboardHeader.tsx:30-31 | lower-casing the term does not change which companies match |
| DashboardHeader.NarrowingSearch | src/components/dashboard/DashboardHeader.tsx:29-32 | extending the term never adds a company to the list |
| DashboardHeader.OrElse | src/components/dashboard/DashboardHeader.tsx:52-55 | JavaScript `or` on strings: the first operand when it is present and non-empty, else the fallback |
| DashboardHeader.ButtonTicker | src/components/dashboard/DashboardHeader.tsx:28-52 | the button always shows the selected ticker itself: the found company's ticker equals it, and the fallback is it |
| DashboardHeader.ButtonName | src/components/dashboard/DashboardHeader.tsx:28-55 | "Select Company", or the non-empty name of a company with the selected ticker; "Select Company" when no company has it |
| DashboardHeader.ButtonNameOfFirst | src/components/dashboard/DashboardHeader.tsx:28-55 | the name shown is that of the first company with the ticker, or "Select Company" when that name is empty |
| DashboardHeader.DropdownContent | src/components/dashboard/DashboardHeader.tsx:73-94 | items exactly when some company matches, and then the items are the filtered list itself: the matching companies in list order, each as often as it is listed; otherwise "Loading companies..." exactly when the list is empty, and "No companies found" exactly when it is not |
| DashboardHeader.OnItemClick | src/components/dashboard/DashboardHeader.tsx:77 | clicking item `i` reports exactly that item's ticker, and only an existing item can be clicked |
| DashboardHeader.ClickSelects | src/components/dashboard/DashboardHeader.tsx:77 | a clicked ticker belongs to a listed company matching the search, and selecting it finds a company |
| DashboardSidebar.Configured | src/components/dashboard/DashboardSidebar.tsx:12-33 | exactly the four names of the table have a config |
| DashboardSidebar.ConfigOf | src/components/dashboard/DashboardSidebar.tsx:12-33 | every configured category has a non-empty caption and description; which names are configured is stated by `Configured` |
| DashboardSidebar.CategoriesToShow | src/components/dashboard/DashboardSidebar.tsx:42-44 | with no explicit list, the four categories in table order; every category shown has a config |
| DashboardSidebar.ShownFromAvailable | src/components/dashboard/DashboardSidebar.tsx:42-43 | an explicit list is filtered in order, each configured category kept as often as it is listed and every other name dropped |
| DashboardSidebar.Buttons | src/components/dashboard/DashboardSidebar.tsx:59-91 | each button belongs to a listed category and carries its config; it is active exactly when its category equals `activeCategory`; it shows text exactly when the sidebar is open |
| DashboardSidebar.ButtonsComplete | src/components/dashboard/DashboardSidebar.tsx:60-61 | when every category has a config, the `return null` guard never fires: one button per category, in order |
| DashboardSidebar.SidebarOf | src/components/dashboard/DashboardSidebar.tsx:42-99 | the header reads "📊" when collapsed and "Financial Ratios" otherwise; one button per category shown, in order, active exactly when it equals the active category; the empty state shows exactly when nothing is shown and the sidebar is open |
| DashboardSidebar.DefaultSidebar | src/components/dashboard/DashboardSidebar.tsx:39-44 | with no list, four buttons in table order, and no empty state |
| DashboardSidebar.EmptyStateWhenNothingConfigured | src/components/dashboard/DashboardSidebar.tsx:94 | the empty state shows exactly when an explicit list names no configured category and the sidebar is open |
| DashboardSidebar.OnButtonClick | src/components/dashboard/DashboardSidebar.tsx:69 | clicking button `i` reports exactly its category |
| DashboardSidebar.ClickActivates | src/components/dashboard/DashboardSidebar.tsx:64-69 | feeding the reported category back as the active one makes that button active |
| HealthScoreGauge.ScoreColor | src/components/dashboard/HealthScoreGauge.tsx:14-18 | text-success exactly at 80 and above, text-warning exactly from 60 to below 80, text-destructive exactly below 60 or for NaN |
| HealthScoreGauge.ScoreLabel | src/components/dashboard/HealthScoreGauge.tsx:20-25 | Excellent exactly at 80 and above, Good exactly from 60, Fair exactly from 40, Poor otherwise |
| HealthScoreGauge.StrokeColor | src/components/dashboard/HealthScoreGauge.tsx:48 | the ring is success-, warning- or destructive-coloured exactly when the score text is, so it follows the same 80 and 60 bands |
| HealthScoreGauge.Monotone | src/components/dashboard/HealthScoreGauge.tsx:14-25 | a higher score never gets a worse colour or a worse label |
| HealthScoreGauge.NaNScore | src/components/dashboard/HealthScoreGauge.tsx:14-48 | NaN gets the lowest band everywhere |
| HealthScoreGauge.StrokeMatchesText | src/components/dashboard/HealthScoreGauge.tsx:48 | the ring colour uses the same bands as the text colour, band by band |
| HealthScoreGauge.LabelAgreesWithColor | src/components/dashboard/HealthScoreGauge.tsx:14-25 | Excellent goes with success, Good with warning, and Fair and Poor both with destructive |
| MetricCard.Classify | src/components/dashboard/MetricCard.tsx:21-23 | `isPositive`, `isNegative` and `isNeutral` hold exactly for a number above, below and equal to 0; for a number exactly one flag holds, for NaN none does |
| MetricCard.GetTrendIcon | src/components/dashboard/MetricCard.tsx:25-31 | for a sign with one flag, the icon of that flag (up, down, dash); with no flag, the dash |
| MetricCard.IconOfChange | src/components/dashboard/MetricCard.tsx:25-31 | TrendingUp exactly when positive, TrendingDown exactly when negative, Minus exactly for zero or NaN |
| MetricCard.BadgeClasses | src/components/dashboard/MetricCard.tsx:41-47 | the base classes first; each state class is present exactly when its flag holds, and nothing else is added |
| MetricCard.BadgeMagnitude | src/components/dashboard/MetricCard.tsx:50 | the number shown is non-negative, and NaN exactly for NaN |
| MetricCard.MagnitudeHidesSign | src/components/dashboard/MetricCard.tsx:50 | a change and its negation show the same number, which is the absolute value of the change |
| MetricCard.OptionalRow | src/components/dashboard/MetricCard.tsx:59-66 | a row renders exactly when its prop is given and non-empty, and shows the prop |
| MetricCard.CardOf | src/components/dashboard/MetricCard.tsx:21-70 | the icon follows the sign; a number gets exactly one state class; the badge ignores the sign; the benchmark and description rows render exactly when non-empty |

## Left out

- The yfinance fetch (`paste.py:43-65`): it becomes the `data` parameter of `GetCompanyData`.
- `get_all_companies_data`, with its `time.sleep` (`paste.py:236-254`), and the JSON file output (`paste.py:256-265`): these are I/O and clock.
- Logging calls in `paste.py`: no effect on results.
- `api_server.py` and `src/lib/apiService.ts`: HTTP handlers, the background refresh thread, and `fetch`. These are network and concurrency. api_server.py is not part of this model.
- Ratio arithmetic. `round(x / y, 2)` (and `* 100`) over pandas floats is kept as the symbolic `Quotient(num, den, percent)`. Only the guards and key shapes are proved.
- Infinities and signed zeros of IEEE doubles: a number is either NaN or a real.
- `float(...)` of a pandas cell: a `df.loc` that succeeds is taken to yield one float. A `Series` result raises, through the unique-label requirement of `Scraper.Loc`.
- Timestamps: only the year of a column date is read, so a column date is modelled as (year, month, day).
- Case mapping and order are ASCII only. Both the JavaScript and Python code map the whole of Unicode, and JavaScript sorts by UTF-16 code units. Beyond ASCII the model can differ.
- JavaScript objects as dictionaries. The model omits names inherited from `Object.prototype` (such as `toString`) in `nameMap[key]` and `categoryConfig[cat]`. It also omits integer-like keys, which JavaScript orders before other keys.
- Rendering (Recharts, class merging by `cn`/tailwind-merge, icons as components, transitions): only the chosen keys, colours, classes and texts are modelled.
- Number formatting: `toFixed` (FinancialChart.tsx:146, MetricCard.tsx:50), and the gauge's circumference and dash offset (HealthScoreGauge.tsx:9-12).
- The `searchTerm` state and the input that sets it: the term is a parameter.
- React state hooks and callbacks: clicks are modelled as the value passed to the callback.
- MetricCard.BadgeMagnitude: yields the magnitude before `toFixed(1)`, not the rounded text.
- Scraper.ItemsOf: its ensures speaks only of the kind of items. What each item is read from is stated through `Scraper.StatementValueSpec` and `Scraper.PeriodItems`.

## Findings

| source | as written | input that shows it | evidently intended | confidence | as-written member | corrected member |
|---|---|---|---|---|---|---|
| src/components/dashboard/FinancialChart.tsx:116-118, 189-196 | The caption and footer test only whether `data` is non-empty, although the chart falls back to the sample when the category filter keeps no series | `data = {"liquidity_currentRatio": [{period: "2023", value: 1.5}]}`, `category = "profitability"`: the sample is plotted under "Historical trend analysis - 3 metrics tracked" and "Showing 3 metrics from real financial data." | caption and footer describe sample data whenever the sample is what is plotted | not executed | FinancialChart.CaptionMislabelsSample | FinancialChart.ChartCardHonest |
