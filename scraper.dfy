/**
 * The ratio pipeline of the scraper (paste.py, class BEIDataScraper): looking items up
 * in the annual balance sheet and income statement, turning each of at most four annual
 * periods into a ratio dictionary with zero-denominator guards, and assembling a
 * company's latest ratios and per-ratio trends.
 *
 * Ratio values stay symbolic: a ratio is either the guard's 0 or the (rounded) quotient
 * of two looked-up items, recorded as the pair of items it divides.
 */
module Scraper {
  import opened Wrappers
  import opened Numbers
  import opened Text
  import opened Ordering
  import opened Dicts
  import opened Sequences

  // ---------------------------------------------------------------------------
  // Statements

  /** A statement column label: a pandas Timestamp, of which the code reads only the year. */
  datatype Date = Date(year: nat, month: nat, day: nat)

  /** A yfinance statement: row labels, column dates, and the cell at (row position, column position). */
  datatype Frame = Frame(index: seq<string>, columns: seq<Date>, cell: (nat, nat) -> Float)

  /** `df.empty`: no rows or no columns. */
  predicate Empty(f: Frame) {
    |f.index| == 0 || |f.columns| == 0
  }

  /** The position of the first `x` in `s`. */
  function FirstIndex<T(==)>(s: seq<T>, x: T): (r: nat)
    requires x in s
    ensures r < |s| && s[r] == x
    ensures forall j :: 0 <= j < r ==> s[j] != x
  {
    if s[0] == x then 0 else 1 + FirstIndex(s[1..], x)
  }

  /**
   * `float(df.loc[label, column])`: a scalar only when the label and the column each occur
   * exactly once. A missing one raises `KeyError`; a repeated one makes `loc` return a Series,
   * which `float` and `pd.notna(...)` in an `if` both reject.
   */
  function Loc(f: Frame, row: string, column: Date): (r: Result<Float>)
    ensures r.Success? <==> multiset(f.index)[row] == 1 && multiset(f.columns)[column] == 1
  {
    if multiset(f.index)[row] == 1 && multiset(f.columns)[column] == 1 then
      Success(f.cell(FirstIndex(f.index, row), FirstIndex(f.columns, column)))
    else Raised
  }

  /** The position of the first of `keys` that is in `present`. */
  function FirstListed(keys: seq<string>, present: seq<string>): (r: Option<nat>)
    ensures r.Some? ==> r.value < |keys| && keys[r.value] in present
    ensures r.Some? ==> forall j :: 0 <= j < r.value ==> keys[j] !in present
    ensures r.None? ==> forall j :: 0 <= j < |keys| ==> keys[j] !in present
  {
    if |keys| == 0 then None
    else if keys[0] in present then Some(0)
    else match FirstListed(keys[1..], present)
      case None => None
      case Some(i) => Some(i + 1)
  }

  /** `float(value) if pd.notna(value) else 0.0`. */
  function ZeroIfNaN(x: Float): (r: Float)
    ensures r.Finite?
    ensures x.Finite? ==> r == x
  {
    if x.NaN? then Finite(0.0) else x
  }

  /** What `_find_financial_item(df, possible_keys, period)` evaluates to. */
  function FinancialItem(df: Frame, possibleKeys: seq<string>, period: Date): Result<Float> {
    match FirstListed(possibleKeys, df.index)
    case None => Success(Finite(0.0))
    case Some(i) =>
      match Loc(df, possibleKeys[i], period)
      case Raised => Raised
      case Success(value) => Success(ZeroIfNaN(value))
  }

  /** `_find_financial_item` (paste.py:67-76). */
  method FindFinancialItem(df: Frame, possibleKeys: seq<string>, period: Date) returns (r: Result<Float>)
    ensures r == FinancialItem(df, possibleKeys, period)
  {
    for i := 0 to |possibleKeys|
      invariant forall j :: 0 <= j < i ==> possibleKeys[j] !in df.index
    {
      var key := possibleKeys[i];
      if key in df.index {
        var value :- Loc(df, key, period);
        return Success(if value.NaN? then Finite(0.0) else value);
      }
    }
    return Success(Finite(0.0));
  }

  /** The first listed key present in the index decides; a missing key gives 0.0, and NaN is never returned. */
  lemma FinancialItemSpec(df: Frame, possibleKeys: seq<string>, period: Date, i: nat)
    ensures (forall j :: 0 <= j < |possibleKeys| ==> possibleKeys[j] !in df.index) ==> FinancialItem(df, possibleKeys, period) == Success(Finite(0.0))
    ensures i < |possibleKeys| && possibleKeys[i] in df.index && (forall j :: 0 <= j < i ==> possibleKeys[j] !in df.index) ==>
              FinancialItem(df, possibleKeys, period) == match Loc(df, possibleKeys[i], period)
                case Raised => Raised
                case Success(v) => Success(if v.NaN? then Finite(0.0) else v)
    ensures FinancialItem(df, possibleKeys, period).Success? ==> FinancialItem(df, possibleKeys, period).value.Finite?
  {
    var f := FirstListed(possibleKeys, df.index);
    if f.Some? && i < |possibleKeys| && possibleKeys[i] in df.index && (forall j :: 0 <= j < i ==> possibleKeys[j] !in df.index) {
      assert f.value == i;
    }
  }

  /** `{str(idx).lower(): idx for idx in index}`: a later label with the same lower-case form replaces the earlier one's value. */
  function LowerIndex(index: seq<string>): Dict<string, string> {
    if |index| == 0 then []
    else Put(LowerIndex(index[..|index| - 1]), ToLower(index[|index| - 1]), index[|index| - 1])
  }

  /** Some label of `index` lower-cases to `k`. */
  predicate LowersTo(index: seq<string>, k: string) {
    exists j :: 0 <= j < |index| && ToLower(index[j]) == k
  }

  lemma LowersToLast(index: seq<string>, k: string)
    requires |index| > 0
    ensures LowersTo(index, k) <==> LowersTo(index[..|index| - 1], k) || ToLower(index[|index| - 1]) == k
  {
    var init := index[..|index| - 1];
    if LowersTo(index, k) {
      var j :| 0 <= j < |index| && ToLower(index[j]) == k;
      if j < |init| { assert init[j] == index[j]; }
    }
    if LowersTo(init, k) {
      var j :| 0 <= j < |init| && ToLower(init[j]) == k;
      assert index[j] == init[j];
    }
  }

  /** The dictionary's keys are distinct and are exactly the lower-case forms of the labels. */
  lemma {:induction false} LowerIndexKeys(index: seq<string>)
    ensures DistinctKeys(LowerIndex(index))
    ensures forall k :: k in Keys(LowerIndex(index)) <==> LowersTo(index, k)
  {
    if |index| > 0 {
      var init := index[..|index| - 1];
      LowerIndexKeys(init);
      PutKeepsDistinct(LowerIndex(init), ToLower(index[|index| - 1]), index[|index| - 1]);
      forall k ensures LowersTo(index, k) <==> LowersTo(init, k) || ToLower(index[|index| - 1]) == k {
        LowersToLast(index, k);
      }
    }
  }

  /** The lower-cased label maps to the label's last occurrence under that lower-case form. */
  lemma {:induction false} LowerIndexLast(index: seq<string>, j: nat)
    requires j < |index|
    requires forall j' :: j < j' < |index| ==> ToLower(index[j']) != ToLower(index[j])
    ensures Get(LowerIndex(index), ToLower(index[j])) == Some(index[j])
  {
    var n := |index| - 1;
    var init := index[..n];
    if j == n {
      GetPutSame(LowerIndex(init), ToLower(index[n]), index[n]);
    } else {
      assert init[j] == index[j];
      LowerIndexLast(init, j);
      GetPutOther(LowerIndex(init), ToLower(index[n]), index[n], ToLower(index[j]));
    }
  }

  /** What `get_bs_val(keys)` / `get_is_val(keys)` evaluate to: `float(x) or 0` keeps every float, NaN included. */
  function StatementValue(frame: Frame, lowerIndex: Dict<string, string>, keys: seq<string>, period: Date): Result<Float> {
    match FirstListed(keys, Keys(lowerIndex))
    case None => Success(Finite(0.0))
    case Some(i) =>
      match Get(lowerIndex, keys[i])
      case None => Raised
      case Some(name) => Loc(frame, name, period)
  }

  /** `get_bs_val` / `get_is_val` (paste.py:108-118). */
  method GetVal(frame: Frame, lowerIndex: Dict<string, string>, keys: seq<string>, period: Date) returns (r: Result<Float>)
    ensures r == StatementValue(frame, lowerIndex, keys, period)
  {
    for i := 0 to |keys|
      invariant forall j :: 0 <= j < i ==> keys[j] !in Keys(lowerIndex)
    {
      var k := keys[i];
      if k in Keys(lowerIndex) {
        var name := Get(lowerIndex, k).value;
        r := Loc(frame, name, period);
        return;
      }
    }
    return Success(Finite(0.0));
  }

  /** The first candidate name present in the lower-cased index is read; no candidate present gives 0. */
  lemma StatementValueSpec(frame: Frame, lowerIndex: Dict<string, string>, keys: seq<string>, period: Date, i: nat)
    ensures (forall j :: 0 <= j < |keys| ==> keys[j] !in Keys(lowerIndex)) ==> StatementValue(frame, lowerIndex, keys, period) == Success(Finite(0.0))
    ensures i < |keys| && keys[i] in Keys(lowerIndex) && (forall j :: 0 <= j < i ==> keys[j] !in Keys(lowerIndex)) ==>
              StatementValue(frame, lowerIndex, keys, period) == Loc(frame, Get(lowerIndex, keys[i]).value, period)
  {
    var f := FirstListed(keys, Keys(lowerIndex));
    if f.Some? && i < |keys| && keys[i] in Keys(lowerIndex) && (forall j :: 0 <= j < i ==> keys[j] !in Keys(lowerIndex)) {
      assert f.value == i;
    }
  }

  // ---------------------------------------------------------------------------
  // Items and ratios of one period

  /** The items both kinds of company use. */
  datatype Common = Common(totalAssets: Float, totalEquity: Float, netIncome: Float, revenue: Float, totalLiabilities: Float)

  /** The items only one kind of company uses. */
  datatype SectorItems =
    | BankItems(deposits: Float, netLoans: Float, netInterestIncome: Float)
    | OtherItems(currentAssets: Float, currentLiabilities: Float, inventory: Float, cash: Float, grossProfit: Float)

  datatype Items = Items(common: Common, sector: SectorItems)

  /** Total liabilities, replaced by assets minus equity when reported as 0 while assets and equity are positive (paste.py:125-127). */
  function TotalLiabilities(reported: Float, assets: Float, equity: Float): (r: Float)
    ensures r != reported ==> IsZero(reported) && IsPositive(assets) && IsPositive(equity)
    ensures IsZero(reported) && IsPositive(assets) && IsPositive(equity) ==> r == Finite(assets.v - equity.v)
  {
    if IsZero(reported) && IsPositive(assets) && IsPositive(equity) then Sub(assets, equity) else reported
  }

  const TotalAssetsKeys := ["total assets", "total asset"]
  const TotalEquityKeys := ["stockholders equity", "common stock equity", "total equity gross minority interest"]
  const NetIncomeKeys := ["net income from continuing operation net minority interest", "net income"]
  const RevenueKeys := ["total revenue", "revenue"]
  const TotalLiabilitiesKeys := ["total liabilities net minority interest", "total liabilities"]
  const DepositsKeys := ["total deposits", "customer deposits"]
  const NetLoansKeys := ["net loans", "loans"]
  const NetInterestIncomeKeys := ["net interest income"]
  const CurrentAssetsKeys := ["current assets", "total current assets"]
  const CurrentLiabilitiesKeys := ["current liabilities", "total current liabilities"]
  const InventoryKeys := ["inventory"]
  const CashKeys := ["cash and cash equivalents", "cash"]
  const GrossProfitKeys := ["gross profit"]

  /** The items of one period, looked up in the order the code reads them; any lookup that raises makes the whole period raise. */
  function ItemsOf(bs: Frame, fin: Frame, period: Date, isBank: bool): (r: Result<Items>)
    ensures r.Success? ==> (r.value.sector.BankItems? <==> isBank)
  {
    var bsLower := LowerIndex(bs.index);
    var isLower := LowerIndex(fin.index);
    var totalAssets :- StatementValue(bs, bsLower, TotalAssetsKeys, period);
    var totalEquity :- StatementValue(bs, bsLower, TotalEquityKeys, period);
    var netIncome :- StatementValue(fin, isLower, NetIncomeKeys, period);
    var revenue :- StatementValue(fin, isLower, RevenueKeys, period);
    var reported :- StatementValue(bs, bsLower, TotalLiabilitiesKeys, period);
    var common := Common(totalAssets, totalEquity, netIncome, revenue, TotalLiabilities(reported, totalAssets, totalEquity));
    if isBank then
      var deposits :- StatementValue(bs, bsLower, DepositsKeys, period);
      var netLoans :- StatementValue(bs, bsLower, NetLoansKeys, period);
      var netInterestIncome :- StatementValue(fin, isLower, NetInterestIncomeKeys, period);
      Success(Items(common, BankItems(deposits, netLoans, netInterestIncome)))
    else
      var currentAssets :- StatementValue(bs, bsLower, CurrentAssetsKeys, period);
      var currentLiabilities :- StatementValue(bs, bsLower, CurrentLiabilitiesKeys, period);
      var inventory :- StatementValue(bs, bsLower, InventoryKeys, period);
      var cash :- StatementValue(bs, bsLower, CashKeys, period);
      var grossProfit :- StatementValue(fin, isLower, GrossProfitKeys, period);
      Success(Items(common, OtherItems(currentAssets, currentLiabilities, inventory, cash, grossProfit)))
  }

  /** The data-extraction part of one iteration of the `for period` loop (paste.py:104-135, 156-160). */
  method PeriodItems(bs: Frame, fin: Frame, period: Date, isBank: bool) returns (r: Result<Items>)
    ensures r == ItemsOf(bs, fin, period, isBank)
  {
    var bsLower := LowerIndex(bs.index);
    var isLower := LowerIndex(fin.index);
    var totalAssets :- GetVal(bs, bsLower, TotalAssetsKeys, period);
    var totalEquity :- GetVal(bs, bsLower, TotalEquityKeys, period);
    var netIncome :- GetVal(fin, isLower, NetIncomeKeys, period);
    var revenue :- GetVal(fin, isLower, RevenueKeys, period);
    var totalLiabilities :- GetVal(bs, bsLower, TotalLiabilitiesKeys, period);
    if IsZero(totalLiabilities) && IsPositive(totalAssets) && IsPositive(totalEquity) {
      totalLiabilities := Sub(totalAssets, totalEquity);
    }
    var common := Common(totalAssets, totalEquity, netIncome, revenue, totalLiabilities);
    if isBank {
      var deposits :- GetVal(bs, bsLower, DepositsKeys, period);
      var netLoans :- GetVal(bs, bsLower, NetLoansKeys, period);
      var netInterestIncome :- GetVal(fin, isLower, NetInterestIncomeKeys, period);
      r := Success(Items(common, BankItems(deposits, netLoans, netInterestIncome)));
    } else {
      var currentAssets :- GetVal(bs, bsLower, CurrentAssetsKeys, period);
      var currentLiabilities :- GetVal(bs, bsLower, CurrentLiabilitiesKeys, period);
      var inventory :- GetVal(bs, bsLower, InventoryKeys, period);
      var cash :- GetVal(bs, bsLower, CashKeys, period);
      var grossProfit :- GetVal(fin, isLower, GrossProfitKeys, period);
      r := Success(Items(common, OtherItems(currentAssets, currentLiabilities, inventory, cash, grossProfit)));
    }
  }

  /** A ratio: the guard's 0, or `round(num / den, 2)` (times 100 when `percent`), kept as the pair it divides. */
  datatype RatioValue = Zero | Quotient(num: Float, den: Float, percent: bool)

  /** `round(num / den, 2) if den != 0 else 0`: NaN is not equal to 0, so a NaN denominator is divided by. */
  function Guarded(num: Float, den: Float, percent: bool): (r: RatioValue)
    ensures r == Zero <==> IsZero(den)
    ensures r.Quotient? ==> r.num == num && r.den == den && r.percent == percent
  {
    if IsZero(den) then Zero else Quotient(num, den, percent)
  }

  /** The ratio dictionary of one period: category -> ratio name -> value, in the code's key order. */
  type Ratios = Dict<string, Dict<string, RatioValue>>

  /** The two ratio dictionaries (paste.py:139-153 for banks, 162-181 otherwise). */
  function RatiosOf(items: Items): (r: Ratios)
    ensures Keys(r) == Categories
    ensures r[3].1 == [] <==> items.sector.BankItems?
  {
    var c := items.common;
    match items.sector
    case BankItems(deposits, netLoans, netInterestIncome) =>
      [("liquidity", [("loanToDepositRatio", Guarded(netLoans, deposits, false))]),
       ("profitability", [("roe", Guarded(c.netIncome, c.totalEquity, true)),
                          ("roa", Guarded(c.netIncome, c.totalAssets, true)),
                          ("nim", Guarded(netInterestIncome, c.totalAssets, true))]),
       ("leverage", [("equityMultiplier", Guarded(c.totalAssets, c.totalEquity, false)),
                     ("debtToAssets", Guarded(c.totalLiabilities, c.totalAssets, false))]),
       ("activity", [])]
    case OtherItems(currentAssets, currentLiabilities, inventory, cash, grossProfit) =>
      [("liquidity", [("currentRatio", Guarded(currentAssets, currentLiabilities, false)),
                      ("quickRatio", Guarded(Sub(currentAssets, inventory), currentLiabilities, false)),
                      ("cashRatio", Guarded(cash, currentLiabilities, false))]),
       ("profitability", [("roe", Guarded(c.netIncome, c.totalEquity, true)),
                          ("roa", Guarded(c.netIncome, c.totalAssets, true)),
                          ("npm", Guarded(c.netIncome, c.revenue, true)),
                          ("gpm", Guarded(grossProfit, c.revenue, true))]),
       ("leverage", [("der", Guarded(c.totalLiabilities, c.totalEquity, false)),
                     ("dar", Guarded(c.totalLiabilities, c.totalAssets, false))]),
       ("activity", [("assetTurnover", Guarded(c.revenue, c.totalAssets, false))])]
  }

  /** The categories and, per category, the ratio names of a ratio dictionary, in order. */
  function Schema(r: Ratios): (s: seq<(string, seq<string>)>)
    ensures |s| == |r|
    ensures forall i :: 0 <= i < |r| ==> s[i] == (r[i].0, Keys(r[i].1))
  {
    seq(|r|, i requires 0 <= i < |r| => (r[i].0, Keys(r[i].1)))
  }

  const BankSchema: seq<(string, seq<string>)> := [
    ("liquidity", ["loanToDepositRatio"]),
    ("profitability", ["roe", "roa", "nim"]),
    ("leverage", ["equityMultiplier", "debtToAssets"]),
    ("activity", [])
  ]

  const OtherSchema: seq<(string, seq<string>)> := [
    ("liquidity", ["currentRatio", "quickRatio", "cashRatio"]),
    ("profitability", ["roe", "roa", "npm", "gpm"]),
    ("leverage", ["der", "dar"]),
    ("activity", ["assetTurnover"])
  ]

  /** Bank items give exactly the bank keys; other items exactly the non-bank keys. */
  lemma RatiosSchema(items: Items)
    ensures Schema(RatiosOf(items)) == if items.sector.BankItems? then BankSchema else OtherSchema
  {
    var r := RatiosOf(items);
    var s := Schema(r);
    if items.sector.BankItems? {
      assert Keys(r[0].1) == ["loanToDepositRatio"];
      assert Keys(r[1].1) == ["roe", "roa", "nim"];
      assert Keys(r[2].1) == ["equityMultiplier", "debtToAssets"];
      assert Keys(r[3].1) == [];
      assert s[0] == BankSchema[0] && s[1] == BankSchema[1] && s[2] == BankSchema[2] && s[3] == BankSchema[3];
    } else {
      assert Keys(r[0].1) == ["currentRatio", "quickRatio", "cashRatio"];
      assert Keys(r[1].1) == ["roe", "roa", "npm", "gpm"];
      assert Keys(r[2].1) == ["der", "dar"];
      assert Keys(r[3].1) == ["assetTurnover"];
      assert s[0] == OtherSchema[0] && s[1] == OtherSchema[1] && s[2] == OtherSchema[2] && s[3] == OtherSchema[3];
    }
  }

  /** The item each ratio divides by: an independent statement of the zero guards. */
  function Denominator(items: Items, name: string): Float {
    var c := items.common;
    if name in {"roe", "equityMultiplier", "der"} then c.totalEquity
    else if name in {"npm", "gpm"} then c.revenue
    else if name == "loanToDepositRatio" then (if items.sector.BankItems? then items.sector.deposits else NaN)
    else if name in {"currentRatio", "quickRatio", "cashRatio"} then (if items.sector.OtherItems? then items.sector.currentLiabilities else NaN)
    else c.totalAssets
  }

  /** Every ratio is 0 exactly when its denominator is 0, and otherwise divides by that denominator. */
  lemma RatiosGuarded(items: Items)
    ensures var r := RatiosOf(items);
            forall i, j :: 0 <= i < |r| && 0 <= j < |r[i].1| ==>
              var (name, value) := r[i].1[j];
              && (value == Zero <==> IsZero(Denominator(items, name)))
              && (value.Quotient? ==> value.den == Denominator(items, name))
  {
  }

  // ---------------------------------------------------------------------------
  // Ratios by period (_calculate_ratios)

  /** The statements `_calculate_ratios` reads from the fetched data; a missing one is `None`. */
  datatype Statements = Statements(balanceSheet: Option<Frame>, financials: Option<Frame>)

  /** The period key `str(period.year)`. */
  function PeriodKey(d: Date): string {
    NatToString(d.year)
  }

  /** `columns[:n]`. */
  function Take<T>(s: seq<T>, n: nat): (r: seq<T>)
    ensures |r| == Min(|s|, n)
    ensures r == s[..|r|]
  {
    s[..Min(|s|, n)]
  }

  /** period key -> ratio dictionary, in insertion order. */
  type RatiosByPeriod = Dict<string, Ratios>

  /** The lookups and the ratio dictionary of one period, as a function of the period. */
  type Lookup = Date -> Result<Ratios>

  function PeriodLookup(bs: Frame, fin: Frame, isBank: bool): Lookup {
    p => match ItemsOf(bs, fin, p, isBank)
         case Raised => Raised
         case Success(items) => Success(RatiosOf(items))
  }

  /** Every successful lookup yields a dictionary with the given kind of company's schema. */
  ghost predicate SectorOf(lookup: Lookup, isBank: bool) {
    forall p :: lookup(p).Success? ==> Schema(lookup(p).value) == SchemaFor(isBank)
  }

  lemma PeriodLookupSector(bs: Frame, fin: Frame, isBank: bool)
    ensures SectorOf(PeriodLookup(bs, fin, isBank), isBank)
  {
    forall p | PeriodLookup(bs, fin, isBank)(p).Success? ensures Schema(PeriodLookup(bs, fin, isBank)(p).value) == SchemaFor(isBank) {
      RatiosSchema(ItemsOf(bs, fin, p, isBank).value);
    }
  }

  /** `ratios_by_period` after the `for period in periods` loop, or `Raised` when some period raised. */
  function Accumulate(periods: seq<Date>, lookup: Lookup): Result<RatiosByPeriod> {
    if |periods| == 0 then Success([])
    else
      var acc :- Accumulate(periods[..|periods| - 1], lookup);
      var ratios :- lookup(periods[|periods| - 1]);
      Success(Put(acc, PeriodKey(periods[|periods| - 1]), ratios))
  }

  /** What `_calculate_ratios` returns: `{}` for missing or empty statements and for anything raised. */
  function RatiosByPeriodOf(data: Statements, isBank: bool): RatiosByPeriod {
    if data.balanceSheet.None? || data.financials.None? || Empty(data.balanceSheet.value) || Empty(data.financials.value) then []
    else
      var bs := data.balanceSheet.value;
      match Accumulate(Take(bs.columns, 4), PeriodLookup(bs, data.financials.value, isBank))
      case Raised => []
      case Success(r) => r
  }

  /** `self.companies[ticker]`. */
  datatype Info = Info(name: string, sector: string)

  const Companies: Dict<string, Info> := [
    ("BBCA.JK", Info("Bank Central Asia Tbk", "Banking")),
    ("BMRI.JK", Info("Bank Mandiri Tbk", "Banking")),
    ("BBRI.JK", Info("Bank Rakyat Indonesia Tbk", "Banking")),
    ("BBNI.JK", Info("Bank Negara Indonesia Tbk", "Banking")),
    ("TLKM.JK", Info("Telkom Indonesia Tbk", "Telecommunications")),
    ("UNVR.JK", Info("Unilever Indonesia Tbk", "Consumer Goods")),
    ("ASII.JK", Info("Astra International Tbk", "Conglomerate")),
    ("INDF.JK", Info("Indofood Sukses Makmur Tbk", "Food & Beverages")),
    ("KLBF.JK", Info("Kalbe Farma Tbk", "Pharmaceuticals")),
    ("ICBP.JK", Info("Indofood CBP Sukses " + "Makmur Tbk", "Food & Beverages")),
    ("GGRM.JK", Info("Gudang Garam Tbk", "Tobacco")),
    ("ADRO.JK", Info("Adaro Energy Tbk", "Mining")),
    ("ANTM.JK", Info("Aneka Tambang Tbk", "Mining")),
    ("INCO.JK", Info("Vale Indonesia Tbk", "Mining")),
    ("SMGR.JK", Info("Semen Indonesia Tbk", "Cement"))
  ]

  /** `self.companies.get(ticker, {}).get("sector") == "Banking"`. */
  predicate IsBank(ticker: string) {
    match Get(Companies, ticker)
    case Some(info) => info.sector == "Banking"
    case None => false
  }

  /** `self.companies.get(ticker, {"name": ticker, "sector": "Unknown"})`. */
  function InfoOf(ticker: string): (r: Info)
    ensures ticker !in Keys(Companies) ==> r == Info(ticker, "Unknown")
    ensures ticker in Keys(Companies) ==> Get(Companies, ticker) == Some(r)
  {
    Get(Companies, ticker).GetOr(Info(ticker, "Unknown"))
  }

  const BankTickers := ["BBCA.JK", "BMRI.JK", "BBRI.JK", "BBNI.JK"]

  lemma CompanySectors(i: nat)
    requires i < |Companies|
    ensures Companies[i].1.sector == "Banking" <==> i < 4
    ensures i < 4 ==> Companies[i].0 == BankTickers[i]
  {
  }

  /** Exactly the four listed banks are treated as banks; unknown tickers are not. */
  lemma BankTickersAreBanks(ticker: string)
    ensures IsBank(ticker) <==> ticker in BankTickers
  {
    match FindKey(Companies, ticker)
    case Some(i) =>
      CompanySectors(i);
      if ticker in BankTickers {
        var k :| 0 <= k < 4 && BankTickers[k] == ticker;
        CompanySectors(k);
        assert Companies[k].0 == ticker;
      }
    case None =>
      forall k | 0 <= k < 4 ensures BankTickers[k] != ticker {
        CompanySectors(k);
        assert Companies[k].0 in Keys(Companies);
      }
  }

  /** `_calculate_ratios` (paste.py:78-189). */
  method CalculateRatios(data: Statements, ticker: string) returns (r: RatiosByPeriod)
    ensures r == RatiosByPeriodOf(data, IsBank(ticker))
  {
    if data.balanceSheet.None? || data.financials.None? || Empty(data.balanceSheet.value) || Empty(data.financials.value) {
      return [];
    }
    var bs := data.balanceSheet.value;
    var fin := data.financials.value;
    var isBank := IsBank(ticker);
    ghost var lookup := PeriodLookup(bs, fin, isBank);
    var periods := Take(bs.columns, 4);
    r := [];
    for i := 0 to |periods|
      invariant Accumulate(periods[..i], lookup) == Success(r)
    {
      var items := PeriodItems(bs, fin, periods[i], isBank);
      if items.Raised? {
        AccumulateStep(periods, lookup, i);
        AccumulatePrefixRaised(periods, lookup, i + 1);
        return [];
      }
      var ratios := RatiosOf(items.value);
      assert lookup(periods[i]) == Success(ratios);
      AccumulateStep(periods, lookup, i);
      r := Put(r, PeriodKey(periods[i]), ratios);
    }
    assert periods[..|periods|] == periods;
  }

  /** One more iteration of the loop. */
  lemma AccumulateStep(periods: seq<Date>, lookup: Lookup, i: nat)
    requires i < |periods| && Accumulate(periods[..i], lookup).Success?
    ensures Accumulate(periods[..i + 1], lookup) ==
              match lookup(periods[i])
              case Raised => Raised
              case Success(ratios) => Success(Put(Accumulate(periods[..i], lookup).value, PeriodKey(periods[i]), ratios))
  {
    assert periods[..i + 1][..i] == periods[..i];
  }

  lemma {:induction false} AccumulatePrefixRaised(periods: seq<Date>, lookup: Lookup, i: nat)
    requires i <= |periods| && Accumulate(periods[..i], lookup).Raised?
    ensures Accumulate(periods, lookup).Raised?
    decreases |periods| - i
  {
    if i < |periods| {
      assert periods[..i + 1][..i] == periods[..i];
      AccumulatePrefixRaised(periods, lookup, i + 1);
    } else {
      assert periods[..i] == periods;
    }
  }

  function SchemaFor(isBank: bool): seq<(string, seq<string>)> {
    if isBank then BankSchema else OtherSchema
  }

  /** Every period's ratio dictionary has the schema `s`. */
  predicate Uniform(rbp: RatiosByPeriod, s: seq<(string, seq<string>)>) {
    forall e :: e in rbp ==> Schema(e.1) == s
  }

  /** `k` is the year string of one of `periods`. */
  predicate IsPeriodKey(periods: seq<Date>, k: string) {
    exists j :: 0 <= j < |periods| && PeriodKey(periods[j]) == k
  }

  lemma IsPeriodKeyLast(periods: seq<Date>, k: string)
    requires |periods| > 0
    ensures IsPeriodKey(periods, k) <==> IsPeriodKey(periods[..|periods| - 1], k) || PeriodKey(periods[|periods| - 1]) == k
  {
    var init := periods[..|periods| - 1];
    if IsPeriodKey(periods, k) {
      var j :| 0 <= j < |periods| && PeriodKey(periods[j]) == k;
      if j < |init| { assert init[j] == periods[j]; }
    }
    if IsPeriodKey(init, k) {
      var j :| 0 <= j < |init| && PeriodKey(init[j]) == k;
      assert periods[j] == init[j];
    }
  }

  /** A successful loop keys its result by the periods' year strings, once each. */
  lemma {:induction false} AccumulateKeys(periods: seq<Date>, lookup: Lookup)
    requires Accumulate(periods, lookup).Success?
    ensures var r := Accumulate(periods, lookup).value;
      && DistinctKeys(r) && |r| <= |periods|
      && forall k :: k in Keys(r) <==> IsPeriodKey(periods, k)
  {
    if |periods| > 0 {
      var n := |periods| - 1;
      var acc := Accumulate(periods[..n], lookup).value;
      var key := PeriodKey(periods[n]);
      var r := Put(acc, key, lookup(periods[n]).value);
      assert Accumulate(periods, lookup).value == r;
      AccumulateKeys(periods[..n], lookup);
      assert DistinctKeys(r) by { PutKeepsDistinct(acc, key, lookup(periods[n]).value); }
      assert forall k :: k in Keys(r) <==> IsPeriodKey(periods, k) by {
        forall k ensures k in Keys(r) <==> IsPeriodKey(periods, k) {
          IsPeriodKeyLast(periods, k);
        }
      }
    }
  }

  /** A successful loop gives every period the sector's schema. */
  lemma {:induction false} AccumulateUniform(periods: seq<Date>, lookup: Lookup, isBank: bool)
    requires SectorOf(lookup, isBank) && Accumulate(periods, lookup).Success?
    ensures Uniform(Accumulate(periods, lookup).value, SchemaFor(isBank))
  {
    if |periods| > 0 {
      var n := |periods| - 1;
      AccumulateUniform(periods[..n], lookup, isBank);
      PutEntries(Accumulate(periods[..n], lookup).value, PeriodKey(periods[n]), lookup(periods[n]).value);
    }
  }

  lemma AccumulateShape(periods: seq<Date>, lookup: Lookup, isBank: bool)
    requires SectorOf(lookup, isBank) && Accumulate(periods, lookup).Success?
    ensures var r := Accumulate(periods, lookup).value;
      && DistinctKeys(r) && |r| <= |periods| && Uniform(r, SchemaFor(isBank))
      && forall k :: k in Keys(r) <==> IsPeriodKey(periods, k)
  {
    AccumulateKeys(periods, lookup);
    AccumulateUniform(periods, lookup, isBank);
  }

  /** A loop that succeeded processed every period, and the last column of each year decides that year's ratios. */
  lemma {:induction false} AccumulateLast(periods: seq<Date>, lookup: Lookup, j: nat)
    requires Accumulate(periods, lookup).Success?
    requires j < |periods| && forall j' :: j < j' < |periods| ==> PeriodKey(periods[j']) != PeriodKey(periods[j])
    ensures lookup(periods[j]).Success?
    ensures Get(Accumulate(periods, lookup).value, PeriodKey(periods[j])) == Some(lookup(periods[j]).value)
  {
    var n := |periods| - 1;
    var init := periods[..n];
    var acc := Accumulate(init, lookup).value;
    var ratios := lookup(periods[n]).value;
    if j == n {
      GetPutSame(acc, PeriodKey(periods[n]), ratios);
    } else {
      assert init[j] == periods[j];
      AccumulateLast(init, lookup, j);
      GetPutOther(acc, PeriodKey(periods[n]), ratios, PeriodKey(periods[j]));
    }
  }

  /** The loop raises only when the lookups of some period raise ... */
  lemma {:induction false} AccumulateRaisedAt(periods: seq<Date>, lookup: Lookup) returns (j: nat)
    requires Accumulate(periods, lookup).Raised?
    ensures j < |periods| && lookup(periods[j]).Raised?
  {
    var n := |periods| - 1;
    if Accumulate(periods[..n], lookup).Raised? {
      j := AccumulateRaisedAt(periods[..n], lookup);
      assert periods[..n][j] == periods[j];
    } else {
      j := n;
    }
  }

  /** ... and the lookups of any period raising make the loop raise. */
  lemma AccumulateRaises(periods: seq<Date>, lookup: Lookup, j: nat)
    requires j < |periods| && lookup(periods[j]).Raised?
    ensures Accumulate(periods, lookup).Raised?
  {
    assert periods[..j + 1][..j] == periods[..j];
    assert periods[..j + 1][j] == periods[j];
    AccumulatePrefixRaised(periods, lookup, j + 1);
  }

  /**
   * `_calculate_ratios`: `{}` for missing or empty statements or when some lookup raises; otherwise one entry per
   * distinct year among the first four balance-sheet columns, each with the sector's schema.
   */
  lemma RatiosByPeriodShape(data: Statements, isBank: bool)
    ensures var r := RatiosByPeriodOf(data, isBank);
      && DistinctKeys(r) && |r| <= 4 && Uniform(r, SchemaFor(isBank))
      && (data.balanceSheet.None? || data.financials.None? || Empty(data.balanceSheet.value) || Empty(data.financials.value) ==> r == [])
      && (r != [] ==> forall k :: k in Keys(r) <==> IsPeriodKey(Take(data.balanceSheet.value.columns, 4), k))
  {
    if !(data.balanceSheet.None? || data.financials.None? || Empty(data.balanceSheet.value) || Empty(data.financials.value)) {
      var bs := data.balanceSheet.value;
      var lookup := PeriodLookup(bs, data.financials.value, isBank);
      if Accumulate(Take(bs.columns, 4), lookup).Success? {
        PeriodLookupSector(bs, data.financials.value, isBank);
        AccumulateShape(Take(bs.columns, 4), lookup, isBank);
      }
    }
  }

  /** With both statements present and non-empty, the result is empty exactly when the lookups of some processed period raise. */
  lemma RatiosByPeriodEmpty(data: Statements, isBank: bool)
    requires data.balanceSheet.Some? && data.financials.Some? && !Empty(data.balanceSheet.value) && !Empty(data.financials.value)
    ensures var periods := Take(data.balanceSheet.value.columns, 4);
      RatiosByPeriodOf(data, isBank) == [] <==> exists j :: 0 <= j < |periods| && ItemsOf(data.balanceSheet.value, data.financials.value, periods[j], isBank).Raised?
  {
    var bs := data.balanceSheet.value;
    var periods := Take(bs.columns, 4);
    var fin := data.financials.value;
    var lookup := PeriodLookup(bs, fin, isBank);
    assert RatiosByPeriodOf(data, isBank) == match Accumulate(periods, lookup) case Raised => [] case Success(r) => r;
    forall j | 0 <= j < |periods| ensures lookup(periods[j]).Raised? <==> ItemsOf(bs, fin, periods[j], isBank).Raised? {}
    if Accumulate(periods, lookup).Success? {
      AccumulateKeys(periods, lookup);
      assert IsPeriodKey(periods, PeriodKey(periods[0]));
      forall j | 0 <= j < |periods| ensures lookup(periods[j]).Success? {
        if lookup(periods[j]).Raised? { AccumulateRaises(periods, lookup, j); }
      }
    } else {
      var j := AccumulateRaisedAt(periods, lookup);
    }
  }

  /** Each year's ratios come from the last processed column of that year. */
  lemma RatiosByPeriodValue(data: Statements, isBank: bool, j: nat)
    requires RatiosByPeriodOf(data, isBank) != []
    requires var periods := Take(data.balanceSheet.value.columns, 4);
      j < |periods| && forall j' :: j < j' < |periods| ==> PeriodKey(periods[j']) != PeriodKey(periods[j])
    ensures var periods := Take(data.balanceSheet.value.columns, 4);
      var items := ItemsOf(data.balanceSheet.value, data.financials.value, periods[j], isBank);
      items.Success? && Get(RatiosByPeriodOf(data, isBank), PeriodKey(periods[j])) == Some(RatiosOf(items.value))
  {
    var bs := data.balanceSheet.value;
    AccumulateLast(Take(bs.columns, 4), PeriodLookup(bs, data.financials.value, isBank), j);
  }

  // ---------------------------------------------------------------------------
  // Latest period and trends (get_company_data)

  /** `{'period': period, 'value': value}`. */
  datatype TrendPoint = TrendPoint(period: string, value: RatioValue)

  /** `"<category>_<ratio>"` -> trend points. */
  type Trends = Dict<string, seq<TrendPoint>>

  /** `ratios_by_period.get(period, {}).get(category, {}).get(ratio_name)`. */
  function RatioAt(rbp: RatiosByPeriod, period: string, category: string, name: string): Option<RatioValue> {
    Get(Get(Get(rbp, period).GetOr([]), category).GetOr([]), name)
  }

  /** One ratio's value per period, as a function of the period. */
  type Series = string -> Option<RatioValue>

  function RatioSeries(rbp: RatiosByPeriod, category: string, name: string): Series {
    p => RatioAt(rbp, p, category, name)
  }

  /** `trend_data` after the loop over `periods`: a point for each period that has the ratio, in the order of `periods`. */
  function SeriesPoints(periods: seq<string>, at: Series): (r: seq<TrendPoint>)
    ensures |r| <= |periods|
    ensures forall m :: 0 <= m < |r| ==> r[m].period in periods && at(r[m].period) == Some(r[m].value)
  {
    if |periods| == 0 then []
    else
      var init := SeriesPoints(periods[..|periods| - 1], at);
      match at(periods[|periods| - 1])
      case None => init
      case Some(v) => init + [TrendPoint(periods[|periods| - 1], v)]
  }

  /** The points' periods are strictly ascending. */
  predicate AscendingPoints(r: seq<TrendPoint>) {
    forall a, b :: 0 <= a < b < |r| ==> Less(r[a].period, r[b].period)
  }

  /** Points follow the order of the periods, so ascending periods give ascending points. */
  lemma {:induction false} SeriesAscending(periods: seq<string>, at: Series)
    requires StrictlyAscending(periods)
    ensures AscendingPoints(SeriesPoints(periods, at))
  {
    if |periods| > 0 {
      var n := |periods| - 1;
      var init := periods[..n];
      SeriesAscending(init, at);
      var points := SeriesPoints(init, at);
      if at(periods[n]).Some? {
        var r := points + [TrendPoint(periods[n], at(periods[n]).value)];
        assert SeriesPoints(periods, at) == r;
        forall a, b | 0 <= a < b < |r| ensures Less(r[a].period, r[b].period) {
          assert r[a] == points[a];
          if b == |points| {
            var x :| 0 <= x < n && init[x] == points[a].period;
            assert periods[x] == init[x];
            assert Less(periods[x], periods[n]);
          } else {
            assert r[b] == points[b];
            assert Less(points[a].period, points[b].period);
          }
        }
      } else {
        assert SeriesPoints(periods, at) == points;
      }
    }
  }

  /** A period is skipped only when it lacks the ratio. */
  lemma {:induction false} SeriesComplete(periods: seq<string>, at: Series, p: string)
    requires p in periods && at(p).Some?
    ensures TrendPoint(p, at(p).value) in SeriesPoints(periods, at)
  {
    var n := |periods| - 1;
    if periods[n] != p {
      var x :| 0 <= x < |periods| && periods[x] == p;
      assert periods[..n][x] == p;
      SeriesComplete(periods[..n], at, p);
    }
  }

  /** When every period has the ratio, there is one point per period, in the same order. */
  lemma {:induction false} SeriesFull(periods: seq<string>, at: Series)
    requires forall p :: p in periods ==> at(p).Some?
    ensures var r := SeriesPoints(periods, at);
      |r| == |periods| && forall m :: 0 <= m < |r| ==> r[m].period == periods[m]
  {
    if |periods| > 0 {
      var n := |periods| - 1;
      var init := periods[..n];
      assert forall p :: p in init ==> p in periods;
      SeriesFull(init, at);
      var points := SeriesPoints(init, at);
      assert at(periods[n]).Some?;
      var r := points + [TrendPoint(periods[n], at(periods[n]).value)];
      assert SeriesPoints(periods, at) == r;
      forall m | 0 <= m < |r| ensures r[m].period == periods[m] {
        if m < n { assert r[m] == points[m] && init[m] == periods[m]; }
      }
    }
  }

  /** `trend_data` (paste.py:219-223). */
  method BuildSeries(rbp: RatiosByPeriod, periods: seq<string>, category: string, name: string) returns (points: seq<TrendPoint>)
    ensures points == SeriesPoints(periods, RatioSeries(rbp, category, name))
  {
    points := [];
    for k := 0 to |periods|
      invariant points == SeriesPoints(periods[..k], RatioSeries(rbp, category, name))
    {
      assert periods[..k + 1][..k] == periods[..k];
      var value := RatioAt(rbp, periods[k], category, name);
      if value.Some? {
        points := points + [TrendPoint(periods[k], value.value)];
      }
    }
    assert periods[..|periods|] == periods;
  }

  /** `trend_data[-4:]` for one ratio. */
  function Trend(rbp: RatiosByPeriod, periods: seq<string>, category: string, name: string): seq<TrendPoint> {
    LastN(SeriesPoints(periods, RatioSeries(rbp, category, name)), 4)
  }

  /** The trend of each (category, ratio), as a function. */
  type TrendFn = (string, string) -> seq<TrendPoint>

  function TrendFnOf(rbp: RatiosByPeriod, periods: seq<string>): TrendFn {
    (category, name) => Trend(rbp, periods, category, name)
  }

  /** `trends` after the ratio loop of one category: `trends[f"{category}_{name}"] = trend_data[-4:]` for each name in order. */
  function PutSeries(acc: Trends, category: string, names: seq<string>, trend: TrendFn): Trends {
    if |names| == 0 then acc
    else
      var n := names[|names| - 1];
      Put(PutSeries(acc, category, names[..|names| - 1], trend), category + "_" + n, trend(category, n))
  }

  /** `trends` after the loop over `latest_ratios.items()`: one entry per (category, ratio) of the latest ratios, under distinct keys. */
  function TrendsOf(latest: Ratios, trend: TrendFn): (r: Trends)
    ensures DistinctKeys(r)
    ensures forall k :: k in Keys(r) <==> IsSchemaKey(Schema(latest), k)
  {
    if |latest| == 0 then []
    else
      var (category, ratios) := latest[|latest| - 1];
      var before := TrendsOf(latest[..|latest| - 1], trend);
      TrendsKeysStep(latest, before, trend);
      PutSeries(before, category, Keys(ratios), trend)
  }

  /** The loop over one category's ratio names (paste.py:218-224). */
  method BuildCategoryTrends(rbp: RatiosByPeriod, periods: seq<string>, trends: Trends, category: string, names: seq<string>)
    returns (r: Trends)
    ensures r == PutSeries(trends, category, names, TrendFnOf(rbp, periods))
  {
    ghost var trend := TrendFnOf(rbp, periods);
    r := trends;
    for j := 0 to |names|
      invariant r == PutSeries(trends, category, names[..j], trend)
    {
      assert names[..j + 1][..j] == names[..j];
      var points := BuildSeries(rbp, periods, category, names[j]);
      assert trend(category, names[j]) == LastN(points, 4);
      r := Put(r, category + "_" + names[j], LastN(points, 4));
    }
    assert names[..|names|] == names;
  }

  /** The trend loops of `get_company_data` (paste.py:215-224). */
  method BuildTrends(rbp: RatiosByPeriod, latest: Ratios, periods: seq<string>) returns (trends: Trends)
    ensures trends == TrendsOf(latest, TrendFnOf(rbp, periods))
  {
    trends := [];
    for i := 0 to |latest|
      invariant trends == TrendsOf(latest[..i], TrendFnOf(rbp, periods))
    {
      assert latest[..i + 1][..i] == latest[..i];
      var (category, ratioDict) := latest[i];
      trends := BuildCategoryTrends(rbp, periods, trends, category, Keys(ratioDict));
    }
    assert latest[..|latest|] == latest;
  }

  lemma JoinSameCategory(c: string, a: string, b: string)
    requires c + "_" + a == c + "_" + b
    ensures a == b
  {
    assert (c + "_" + a)[|c| + 1..] == a;
    assert (c + "_" + b)[|c| + 1..] == b;
  }

  /** In `c + "_" + a` with no `_` in `c`, the first `_` is the one after `c`. */
  lemma FirstUnderscore(c: string, a: string)
    requires '_' !in c
    ensures (c + "_" + a)[|c|] == '_'
    ensures forall x :: 0 <= x < |c| ==> (c + "_" + a)[x] != '_'
  {
    forall x | 0 <= x < |c| ensures (c + "_" + a)[x] != '_' {
      assert (c + "_" + a)[x] == c[x];
    }
  }

  /** Joining with `_` is injective on categories without `_`. */
  lemma JoinInjective(c1: string, a: string, c2: string, b: string)
    requires '_' !in c1 && '_' !in c2 && c1 + "_" + a == c2 + "_" + b
    ensures c1 == c2 && a == b
  {
    FirstUnderscore(c1, a);
    FirstUnderscore(c2, b);
    assert |c1| == |c2|;
    assert c1 == (c1 + "_" + a)[..|c1|];
    assert c2 == (c2 + "_" + b)[..|c2|];
    JoinSameCategory(c1, a, b);
  }

  lemma {:induction false} PutSeriesHit(acc: Trends, category: string, names: seq<string>, trend: TrendFn, n: string)
    requires n in names
    ensures Get(PutSeries(acc, category, names, trend), category + "_" + n) == Some(trend(category, n))
  {
    var last := names[|names| - 1];
    var init := names[..|names| - 1];
    var before := PutSeries(acc, category, init, trend);
    if last == n {
      GetPutSame(before, category + "_" + n, trend(category, n));
    } else {
      var x :| 0 <= x < |names| && names[x] == n;
      assert init[x] == n;
      PutSeriesHit(acc, category, init, trend, n);
      if category + "_" + last == category + "_" + n { JoinSameCategory(category, last, n); }
      GetPutOther(before, category + "_" + last, trend(category, last), category + "_" + n);
    }
  }

  lemma {:induction false} PutSeriesMiss(acc: Trends, category: string, names: seq<string>, trend: TrendFn, k: string)
    requires forall n :: n in names ==> category + "_" + n != k
    ensures Get(PutSeries(acc, category, names, trend), k) == Get(acc, k)
  {
    if |names| > 0 {
      var last := names[|names| - 1];
      var init := names[..|names| - 1];
      PutSeriesMiss(acc, category, init, trend, k);
      GetPutOther(PutSeries(acc, category, init, trend), category + "_" + last, trend(category, last), k);
    }
  }

  /** `k` is `category_name` for one of `names`. */
  predicate IsSeriesKey(category: string, names: seq<string>, k: string) {
    exists j :: 0 <= j < |names| && k == category + "_" + names[j]
  }

  /** `k` is `category_ratio` for a ratio of the schema `s`. */
  predicate IsSchemaKey(s: seq<(string, seq<string>)>, k: string) {
    exists i, j :: 0 <= i < |s| && 0 <= j < |s[i].1| && k == s[i].0 + "_" + s[i].1[j]
  }

  /** The categories are distinct and contain no `_`, so a trend key names one (category, ratio) pair. */
  predicate Separable(s: seq<(string, seq<string>)>) {
    && (forall a, b :: 0 <= a < b < |s| ==> s[a].0 != s[b].0)
    && (forall a :: 0 <= a < |s| ==> '_' !in s[a].0)
  }

  /** Both schemas use these categories, in this order. */
  const Categories := ["liquidity", "profitability", "leverage", "activity"]

  lemma CategoriesSeparable()
    ensures forall a, b :: 0 <= a < b < 4 ==> Categories[a] != Categories[b]
    ensures forall a :: 0 <= a < 4 ==> '_' !in Categories[a]
  {
    assert Categories[0][0] == 'l' && Categories[1][0] == 'p' && Categories[3][0] == 'a';
    assert Categories[2][0] == 'l' && Categories[0][1] == 'i' && Categories[2][1] == 'e';
  }

  lemma SchemasSeparable(isBank: bool)
    ensures Separable(SchemaFor(isBank))
  {
    var s := SchemaFor(isBank);
    assert forall a :: 0 <= a < 4 ==> s[a].0 == Categories[a];
    CategoriesSeparable();
  }

  lemma {:induction false} PutSeriesKeys(acc: Trends, category: string, names: seq<string>, trend: TrendFn)
    requires DistinctKeys(acc)
    ensures DistinctKeys(PutSeries(acc, category, names, trend))
    ensures forall k :: k in Keys(PutSeries(acc, category, names, trend)) <==> k in Keys(acc) || IsSeriesKey(category, names, k)
  {
    if |names| > 0 {
      var last := names[|names| - 1];
      var init := names[..|names| - 1];
      PutSeriesKeys(acc, category, init, trend);
      var before := PutSeries(acc, category, init, trend);
      var r := Put(before, category + "_" + last, trend(category, last));
      assert PutSeries(acc, category, names, trend) == r;
      assert DistinctKeys(r) by { PutKeepsDistinct(before, category + "_" + last, trend(category, last)); }
      assert forall k :: IsSeriesKey(category, names, k) <==> k == category + "_" + last || IsSeriesKey(category, init, k) by {
        forall k | IsSeriesKey(category, names, k) ensures k == category + "_" + last || IsSeriesKey(category, init, k) {
          var j :| 0 <= j < |names| && k == category + "_" + names[j];
          if j < |init| { assert init[j] == names[j]; }
        }
        forall k | IsSeriesKey(category, init, k) ensures IsSeriesKey(category, names, k) {
          var j :| 0 <= j < |init| && k == category + "_" + init[j];
          assert names[j] == init[j];
        }
      }
    }
  }

  lemma SchemaKeyLast(s: seq<(string, seq<string>)>, k: string)
    requires |s| > 0
    ensures IsSchemaKey(s, k) <==> IsSchemaKey(s[..|s| - 1], k) || IsSeriesKey(s[|s| - 1].0, s[|s| - 1].1, k)
  {
    var last := |s| - 1;
    var t := s[..last];
    if IsSchemaKey(s, k) {
      var i, j :| 0 <= i < |s| && 0 <= j < |s[i].1| && k == s[i].0 + "_" + s[i].1[j];
      if i < last { assert t[i] == s[i]; }
    }
    if IsSchemaKey(t, k) {
      var i, j :| 0 <= i < |t| && 0 <= j < |t[i].1| && k == t[i].0 + "_" + t[i].1[j];
      assert t[i] == s[i];
    }
  }

  /** The ratio loop of the last category adds exactly that category's keys. */
  lemma TrendsKeysStep(latest: Ratios, before: Trends, trend: TrendFn)
    requires |latest| > 0 && DistinctKeys(before)
    requires forall k :: k in Keys(before) <==> IsSchemaKey(Schema(latest[..|latest| - 1]), k)
    ensures var r := PutSeries(before, latest[|latest| - 1].0, Keys(latest[|latest| - 1].1), trend);
            DistinctKeys(r) && forall k :: k in Keys(r) <==> IsSchemaKey(Schema(latest), k)
  {
    var last := |latest| - 1;
    var init := latest[..last];
    var (category, ratios) := latest[last];
    PutSeriesKeys(before, category, Keys(ratios), trend);
    var s := Schema(latest);
    assert Schema(init) == s[..last];
    assert s[last] == (category, Keys(ratios));
    forall k ensures IsSchemaKey(s, k) <==> IsSchemaKey(s[..last], k) || IsSeriesKey(category, Keys(ratios), k) {
      SchemaKeyLast(s, k);
    }
  }

  /** Each ratio of the latest ratios gets the last four points of its series. */
  lemma {:induction false} TrendsHit(latest: Ratios, trend: TrendFn, i: nat, n: string)
    requires Separable(Schema(latest))
    requires i < |latest| && n in Keys(latest[i].1)
    ensures Get(TrendsOf(latest, trend), latest[i].0 + "_" + n) == Some(trend(latest[i].0, n))
  {
    var last := |latest| - 1;
    var init := latest[..last];
    var (category, ratios) := latest[last];
    var s := Schema(latest);
    if i == last {
      PutSeriesHit(TrendsOf(init, trend), category, Keys(ratios), trend, n);
    } else {
      assert init[i] == latest[i];
      assert Separable(Schema(init)) by {
        forall a | 0 <= a < |init| ensures Schema(init)[a] == s[a] { assert init[a] == latest[a]; }
      }
      TrendsHit(init, trend, i, n);
      assert s[i].0 != s[last].0 && '_' !in s[i].0 && '_' !in s[last].0;
      forall m | m in Keys(ratios) ensures category + "_" + m != latest[i].0 + "_" + n {
        if category + "_" + m == latest[i].0 + "_" + n { JoinInjective(category, m, latest[i].0, n); }
      }
      PutSeriesMiss(TrendsOf(init, trend), category, Keys(ratios), trend, latest[i].0 + "_" + n);
    }
  }

  // ---------------------------------------------------------------------------
  // The company record

  /** The dictionary `get_company_data` returns when it is not `{}`. */
  datatype CompanyData = CompanyData(
    ticker: string, name: string, sector: string, latestPeriod: string,
    ratios: Ratios, trends: Trends, allPeriods: RatiosByPeriod)

  /** `sorted(keys, reverse=True)[0] if sorted_periods else "N/A"`: the greatest of the distinct keys, the last in ascending order. */
  function LatestPeriod(periods: seq<string>): string {
    if |periods| > 0 then periods[|periods| - 1] else "N/A"
  }

  /** The record built from non-empty ratios by period (paste.py:207-234). */
  function CompanyRecord(ticker: string, rbp: RatiosByPeriod): CompanyData
    requires DistinctKeys(rbp)
  {
    var info := InfoOf(ticker);
    var periods := Sort(Keys(rbp));
    var latest := LatestPeriod(periods);
    var ratios := Get(rbp, latest).GetOr([]);
    var trends := if |ratios| > 0 then TrendsOf(ratios, TrendFnOf(rbp, periods)) else [];
    CompanyData(ticker, info.name, info.sector, latest, ratios, trends, rbp)
  }

  /** What `get_company_data(ticker)` returns, `None` standing for `{}`; `data` is what the fetch returned, `None` when it failed. */
  function CompanyDataOf(ticker: string, data: Option<Statements>): Option<CompanyData> {
    match data
    case None => None
    case Some(statements) =>
      var rbp := RatiosByPeriodOf(statements, IsBank(ticker));
      if |rbp| == 0 then None
      else
        RatiosByPeriodShape(statements, IsBank(ticker));
        Some(CompanyRecord(ticker, rbp))
  }

  /** `get_company_data` (paste.py:191-234), given the fetched statements. */
  method GetCompanyData(ticker: string, data: Option<Statements>) returns (r: Option<CompanyData>)
    ensures r == CompanyDataOf(ticker, data)
  {
    if data.None? {
      return None;
    }
    var rbp := CalculateRatios(data.value, ticker);
    if |rbp| == 0 {
      return None;
    }
    RatiosByPeriodShape(data.value, IsBank(ticker));
    var info := InfoOf(ticker);
    var periods := Sort(Keys(rbp));
    var latest := LatestPeriod(periods);
    var ratios := Get(rbp, latest).GetOr([]);
    var trends: Trends := [];
    if |ratios| > 0 {
      trends := BuildTrends(rbp, ratios, periods);
    }
    return Some(CompanyData(ticker, info.name, info.sector, latest, ratios, trends, rbp));
  }

  /**
   * The result is `{}` exactly when the fetch failed or no ratios could be calculated; otherwise it is the record of
   * at most four periods, all with the schema of the ticker's sector.
   */
  lemma CompanyDataSpec(ticker: string, data: Option<Statements>)
    ensures CompanyDataOf(ticker, data).None? <==> data.None? || RatiosByPeriodOf(data.value, IsBank(ticker)) == []
    ensures CompanyDataOf(ticker, data).Some? ==>
      var rbp := RatiosByPeriodOf(data.value, IsBank(ticker));
      && DistinctKeys(rbp) && 0 < |rbp| <= 4 && Uniform(rbp, SchemaFor(IsBank(ticker)))
      && CompanyDataOf(ticker, data).value == CompanyRecord(ticker, rbp)
  {
    if data.Some? {
      RatiosByPeriodShape(data.value, IsBank(ticker));
    }
  }

  /** The latest period of distinct period keys is one of them, greater than every other, and the dictionary has it. */
  lemma LatestIsGreatest(rbp: RatiosByPeriod)
    requires DistinctKeys(rbp) && |rbp| > 0
    ensures var latest := LatestPeriod(Sort(Keys(rbp)));
      && latest in Keys(rbp)
      && (forall k :: k in Keys(rbp) && k != latest ==> Less(k, latest))
      && (latest, Get(rbp, latest).value) in rbp
  {
    var periods := Sort(Keys(rbp));
    assert |periods| > 0;
    var latest := periods[|periods| - 1];
    assert latest in Elements(Keys(rbp));
    forall k | k in Keys(rbp) && k != latest ensures Less(k, latest) {
      assert k in Elements(periods);
      var x :| 0 <= x < |periods| && periods[x] == k;
      LastIsGreatest(periods, x);
    }
    GetEntry(rbp, latest);
  }

  /**
   * The record's period is the greatest period key and its ratios are that period's dictionary, with the common
   * schema; the name and sector come from the company table or default to the ticker and "Unknown".
   */
  lemma RecordLatest(ticker: string, rbp: RatiosByPeriod, s: seq<(string, seq<string>)>)
    requires DistinctKeys(rbp) && |rbp| > 0 && Uniform(rbp, s)
    ensures var c := CompanyRecord(ticker, rbp);
      && c.allPeriods == rbp
      && c.ticker == ticker && c.name == InfoOf(ticker).name && c.sector == InfoOf(ticker).sector
      && c.latestPeriod in Keys(rbp)
      && (forall k :: k in Keys(rbp) && k != c.latestPeriod ==> Less(k, c.latestPeriod))
      && Get(rbp, c.latestPeriod) == Some(c.ratios)
      && Schema(c.ratios) == s
  {
    LatestIsGreatest(rbp);
  }

  /** With every period on one schema, each ratio of the schema is present in every period. */
  lemma RatioAtUniform(rbp: RatiosByPeriod, s: seq<(string, seq<string>)>, p: string, i: nat, j: nat)
    requires Uniform(rbp, s) && Separable(s) && p in Keys(rbp)
    requires i < |s| && j < |s[i].1|
    ensures RatioAt(rbp, p, s[i].0, s[i].1[j]).Some?
  {
    GetEntry(rbp, p);
    var r := Get(rbp, p).value;
    assert Schema(r) == s;
    assert DistinctKeys(r) by {
      forall a, b | 0 <= a < b < |r| ensures Keys(r)[a] != Keys(r)[b] {
        assert Keys(r)[a] == Schema(r)[a].0 && Keys(r)[b] == Schema(r)[b].0;
      }
    }
    GetAt(r, i);
    assert Keys(r[i].1) == s[i].1;
    assert s[i].1[j] in Keys(r[i].1);
  }

  /** One point per period, in the order of the periods. */
  predicate Aligned(points: seq<TrendPoint>, periods: seq<string>) {
    |points| == |periods| && forall m :: 0 <= m < |points| ==> points[m].period == periods[m]
  }

  /** The last four of aligned points are aligned with the last four periods, ascending when the periods are, and keep their values. */
  lemma LastAligned(points: seq<TrendPoint>, periods: seq<string>, at: Series)
    requires Aligned(points, periods) && StrictlyAscending(periods)
    requires forall m :: 0 <= m < |points| ==> at(points[m].period) == Some(points[m].value)
    ensures var t := LastN(points, 4);
      && Aligned(t, LastN(periods, 4)) && AscendingPoints(t)
      && forall m :: 0 <= m < |t| ==> at(t[m].period) == Some(t[m].value)
  {
    var t := LastN(points, 4);
    var shown := LastN(periods, 4);
    var off := |periods| - |shown|;
    forall m | 0 <= m < |t| ensures t[m] == points[off + m] && shown[m] == periods[off + m] {}
    forall a, b | 0 <= a < b < |t| ensures Less(t[a].period, t[b].period) {
      assert t[a].period == periods[off + a] && t[b].period == periods[off + b];
    }
  }

  /** With every period on one schema, a ratio's series has a point for every period. */
  lemma SeriesUniform(rbp: RatiosByPeriod, s: seq<(string, seq<string>)>, i: nat, j: nat)
    requires DistinctKeys(rbp) && Uniform(rbp, s) && Separable(s)
    requires i < |s| && j < |s[i].1|
    ensures Aligned(SeriesPoints(Sort(Keys(rbp)), RatioSeries(rbp, s[i].0, s[i].1[j])), Sort(Keys(rbp)))
  {
    var periods := Sort(Keys(rbp));
    var at := RatioSeries(rbp, s[i].0, s[i].1[j]);
    forall p | p in periods ensures at(p).Some? {
      assert p in Elements(periods);
      RatioAtUniform(rbp, s, p, i, j);
    }
    SeriesFull(periods, at);
  }

  /** With every period on one schema, a ratio's trend has a point for each of the last four periods, in order. */
  lemma TrendUniform(rbp: RatiosByPeriod, s: seq<(string, seq<string>)>, i: nat, j: nat)
    requires DistinctKeys(rbp) && Uniform(rbp, s) && Separable(s)
    requires i < |s| && j < |s[i].1|
    ensures var periods := Sort(Keys(rbp));
      var t := Trend(rbp, periods, s[i].0, s[i].1[j]);
      && Aligned(t, LastN(periods, 4)) && AscendingPoints(t)
      && forall m :: 0 <= m < |t| ==> RatioAt(rbp, t[m].period, s[i].0, s[i].1[j]) == Some(t[m].value)
  {
    var periods := Sort(Keys(rbp));
    var at := RatioSeries(rbp, s[i].0, s[i].1[j]);
    SeriesUniform(rbp, s, i, j);
    LastAligned(SeriesPoints(periods, at), periods, at);
  }

  /** The trends have exactly one entry per ratio of the common schema, keyed `category_ratio`. */
  lemma RecordTrendKeys(ticker: string, rbp: RatiosByPeriod, s: seq<(string, seq<string>)>)
    requires DistinctKeys(rbp) && |rbp| > 0 && Uniform(rbp, s) && |s| > 0
    ensures var c := CompanyRecord(ticker, rbp);
      && DistinctKeys(c.trends)
      && forall k :: k in Keys(c.trends) <==> IsSchemaKey(s, k)
  {
    var c := CompanyRecord(ticker, rbp);
    RecordLatest(ticker, rbp, s);
    assert |c.ratios| == |s|;
  }

  /**
   * `trends["category_ratio"]` for each ratio of the common schema: one point per period among the last four
   * periods in ascending order, each carrying that period's ratio value.
   */
  lemma RecordTrend(ticker: string, rbp: RatiosByPeriod, s: seq<(string, seq<string>)>, i: nat, j: nat)
    requires DistinctKeys(rbp) && |rbp| > 0 && Uniform(rbp, s) && Separable(s)
    requires i < |s| && j < |s[i].1|
    ensures var c := CompanyRecord(ticker, rbp);
      var t := Get(c.trends, s[i].0 + "_" + s[i].1[j]);
      && t.Some? && Aligned(t.value, LastN(Sort(Keys(rbp)), 4)) && AscendingPoints(t.value)
      && forall m :: 0 <= m < |t.value| ==> RatioAt(rbp, t.value[m].period, s[i].0, s[i].1[j]) == Some(t.value[m].value)
  {
    var c := CompanyRecord(ticker, rbp);
    RecordLatest(ticker, rbp, s);
    assert |c.ratios| == |s|;
    var trend := TrendFnOf(rbp, Sort(Keys(rbp)));
    assert Schema(c.ratios)[i] == s[i];
    TrendsHit(c.ratios, trend, i, s[i].1[j]);
    TrendUniform(rbp, s, i, j);
  }
}
