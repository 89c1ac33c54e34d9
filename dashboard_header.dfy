/**
 * The company picker in the dashboard header (src/components/dashboard/DashboardHeader.tsx):
 * the lookup of the selected company, the case-insensitive search filter, the texts on the
 * picker button and the contents of the drop-down list.
 */
module DashboardHeader {
  import opened Wrappers
  import opened Text
  import opened Sequences

  datatype Company = Company(ticker: string, name: string, sector: string)

  /** `companies.find(c => c.ticker === selectedCompany)`. */
  function FindCompany(companies: seq<Company>, selected: string): (r: Option<Company>)
    ensures r.Some? ==> r.value in companies && r.value.ticker == selected
    ensures r.None? <==> forall i :: 0 <= i < |companies| ==> companies[i].ticker != selected
  {
    if |companies| == 0 then None
    else if companies[0].ticker == selected then Some(companies[0])
    else
      var r := FindCompany(companies[1..], selected);
      assert forall i :: 1 <= i < |companies| ==> companies[i] == companies[1..][i - 1];
      r
  }

  /** The company found is the first one with that ticker. */
  lemma {:induction false} FindCompanyFirst(companies: seq<Company>, selected: string)
    requires FindCompany(companies, selected).Some?
    ensures exists i :: 0 <= i < |companies| && companies[i] == FindCompany(companies, selected).value &&
                        forall j :: 0 <= j < i ==> companies[j].ticker != selected
  {
    if companies[0].ticker != selected {
      FindCompanyFirst(companies[1..], selected);
      var i :| 0 <= i < |companies[1..]| && companies[1..][i] == FindCompany(companies[1..], selected).value &&
               forall j :: 0 <= j < i ==> companies[1..][j].ticker != selected;
      assert companies[i + 1] == FindCompany(companies, selected).value;
      assert forall j :: 1 <= j < i + 1 ==> companies[j] == companies[1..][j - 1];
    }
  }

  /** The search test: the lower-cased name or ticker contains the lower-cased term. */
  predicate Matches(c: Company, term: string) {
    Contains(ToLower(c.name), ToLower(term)) || Contains(ToLower(c.ticker), ToLower(term))
  }

  /** `filteredCompanies`. */
  function FilterCompanies(companies: seq<Company>, term: string): (r: seq<Company>)
    ensures IsSubsequence(r, companies)
    ensures forall c :: c in r <==> c in companies && Matches(c, term)
    ensures forall c :: multiset(r)[c] == if Matches(c, term) then multiset(companies)[c] else 0
  {
    Filter(companies, c => Matches(c, term))
  }

  /** With nothing typed in the search box every company is listed. */
  lemma EmptyTermKeepsAll(companies: seq<Company>)
    ensures FilterCompanies(companies, "") == companies
  {
    forall i | 0 <= i < |companies|
      ensures Matches(companies[i], "")
    {
      ContainsEmpty(ToLower(companies[i].name));
    }
    FilterKeepsAll(companies, c => Matches(c, ""));
  }

  /** The search ignores the case of the term. */
  lemma MatchIgnoresCase(c: Company, term: string)
    ensures Matches(c, ToLower(term)) == Matches(c, term)
  {
    ToLowerIdempotent(term);
  }

  /** Typing more characters never brings a company back into the list. */
  lemma NarrowingSearch(companies: seq<Company>, term: string, more: string)
    ensures forall c :: c in FilterCompanies(companies, term + more) ==> c in FilterCompanies(companies, term)
  {
    ToLowerAppend(term, more);
    forall c | Matches(c, term + more)
      ensures Matches(c, term)
    {
      if Contains(ToLower(c.name), ToLower(term) + ToLower(more)) {
        ContainsPrefix(ToLower(c.name), ToLower(term), ToLower(more));
      } else {
        ContainsPrefix(ToLower(c.ticker), ToLower(term), ToLower(more));
      }
    }
  }

  /** `a || b` on strings: the empty string is falsy. */
  function OrElse(a: Option<string>, fallback: string): (r: string)
    ensures a.Some? && a.value != "" ==> r == a.value
    ensures a.None? || a.value == "" ==> r == fallback
  {
    if a.Some? && a.value != "" then a.value else fallback
  }

  function TickerOf(c: Option<Company>): Option<string> {
    if c.Some? then Some(c.value.ticker) else None
  }

  function NameOf(c: Option<Company>): Option<string> {
    if c.Some? then Some(c.value.name) else None
  }

  /** `selectedCompanyData?.ticker || selectedCompany`: always the selected ticker itself. */
  function ButtonTicker(companies: seq<Company>, selected: string): (r: string)
    ensures r == selected
  {
    OrElse(TickerOf(FindCompany(companies, selected)), selected)
  }

  /** `selectedCompanyData?.name || 'Select Company'`. */
  function ButtonName(companies: seq<Company>, selected: string): (r: string)
    ensures r == "Select Company" || exists c :: c in companies && c.ticker == selected && c.name == r && r != ""
    ensures (forall i :: 0 <= i < |companies| ==> companies[i].ticker != selected) ==> r == "Select Company"
  {
    OrElse(NameOf(FindCompany(companies, selected)), "Select Company")
  }

  /** The button shows the name of the first company with the selected ticker, unless that name is empty. */
  lemma ButtonNameOfFirst(companies: seq<Company>, selected: string, i: nat)
    requires i < |companies| && companies[i].ticker == selected
    requires forall j :: 0 <= j < i ==> companies[j].ticker != selected
    ensures ButtonName(companies, selected) == if companies[i].name != "" then companies[i].name else "Select Company"
  {
    FindCompanyFirst(companies, selected);
    var k :| 0 <= k < |companies| && companies[k] == FindCompany(companies, selected).value &&
             forall j :: 0 <= j < k ==> companies[j].ticker != selected;
    assert k == i;
  }

  /** What the open drop-down holds: one item per filtered company, or one message. */
  datatype Dropdown = Items(entries: seq<Company>) | Message(text: string)

  /** The drop-down: the filtered companies in list order, or a message when there are none. */
  function DropdownContent(companies: seq<Company>, term: string): (r: Dropdown)
    ensures r.Items? <==> exists c :: c in companies && Matches(c, term)
    ensures r.Items? ==> r.entries == FilterCompanies(companies, term)
    ensures r.Items? ==> forall c :: c in r.entries <==> c in companies && Matches(c, term)
    ensures r.Message? ==> (r.text == "Loading companies..." <==> |companies| == 0)
    ensures r.Message? ==> (r.text == "No companies found" <==> |companies| > 0)
  {
    var filtered := FilterCompanies(companies, term);
    assert |filtered| > 0 ==> filtered[0] in filtered;
    if |filtered| > 0 then Items(filtered)
    else Message(if |companies| == 0 then "Loading companies..." else "No companies found")
  }

  /** `onClick={() => onCompanyChange(company.ticker)}` on the `i`-th item, if there is one. */
  function OnItemClick(d: Dropdown, i: nat): (r: Option<string>)
    ensures r.Some? <==> d.Items? && i < |d.entries|
    ensures r.Some? ==> r.value == d.entries[i].ticker
  {
    if d.Items? && i < |d.entries| then Some(d.entries[i].ticker) else None
  }

  /** A click reports a ticker of a listed company that matches the search, and picking it selects that company. */
  lemma ClickSelects(companies: seq<Company>, term: string, i: nat)
    requires OnItemClick(DropdownContent(companies, term), i).Some?
    ensures var t := OnItemClick(DropdownContent(companies, term), i).value;
      (exists c :: c in companies && Matches(c, term) && c.ticker == t) &&
      FindCompany(companies, t).Some? && ButtonTicker(companies, t) == t
  {
    var d := DropdownContent(companies, term);
    assert d.entries[i] in d.entries;
    var t := d.entries[i].ticker;
    var k :| 0 <= k < |companies| && companies[k] == d.entries[i];
    assert companies[k].ticker == t;
  }
}
