/**
 * The category navigation of the dashboard (src/components/dashboard/DashboardSidebar.tsx):
 * the fixed table of ratio categories, which categories get a button, which button is
 * active, the header text and the empty-state message.
 */
module DashboardSidebar {
  import opened Wrappers
  import opened Sequences

  datatype Icon = BarChart3 | TrendingUp | Shield | Activity

  datatype CategoryConfig = CategoryConfig(icon: Icon, caption: string, description: string)

  /** `categoryConfig[cat]` for the four entries of `categoryConfig`. */
  function ConfigOf(category: string): (r: Option<CategoryConfig>)
    ensures r.Some? ==> r.value.caption != "" && r.value.description != ""
  {
    if category == "liquidity" then Some(CategoryConfig(BarChart3, "Liquidity", "Short-term financial health"))
    else if category == "profitability" then Some(CategoryConfig(TrendingUp, "Profitability", "Revenue and profit metrics"))
    else if category == "leverage" then Some(CategoryConfig(Shield, "Leverage", "Debt and equity ratios"))
    else if category == "activity" then Some(CategoryConfig(Activity, "Activity", "Asset utilization efficiency"))
    else None
  }

  /** `Object.keys(categoryConfig)`, in declaration order. */
  const CategoryNames: seq<string> := ["liquidity", "profitability", "leverage", "activity"]

  /** Exactly the four table names have a config. */
  lemma Configured(category: string)
    ensures ConfigOf(category).Some? <==> category in CategoryNames
  {
  }

  /** `categoryConfig[cat]` is truthy. */
  predicate HasConfig(category: string) {
    ConfigOf(category).Some?
  }

  /** `categoriesToShow`: the available categories that have a config, or all four when none are given. */
  function CategoriesToShow(available: seq<string>): (r: seq<string>)
    ensures |available| == 0 ==> r == CategoryNames
    ensures forall i :: 0 <= i < |r| ==> HasConfig(r[i])
  {
    if |available| > 0 then
      var r := Filter(available, HasConfig);
      assert forall i :: 0 <= i < |r| ==> r[i] in r;
      r
    else
      forall i | 0 <= i < 4
        ensures HasConfig(CategoryNames[i])
      {
        Configured(CategoryNames[i]);
      }
      CategoryNames
  }

  /** An explicit list is filtered: order kept, and each configured category as often as it is listed. */
  lemma {:induction false} ShownFromAvailable(available: seq<string>, c: string)
    requires |available| > 0
    ensures IsSubsequence(CategoriesToShow(available), available)
    ensures multiset(CategoriesToShow(available))[c] == if c in CategoryNames then multiset(available)[c] else 0
  {
    Configured(c);
  }

  /** One rendered category button. */
  datatype NavButton = NavButton(category: string, config: CategoryConfig, active: bool, showsText: bool)

  /** `categoriesToShow.map(...)` a category without a config renders nothing (`return null`). */
  function Buttons(shown: seq<string>, activeCategory: string, collapsed: bool): (r: seq<NavButton>)
    ensures |r| <= |shown|
    ensures forall b :: b in r ==> b.category in shown && ConfigOf(b.category) == Some(b.config)
    ensures forall b :: b in r ==> (b.active <==> b.category == activeCategory) && (b.showsText <==> !collapsed)
  {
    if |shown| == 0 then []
    else
      var rest := Buttons(shown[1..], activeCategory, collapsed);
      assert forall b :: b in rest ==> b.category in shown;
      match ConfigOf(shown[0])
      case None => rest
      case Some(config) =>
        [NavButton(shown[0], config, activeCategory == shown[0], !collapsed)] + rest
  }

  /** Where every category has a config, there is one button per category, in order. */
  lemma {:induction false} ButtonsComplete(shown: seq<string>, activeCategory: string, collapsed: bool)
    requires forall i :: 0 <= i < |shown| ==> HasConfig(shown[i])
    ensures |Buttons(shown, activeCategory, collapsed)| == |shown|
    ensures forall i :: 0 <= i < |shown| ==> Buttons(shown, activeCategory, collapsed)[i].category == shown[i]
  {
    if |shown| > 0 {
      ButtonsComplete(shown[1..], activeCategory, collapsed);
      var rest := Buttons(shown[1..], activeCategory, collapsed);
      var config := ConfigOf(shown[0]).value;
      assert Buttons(shown, activeCategory, collapsed) == [NavButton(shown[0], config, activeCategory == shown[0], !collapsed)] + rest;
    }
  }

  datatype Sidebar = Sidebar(header: string, buttons: seq<NavButton>, emptyState: bool)

  /** The whole sidebar for the given props. */
  function SidebarOf(activeCategory: string, collapsed: bool, available: seq<string>): (v: Sidebar)
    ensures collapsed ==> v.header == "\U{1F4CA}"
    ensures !collapsed ==> v.header == "Financial Ratios"
    ensures |v.buttons| == |CategoriesToShow(available)|
    ensures forall i :: 0 <= i < |v.buttons| ==> v.buttons[i].category == CategoriesToShow(available)[i]
    ensures forall i :: 0 <= i < |v.buttons| ==> (v.buttons[i].active <==> v.buttons[i].category == activeCategory)
    ensures v.emptyState <==> |CategoriesToShow(available)| == 0 && !collapsed
  {
    var shown := CategoriesToShow(available);
    ButtonsComplete(shown, activeCategory, collapsed);
    var buttons := Buttons(shown, activeCategory, collapsed);
    assert forall i :: 0 <= i < |buttons| ==> buttons[i] in buttons;
    Sidebar(if collapsed then "\U{1F4CA}" else "Financial Ratios", buttons, |shown| == 0 && !collapsed)
  }

  /** Without an explicit list the four buttons come in table order and the empty state never shows. */
  lemma DefaultSidebar(activeCategory: string, collapsed: bool)
    ensures |SidebarOf(activeCategory, collapsed, []).buttons| == 4
    ensures forall i :: 0 <= i < 4 ==> SidebarOf(activeCategory, collapsed, []).buttons[i].category == CategoryNames[i]
    ensures !SidebarOf(activeCategory, collapsed, []).emptyState
  {
  }

  /** The empty state shows exactly when an explicit list names no configured category and the sidebar is open. */
  lemma EmptyStateWhenNothingConfigured(available: seq<string>, activeCategory: string, collapsed: bool)
    ensures SidebarOf(activeCategory, collapsed, available).emptyState <==>
      |available| > 0 && (forall c :: c in available ==> c !in CategoryNames) && !collapsed
  {
    var shown := CategoriesToShow(available);
    if |available| > 0 && |shown| > 0 {
      ShownFromAvailable(available, shown[0]);
      assert multiset(shown)[shown[0]] > 0;
      assert shown[0] in available;
    }
    if |available| > 0 && |shown| == 0 {
      forall c | c in available
        ensures c !in CategoryNames
      {
        ShownFromAvailable(available, c);
        assert multiset(shown)[c] == 0;
      }
    }
  }

  /** `onClick={() => onCategoryChange(category)}` on the `i`-th button, if there is one. */
  function OnButtonClick(v: Sidebar, i: nat): (r: Option<string>)
    ensures r.Some? <==> i < |v.buttons|
    ensures r.Some? ==> r.value == v.buttons[i].category
  {
    if i < |v.buttons| then Some(v.buttons[i].category) else None
  }

  /** Clicking a button and passing the reported category back makes that button active. */
  lemma ClickActivates(collapsed: bool, available: seq<string>, active: string, i: nat)
    requires i < |SidebarOf(active, collapsed, available).buttons|
    ensures var c := OnButtonClick(SidebarOf(active, collapsed, available), i).value;
      SidebarOf(c, collapsed, available).buttons[i].active
  {
  }
}
