/**
 * The status tab bar over a list screen: one tab per status, the current one
 * highlighted, and a press that selects the status filter and resets paging.
 */
module TabBar {
  /** A tab: the status key it selects and its caption. */
  datatype Tab = Tab(key: string, caption: string)

  /** A rendered tab: its caption and whether it carries the active style. */
  datatype TabView = TabView(key: string, caption: string, active: bool)

  /** The key of the tab that shows every status. */
  const AllKey := "all"

  /** The tabs in list order; a tab is active exactly when its key is the current tab. */
  function TabViews(tabList: seq<Tab>, statusTab: string): (r: seq<TabView>)
    ensures |r| == |tabList|
    ensures forall i :: 0 <= i < |tabList| ==>
      r[i].key == tabList[i].key && r[i].caption == tabList[i].caption
    ensures forall i :: 0 <= i < |tabList| ==> (r[i].active <==> tabList[i].key == statusTab)
  {
    if tabList == [] then []
    else [TabView(tabList[0].key, tabList[0].caption, tabList[0].key == statusTab)] + TabViews(tabList[1..], statusTab)
  }

  /** The status filter a tab selects: none for the "all" tab, its key otherwise. */
  function SelectedStatusFor(key: string): (r: string)
    ensures r == "" <==> key == AllKey || key == ""
    ensures key != AllKey ==> r == key
  {
    if key == AllKey then "" else key
  }

  predicate DistinctKeys(tabList: seq<Tab>) {
    forall i, j :: 0 <= i < j < |tabList| ==> tabList[i].key != tabList[j].key
  }

  /** With distinct keys, selecting tab `k` highlights tab `k` and no other. */
  lemma ExactlyOneActive(tabList: seq<Tab>, k: int)
    requires DistinctKeys(tabList)
    requires 0 <= k < |tabList|
    ensures forall i :: 0 <= i < |tabList| ==> (TabViews(tabList, tabList[k].key)[i].active <==> i == k)
  {
    var views := TabViews(tabList, tabList[k].key);
    forall i | 0 <= i < |tabList|
      ensures views[i].active <==> i == k
    {
      if i < k {
        assert tabList[i].key != tabList[k].key;
      } else if k < i {
        assert tabList[k].key != tabList[i].key;
      }
    }
  }

  /** The state the tab bar drives on its host screen: the status filter, the current tab and the page. */
  class Host {
    var selectedStatus: string
    var statusTab: string
    var page: int

    /** The host starts on `initialTab` with the filter that tab selects, on page 1; the quotation list starts on 'all', with no filter. */
    constructor (initialTab: string)
      ensures statusTab == initialTab && selectedStatus == SelectedStatusFor(initialTab) && page == 1
      ensures initialTab == AllKey ==> selectedStatus == ""
    {
      statusTab := initialTab;
      selectedStatus := SelectedStatusFor(initialTab);
      page := 1;
    }

    function Views(tabList: seq<Tab>): (r: seq<TabView>)
      reads this
      ensures |r| == |tabList|
      ensures forall i :: 0 <= i < |tabList| ==> (r[i].active <==> tabList[i].key == statusTab)
    {
      TabViews(tabList, statusTab)
    }

    /** Pressing a tab: selects its status (none for "all"), makes it current and goes back to page 1. */
    method OnPress(tab: Tab)
      modifies this
      ensures selectedStatus == SelectedStatusFor(tab.key)
      ensures statusTab == tab.key
      ensures page == 1
    {
      selectedStatus := if tab.key == AllKey then "" else tab.key;
      statusTab := tab.key;
      page := 1;
    }
  }

  /** After pressing tab `k` of a list with distinct keys, that tab alone is highlighted, and the filter matches it. */
  method PressAndRender(host: Host, tabList: seq<Tab>, k: int) returns (views: seq<TabView>)
    requires DistinctKeys(tabList)
    requires 0 <= k < |tabList|
    modifies host
    ensures |views| == |tabList|
    ensures forall i :: 0 <= i < |tabList| ==> (views[i].active <==> i == k)
    ensures host.page == 1
    ensures tabList[k].key != AllKey ==> host.selectedStatus == tabList[k].key
  {
    host.OnPress(tabList[k]);
    views := host.Views(tabList);
    ExactlyOneActive(tabList, k);
  }
}
