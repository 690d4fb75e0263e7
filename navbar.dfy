/** The bottom navigation bar: a fixed list of tabs, one of them
    highlighted. */
module Navbar {
  import opened Types

  datatype TabItem = TabItem(id: AppTab, caption: string)

  /** The tabs in display order. Settings has no tab of its own. */
  const Tabs: seq<TabItem> := [
    TabItem(Nearby, "Nearby"),
    TabItem(Map, "Map"),
    TabItem(Chats, "Chats"),
    TabItem(Profile, "You")
  ]

  /** `isActive` of one tab. */
  predicate IsActive(activeTab: AppTab, tab: TabItem)
  {
    activeTab == tab.id
  }

  /** The highlight flag of every tab, in display order. */
  function Highlights(activeTab: AppTab): (h: seq<bool>)
    ensures |h| == |Tabs|
    ensures forall i :: 0 <= i < |Tabs| ==> (h[i] <==> IsActive(activeTab, Tabs[i]))
  {
    seq(|Tabs|, i requires 0 <= i < |Tabs| => IsActive(activeTab, Tabs[i]))
  }

  /** The tab ids are exactly Nearby, Map, Chats, Profile, in that order. */
  lemma TabOrder()
    ensures |Tabs| == 4
    ensures Tabs[0].id == Nearby && Tabs[1].id == Map && Tabs[2].id == Chats && Tabs[3].id == Profile
    ensures forall i :: 0 <= i < |Tabs| ==> Tabs[i].id != Settings
  {
  }

  /** No two tabs share an id, so at most one tab is highlighted. */
  lemma AtMostOneHighlighted(activeTab: AppTab, i: nat, j: nat)
    requires i < |Tabs| && j < |Tabs|
    requires Highlights(activeTab)[i] && Highlights(activeTab)[j]
    ensures i == j
  {
  }

  /** `onClick={() => onTabChange(tab.id)}`: the tab a click on the
      `i`-th button asks for. */
  function TabClick(i: nat): (tab: AppTab)
    requires i < |Tabs|
    ensures tab != Settings
    ensures Highlights(tab)[i]
  {
    Tabs[i].id
  }
}
