/** The dashboard page's state: which panel is shown, the view mode, the
    expanded panel of the condensed view, and the refresh indicator. The two
    timers (content load after 1 s, indicator reset 1.5 s after a refresh) and
    the 30 s auto-refresh interval are event methods. */
module Dashboard {
  import opened Common

  datatype Panel = Mempool | OpReturn | Drivechain | Memecoin | Model3D
  datatype ViewMode = Tabbed | Condensed

  /** The ids of the four navigation items, in display order; the 3D model is not among them. */
  const NavItems: seq<Panel> := [Mempool, OpReturn, Drivechain, Memecoin]

  /** The mode `toggleViewMode` switches to. */
  function Toggled(m: ViewMode): (r: ViewMode)
    ensures r != m
  {
    if m == Tabbed then Condensed else Tabbed
  }

  /** Toggling is an involution: two toggles restore the mode. */
  lemma ToggleTwiceRestores(m: ViewMode)
    ensures Toggled(Toggled(m)) == m
  {
  }

  /** The new `expandedPanel` after `handlePanelExpand(p)`. */
  function ExpandToggle(current: Option<Panel>, p: Panel): (r: Option<Panel>)
    ensures r == None <==> current == Some(p)
    ensures r != None ==> r == Some(p)
  {
    if current == Some(p) then None else Some(p)
  }

  /** Expanding the same panel twice returns to no expansion; the second of
      two different panels wins. */
  lemma ExpandTwice(current: Option<Panel>, p: Panel, q: Panel)
    ensures current != Some(p) ==> ExpandToggle(ExpandToggle(current, p), p) == None
    ensures p != q ==> ExpandToggle(ExpandToggle(current, p), q) == Some(q)
  {
  }

  class DashboardPage {
    var activePanel: Panel
    var viewMode: ViewMode
    var contentLoaded: bool
    /** Time of the last refresh, as supplied by the caller (the clock is a parameter). */
    var lastRefresh: int
    var isRefreshing: bool
    var refreshCount: nat
    var expandedPanel: Option<Panel>
    /** Indicator-reset timers scheduled by refreshes and not yet fired. */
    var pendingResets: nat

    /** The active panel is always one of the navigation items. */
    predicate Valid()
      reads this
    {
      activePanel in NavItems
    }

    constructor(now: int)
      ensures activePanel == Mempool && viewMode == Tabbed && !contentLoaded
      ensures lastRefresh == now && !isRefreshing && refreshCount == 0
      ensures expandedPanel == None && pendingResets == 0
      ensures Valid()
    {
      activePanel := Mempool;
      viewMode := Tabbed;
      contentLoaded := false;
      lastRefresh := now;
      isRefreshing := false;
      refreshCount := 0;
      expandedPanel := None;
      pendingResets := 0;
    }

    /** The one-second load timer. */
    method LoadTimerFired()
      requires Valid()
      modifies this
      ensures contentLoaded
      ensures activePanel == old(activePanel) && viewMode == old(viewMode)
      ensures lastRefresh == old(lastRefresh) && isRefreshing == old(isRefreshing)
      ensures refreshCount == old(refreshCount) && expandedPanel == old(expandedPanel)
      ensures pendingResets == old(pendingResets)
      ensures Valid()
    {
      contentLoaded := true;
    }

    /** `handleRefresh`: raise the indicator, count the refresh, stamp the time
        and schedule the indicator reset. */
    method HandleRefresh(now: int)
      requires Valid()
      modifies this
      ensures isRefreshing && refreshCount == old(refreshCount) + 1 && lastRefresh == now
      ensures pendingResets == old(pendingResets) + 1
      ensures activePanel == old(activePanel) && viewMode == old(viewMode)
      ensures contentLoaded == old(contentLoaded) && expandedPanel == old(expandedPanel)
      ensures Valid()
    {
      isRefreshing := true;
      refreshCount := refreshCount + 1;
      lastRefresh := now;
      pendingResets := pendingResets + 1;
    }

    /** A scheduled reset fires: the indicator goes down even if a later
        refresh's reset is still pending. */
    method ResetTimerFired()
      requires Valid() && pendingResets > 0
      modifies this
      ensures !isRefreshing && pendingResets == old(pendingResets) - 1
      ensures activePanel == old(activePanel) && viewMode == old(viewMode)
      ensures contentLoaded == old(contentLoaded) && lastRefresh == old(lastRefresh)
      ensures refreshCount == old(refreshCount) && expandedPanel == old(expandedPanel)
      ensures Valid()
    {
      isRefreshing := false;
      pendingResets := pendingResets - 1;
    }

    /** A click on either refresh button: the buttons are disabled while the
        indicator is up, so such a click does nothing. */
    method ClickRefresh(now: int)
      requires Valid()
      modifies this
      ensures old(isRefreshing) ==>
        refreshCount == old(refreshCount) && lastRefresh == old(lastRefresh) && pendingResets == old(pendingResets)
      ensures !old(isRefreshing) ==>
        refreshCount == old(refreshCount) + 1 && lastRefresh == now && pendingResets == old(pendingResets) + 1
      ensures isRefreshing
      ensures activePanel == old(activePanel) && viewMode == old(viewMode)
      ensures contentLoaded == old(contentLoaded) && expandedPanel == old(expandedPanel)
      ensures Valid()
    {
      if !isRefreshing {
        HandleRefresh(now);
      }
    }

    /** The 30-second interval calls `handleRefresh` with no check of the indicator. */
    method AutoRefreshTick(now: int)
      requires Valid()
      modifies this
      ensures isRefreshing && refreshCount == old(refreshCount) + 1 && lastRefresh == now
      ensures pendingResets == old(pendingResets) + 1
      ensures activePanel == old(activePanel) && viewMode == old(viewMode)
      ensures contentLoaded == old(contentLoaded) && expandedPanel == old(expandedPanel)
      ensures Valid()
    {
      HandleRefresh(now);
    }

    /** `toggleViewMode`. */
    method ToggleViewMode()
      requires Valid()
      modifies this
      ensures viewMode == Toggled(old(viewMode))
      ensures activePanel == old(activePanel) && contentLoaded == old(contentLoaded)
      ensures lastRefresh == old(lastRefresh) && isRefreshing == old(isRefreshing)
      ensures refreshCount == old(refreshCount) && expandedPanel == old(expandedPanel)
      ensures pendingResets == old(pendingResets)
      ensures Valid()
    {
      viewMode := if viewMode == Tabbed then Condensed else Tabbed;
    }

    /** `handlePanelExpand(panel)`, wired to the condensed view's expand buttons. */
    method HandlePanelExpand(p: Panel)
      requires Valid()
      modifies this
      ensures old(expandedPanel) == Some(p) ==> expandedPanel == None
      ensures old(expandedPanel) != Some(p) ==> expandedPanel == Some(p)
      ensures activePanel == old(activePanel) && viewMode == old(viewMode)
      ensures contentLoaded == old(contentLoaded) && lastRefresh == old(lastRefresh)
      ensures isRefreshing == old(isRefreshing) && refreshCount == old(refreshCount)
      ensures pendingResets == old(pendingResets)
      ensures Valid()
    {
      expandedPanel := if expandedPanel == Some(p) then None else Some(p);
    }

    /** The overlay's close button. */
    method CloseOverlay()
      requires Valid()
      modifies this
      ensures expandedPanel == None
      ensures activePanel == old(activePanel) && viewMode == old(viewMode)
      ensures contentLoaded == old(contentLoaded) && lastRefresh == old(lastRefresh)
      ensures isRefreshing == old(isRefreshing) && refreshCount == old(refreshCount)
      ensures pendingResets == old(pendingResets)
      ensures Valid()
    {
      expandedPanel := None;
    }

    /** A click on tab `i`; the tabs exist only in the tabbed view. */
    method SelectTab(i: nat)
      requires Valid() && viewMode == Tabbed && i < |NavItems|
      modifies this
      ensures activePanel == NavItems[i] && activePanel != Model3D
      ensures viewMode == old(viewMode) && contentLoaded == old(contentLoaded)
      ensures lastRefresh == old(lastRefresh) && isRefreshing == old(isRefreshing)
      ensures refreshCount == old(refreshCount) && expandedPanel == old(expandedPanel)
      ensures pendingResets == old(pendingResets)
      ensures Valid()
    {
      activePanel := NavItems[i];
    }
  }

  /** An auto-refresh while the indicator is up is not blocked, and the first
      reset lowers the indicator although the second refresh's reset is pending. */
  method OverlappingRefreshes() returns (d: DashboardPage)
    ensures d.refreshCount == 2 && !d.isRefreshing && d.pendingResets == 1
  {
    d := new DashboardPage(0);
    d.ClickRefresh(0);
    d.AutoRefreshTick(1000);
    d.ResetTimerFired();
  }

  /** Two view toggles restore the mode and leave every other field as it was. */
  method ToggleTwice(d: DashboardPage)
    requires d.Valid()
    modifies d
    ensures d.viewMode == old(d.viewMode) && d.activePanel == old(d.activePanel)
    ensures d.expandedPanel == old(d.expandedPanel) && d.refreshCount == old(d.refreshCount)
    ensures d.isRefreshing == old(d.isRefreshing) && d.contentLoaded == old(d.contentLoaded)
    ensures d.lastRefresh == old(d.lastRefresh) && d.pendingResets == old(d.pendingResets)
    ensures d.Valid()
  {
    d.ToggleViewMode();
    d.ToggleViewMode();
  }
}
