/** The horizontally scrolling tab layout: it builds one tab view per page of
    the bound view pager, keeps the strip's selection and its own scroll
    position in step with the pager's scroll callbacks, and turns a tap on a tab
    into a page change. The page-change listener it installs on the pager and
    the click listener it gives every tab are inner classes whose only state
    (the recorded scroll state) lives on the layout here. */
module TabLayout {
  import opened Views
  import opened TabStrip

  /** Which of a tab's title and icon are shown. */
  datatype DisplayType = TitleOnly | IconOnly | TitleAndIcon

  const TITLE_OFFSET_DIPS: nat := 24

  /** ViewPager's scroll states. */
  const SCROLL_STATE_IDLE := 0
  const SCROLL_STATE_DRAGGING := 1
  const SCROLL_STATE_SETTLING := 2

  /** The pager's adapter as the layout sees it: getPageTitle for each of its
      getCount() pages and, when the adapter implements the tab icon provider,
      getImageResourceId for each page. */
  datatype PagerAdapter = PagerAdapter(pageTitles: seq<string>, iconProvider: Option<seq<int>>)
  {
    function GetCount(): nat {
      |pageTitles|
    }
  }

  /** An icon provider answers for every page. */
  type Adapter = a: PagerAdapter | a.iconProvider.None? || |a.iconProvider.value| == |a.pageTitles|
    witness PagerAdapter([], None)

  /** The bound view pager: its adapter and its current item. */
  datatype ViewPager = ViewPager(adapter: Adapter, currentItem: int)

  /** The calls the layout makes to the listeners registered on it: the
      page-change delegate, which hears every pager callback it is forwarded,
      and the tab-changed listener. */
  datatype Notification =
    | DelegatePageScrolled(position: int, positionOffset: real, positionOffsetPixels: int)
    | DelegatePageScrollStateChanged(state: int)
    | DelegatePageSelected(position: int)
    | TabChanged(position: int)

  /** The tab view built for one page. */
  function NewTab(adapter: Adapter, displayType: DisplayType, stretch: bool, position: nat, viewId: nat): (tab: TabView)
    requires position < adapter.GetCount()
    ensures tab.viewId == viewId && !tab.selected && tab.fillsWeight == stretch
    ensures tab.titleVisibility == Visible <==> displayType == TitleOnly || displayType == TitleAndIcon
    ensures tab.titleText == if tab.titleVisibility == Visible then Some(adapter.pageTitles[position]) else None
    ensures tab.iconVisibility == Visible <==>
      (displayType == IconOnly || displayType == TitleAndIcon) && adapter.iconProvider.Some?
    ensures tab.iconResource == if tab.iconVisibility == Visible then Some(adapter.iconProvider.value[position]) else None
  {
    var showTitle := displayType == TitleOnly || displayType == TitleAndIcon;
    var showIcon := (displayType == IconOnly || displayType == TitleAndIcon) && adapter.iconProvider.Some?;
    TabView(
      viewId, 0, 0, false, stretch,
      if showTitle then Visible else Gone,
      if showTitle then Some(adapter.pageTitles[position]) else None,
      if showIcon then Visible else Gone,
      if showIcon then Some(adapter.iconProvider.value[position]) else None)
  }

  /** The tabs populating the strip builds from an adapter: one fresh view per
      page, in page order, whose title shows the page title exactly when the
      display type includes titles and whose icon shows the page icon exactly
      when the display type includes icons and the adapter provides them. */
  function TabsFor(adapter: Adapter, displayType: DisplayType, stretch: bool, firstId: nat): (tabs: seq<TabView>)
    ensures |tabs| == adapter.GetCount()
    ensures forall p :: 0 <= p < |tabs| ==>
      tabs[p].viewId == firstId + p && !tabs[p].selected && tabs[p].fillsWeight == stretch
    ensures forall p :: 0 <= p < |tabs| ==>
      (tabs[p].titleVisibility == Visible <==> displayType == TitleOnly || displayType == TitleAndIcon)
    ensures forall p :: 0 <= p < |tabs| ==>
      tabs[p].titleText == if tabs[p].titleVisibility == Visible then Some(adapter.pageTitles[p]) else None
    ensures forall p :: 0 <= p < |tabs| ==>
      (tabs[p].iconVisibility == Visible <==>
        (displayType == IconOnly || displayType == TitleAndIcon) && adapter.iconProvider.Some?)
    ensures forall p :: 0 <= p < |tabs| ==>
      tabs[p].iconResource == if tabs[p].iconVisibility == Visible then Some(adapter.iconProvider.value[p]) else None
  {
    var tabs := seq(adapter.GetCount(), p requires 0 <= p < adapter.GetCount() => NewTab(adapter, displayType, stretch, p, firstId + p));
    assert forall p :: 0 <= p < |tabs| ==> tabs[p] == NewTab(adapter, displayType, stretch, p, firstId + p);
    tabs
  }

  /** The scroll position scrollToTab asks for: the tab's left edge plus the
      extra offset, less the title offset unless the tab is the first one and
      there is no extra offset. */
  function ScrollTarget(tabLeft: int, tabIndex: int, positionOffset: int, titleOffset: int): (x: int)
    ensures tabIndex <= 0 && positionOffset <= 0 ==> x == tabLeft + positionOffset
    ensures tabIndex > 0 || positionOffset > 0 ==> tabLeft + positionOffset - x == titleOffset
  {
    if tabIndex > 0 || positionOffset > 0 then tabLeft + positionOffset - titleOffset
    else tabLeft + positionOffset
  }

  /** The extra scroll offset during a drag: (int) (positionOffset * width). */
  function ScrollShare(positionOffset: real, width: int): (share: int)
    ensures 0.0 <= positionOffset <= 1.0 && 0 <= width ==> 0 <= share <= width
    ensures positionOffset == 0.0 ==> share == 0
  {
    var product := positionOffset * width as real;
    if 0.0 <= positionOffset <= 1.0 && 0 <= width then
      MulBetween(positionOffset, width as real);
      TruncateBetween(product, 0, width);
      TruncateToInt(product)
    else
      TruncateToInt(product)
  }

  /** The index of the first tab that is the given view, if any. */
  function IndexOfView(tabs: seq<TabView>, viewId: nat): (r: Option<nat>)
    ensures r.Some? ==>
      r.value < |tabs| && tabs[r.value].viewId == viewId &&
      forall k :: 0 <= k < r.value ==> tabs[k].viewId != viewId
    ensures r.None? ==> forall k :: 0 <= k < |tabs| ==> tabs[k].viewId != viewId
  {
    if |tabs| == 0 then None
    else if tabs[0].viewId == viewId then Some(0)
    else match IndexOfView(tabs[1..], viewId)
      case None => None
      case Some(i) => Some(i + 1)
  }

  /** Every view appears at most once among the tabs. */
  ghost predicate DistinctViews(tabs: seq<TabView>) {
    forall i, j :: 0 <= i < j < |tabs| ==> tabs[i].viewId != tabs[j].viewId
  }

  /** A tab of a strip whose views are distinct is found at its own index. */
  lemma IndexOfOwnView(tabs: seq<TabView>, k: nat)
    requires DistinctViews(tabs) && k < |tabs|
    ensures IndexOfView(tabs, tabs[k].viewId) == Some(k)
  {
  }

  /** The selection loop of onPageSelected as written, from iteration i on:
      iteration i writes (position == i) into the selected flag of the child at
      position, never into the child at i. */
  function SelectLoopAsWritten(tabs: seq<TabView>, position: nat, i: nat): (r: seq<TabView>)
    requires position < |tabs|
    ensures |r| == |tabs|
    decreases |tabs| - i
  {
    if i >= |tabs| then tabs
    else SelectLoopAsWritten(tabs[position := tabs[position].(selected := position == i)], position, i + 1)
  }

  /** Running the loop as written from any iteration leaves only the child at
      position changed, selected exactly when position is the last index. */
  lemma {:induction false} SelectLoopAsWrittenResult(tabs: seq<TabView>, position: nat, i: nat)
    requires position < |tabs| && i < |tabs|
    ensures SelectLoopAsWritten(tabs, position, i) ==
      tabs[position := tabs[position].(selected := position == |tabs| - 1)]
    decreases |tabs| - i
  {
    var next := tabs[position := tabs[position].(selected := position == i)];
    if i + 1 < |tabs| {
      SelectLoopAsWrittenResult(next, position, i + 1);
      assert next[position := next[position].(selected := position == |tabs| - 1)]
          == tabs[position := tabs[position].(selected := position == |tabs| - 1)];
    }
  }

  /** What the loop is evidently meant to do: mark the tab at position selected
      and every other tab not selected. */
  function SelectOnly(tabs: seq<TabView>, position: int): (r: seq<TabView>)
    ensures |r| == |tabs|
    ensures forall i :: 0 <= i < |r| ==> r[i].selected == (i == position)
    ensures forall i :: 0 <= i < |tabs| ==> r[i].(selected := tabs[i].selected) == tabs[i]
  {
    seq(|tabs|, i requires 0 <= i < |tabs| => tabs[i].(selected := i == position))
  }

  /** With at least two tabs, selecting any page but the last leaves that
      page's tab unselected under the loop as written, where the intended loop
      selects it. */
  lemma AsWrittenMissesSelectedPage(tabs: seq<TabView>, position: nat)
    requires position < |tabs| - 1
    ensures !SelectLoopAsWritten(tabs, position, 0)[position].selected
    ensures SelectOnly(tabs, position)[position].selected
  {
    SelectLoopAsWrittenResult(tabs, position, 0);
  }

  /** The tab layout: its configuration, the bound pager, the listeners
      registered on it, the scroll state recorded by its page listener, its
      horizontal scroll position, and the notifications it has sent so far.
      nextViewId hands out the identities of newly inflated tab views. */
  class SlidingTabLayout {
    const strip: SlidingTabStrip
    const titleOffset: int
    var displayType: DisplayType
    var stretchToParent: bool
    var viewPager: Option<ViewPager>
    var hasPageChangeDelegate: bool
    var hasTabChangedListener: bool
    var scrollState: int
    var scrollX: int
    var notifications: seq<Notification>
    var nextViewId: nat

    /** The strip holds one tab per page of the bound pager (none without a
        pager), and every tab is a distinct view handed out earlier. */
    ghost predicate Valid()
      reads this`viewPager, this`nextViewId, strip`tabs
    {
      && (viewPager.None? ==> strip.tabs == [])
      && (viewPager.Some? ==> |strip.tabs| == viewPager.value.adapter.GetCount())
      && DistinctViews(strip.tabs)
      && (forall k :: 0 <= k < |strip.tabs| ==> strip.tabs[k].viewId < nextViewId)
    }

    /** The screen density and the theme's foreground colour, which the strip
        uses for its border, are parameters. */
    constructor (density: real, themeForegroundColor: bv32)
      ensures Valid() && fresh(strip)
      ensures titleOffset == DipsToPx(TITLE_OFFSET_DIPS, density)
      ensures displayType == TitleOnly && !stretchToParent && viewPager.None?
      ensures !hasPageChangeDelegate && !hasTabChangedListener
      ensures scrollX == 0 && notifications == []
      ensures strip.tabs == [] && strip.selectedPosition == 0 && strip.selectionOffset == 0.0
      ensures strip.bottomBorderThickness == DipsToPx(DEFAULT_BOTTOM_BORDER_THICKNESS_DIPS, density)
      ensures strip.indicatorThickness == DipsToPx(DEFAULT_INDICATOR_THICKNESS_DIPS, density)
      ensures strip.dividerThickness == DipsToPx(DEFAULT_DIVIDER_THICKNESS_DIPS, density)
      ensures strip.indicatorDrawable == ColorDrawable(DEFAULT_SELECTED_INDICATOR_COLOR)
      ensures strip.dividerColor == 0x2000_0000 && strip.dividerHeight == DEFAULT_DIVIDER_HEIGHT
      ensures Alpha(strip.bottomBorderColor) == DEFAULT_BOTTOM_BORDER_COLOR_ALPHA
      ensures Red(strip.bottomBorderColor) == Red(themeForegroundColor)
      ensures Green(strip.bottomBorderColor) == Green(themeForegroundColor)
      ensures Blue(strip.bottomBorderColor) == Blue(themeForegroundColor)
    {
      titleOffset := DipsToPx(TITLE_OFFSET_DIPS, density);
      displayType := TitleOnly;
      stretchToParent := false;
      viewPager := None;
      hasPageChangeDelegate := false;
      hasTabChangedListener := false;
      scrollState := SCROLL_STATE_IDLE;
      scrollX := 0;
      notifications := [];
      nextViewId := 0;
      strip := new SlidingTabStrip(density, themeForegroundColor);
    }

    method SetDisplayType(t: DisplayType)
      modifies this`displayType
      ensures displayType == t
    {
      displayType := t;
    }

    method GetDisplayType() returns (t: DisplayType)
      ensures t == displayType
    {
      t := displayType;
    }

    method SetStretchToParent(stretch: bool)
      modifies this`stretchToParent
      ensures stretchToParent == stretch
    {
      stretchToParent := stretch;
    }

    method IsStretchToParent() returns (stretch: bool)
      ensures stretch == stretchToParent
    {
      stretch := stretchToParent;
    }

    method SetBottomBorderThickness(thickness: int)
      modifies strip`bottomBorderThickness
      ensures strip.bottomBorderThickness == thickness
    {
      strip.SetBottomBorderThickness(thickness);
    }

    method SetDividerThickness(thickness: int)
      modifies strip`dividerThickness
      ensures strip.dividerThickness == thickness
    {
      strip.SetDividerThickness(thickness);
    }

    method SetIndicatorDrawable(drawable: Drawable)
      modifies strip`indicatorDrawable
      ensures strip.indicatorDrawable == drawable
    {
      strip.SetIndicatorDrawable(drawable);
    }

    method SetIndicatorThickness(thickness: int)
      modifies strip`indicatorThickness
      ensures strip.indicatorThickness == thickness
    {
      strip.SetIndicatorThickness(thickness);
    }

    method SetDividerColors(color: bv32, alpha: bv32)
      modifies strip`dividerColor
      ensures strip.dividerColor == SetColorAlpha(color, alpha)
    {
      strip.SetDividerColors(color, alpha);
    }

    /** Registers (or, with false, clears) the page-change delegate. */
    method SetOnPageChangeListener(present: bool)
      modifies this`hasPageChangeDelegate
      ensures hasPageChangeDelegate == present
    {
      hasPageChangeDelegate := present;
    }

    /** Registers (or, with false, clears) the tab-changed listener. */
    method SetOnTabChangedListener(present: bool)
      modifies this`hasTabChangedListener
      ensures hasTabChangedListener == present
    {
      hasTabChangedListener := present;
    }

    /** Binds a pager (or none): the strip is emptied first; with a pager, a
        fresh page listener (whose recorded scroll state starts idle) is
        installed and the strip gets one tab per page. */
    method SetViewPager(pager: Option<ViewPager>)
      requires Valid()
      modifies this`viewPager, this`scrollState, this`nextViewId, strip`tabs
      ensures Valid()
      ensures viewPager == pager
      ensures pager.None? ==> strip.tabs == [] && scrollState == old(scrollState)
      ensures pager.Some? ==>
        scrollState == SCROLL_STATE_IDLE &&
        strip.tabs == TabsFor(pager.value.adapter, displayType, stretchToParent, old(nextViewId))
    {
      strip.RemoveAllViews();
      viewPager := pager;
      if pager.Some? {
        scrollState := SCROLL_STATE_IDLE;
        PopulateTabStrip();
      }
    }

    /** Appends one tab per page of the bound pager's adapter. */
    method PopulateTabStrip()
      requires viewPager.Some?
      modifies this`nextViewId, strip`tabs
      ensures nextViewId == old(nextViewId) + viewPager.value.adapter.GetCount()
      ensures strip.tabs ==
        old(strip.tabs) + TabsFor(viewPager.value.adapter, displayType, stretchToParent, old(nextViewId))
    {
      var adapter := viewPager.value.adapter;
      var itemCount := adapter.GetCount();
      ghost var built := TabsFor(adapter, displayType, stretchToParent, nextViewId);
      var position := 0;
      while position < itemCount
        invariant 0 <= position <= itemCount
        invariant nextViewId == old(nextViewId) + position
        invariant strip.tabs == old(strip.tabs) + built[..position]
      {
        var tab := NewTab(adapter, displayType, stretchToParent, position, nextViewId);
        nextViewId := nextViewId + 1;
        strip.AddView(tab);
        assert built[..position + 1] == built[..position] + [tab];
        position := position + 1;
      }
      assert built[..itemCount] == built;
    }

    /** onAttachedToWindow: scrolls to the pager's current item, with no extra
        offset. */
    method OnAttachedToWindow()
      modifies this`scrollX
      ensures viewPager.None? ==> scrollX == old(scrollX)
      ensures viewPager.Some? ==>
        var i := viewPager.value.currentItem;
        scrollX == if 0 <= i < |strip.tabs| then ScrollTarget(strip.tabs[i].left, i, 0, titleOffset) else old(scrollX)
    {
      if viewPager.Some? {
        ScrollToTab(viewPager.value.currentItem, 0);
      }
    }

    /** scrollToTab: nothing happens unless tabIndex names a tab; otherwise the
        layout scrolls to that tab's scroll target. */
    method ScrollToTab(tabIndex: int, positionOffset: int)
      modifies this`scrollX
      ensures scrollX ==
        if 0 <= tabIndex < |strip.tabs|
        then ScrollTarget(strip.tabs[tabIndex].left, tabIndex, positionOffset, titleOffset)
        else old(scrollX)
    {
      var tabStripChildCount := |strip.tabs|;
      if tabStripChildCount == 0 || tabIndex < 0 || tabIndex >= tabStripChildCount {
        return;
      }
      var selectedChild := strip.tabs[tabIndex];
      var targetScrollX := selectedChild.left + positionOffset;
      if tabIndex > 0 || positionOffset > 0 {
        targetScrollX := targetScrollX - titleOffset;
      }
      scrollX := targetScrollX;
    }

    /** The page listener's onPageScrolled: for a position naming a tab, the
        strip takes (position, offset), the layout scrolls by the offset's share
        of the tab's width, and the delegate hears of it; for any other position
        nothing happens. */
    method OnPageScrolled(position: int, positionOffset: real, positionOffsetPixels: int)
      requires Valid()
      modifies this`scrollX, this`notifications, strip`selectedPosition, strip`selectionOffset
      ensures Valid()
      ensures !(0 <= position < |strip.tabs|) ==>
        && scrollX == old(scrollX) && notifications == old(notifications)
        && strip.selectedPosition == old(strip.selectedPosition)
        && strip.selectionOffset == old(strip.selectionOffset)
      ensures 0 <= position < |strip.tabs| ==>
        && strip.selectedPosition == position && strip.selectionOffset == positionOffset
        && scrollX == ScrollTarget(strip.tabs[position].left, position,
                                   ScrollShare(positionOffset, strip.tabs[position].Width()), titleOffset)
        && notifications == old(notifications) +
             if hasPageChangeDelegate then [DelegatePageScrolled(position, positionOffset, positionOffsetPixels)] else []
    {
      var tabStripChildCount := |strip.tabs|;
      if tabStripChildCount == 0 || position < 0 || position >= tabStripChildCount {
        return;
      }
      strip.OnViewPagerPageChanged(position, positionOffset);
      var selectedTab := strip.tabs[position];
      var extraOffset := ScrollShare(positionOffset, selectedTab.Width());
      ScrollToTab(position, extraOffset);
      if hasPageChangeDelegate {
        notifications := notifications + [DelegatePageScrolled(position, positionOffset, positionOffsetPixels)];
      }
    }

    /** The page listener's onPageScrollStateChanged: records the state and
        forwards it. */
    method OnPageScrollStateChanged(state: int)
      modifies this`scrollState, this`notifications
      ensures scrollState == state
      ensures notifications == old(notifications) +
        if hasPageChangeDelegate then [DelegatePageScrollStateChanged(state)] else []
    {
      scrollState := state;
      if hasPageChangeDelegate {
        notifications := notifications + [DelegatePageScrollStateChanged(state)];
      }
    }

    /** The page listener's onPageSelected, as written. Only while the recorded
        scroll state is idle does it snap the strip to (position, 0), scroll to
        the tab and run the selection loop, which writes the flag of the tab at
        position alone: that tab ends selected exactly when it is the last one.
        The delegate hears of every selection. The ViewPager only selects its
        own pages, which by Valid() are the tabs; a position outside them would
        make the loop dereference null. */
    method OnPageSelected(position: int)
      requires Valid()
      requires scrollState != SCROLL_STATE_IDLE || strip.tabs == [] || 0 <= position < |strip.tabs|
      modifies this`scrollX, this`notifications, strip`selectedPosition, strip`selectionOffset, strip`tabs
      ensures Valid()
      ensures scrollState != SCROLL_STATE_IDLE ==>
        && scrollX == old(scrollX) && strip.tabs == old(strip.tabs)
        && strip.selectedPosition == old(strip.selectedPosition)
        && strip.selectionOffset == old(strip.selectionOffset)
      ensures scrollState == SCROLL_STATE_IDLE ==>
        && strip.selectedPosition == position && strip.selectionOffset == 0.0
        && scrollX == (if 0 <= position < |strip.tabs|
                       then ScrollTarget(strip.tabs[position].left, position, 0, titleOffset)
                       else old(scrollX))
        && |strip.tabs| == |old(strip.tabs)|
        && (strip.tabs != [] ==>
              strip.tabs == old(strip.tabs)[position := old(strip.tabs)[position].(selected := position == |strip.tabs| - 1)])
      ensures notifications == old(notifications) +
        if hasPageChangeDelegate then [DelegatePageSelected(position)] else []
    {
      if scrollState == SCROLL_STATE_IDLE {
        strip.OnViewPagerPageChanged(position, 0.0);
        ScrollToTab(position, 0);
        if strip.tabs != [] {
          ghost var before := strip.tabs;
          var i := 0;
          while i < |strip.tabs|
            modifies strip`tabs
            invariant 0 <= i <= |strip.tabs| == |before|
            invariant SelectLoopAsWritten(strip.tabs, position, i) == SelectLoopAsWritten(before, position, 0)
            invariant forall k :: 0 <= k < |strip.tabs| ==> strip.tabs[k].viewId == before[k].viewId
          {
            strip.SetChildSelected(position, position == i);
            i := i + 1;
          }
          SelectLoopAsWrittenResult(before, position, 0);
        }
      }
      if hasPageChangeDelegate {
        notifications := notifications + [DelegatePageSelected(position)];
      }
    }

    /** onPageSelected with the selection loop as evidently intended: in the
        idle state every tab's flag says whether it is the selected page's. */
    method OnPageSelectedCorrected(position: int)
      requires Valid()
      modifies this`scrollX, this`notifications, strip`selectedPosition, strip`selectionOffset, strip`tabs
      ensures Valid()
      ensures scrollState != SCROLL_STATE_IDLE ==>
        && scrollX == old(scrollX) && strip.tabs == old(strip.tabs)
        && strip.selectedPosition == old(strip.selectedPosition)
        && strip.selectionOffset == old(strip.selectionOffset)
      ensures scrollState == SCROLL_STATE_IDLE ==>
        && strip.selectedPosition == position && strip.selectionOffset == 0.0
        && scrollX == (if 0 <= position < |strip.tabs|
                       then ScrollTarget(strip.tabs[position].left, position, 0, titleOffset)
                       else old(scrollX))
        && strip.tabs == SelectOnly(old(strip.tabs), position)
      ensures notifications == old(notifications) +
        if hasPageChangeDelegate then [DelegatePageSelected(position)] else []
    {
      if scrollState == SCROLL_STATE_IDLE {
        strip.OnViewPagerPageChanged(position, 0.0);
        ScrollToTab(position, 0);
        ghost var before := strip.tabs;
        var i := 0;
        while i < |strip.tabs|
          modifies strip`tabs
          invariant 0 <= i <= |strip.tabs| == |before|
          invariant forall k :: 0 <= k < i ==> strip.tabs[k] == before[k].(selected := k == position)
          invariant forall k :: i <= k < |strip.tabs| ==> strip.tabs[k] == before[k]
        {
          strip.SetChildSelected(i, position == i);
          i := i + 1;
        }
      }
      if hasPageChangeDelegate {
        notifications := notifications + [DelegatePageSelected(position)];
      }
    }

    /** The tab click listener: a click on the tab at index i asks the pager for
        page i and tells the tab-changed listener, once; a click on a view that
        is not a tab of the strip does nothing. */
    method OnClick(viewId: nat)
      requires Valid()
      modifies this`viewPager, this`notifications
      ensures Valid()
      ensures IndexOfView(strip.tabs, viewId).None? ==>
        viewPager == old(viewPager) && notifications == old(notifications)
      ensures IndexOfView(strip.tabs, viewId).Some? ==>
        var i := IndexOfView(strip.tabs, viewId).value;
        old(viewPager).Some? &&
        viewPager == Some(old(viewPager).value.(currentItem := i)) &&
        notifications == old(notifications) + if hasTabChangedListener then [TabChanged(i)] else []
    {
      var i := 0;
      while i < |strip.tabs|
        invariant 0 <= i <= |strip.tabs|
        invariant forall k :: 0 <= k < i ==> strip.tabs[k].viewId != viewId
        invariant viewPager == old(viewPager) && notifications == old(notifications)
      {
        if strip.tabs[i].viewId == viewId {
          viewPager := Some(viewPager.value.(currentItem := i));
          if hasTabChangedListener {
            notifications := notifications + [TabChanged(i)];
          }
          return;
        }
        i := i + 1;
      }
    }
  }
}
