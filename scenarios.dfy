/** Clients of the two widgets that walk through concrete situations using
    only the contracts of the operations they call. */
module Scenarios {
  import opened Views
  import opened TabStrip
  import opened TabLayout

  /** A laid-out, unselected tab showing only a title. */
  function LaidOutTab(viewId: nat, left: int, right: int): TabView {
    TabView(viewId, left, right, false, false, Visible, None, Gone, None)
  }

  /** Four tabs, the third spanning [100, 200) and the fourth [200, 320):
      halfway through a drag from the third page, the indicator runs from 150
      to 260, sits on the bottom edge, and three dividers are drawn. */
  method DragHalfwayFromThirdTab() {
    var strip := new SlidingTabStrip(1.0, 0xFF00_0000);
    strip.AddView(LaidOutTab(0, 0, 50));
    strip.AddView(LaidOutTab(1, 50, 100));
    strip.AddView(LaidOutTab(2, 100, 200));
    strip.AddView(LaidOutTab(3, 200, 320));
    strip.OnViewPagerPageChanged(2, 0.5);
    var r := strip.DispatchDraw(320, 48);
    assert r.Drawn?;
    assert r.decorations.indicator == Some(Indicator(
      ColorDrawable(DEFAULT_SELECTED_INDICATOR_COLOR), Rect(150, 42, 260, 48)));
    assert r.decorations.bottomBorder == Rect(0, 46, 320, 48);
    assert |r.decorations.dividers| == 3;
  }

  /** An adapter of four pages titled "Item 1" to "Item 4" that also provides
      an icon for each. */
  function FourPages(): Adapter {
    PagerAdapter(["Item 1", "Item 2", "Item 3", "Item 4"], Some([11, 12, 13, 14]))
  }

  /** Binding four pages builds four title-only tabs in page order; a tap on
      the third tab asks for page 2 and notifies the listener once. */
  method BindAndTap() {
    var layout := new SlidingTabLayout(1.0, 0xFF00_0000);
    layout.SetOnTabChangedListener(true);
    layout.SetViewPager(Some(ViewPager(FourPages(), 0)));
    assert |layout.strip.tabs| == 4;
    assert layout.strip.tabs[2].titleText == Some("Item 3");
    assert layout.strip.tabs[2].iconVisibility == Gone;
    IndexOfOwnView(layout.strip.tabs, 2);
    layout.OnClick(layout.strip.tabs[2].viewId);
    assert layout.viewPager == Some(ViewPager(FourPages(), 2));
    assert layout.notifications == [TabChanged(2)];
  }

  /** With both titles and icons, every tab shows its page's icon. */
  method BindWithIcons() {
    var layout := new SlidingTabLayout(1.0, 0xFF00_0000);
    layout.SetDisplayType(TitleAndIcon);
    layout.SetViewPager(Some(ViewPager(FourPages(), 0)));
    assert layout.strip.tabs[3].iconResource == Some(14);
    assert layout.strip.tabs[3].titleText == Some("Item 4");
  }

  /** A page selected while the pager is still settling after a drag leaves the
      strip's selection and offset where the drag put them; once idle, the same
      event snaps the strip to (page, 0), yet the selection loop as written
      leaves that page's tab unselected. */
  method SelectWhileDraggingThenIdle() {
    var layout := new SlidingTabLayout(1.0, 0xFF00_0000);
    layout.SetViewPager(Some(ViewPager(FourPages(), 0)));
    layout.OnPageScrollStateChanged(SCROLL_STATE_DRAGGING);
    layout.OnPageScrolled(0, 0.25, 30);
    layout.OnPageScrollStateChanged(SCROLL_STATE_SETTLING);
    layout.OnPageSelected(1);
    assert layout.strip.selectedPosition == 0 && layout.strip.selectionOffset == 0.25;
    layout.OnPageScrollStateChanged(SCROLL_STATE_IDLE);
    layout.OnPageSelected(1);
    assert layout.strip.selectedPosition == 1 && layout.strip.selectionOffset == 0.0;
    assert !layout.strip.tabs[1].selected;
  }

  /** Rebinding to a pager with fewer pages keeps the strip's old selection,
      so the next draw pass looks up a child that is not there. */
  method RebindToFewerPages() {
    var layout := new SlidingTabLayout(1.0, 0xFF00_0000);
    layout.SetViewPager(Some(ViewPager(FourPages(), 0)));
    layout.OnPageScrolled(3, 0.0, 0);
    layout.SetViewPager(Some(ViewPager(PagerAdapter(["A", "B"], None), 0)));
    var r := layout.strip.DispatchDraw(320, 48);
    assert r == NullChildDereference;
  }
}
