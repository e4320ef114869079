# Sliding tabs, modelled in Dafny

This project models the two views of the SlidingTabs library, with no Android code.

`SlidingTabLayout` is a horizontally scrolling container. It does four things:

- it builds one tab view per page of a bound `ViewPager`;
- it listens to the pager's scroll callbacks, moves the strip's selection and scrolls so that the active tab stays visible;
- it forwards those callbacks to a delegate listener;
- it turns a tap on a tab into a page change and an `onTabChanged` notification.

`SlidingTabStrip` is the view inside the layout. It holds the tabs and the selection `(selectedPosition, selectionOffset)`. On every draw pass it paints three things:

- the selection indicator, interpolated toward the next tab during a drag;
- a full-width bottom border;
- a divider at the right edge of every tab but the last.

Files:

- `views.dfy` (module `Views`): a tab view as a record. It holds the view's identity, its left and right bounds, its selected flag, and the visibility and content of its title and icon. Also here: rectangles, lines, and Java's `(int)` cast of a float (`TruncateToInt`, rounding toward zero).
- `tab_strip.dfy` (module `TabStrip`): ARGB colours on `bv32` and `SetColorAlpha`, plus the geometry of a draw pass. The class `SlidingTabStrip` has the strip's fields. Each setter changes only its own field; its `modifies` clause names that one field. `Picture` states what a draw pass paints. `DispatchDraw` computes it, with the divider loop, and is proved equal to `Picture`.
- `tab_layout.dfy` (module `TabLayout`): the display type, the pager's adapter, the notifications sent to listeners, and the class `SlidingTabLayout`. The class also stands for the layout's two inner listener classes. The page listener's recorded scroll state is a field of the layout. A new listener starts in the idle state, so the field is reset to idle whenever a non-null pager is bound. `Valid()` is kept by every operation. It says the strip holds exactly one tab per page of the bound pager, as the page count read at binding, and no tab without a pager. It also says every tab is a distinct view.
- `scenarios.dfy` (module `Scenarios`): client methods that walk through concrete cases using only the contracts. They cover:
  - the indicator at [150, 260] halfway between tabs spanning [100, 200) and [200, 320);
  - binding four pages "Item 1" to "Item 4" and tapping the third tab;
  - a page selected while the pager settles after a drag, then once it is idle;
  - a rebind to fewer pages.

Notes on behaviour:

- A view pager becomes a value: its adapter plus its current item. The adapter has one title per page and, if it is a `TabIconProvider`, one icon resource per page. The adapter is fixed while it is bound (see "## Left out").
- A click names a view by its identity. `setCurrentItem` updates the pager value's current item.
- The listeners become flags. What they are told is appended to `notifications`.
- The tab-changed listener is notified only when a tab is tapped (SlidingTabLayout.java:318-320). A page selected by swiping reaches only the page-change delegate (SlidingTabLayout.java:301-303).
- The selection offset is a `real`. The `(int)` casts are truncations.
- Drawing a strip whose selected position names no child, while children exist, ends in `NullChildDereference`. In Java, `getChildAt` returns null there and `getLeft()` throws. Nothing in the strip keeps the position in range: `Scenarios.RebindToFewerPages` rebinds a four-page layout with tab 3 selected to a two-page pager. If no scroll callback reaches the layout between the rebind and the next draw pass, that pass fails. In the model a pager sends no callbacks of its own. On a device, a pager's first layout normally calls `onPageScrolled` for its current item, which moves the selection back into range before drawing.

## Model

| member | source | states |
|---|---|---|
| `Views.TruncateToInt` | SlidingTabs/src/main/java/com/jungkai/slidingtabs/SlidingTabLayout.java:265 | the `(int)` cast of a float rounds toward zero: for x >= 0 it is the floor, for x < 0 the ceiling |
| `Views.TruncateBetween` | SlidingTabs/src/main/java/com/jungkai/slidingtabs/SlidingTabStrip.java:145-148 | truncating a value that lies between two integers gives a result between the same two integers |
| `TabStrip.SetColorAlpha` | SlidingTabs/src/main/java/com/jungkai/slidingtabs/SlidingTabStrip.java:171-173 | the result keeps the red, green and blue bytes of the colour; its alpha byte is the low byte of the given alpha, so it is the alpha itself for alpha in [0, 255] |
| `TabStrip.DipsToPx` | SlidingTabs/src/main/java/com/jungkai/slidingtabs/SlidingTabStrip.java:84-93 | a length in dips becomes `(int)(dips * density)` pixels: the floor of the product for a non-negative density, and the length itself at density 1 |
| `TabStrip.Interpolate` | SlidingTabs/src/main/java/com/jungkai/slidingtabs/SlidingTabStrip.java:145-148 | one indicator edge during a drag, `(int)(o*next + (1-o)*cur)`: at o = 0 it is the selected tab's edge, at o = 1 the next tab's edge |
| `TabStrip.InterpolateBetween` | SlidingTabs/src/main/java/com/jungkai/slidingtabs/SlidingTabStrip.java:145-148 | for an offset o in [0, 1], the edge `(int)(o*next + (1-o)*cur)` lies in the closed interval between cur and next, whichever of the two is smaller; at o = 0 it is cur |
| `TabStrip.IndicatorSpan` | SlidingTabs/src/main/java/com/jungkai/slidingtabs/SlidingTabStrip.java:138-149 | with offset <= 0, or with the last tab selected, the span is exactly the selected tab's [left, right]; otherwise, for an offset up to 1, each edge lies in the closed interval between the selected tab's edge and the next tab's edge, with either edge on the left (tab i+1 can lie left of tab i, as in a right-to-left layout) |
| `TabStrip.Clamp01` | SlidingTabs/src/main/java/com/jungkai/slidingtabs/SlidingTabStrip.java:135 | `Math.min(Math.max(0f, x), 1f)` is 0 below 0, 1 above 1, and x itself for x in [0, 1] |
| `TabStrip.Dividers` | SlidingTabs/src/main/java/com/jungkai/slidingtabs/SlidingTabStrip.java:159-165 | the divider loop draws childCount - 1 lines, none for one child or fewer. Line i is vertical at the right edge of tab i, starts at the band's top and is as long as the band |
| `TabStrip.DividerHeightPx` | SlidingTabs/src/main/java/com/jungkai/slidingtabs/SlidingTabStrip.java:135 | the divider band height clamps the fraction to [0, 1], so it is never more than the strip height; for a fraction in [0, 1] it is the floor of fraction times height |
| `TabStrip.SeparatorTop` | SlidingTabs/src/main/java/com/jungkai/slidingtabs/SlidingTabStrip.java:159 | the band of dividers fits inside the strip height, and the space above and below it differs by at most one pixel |
| `TabStrip.SlidingTabStrip.constructor` | SlidingTabs/src/main/java/com/jungkai/slidingtabs/SlidingTabStrip.java:63-94 | the default divider colour is black with alpha 0x20 (0x20000000); the border colour is the theme foreground's RGB with alpha 0x26; the indicator is the 0xFF33B5E5 colour drawable; the divider band is half the height; the border, indicator and divider thicknesses are 2, 6 and 0 dips at the given density; no tabs and selection (0, 0) |
| `TabStrip.SlidingTabStrip.SetBottomBorderThickness` | SlidingTabs/src/main/java/com/jungkai/slidingtabs/SlidingTabStrip.java:96-98 | sets the border thickness; no other field changes |
| `TabStrip.SlidingTabStrip.SetIndicatorThickness` | SlidingTabs/src/main/java/com/jungkai/slidingtabs/SlidingTabStrip.java:100-102 | sets the indicator thickness; no other field changes |
| `TabStrip.SlidingTabStrip.SetDividerThickness` | SlidingTabs/src/main/java/com/jungkai/slidingtabs/SlidingTabStrip.java:104-106 | sets the divider thickness; no other field changes |
| `TabStrip.SlidingTabStrip.SetIndicatorDrawable` | SlidingTabs/src/main/java/com/jungkai/slidingtabs/SlidingTabStrip.java:108-111 | sets the indicator drawable; no other field changes |
| `TabStrip.SlidingTabStrip.SetDividerColors` | SlidingTabs/src/main/java/com/jungkai/slidingtabs/SlidingTabStrip.java:113-116 | the divider colour becomes `SetColorAlpha(color, alpha)`; no other field changes |
| `TabStrip.SlidingTabStrip.OnViewPagerPageChanged` | SlidingTabs/src/main/java/com/jungkai/slidingtabs/SlidingTabStrip.java:118-122 | stores exactly the given position and offset, unchecked; no other field changes |
| `TabStrip.SlidingTabStrip.RemoveAllViews` | SlidingTabs/src/main/java/com/jungkai/slidingtabs/SlidingTabLayout.java:177 | the strip has no children afterwards |
| `TabStrip.SlidingTabStrip.AddView` | SlidingTabs/src/main/java/com/jungkai/slidingtabs/SlidingTabLayout.java:221 | the new tab is appended after the existing children |
| `TabStrip.SlidingTabStrip.SetChildSelected` | SlidingTabs/src/main/java/com/jungkai/slidingtabs/SlidingTabLayout.java:294-296 | only the selected flag of the one child changes |
| `TabStrip.SlidingTabStrip.Picture` | SlidingTabs/src/main/java/com/jungkai/slidingtabs/SlidingTabStrip.java:130-166 | the pass fails exactly when there are children and the selected position names none of them. Otherwise there is an indicator exactly when there are children. The indicator uses the current drawable and spans [height - indicatorThickness, height] vertically, with the horizontal bounds of `IndicatorSpan`, between the selected and next tab's edges in either order. The border is [0, width] x [height - borderThickness, height] in the border colour. There are childCount - 1 dividers, none for one child or fewer. Divider i is vertical at the right edge of tab i, inside [0, height], as tall as `DividerHeightPx`, and centred to within a pixel. Dividers use the divider colour and thickness |
| `TabStrip.SlidingTabStrip.DispatchDraw` | SlidingTabs/src/main/java/com/jungkai/slidingtabs/SlidingTabStrip.java:130-166 | the draw pass, with its divider loop, computes exactly `Picture` |
| `TabLayout.NewTab` | SlidingTabs/src/main/java/com/jungkai/slidingtabs/SlidingTabLayout.java:195-219 | the tab built for one page is the given fresh view, unselected, taking weight exactly when stretched. Its title is visible, showing the page title, exactly when the display type includes titles. Its icon is visible, showing the page's icon, exactly when the display type includes icons and the adapter provides them |
| `TabLayout.ScrollTarget` | SlidingTabs/src/main/java/com/jungkai/slidingtabs/SlidingTabLayout.java:241-245 | the scroll target is the tab's left edge plus the extra offset. For any tab but the first, or with a positive offset, it leaves the title offset of room to its left; the first tab at rest is not shifted |
| `TabLayout.ScrollShare` | SlidingTabs/src/main/java/com/jungkai/slidingtabs/SlidingTabLayout.java:265 | the extra offset during a drag, `(int)(offset * width)`, lies in [0, width] for an offset in [0, 1] and a non-negative width, and is 0 at offset 0 |
| `TabLayout.TabsFor` | SlidingTabs/src/main/java/com/jungkai/slidingtabs/SlidingTabLayout.java:191-222 | the tabs built from an adapter follow these rules. There is one tab per page, in page order, each a new unselected view. Tab p shows title `getPageTitle(p)` exactly when the display type is title-only or title-and-icon; otherwise the title is gone. Tab p shows icon `getImageResourceId(p)` exactly when the type is icon-only or title-and-icon and the adapter provides icons; otherwise the icon is gone. So icon-only with a non-provider adapter shows neither. Stretched tabs carry the weight layout parameters |
| `TabLayout.IndexOfView` | SlidingTabs/src/main/java/com/jungkai/slidingtabs/SlidingTabLayout.java:314-315 | finds the first child that is the clicked view, or reports that no child is |
| `TabLayout.IndexOfOwnView` | SlidingTabs/src/main/java/com/jungkai/slidingtabs/SlidingTabLayout.java:314-316 | among distinct views, a click on the tab at index k is found at k |
| `TabLayout.SelectLoopAsWritten` | SlidingTabs/src/main/java/com/jungkai/slidingtabs/SlidingTabLayout.java:290-298 | the selection loop as written, iteration by iteration, writing `position == i` into the child at position; it keeps the number of tabs |
| `TabLayout.SelectLoopAsWrittenResult` | SlidingTabs/src/main/java/com/jungkai/slidingtabs/SlidingTabLayout.java:290-298 | the loop as written changes only the tab at position, which ends selected exactly when position is childCount - 1; every other tab's flag is unchanged |
| `TabLayout.SelectOnly` | SlidingTabs/src/main/java/com/jungkai/slidingtabs/SlidingTabLayout.java:290-298 | the intended selection: tab i ends selected exactly when i is the position; nothing but the flags changes |
| `TabLayout.AsWrittenMissesSelectedPage` | SlidingTabs/src/main/java/com/jungkai/slidingtabs/SlidingTabLayout.java:290-298 | with at least two tabs, selecting any page but the last leaves its tab unselected under the loop as written, but selected under the intended loop |
| `TabLayout.SlidingTabLayout.constructor` | SlidingTabs/src/main/java/com/jungkai/slidingtabs/SlidingTabLayout.java:83-98 | starts title-only, unstretched, with no pager, no listeners, an empty strip with selection (0, 0), and scroll position 0. The title offset is 24 dips at the given density, and the strip gets its defaults: the thicknesses, divider colour 0x20000000, the border colour with the theme's RGB and alpha 0x26, the 0xFF33B5E5 indicator drawable and the half-height divider band |
| `TabLayout.SlidingTabLayout.SetDisplayType` | SlidingTabs/src/main/java/com/jungkai/slidingtabs/SlidingTabLayout.java:132-134 | sets the display type and nothing else; the tabs already built are not touched |
| `TabLayout.SlidingTabLayout.GetDisplayType` | SlidingTabs/src/main/java/com/jungkai/slidingtabs/SlidingTabLayout.java:136-138 | returns the display type |
| `TabLayout.SlidingTabLayout.SetStretchToParent` | SlidingTabs/src/main/java/com/jungkai/slidingtabs/SlidingTabLayout.java:140-142 | sets the stretch flag and nothing else |
| `TabLayout.SlidingTabLayout.IsStretchToParent` | SlidingTabs/src/main/java/com/jungkai/slidingtabs/SlidingTabLayout.java:152-154 | returns the stretch flag |
| `TabLayout.SlidingTabLayout.SetBottomBorderThickness` | SlidingTabs/src/main/java/com/jungkai/slidingtabs/SlidingTabLayout.java:144-146 | passes the thickness to the strip, changing only the strip's border thickness |
| `TabLayout.SlidingTabLayout.SetDividerThickness` | SlidingTabs/src/main/java/com/jungkai/slidingtabs/SlidingTabLayout.java:148-150 | passes the thickness to the strip, changing only the strip's divider thickness |
| `TabLayout.SlidingTabLayout.SetIndicatorDrawable` | SlidingTabs/src/main/java/com/jungkai/slidingtabs/SlidingTabLayout.java:156-158 | passes the drawable to the strip, changing only the strip's indicator drawable |
| `TabLayout.SlidingTabLayout.SetIndicatorThickness` | SlidingTabs/src/main/java/com/jungkai/slidingtabs/SlidingTabLayout.java:160-162 | passes the thickness to the strip, changing only the strip's indicator thickness |
| `TabLayout.SlidingTabLayout.SetDividerColors` | SlidingTabs/src/main/java/com/jungkai/slidingtabs/SlidingTabLayout.java:164-166 | the strip's divider colour becomes `SetColorAlpha(color, alpha)`; nothing else changes |
| `TabLayout.SlidingTabLayout.SetOnPageChangeListener` | SlidingTabs/src/main/java/com/jungkai/slidingtabs/SlidingTabLayout.java:168-170 | registers or clears the page-change delegate and nothing else |
| `TabLayout.SlidingTabLayout.SetOnTabChangedListener` | SlidingTabs/src/main/java/com/jungkai/slidingtabs/SlidingTabLayout.java:307-309 | registers or clears the tab-changed listener and nothing else |
| `TabLayout.SlidingTabLayout.SetViewPager` | SlidingTabs/src/main/java/com/jungkai/slidingtabs/SlidingTabLayout.java:176-184 | always empties the strip first. With no pager the strip stays empty and the pager is cleared. With a pager, the scroll state starts idle and the strip holds exactly `TabsFor` the pager's adapter, in page order. Keeps `Valid()` |
| `TabLayout.SlidingTabLayout.PopulateTabStrip` | SlidingTabs/src/main/java/com/jungkai/slidingtabs/SlidingTabLayout.java:186-223 | the loop appends `TabsFor` the adapter to the strip, one new view identity per page |
| `TabLayout.SlidingTabLayout.OnAttachedToWindow` | SlidingTabs/src/main/java/com/jungkai/slidingtabs/SlidingTabLayout.java:225-231 | with a pager, scrolls to the pager's current item with no extra offset; without a pager, nothing changes |
| `TabLayout.SlidingTabLayout.ScrollToTab` | SlidingTabs/src/main/java/com/jungkai/slidingtabs/SlidingTabLayout.java:233-249 | no change when the strip is empty or the index is outside [0, childCount). Otherwise scrollX becomes the tab's left edge plus the offset, less the title offset unless the index is 0 and the offset is not positive |
| `TabLayout.SlidingTabLayout.OnPageScrolled` | SlidingTabs/src/main/java/com/jungkai/slidingtabs/SlidingTabLayout.java:254-273 | a position outside the tabs changes nothing and reaches no delegate. Otherwise the strip takes exactly (position, offset). The layout scrolls to that tab with extra offset `(int)(offset * tab width)`. The delegate, if set, hears the same three arguments, once |
| `TabLayout.SlidingTabLayout.OnPageScrollStateChanged` | SlidingTabs/src/main/java/com/jungkai/slidingtabs/SlidingTabLayout.java:275-282 | records the state and forwards it to the delegate, if set |
| `TabLayout.SlidingTabLayout.OnPageSelected` | SlidingTabs/src/main/java/com/jungkai/slidingtabs/SlidingTabLayout.java:284-304 | when the recorded state is idle: the strip is snapped to (position, 0), the layout scrolls to the tab, and only the tab at position has its flag written (selected iff it is the last tab). In any other state the strip, its tabs and the scroll position are unchanged. The delegate hears the selection in every case |
| `TabLayout.SlidingTabLayout.OnPageSelectedCorrected` | SlidingTabs/src/main/java/com/jungkai/slidingtabs/SlidingTabLayout.java:284-304 | the same, for any position, but the idle branch leaves exactly the tab at position selected and all its siblings deselected |
| `TabLayout.SlidingTabLayout.OnClick` | SlidingTabs/src/main/java/com/jungkai/slidingtabs/SlidingTabLayout.java:311-326 | a click on the view that is tab i sets the pager's current item to i. It sends exactly one `TabChanged(i)` when a tab-changed listener is set, and none otherwise. A view that is not a tab changes nothing |

## Findings

| source | as written | input that shows it | evidently intended | confidence | as-written member | corrected member |
|---|---|---|---|---|---|---|
| SlidingTabs/src/main/java/com/jungkai/slidingtabs/SlidingTabLayout.java:290-298 | every iteration fetches `getChildAt(position)`, not `getChildAt(i)`, so only the tab at position is written; the last write is `position == childCount - 1` | four tabs, scroll state idle, `onPageSelected(1)`: tab 1 ends unselected and no tab is selected (`Scenarios.SelectWhileDraggingThenIdle`) | exactly the tab at position selected, its siblings deselected | high; not executed | `TabLayout.AsWrittenMissesSelectedPage` | `TabLayout.SlidingTabLayout.OnPageSelectedCorrected` |

`OnPageSelected` models the loop as written. `OnPageSelectedCorrected` is the intended version, proved to end with exactly the tab at the position selected.

## Left out

- `setStyle`/`applyStyle`: they read attributes through `TypedArray` and generated resource ids. Only the setters they call are modelled.
- `setCustomTabView`: the layout id it stores is never read.
- `blendColors`: float colour blending that nothing calls.
- Screen density is a parameter of the constructors; it is not read from the display metrics.
- 32-bit int arithmetic: coordinates, thicknesses, offsets and scroll positions are unbounded integers. Java's wrap-around at 32 bits is not modelled, so `height - indicatorThickness`, `height - mBottomBorderThickness`, `separatorTop + dividerHeightPx` and the scroll target's sums agree with Java only while they stay within the int range. Only colours are 32-bit values.
- Rendering: `Canvas`, `Paint` and `Drawable.draw` are out. Only the geometry and paint values handed to them are modelled. So is `invalidate()`.
- Floating point: offsets and the divider height are exact reals. No IEEE rounding is modelled. The `(int)` cast's saturation at the int range and its NaN case are not modelled.
- `Views.TruncateToInt`: models the `(int)` cast only for values within the int range.
- The framework's layout pass: measuring, and laying children out with or without weights. Tabs keep the bounds they were added with; newly built tabs have bounds 0 and 0.
- `HorizontalScrollView.scrollTo` clamps to the scrollable range. `scrollX` is the requested position, unclamped.
- `ViewPager.setCurrentItem`: its clamping, its animation and its re-entrant listener callbacks are not modelled. It sets the pager's current item.
- A previously bound pager keeps its old page listener after a rebind. Callbacks from that pager are not modelled.
- Null arguments are not modelled: a null drawable, a null adapter and null page titles are not values of the model's types.
- Adapter changes after binding: `populateTabStrip` reads `getCount()` once (SlidingTabLayout.java:191), and the layout registers no data-set observer. A pager whose adapter grows, through `notifyDataSetChanged` or a new `setAdapter`, can then have more pages than the strip has tabs. The model's adapter is a value fixed at binding, so this divergence is not modelled.
- `TabLayout.SlidingTabLayout.OnPageSelected`: requires that, in the idle state with tabs present, the position names a tab. That holds only while the bound adapter still has the page count read at binding: the pager selects only its own pages, and `Valid()` ties those to the tabs. After the adapter grows, a non-smooth `setCurrentItem` can deliver `onPageSelected` for a page with no tab while idle. Java then dereferences null at SlidingTabLayout.java:294, a case this requirement excludes.
- The `tabTitleView` and `tabIconView` fields are not modelled: they only keep the last tab's child views.
- The demo activity and its adapter are not part of this model.
