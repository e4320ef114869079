/** The strip inside the tab layout: it holds the tab views, the selection
    pushed to it by the page listener, and the style of its decorations, and on
    every draw pass it computes where the selection indicator, the bottom border
    and the dividers between tabs go. */
module TabStrip {
  import opened Views

  const DEFAULT_BOTTOM_BORDER_THICKNESS_DIPS: nat := 2
  const DEFAULT_BOTTOM_BORDER_COLOR: bv32 := 0xFF00_0000
  const DEFAULT_BOTTOM_BORDER_COLOR_ALPHA: bv32 := 0x26
  const DEFAULT_INDICATOR_THICKNESS_DIPS: nat := 6
  const DEFAULT_SELECTED_INDICATOR_COLOR: bv32 := 0xFF33_B5E5
  const DEFAULT_DIVIDER_THICKNESS_DIPS: nat := 0
  const DEFAULT_DIVIDER_COLOR_ALPHA: bv32 := 0x20
  const DEFAULT_DIVIDER_HEIGHT: real := 0.5

  /** (int) (dips * density): a length in density-independent pixels converted
      to pixels of a screen of the given density. */
  function DipsToPx(dips: nat, density: real): (px: int)
    ensures 0.0 <= density ==> 0 <= px && px as real <= dips as real * density < (px + 1) as real
    ensures density == 1.0 ==> px == dips
  {
    TruncateToInt(dips as real * density)
  }

  // ---------------------------------------------------------------------------
  // Colours: a Java int colour is 32 bits of ARGB, one byte per channel.

  /** Color.alpha: the top byte. */
  function Alpha(color: bv32): bv32 {
    color >> 24
  }

  /** Color.red. */
  function Red(color: bv32): bv32 {
    (color >> 16) & 0xFF
  }

  /** Color.green. */
  function Green(color: bv32): bv32 {
    (color >> 8) & 0xFF
  }

  /** Color.blue. */
  function Blue(color: bv32): bv32 {
    color & 0xFF
  }

  /** Color.argb: packs the four channels without masking them, so only the
      low byte of the alpha survives the shift into the top byte. */
  function Argb(alpha: bv32, red: bv32, green: bv32, blue: bv32): bv32 {
    (alpha << 24) | (red << 16) | (green << 8) | blue
  }

  /** Replaces the alpha channel of a colour and keeps its red, green and blue. */
  function SetColorAlpha(color: bv32, alpha: bv32): (c: bv32)
    ensures Alpha(c) == alpha & 0xFF
    ensures Red(c) == Red(color) && Green(c) == Green(color) && Blue(c) == Blue(color)
  {
    Argb(alpha, Red(color), Green(color), Blue(color))
  }

  // ---------------------------------------------------------------------------
  // Geometry of one draw pass.

  /** The indicator drawable: the default colour drawable or one from resources. */
  datatype Drawable = ColorDrawable(color: bv32) | ResourceDrawable(resourceId: int)

  /** The indicator drawable and the bounds it is drawn at. */
  datatype Indicator = Indicator(drawable: Drawable, bounds: Rect)

  /** Everything one draw pass paints on top of the children: the indicator
      (none without children), the bottom border with its paint colour, and the
      dividers with their paint colour and stroke width. */
  datatype Decorations = Decorations(
    indicator: Option<Indicator>,
    bottomBorder: Rect,
    borderColor: bv32,
    dividers: seq<Line>,
    dividerColor: bv32,
    dividerStroke: int)

  /** A draw pass either paints its decorations or dereferences the null that
      getChildAt returns for a selected position outside the children. */
  datatype DrawResult = Drawn(decorations: Decorations) | NullChildDereference

  /** The weighted sum o * b + (1 - o) * a that moves a toward b by the
      fraction o. */
  function Weighted(o: real, b: real, a: real): real {
    o * b + (1.0 - o) * a
  }

  /** One edge of the indicator during a drag, (int) (o * next + (1 - o) * cur). */
  function Interpolate(o: real, next: int, cur: int): (e: int)
    ensures o == 0.0 ==> e == cur
    ensures o == 1.0 ==> e == next
  {
    var c, n := cur as real, next as real;
    assert o == 0.0 ==> Weighted(o, n, c) == c;
    assert o == 1.0 ==> Weighted(o, n, c) == n;
    TruncateToInt(Weighted(o, n, c))
  }

  /** For a fraction o in [0, 1] the interpolated edge never leaves the closed
      interval between the two tab edges it moves between. */
  lemma InterpolateBetween(o: real, cur: int, next: int)
    requires 0.0 <= o <= 1.0
    ensures cur <= next ==> cur <= Interpolate(o, next, cur) <= next
    ensures next <= cur ==> next <= Interpolate(o, next, cur) <= cur
    ensures o == 0.0 ==> Interpolate(o, next, cur) == cur
  {
    var c, n := cur as real, next as real;
    if cur <= next {
      WeightedBetween(o, c, n);
      TruncateBetween(Weighted(o, n, c), cur, next);
    } else {
      WeightedBetween(o, n, c);
      TruncateBetween(Weighted(o, n, c), next, cur);
    }
  }

  /** With o in [0, 1], moving either end of [lo, hi] toward the other by the
      fraction o stays inside [lo, hi]. */
  lemma WeightedBetween(o: real, lo: real, hi: real)
    requires 0.0 <= o <= 1.0 && lo <= hi
    ensures lo <= Weighted(o, hi, lo) <= hi
    ensures lo <= Weighted(o, lo, hi) <= hi
  {
    var d := hi - lo;
    MulBetween(1.0 - o, d);
    assert Weighted(o, hi, lo) == hi - (1.0 - o) * d;
    assert Weighted(o, lo, hi) == lo + (1.0 - o) * d;
  }

  /** 0 <= o * d <= d for a fraction o in [0, 1] and d >= 0. */
  lemma MulBetween(o: real, d: real)
    requires 0.0 <= o <= 1.0 && 0.0 <= d
    ensures 0.0 <= o * d <= d
  {
    assert d - o * d == (1.0 - o) * d;
  }

  /** The x-extent of the indicator: the selected tab's own edges, or, while the
      offset is positive and a next tab exists, each edge moved independently
      toward the next tab's edge by the offset. */
  function IndicatorSpan(tabs: seq<TabView>, selected: int, offset: real): (span: (int, int))
    requires 0 <= selected < |tabs|
    ensures offset <= 0.0 || selected == |tabs| - 1 ==> span == (tabs[selected].left, tabs[selected].right)
    ensures offset <= 1.0 && selected < |tabs| - 1 && tabs[selected].left <= tabs[selected + 1].left
      ==> tabs[selected].left <= span.0 <= tabs[selected + 1].left
    ensures offset <= 1.0 && selected < |tabs| - 1 && tabs[selected + 1].left <= tabs[selected].left
      ==> tabs[selected + 1].left <= span.0 <= tabs[selected].left
    ensures offset <= 1.0 && selected < |tabs| - 1 && tabs[selected].right <= tabs[selected + 1].right
      ==> tabs[selected].right <= span.1 <= tabs[selected + 1].right
    ensures offset <= 1.0 && selected < |tabs| - 1 && tabs[selected + 1].right <= tabs[selected].right
      ==> tabs[selected + 1].right <= span.1 <= tabs[selected].right
  {
    var cur := tabs[selected];
    if 0.0 < offset && selected < |tabs| - 1 then
      var next := tabs[selected + 1];
      var span := (Interpolate(offset, next.left, cur.left), Interpolate(offset, next.right, cur.right));
      if offset <= 1.0 then
        InterpolateBetween(offset, cur.left, next.left);
        InterpolateBetween(offset, cur.right, next.right);
        span
      else
        span
    else
      (cur.left, cur.right)
  }

  /** Math.min(Math.max(0f, x), 1f). */
  function Clamp01(x: real): (r: real)
    ensures 0.0 <= r <= 1.0
    ensures 0.0 <= x <= 1.0 ==> r == x
    ensures x < 0.0 ==> r == 0.0
    ensures 1.0 < x ==> r == 1.0
  {
    if x < 0.0 then 0.0 else if 1.0 < x then 1.0 else x
  }

  /** (int) (Math.min(Math.max(0f, dividerHeight), 1f) * height): the height of
      the band the dividers occupy, a fraction of the strip height. */
  function DividerHeightPx(dividerHeight: real, height: nat): (px: nat)
    ensures px <= height
    ensures 0.0 <= dividerHeight <= 1.0 ==>
      px as real <= dividerHeight * height as real < (px + 1) as real
  {
    var fraction := Clamp01(dividerHeight);
    var product := fraction * height as real;
    MulBetween(fraction, height as real);
    TruncateBetween(product, 0, height);
    TruncateToInt(product)
  }

  /** (height - px) / 2: the top of the divider band, which centres a band of
      px pixels vertically (to within one pixel). */
  function SeparatorTop(height: nat, px: nat): (top: nat)
    requires px <= height
    ensures top + px <= height
    ensures 0 <= (height - (top + px)) - top <= 1
  {
    (height - px) / 2
  }

  /** The dividers the loop of a draw pass emits: one vertical line of px
      pixels from top down at the right edge of every tab but the last, in tab
      order. */
  function Dividers(tabs: seq<TabView>, top: int, px: int): (lines: seq<Line>)
    ensures |lines| == if |tabs| <= 1 then 0 else |tabs| - 1
    ensures forall i :: 0 <= i < |lines| ==>
      lines[i].startX == tabs[i].right && lines[i].stopX == tabs[i].right &&
      lines[i].startY == top && lines[i].stopY - lines[i].startY == px
  {
    if |tabs| <= 1 then []
    else seq(|tabs| - 1, i requires 0 <= i < |tabs| - 1 => Line(tabs[i].right, top, tabs[i].right, top + px))
  }

  // ---------------------------------------------------------------------------

  /** The strip view. The children are a sequence of tab views; the selection is
      the (selectedPosition, selectionOffset) pair; the rest is paint state. The
      divider height and the bottom border colour never change after
      construction. */
  class SlidingTabStrip {
    var tabs: seq<TabView>
    var selectedPosition: int
    var selectionOffset: real
    var bottomBorderThickness: int
    var indicatorThickness: int
    var dividerThickness: int
    var indicatorDrawable: Drawable
    var dividerColor: bv32
    const bottomBorderColor: bv32
    const dividerHeight: real

    /** The screen density and the theme's foreground colour are parameters. */
    constructor (density: real, themeForegroundColor: bv32)
      ensures tabs == [] && selectedPosition == 0 && selectionOffset == 0.0
      ensures bottomBorderThickness == DipsToPx(DEFAULT_BOTTOM_BORDER_THICKNESS_DIPS, density)
      ensures indicatorThickness == DipsToPx(DEFAULT_INDICATOR_THICKNESS_DIPS, density)
      ensures dividerThickness == DipsToPx(DEFAULT_DIVIDER_THICKNESS_DIPS, density)
      ensures indicatorDrawable == ColorDrawable(DEFAULT_SELECTED_INDICATOR_COLOR)
      ensures dividerColor == 0x2000_0000
      ensures Alpha(bottomBorderColor) == DEFAULT_BOTTOM_BORDER_COLOR_ALPHA
      ensures Red(bottomBorderColor) == Red(themeForegroundColor)
      ensures Green(bottomBorderColor) == Green(themeForegroundColor)
      ensures Blue(bottomBorderColor) == Blue(themeForegroundColor)
      ensures dividerHeight == DEFAULT_DIVIDER_HEIGHT
    {
      tabs := [];
      selectedPosition := 0;
      selectionOffset := 0.0;
      indicatorDrawable := ColorDrawable(DEFAULT_SELECTED_INDICATOR_COLOR);
      dividerColor := SetColorAlpha(DEFAULT_BOTTOM_BORDER_COLOR, DEFAULT_DIVIDER_COLOR_ALPHA);
      bottomBorderColor := SetColorAlpha(themeForegroundColor, DEFAULT_BOTTOM_BORDER_COLOR_ALPHA);
      bottomBorderThickness := DipsToPx(DEFAULT_BOTTOM_BORDER_THICKNESS_DIPS, density);
      indicatorThickness := DipsToPx(DEFAULT_INDICATOR_THICKNESS_DIPS, density);
      dividerHeight := DEFAULT_DIVIDER_HEIGHT;
      dividerThickness := DipsToPx(DEFAULT_DIVIDER_THICKNESS_DIPS, density);
    }

    method SetBottomBorderThickness(thickness: int)
      modifies this`bottomBorderThickness
      ensures bottomBorderThickness == thickness
    {
      bottomBorderThickness := thickness;
    }

    method SetIndicatorThickness(thickness: int)
      modifies this`indicatorThickness
      ensures indicatorThickness == thickness
    {
      indicatorThickness := thickness;
    }

    method SetDividerThickness(thickness: int)
      modifies this`dividerThickness
      ensures dividerThickness == thickness
    {
      dividerThickness := thickness;
    }

    method SetIndicatorDrawable(drawable: Drawable)
      modifies this`indicatorDrawable
      ensures indicatorDrawable == drawable
    {
      indicatorDrawable := drawable;
    }

    /** The divider colour becomes the given colour with its alpha replaced. */
    method SetDividerColors(color: bv32, alpha: bv32)
      modifies this`dividerColor
      ensures Alpha(dividerColor) == alpha & 0xFF
      ensures Red(dividerColor) == Red(color) && Green(dividerColor) == Green(color)
      ensures Blue(dividerColor) == Blue(color)
    {
      dividerColor := SetColorAlpha(color, alpha);
    }

    /** Stores the selection pushed by the page listener, whatever it is. */
    method OnViewPagerPageChanged(position: int, positionOffset: real)
      modifies this`selectedPosition, this`selectionOffset
      ensures selectedPosition == position && selectionOffset == positionOffset
    {
      selectedPosition := position;
      selectionOffset := positionOffset;
    }

    /** ViewGroup.removeAllViews. */
    method RemoveAllViews()
      modifies this`tabs
      ensures tabs == []
    {
      tabs := [];
    }

    /** ViewGroup.addView: the new child goes last. */
    method AddView(tab: TabView)
      modifies this`tabs
      ensures tabs == old(tabs) + [tab]
    {
      tabs := tabs + [tab];
    }

    /** View.setSelected on the child at index. */
    method SetChildSelected(index: nat, selected: bool)
      requires index < |tabs|
      modifies this`tabs
      ensures tabs == old(tabs)[index := old(tabs)[index].(selected := selected)]
    {
      tabs := tabs[index := tabs[index].(selected := selected)];
    }

    /** What one draw pass of a strip of the given size paints. */
    function Picture(width: nat, height: nat): (r: DrawResult)
      reads this
      ensures r.NullChildDereference? <==> |tabs| > 0 && !(0 <= selectedPosition < |tabs|)
      ensures r.Drawn? ==> (r.decorations.indicator.Some? <==> |tabs| > 0)
      ensures r.Drawn? && r.decorations.indicator.Some? ==>
        var ind := r.decorations.indicator.value;
        ind.drawable == indicatorDrawable &&
        ind.bounds.top == height - indicatorThickness && ind.bounds.bottom == height
      ensures r.Drawn? && 0 <= selectedPosition < |tabs| && (selectionOffset <= 0.0 || selectedPosition == |tabs| - 1) ==>
        var b := r.decorations.indicator.value.bounds;
        b.left == tabs[selectedPosition].left && b.right == tabs[selectedPosition].right
      ensures r.Drawn? && 0 <= selectedPosition < |tabs| - 1 && selectionOffset <= 1.0 ==>
        var b := r.decorations.indicator.value.bounds;
        var cur, next := tabs[selectedPosition], tabs[selectedPosition + 1];
        (cur.left <= next.left ==> cur.left <= b.left <= next.left) &&
        (next.left <= cur.left ==> next.left <= b.left <= cur.left) &&
        (cur.right <= next.right ==> cur.right <= b.right <= next.right) &&
        (next.right <= cur.right ==> next.right <= b.right <= cur.right)
      ensures r.Drawn? ==>
        r.decorations.bottomBorder == Rect(0, height - bottomBorderThickness, width, height) &&
        r.decorations.borderColor == bottomBorderColor
      ensures r.Drawn? ==>
        |r.decorations.dividers| == (if |tabs| <= 1 then 0 else |tabs| - 1) &&
        r.decorations.dividerColor == dividerColor && r.decorations.dividerStroke == dividerThickness
      ensures r.Drawn? ==> forall i :: 0 <= i < |r.decorations.dividers| ==>
        var d := r.decorations.dividers[i];
        d.startX == tabs[i].right && d.stopX == tabs[i].right &&
        0 <= d.startY <= d.stopY <= height &&
        d.stopY - d.startY == DividerHeightPx(dividerHeight, height) &&
        0 <= (height - d.stopY) - d.startY <= 1
    {
      if |tabs| > 0 && !(0 <= selectedPosition < |tabs|) then
        NullChildDereference
      else
        var px := DividerHeightPx(dividerHeight, height);
        var top := SeparatorTop(height, px);
        var indicator :=
          if |tabs| == 0 then None
          else
            var span := IndicatorSpan(tabs, selectedPosition, selectionOffset);
            Some(Indicator(indicatorDrawable, Rect(span.0, height - indicatorThickness, span.1, height)));
        Drawn(Decorations(
          indicator,
          Rect(0, height - bottomBorderThickness, width, height),
          bottomBorderColor,
          Dividers(tabs, top, px),
          dividerColor,
          dividerThickness))
    }

    /** dispatchDraw: computes the indicator edges, the border and, in a loop
        over all tabs but the last, the dividers. */
    method DispatchDraw(width: nat, height: nat) returns (r: DrawResult)
      ensures r == Picture(width, height)
    {
      var childCount := |tabs|;
      var dividerHeightPx := DividerHeightPx(dividerHeight, height);
      var indicator: Option<Indicator> := None;
      if childCount > 0 {
        if !(0 <= selectedPosition < childCount) {
          return NullChildDereference;
        }
        var selectedTitle := tabs[selectedPosition];
        var left := selectedTitle.left;
        var right := selectedTitle.right;
        if 0.0 < selectionOffset && selectedPosition < childCount - 1 {
          var nextTitle := tabs[selectedPosition + 1];
          left := Interpolate(selectionOffset, nextTitle.left, left);
          right := Interpolate(selectionOffset, nextTitle.right, right);
        }
        indicator := Some(Indicator(indicatorDrawable, Rect(left, height - indicatorThickness, right, height)));
      }
      var border := Rect(0, height - bottomBorderThickness, width, height);
      var separatorTop := (height - dividerHeightPx) / 2;
      var dividers: seq<Line> := [];
      var i := 0;
      while i < childCount - 1
        invariant 0 <= i && (childCount <= 1 ==> i == 0) && (1 < childCount ==> i <= childCount - 1)
        invariant |dividers| == i
        invariant forall k :: 0 <= k < i ==>
          dividers[k] == Line(tabs[k].right, separatorTop, tabs[k].right, separatorTop + dividerHeightPx)
      {
        var child := tabs[i];
        dividers := dividers + [Line(child.right, separatorTop, child.right, separatorTop + dividerHeightPx)];
        i := i + 1;
      }
      r := Drawn(Decorations(indicator, border, bottomBorderColor, dividers, dividerColor, dividerThickness));
    }
  }
}
