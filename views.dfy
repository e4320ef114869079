/** Plain values standing for the Android views and drawing primitives the two
    tab widgets work with: a tab view is a record of its bounds, its selected
    flag and the state of its title and icon child views. */
module Views {

  datatype Option<+T> = None | Some(value: T)

  /** View.VISIBLE or View.GONE, the two visibilities the tab layout assigns. */
  datatype Visibility = Visible | Gone

  /** One tab view inflated from the tab item layout.
      viewId stands for the identity of the view object (a click handler compares
      views by reference); left and right are the bounds its parent laid it out at;
      fillsWeight records the LayoutParams(0, WRAP_CONTENT, 1.0f) set when tabs are
      stretched to the parent; titleText and iconResource are None while the child
      view still holds what the layout resource gave it. */
  datatype TabView = TabView(
    viewId: nat,
    left: int,
    right: int,
    selected: bool,
    fillsWeight: bool,
    titleVisibility: Visibility,
    titleText: Option<string>,
    iconVisibility: Visibility,
    iconResource: Option<int>)
  {
    /** View.getWidth(). */
    function Width(): int {
      right - left
    }
  }

  /** The four coordinates handed to Drawable.setBounds or Canvas.drawRect. */
  datatype Rect = Rect(left: int, top: int, right: int, bottom: int)

  /** The four coordinates handed to Canvas.drawLine. */
  datatype Line = Line(startX: int, startY: int, stopX: int, stopY: int)

  /** Java's (int) cast of a floating-point value: it drops the fraction,
      rounding toward zero. */
  function TruncateToInt(x: real): (n: int)
    ensures 0.0 <= x ==> 0 <= n && n as real <= x < (n + 1) as real
    ensures x < 0.0 ==> n <= 0 && (n - 1) as real < x <= n as real
  {
    if 0.0 <= x then x.Floor else -((-x).Floor)
  }

  /** Truncation keeps a value between any two integers that bound it. */
  lemma TruncateBetween(x: real, lo: int, hi: int)
    requires lo as real <= x <= hi as real
    ensures lo <= TruncateToInt(x) <= hi
  {
    var n := TruncateToInt(x);
    if 0.0 <= x {
      assert (lo as real) < (n + 1) as real;
    } else {
      assert (n - 1) as real < hi as real;
    }
  }
}
