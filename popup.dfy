/**
 * Where the country popup is placed (static/js/dashboard.js, end of the click
 * handler): at the pointer, relative to the map container, then pushed back
 * inside the container so that it keeps a fixed margin from the edges.
 * Lengths are CSS pixels.
 */
module PopupPlacement {

  /** The gap kept between the popup and the container's edges. */
  const Margin: real := 10.0

  function Max(a: real, b: real): real { if a >= b then a else b }
  function Min(a: real, b: real): real { if a <= b then a else b }

  /**
   * One axis of the clamping: `pos` is the pointer's offset into the
   * container, `size` the popup's extent and `extent` the container's.
   */
  method ClampAxis(pos: real, size: real, extent: real) returns (p: real)
    ensures p >= Margin
    ensures size > extent - 2.0 * Margin ==> p == Margin
    ensures size <= extent - 2.0 * Margin ==> p + size <= extent - Margin
    ensures size <= extent - 2.0 * Margin ==> p == Max(Margin, Min(pos, extent - size - Margin))
  {
    p := pos;
    if size > extent {
      p := Margin;
    } else if p + size > extent - Margin {
      p := extent - size - Margin;
    }
    if p < Margin {
      p := Margin;
    }
  }

  /**
   * The popup's `left` and `top`: the click point relative to the container,
   * clamped horizontally and then vertically.
   */
  method PlacePopup(clientX: real, clientY: real,
                    containerLeft: real, containerTop: real, containerWidth: real, containerHeight: real,
                    popupWidth: real, popupHeight: real)
    returns (left: real, top: real)
    ensures left >= Margin && top >= Margin
    ensures popupWidth > containerWidth ==> left == Margin
    ensures popupHeight > containerHeight ==> top == Margin
    ensures popupWidth <= containerWidth - 2.0 * Margin ==> left + popupWidth <= containerWidth - Margin
    ensures popupHeight <= containerHeight - 2.0 * Margin ==> top + popupHeight <= containerHeight - Margin
    ensures popupWidth > containerWidth - 2.0 * Margin ==> left == Margin
    ensures popupHeight > containerHeight - 2.0 * Margin ==> top == Margin
    ensures popupWidth <= containerWidth - 2.0 * Margin ==>
              left == Max(Margin, Min(clientX - containerLeft, containerWidth - popupWidth - Margin))
    ensures popupHeight <= containerHeight - 2.0 * Margin ==>
              top == Max(Margin, Min(clientY - containerTop, containerHeight - popupHeight - Margin))
    ensures Margin <= clientX - containerLeft && clientX - containerLeft + popupWidth <= containerWidth - Margin ==>
              left == clientX - containerLeft
    ensures Margin <= clientY - containerTop && clientY - containerTop + popupHeight <= containerHeight - Margin ==>
              top == clientY - containerTop
  {
    left := ClampAxis(clientX - containerLeft, popupWidth, containerWidth);
    top := ClampAxis(clientY - containerTop, popupHeight, containerHeight);
  }
}
