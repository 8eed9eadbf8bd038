/**
 * Hit testing and input-context classification (imagura/input_handler.py).
 * The mouse is a value passed in; the state the tests read (animation
 * flags, gallery position, menu, toolbar) comes in as parameters, and the
 * clock reading of the double-click test is a parameter in seconds.
 */
module InputHandling {
  import opened Wrappers
  import opened Types
  import opened MathUtils
  import StateGallery
  import StateInput
  import ViewMath

  datatype InputContext = Normal | GalleryHover | Zoomed | Animating

  /** One frame's mouse snapshot. */
  datatype MouseState = MouseState(
    x: real, y: real,
    leftPressed: bool, leftReleased: bool, leftDown: bool,
    rightPressed: bool, rightReleased: bool,
    wheel: real)

  const CloseButtonRadius: int := 28
  const CloseButtonMargin: int := 20
  const ToolbarHeight: int := 60
  const ToolbarButtonRadius: int := 24
  const ToolbarButtonSpacing: int := 20
  const MenuItemHeight: int := 36
  const MenuItemWidth: int := 160
  const MenuPadding: int := 8
  /** Gap the menu keeps from the screen border. */
  const MenuScreenGap: int := 5

  /**
   * `get_context`: open and toggle-zoom animations take precedence, then the
   * gallery strip when it is not fully hidden, then the zoomed state.
   */
  function GetContext(openActive: bool, toggleZoomActive: bool, screenH: int, galleryY: real,
                      isZoomed: bool, mouse: MouseState): (c: InputContext)
    ensures c == Animating <==> openActive || toggleZoomActive
    ensures c == GalleryHover <==>
      !(openActive || toggleZoomActive) &&
      mouse.y >= StateGallery.YVisible(screenH) as real && galleryY < screenH as real
    ensures c == Zoomed <==>
      !(openActive || toggleZoomActive) &&
      !(mouse.y >= StateGallery.YVisible(screenH) as real && galleryY < screenH as real) && isZoomed
  {
    if openActive || toggleZoomActive then Animating
    else
      var galleryTop := screenH - StateGallery.GalleryHeight(screenH);
      if mouse.y >= galleryTop as real && galleryY < screenH as real then GalleryHover
      else if isZoomed then Zoomed
      else Normal
  }

  /** The gallery context is only reported over the bottom 12% of the screen. */
  lemma GalleryHoverInBottomStrip(openActive: bool, toggleZoomActive: bool, screenH: int, galleryY: real,
                                  isZoomed: bool, mouse: MouseState)
    requires screenH >= 0
    requires GetContext(openActive, toggleZoomActive, screenH, galleryY, isZoomed, mouse) == GalleryHover
    ensures mouse.y >= screenH as real * (1.0 - StateGallery.GalleryHeightFrac)
  {
  }

  datatype Edge = Left | Right

  /** `is_on_edge`: the left tenth of the screen, else the right tenth. */
  function IsOnEdge(screenW: int, mouse: MouseState): (r: Option<Edge>)
    ensures r == Some(Left) <==> mouse.x <= screenW as real * 0.10
    ensures screenW > 0 ==> (r == Some(Right) <==> mouse.x >= screenW as real * 0.90)
    ensures r == None <==> screenW as real * 0.10 < mouse.x < screenW as real * 0.90
  {
    if mouse.x <= screenW as real * 0.10 then Some(Left)
    else if mouse.x >= screenW as real * 0.90 then Some(Right)
    else None
  }

  /** `is_over_image`: inside the drawn rectangle of the current image, edges included. */
  function IsOverImage(curr: Option<TextureInfo>, v: ViewParams, mouse: MouseState): (r: bool)
    ensures r ==> curr.Some?
    ensures r <==> (curr.Some? &&
                    v.offx <= mouse.x <= v.offx + curr.value.w as real * v.scale &&
                    v.offy <= mouse.y <= v.offy + curr.value.h as real * v.scale)
  {
    match curr
    case None => false
    case Some(ti) =>
      var x2 := v.offx + ti.w as real * v.scale;
      var y2 := v.offy + ti.h as real * v.scale;
      v.offx <= mouse.x <= x2 && v.offy <= mouse.y <= y2
  }

  /** When a centred image is displayed, the screen centre is over it. */
  lemma ScreenCentreOverCentredImage(ti: TextureInfo, scale: real, screenW: int, screenH: int, mouse: MouseState)
    requires ti.w >= 0 && ti.h >= 0 && scale >= 0.0
    requires mouse.x == screenW as real / 2.0 && mouse.y == screenH as real / 2.0
    ensures IsOverImage(Some(ti), ViewMath.CenterViewFor(scale, ti.w, ti.h, screenW, screenH), mouse)
  {
    ProductNonNeg(ti.w as real, scale);
    ProductNonNeg(ti.h as real, scale);
  }

  lemma SquareBelow(d: real, r: real)
    ensures 0.0 <= r && d * d <= r * r ==> -r <= d <= r
  {
    if d > r >= 0.0 {
      assert d * d > r * d >= r * r;
    } else if d < -r && r >= 0.0 {
      assert d * d == (-d) * (-d) > r * (-d) >= r * r;
    }
  }

  /** `is_on_close_button`: within the round button in the top-right corner. */
  function IsOnCloseButton(screenW: int, mouse: MouseState): bool {
    var dist := (CloseButtonMargin + CloseButtonRadius) as real;
    DistanceSquared(screenW as real - dist, dist, mouse.x, mouse.y) <= (CloseButtonRadius * CloseButtonRadius) as real
  }

  /** The button's centre is on it; a point further left or lower than the radius is not. */
  lemma CloseButtonExtent(screenW: int, mouse: MouseState)
    ensures mouse.x == (screenW - 48) as real && mouse.y == 48.0 ==> IsOnCloseButton(screenW, mouse)
    ensures IsOnCloseButton(screenW, mouse) ==>
      (screenW - 76) as real <= mouse.x <= (screenW - 20) as real && 20.0 <= mouse.y <= 76.0
  {
    var dx := mouse.x - (screenW - 48) as real;
    var dy := mouse.y - 48.0;
    assert (screenW as real - 48.0) == (screenW - 48) as real;
    if IsOnCloseButton(screenW, mouse) {
      assert dx * dx + dy * dy <= 28.0 * 28.0;
      SquaresNonNeg(dx, 0.0);
      SquaresNonNeg(dy, 0.0);
      assert dx * dx <= 28.0 * 28.0 && dy * dy <= 28.0 * 28.0;
      SquareBelow(dx, 28.0);
      SquareBelow(dy, 28.0);
    }
  }

  // ------------------------------------------------------------ toolbar

  /** x of the first button's centre: the row of buttons is centred on the screen. */
  function ToolbarStartX(screenW: int, n: nat): int {
    var totalWidth := n * (ToolbarButtonRadius * 2) + (n - 1) * ToolbarButtonSpacing;
    (screenW - totalWidth) / 2 + ToolbarButtonRadius
  }

  /** Whether the mouse is inside (or on) the circle of button `i` of `n`. */
  predicate OnToolbarButton(screenW: int, n: nat, i: int, mouse: MouseState) {
    var cx := ToolbarStartX(screenW, n) + i * (ToolbarButtonRadius * 2 + ToolbarButtonSpacing);
    var cy := ToolbarHeight / 2;
    var dx := mouse.x - cx as real;
    var dy := mouse.y - cy as real;
    dx * dx + dy * dy <= (ToolbarButtonRadius * ToolbarButtonRadius) as real
  }

  /** The first button from `i` on whose circle holds the mouse, or -1. */
  function FirstToolbarHit(screenW: int, n: nat, mouse: MouseState, i: nat): (r: int)
    decreases n - i
    ensures r == -1 || (i <= r < n && OnToolbarButton(screenW, n, r, mouse))
    ensures r == -1 ==> forall j :: i <= j < n ==> !OnToolbarButton(screenW, n, j, mouse)
    ensures r != -1 ==> forall j :: i <= j < r ==> !OnToolbarButton(screenW, n, j, mouse)
  {
    if i >= n then -1
    else if OnToolbarButton(screenW, n, i, mouse) then i
    else FirstToolbarHit(screenW, n, mouse, i + 1)
  }

  /** `get_toolbar_button_at` as a value: -1 while the toolbar is faded below half opacity. */
  function ToolbarButtonAt(alpha: real, screenW: int, n: nat, mouse: MouseState): (r: int)
    ensures alpha < 0.5 ==> r == -1
    ensures r == -1 || (0 <= r < n && OnToolbarButton(screenW, n, r, mouse))
    ensures alpha >= 0.5 && r == -1 ==> forall j :: 0 <= j < n ==> !OnToolbarButton(screenW, n, j, mouse)
  {
    if alpha < 0.5 then -1 else FirstToolbarHit(screenW, n, mouse, 0)
  }

  /** Adjacent buttons are 68 pixels apart and 48 wide, so no point is on two of them. */
  lemma ToolbarButtonsDisjoint(screenW: int, n: nat, i: int, j: int, mouse: MouseState)
    requires i < j
    ensures !(OnToolbarButton(screenW, n, i, mouse) && OnToolbarButton(screenW, n, j, mouse))
  {
    var start := ToolbarStartX(screenW, n);
    var dxi := mouse.x - (start + i * 68) as real;
    var dxj := mouse.x - (start + j * 68) as real;
    var dy := mouse.y - 30.0;
    SquaresNonNeg(dy, dxi);
    SquaresNonNeg(dy, dxj);
    SquareBelow(dxi, 24.0);
    SquareBelow(dxj, 24.0);
    assert dxi - dxj == ((j - i) * 68) as real;
  }

  /** A reported button is the only one under the mouse. */
  lemma ToolbarHitUnique(alpha: real, screenW: int, n: nat, mouse: MouseState, j: int)
    requires 0 <= j < n && OnToolbarButton(screenW, n, j, mouse) && alpha >= 0.5
    ensures ToolbarButtonAt(alpha, screenW, n, mouse) == j
  {
    var r := ToolbarButtonAt(alpha, screenW, n, mouse);
    if r != j {
      if r < j {
        ToolbarButtonsDisjoint(screenW, n, r, j, mouse);
      }
    }
  }

  /** `get_toolbar_button_at`: tries the buttons left to right. */
  method GetToolbarButtonAt(alpha: real, screenW: int, n: nat, mouse: MouseState) returns (idx: int)
    ensures idx == ToolbarButtonAt(alpha, screenW, n, mouse)
  {
    if alpha < 0.5 {
      return -1;
    }
    var startX := ToolbarStartX(screenW, n);
    var cy := ToolbarHeight / 2;
    var i := 0;
    while i < n
      invariant 0 <= i <= n
      invariant FirstToolbarHit(screenW, n, mouse, 0) == FirstToolbarHit(screenW, n, mouse, i)
    {
      var cx := startX + i * (ToolbarButtonRadius * 2 + ToolbarButtonSpacing);
      var dx := mouse.x - cx as real;
      var dy := mouse.y - cy as real;
      if dx * dx + dy * dy <= (ToolbarButtonRadius * ToolbarButtonRadius) as real {
        assert OnToolbarButton(screenW, n, i, mouse);
        return i;
      }
      assert !OnToolbarButton(screenW, n, i, mouse);
      i := i + 1;
    }
    return -1;
  }

  // ------------------------------------------------------- context menu

  function MenuHeight(n: nat): int {
    n * MenuItemHeight + MenuPadding * 2
  }

  /**
   * Where the menu is drawn: its requested position pulled back so that it
   * ends 5 pixels inside the screen, but never above or left of 5.
   */
  function MenuOrigin(menuX: int, menuY: int, n: nat, screenW: int, screenH: int): (o: (int, int))
    ensures o.0 >= MenuScreenGap && o.1 >= MenuScreenGap
    ensures MenuScreenGap <= menuX <= screenW - MenuItemWidth - MenuScreenGap ==> o.0 == menuX
    ensures MenuScreenGap <= menuY <= screenH - MenuHeight(n) - MenuScreenGap ==> o.1 == menuY
    ensures screenW >= MenuItemWidth + 2 * MenuScreenGap ==> o.0 + MenuItemWidth <= screenW - MenuScreenGap
    ensures screenH >= MenuHeight(n) + 2 * MenuScreenGap ==> o.1 + MenuHeight(n) <= screenH - MenuScreenGap
    ensures o.0 <= menuX || o.0 == MenuScreenGap
  {
    var x := if menuX <= screenW - MenuItemWidth - MenuScreenGap then menuX else screenW - MenuItemWidth - MenuScreenGap;
    var y := if menuY <= screenH - MenuHeight(n) - MenuScreenGap then menuY else screenH - MenuHeight(n) - MenuScreenGap;
    (if x >= MenuScreenGap then x else MenuScreenGap, if y >= MenuScreenGap then y else MenuScreenGap)
  }

  /** Inside the menu's box drawn at `o`, edges included. */
  predicate InMenuBox(o: (int, int), n: nat, mouse: MouseState) {
    o.0 as real <= mouse.x <= (o.0 + MenuItemWidth) as real &&
    o.1 as real <= mouse.y <= (o.1 + MenuHeight(n)) as real
  }

  /** `is_in_context_menu`. */
  function IsInContextMenu(visible: bool, menuX: int, menuY: int, n: nat, screenW: int, screenH: int,
                           mouse: MouseState): (r: bool)
    ensures r <==> visible && InMenuBox(MenuOrigin(menuX, menuY, n, screenW, screenH), n, mouse)
    ensures r ==> mouse.x >= MenuScreenGap as real && mouse.y >= MenuScreenGap as real
  {
    visible && InMenuBox(MenuOrigin(menuX, menuY, n, screenW, screenH), n, mouse)
  }

  /**
   * The first row from `i` on, of rows 36 pixels high starting at `top`,
   * that holds `y` (top edge in, bottom edge out), or -1. The rows tile
   * `[top, top + 36 n)`, so one is found exactly when `y` lies there.
   */
  function FirstMenuRow(top: int, n: nat, y: real, i: nat): (r: int)
    requires i <= n
    decreases n - i
    ensures r == -1 <==> !((top + i * MenuItemHeight) as real <= y < (top + n * MenuItemHeight) as real)
    ensures r != -1 ==> (i <= r < n &&
                         (top + r * MenuItemHeight) as real <= y < (top + r * MenuItemHeight + MenuItemHeight) as real)
  {
    if i == n then -1
    else
      var rowY := top + i * MenuItemHeight;
      if rowY as real <= y < (rowY + MenuItemHeight) as real then i
      else FirstMenuRow(top, n, y, i + 1)
  }

  /**
   * `get_context_menu_item_at` as a value: -1 when hidden or outside the
   * menu's horizontal span, else the row under the mouse or -1 in the padding.
   */
  function MenuItemAt(visible: bool, menuX: int, menuY: int, n: nat, screenW: int, screenH: int,
                      mouse: MouseState): (r: int)
    ensures r == -1 || 0 <= r < n
    ensures !visible ==> r == -1
    ensures var o := MenuOrigin(menuX, menuY, n, screenW, screenH);
      r != -1 <==> visible && o.0 as real <= mouse.x <= (o.0 + MenuItemWidth) as real &&
                   (o.1 + MenuPadding) as real <= mouse.y < (o.1 + MenuPadding + n * MenuItemHeight) as real
    ensures var o := MenuOrigin(menuX, menuY, n, screenW, screenH);
      r != -1 ==> (o.1 + MenuPadding + r * MenuItemHeight) as real <= mouse.y < (o.1 + MenuPadding + (r + 1) * MenuItemHeight) as real
  {
    if !visible then -1
    else
      var o := MenuOrigin(menuX, menuY, n, screenW, screenH);
      if !(o.0 as real <= mouse.x <= (o.0 + MenuItemWidth) as real) then -1
      else FirstMenuRow(o.1 + MenuPadding, n, mouse.y, 0)
  }

  /** Both hit tests clamp the menu the same way: an item is only ever hit inside the menu. */
  lemma MenuItemInsideMenu(visible: bool, menuX: int, menuY: int, n: nat, screenW: int, screenH: int,
                           mouse: MouseState)
    requires MenuItemAt(visible, menuX, menuY, n, screenW, screenH, mouse) != -1
    ensures IsInContextMenu(visible, menuX, menuY, n, screenW, screenH, mouse)
  {
  }

  /** `get_context_menu_item_at`: tries the rows top to bottom. */
  method GetContextMenuItemAt(visible: bool, menuX: int, menuY: int, n: nat, screenW: int, screenH: int,
                              mouse: MouseState) returns (idx: int)
    ensures idx == MenuItemAt(visible, menuX, menuY, n, screenW, screenH, mouse)
  {
    if !visible {
      return -1;
    }
    var menuH := n * MenuItemHeight + MenuPadding * 2;
    var x := if menuX <= screenW - MenuItemWidth - 5 then menuX else screenW - MenuItemWidth - 5;
    var y := if menuY <= screenH - menuH - 5 then menuY else screenH - menuH - 5;
    x := if 5 >= x then 5 else x;
    y := if 5 >= y then 5 else y;
    ghost var o := MenuOrigin(menuX, menuY, n, screenW, screenH);
    assert x == o.0 && y == o.1;
    if !(x as real <= mouse.x <= (x + MenuItemWidth) as real) {
      return -1;
    }
    idx := MenuRowAt(y + MenuPadding, n, mouse.y);
  }

  /** The row loop of `get_context_menu_item_at`: tries the rows top to bottom. */
  method MenuRowAt(itemStartY: int, n: nat, y: real) returns (idx: int)
    ensures idx == FirstMenuRow(itemStartY, n, y, 0)
  {
    var i := 0;
    while i < n
      invariant 0 <= i <= n
      invariant FirstMenuRow(itemStartY, n, y, 0) == FirstMenuRow(itemStartY, n, y, i)
    {
      var itemY := itemStartY + i * MenuItemHeight;
      if itemY as real <= y < (itemY + MenuItemHeight) as real {
        return i;
      }
      i := i + 1;
    }
    return -1;
  }

  // ------------------------------------------------------- double click

  /** The handler's own double-click tracking. */
  class InputHandler {
    var lastClickTime: real
    var lastClickPos: (int, int)

    const DoubleClickDistance: int := 10

    constructor ()
      ensures lastClickTime == 0.0 && lastClickPos == (0, 0)
    {
      lastClickTime, lastClickPos := 0.0, (0, 0);
    }

    /**
     * `check_double_click` at time `now`: the mouse position is truncated to
     * whole pixels; on a double click the last click time resets to 0 and
     * the position is kept, otherwise this click is recorded.
     */
    method CheckDoubleClick(now: real, mouse: MouseState) returns (isDouble: bool)
      modifies this`lastClickTime, this`lastClickPos
      ensures isDouble <==> StateInput.IsDoubleClick(now, old(lastClickTime), old(lastClickPos),
                                                     Trunc(mouse.x), Trunc(mouse.y), DoubleClickDistance)
      ensures isDouble ==> lastClickTime == 0.0 && lastClickPos == old(lastClickPos)
      ensures !isDouble ==> lastClickTime == now && lastClickPos == (Trunc(mouse.x), Trunc(mouse.y))
    {
      if now - lastClickTime < 300.0 / 1000.0 {
        var dx := StateInput.IntAbs(Trunc(mouse.x) - lastClickPos.0);
        var dy := StateInput.IntAbs(Trunc(mouse.y) - lastClickPos.1);
        if dx < DoubleClickDistance && dy < DoubleClickDistance {
          lastClickTime := 0.0;
          return true;
        }
      }
      lastClickTime := now;
      lastClickPos := (Trunc(mouse.x), Trunc(mouse.y));
      return false;
    }
  }
}
