/**
 * HUD flags, background modes, the top toolbar and the right-click menu
 * (imagura/state/ui.py). Menu labels and tooltips are kept as plain strings.
 */
module StateUi {
  import opened Wrappers

  /** A background mode: colour, opacity and whether the window is blurred. */
  datatype BgMode = BgMode(color: (int, int, int), opacity: real, blur: bool)

  /** The background modes in cycling order. */
  const BgModes: seq<BgMode> := [
    BgMode((0, 0, 0), 0.5, true),
    BgMode((0, 0, 0), 1.0, false),
    BgMode((255, 255, 255), 1.0, false),
    BgMode((255, 255, 255), 0.5, true)
  ]

  /** Context menu item identifiers. */
  datatype MenuItemId = Copy

  datatype MenuItem = MenuItem(id: MenuItemId, caption: string, icon: Option<string>)

  /** Toolbar button identifiers. */
  datatype ToolbarButtonId = RotateCw | RotateCcw | FlipH

  datatype ToolbarButton = ToolbarButton(id: ToolbarButtonId, tooltip: string)

  const DefaultMenuItems: seq<MenuItem> := [MenuItem(Copy, "Копировать", None)]

  const DefaultToolbarButtons: seq<ToolbarButton> := [
    ToolbarButton(RotateCcw, "Повернуть влево"),
    ToolbarButton(RotateCw, "Повернуть вправо"),
    ToolbarButton(FlipH, "Отразить")
  ]

  /** The element at a hover index, or None when nothing valid is hovered (-1 included). */
  function HoveredAt<T>(xs: seq<T>, hoverIndex: int): (r: Option<T>)
    ensures r.Some? <==> 0 <= hoverIndex < |xs|
    ensures r.Some? ==> r.value == xs[hoverIndex]
  {
    if 0 <= hoverIndex < |xs| then Some(xs[hoverIndex]) else None
  }

  /** The mode index after `cycle_bg_mode`. */
  function NextBgModeIndex(i: int): (r: int)
    ensures 0 <= r < |BgModes|
    ensures 0 <= i < |BgModes| - 1 ==> r == i + 1
    ensures i == |BgModes| - 1 ==> r == 0
  {
    (i + 1) % |BgModes|
  }

  /** Cycling through all four modes comes back to the starting mode. */
  lemma BgModeCycleReturns(i: int)
    requires 0 <= i < |BgModes|
    ensures NextBgModeIndex(NextBgModeIndex(NextBgModeIndex(NextBgModeIndex(i)))) == i
  {
  }

  /** The right-click menu. */
  class ContextMenuState {
    var visible: bool
    var x: int
    var y: int
    var items: seq<MenuItem>
    var hoverIndex: int

    constructor ()
      ensures !visible && x == 0 && y == 0 && items == DefaultMenuItems && hoverIndex == -1
    {
      visible, x, y, items, hoverIndex := false, 0, 0, DefaultMenuItems, -1;
    }

    /** `show`: opens at (x, y) with nothing hovered. */
    method Show(atX: int, atY: int)
      modifies this`visible, this`x, this`y, this`hoverIndex
      ensures visible && x == atX && y == atY && hoverIndex == -1
      ensures GetHoveredItem() == None
    {
      visible, x, y, hoverIndex := true, atX, atY, -1;
    }

    /** `hide`: closes with nothing hovered; the position is kept. */
    method Hide()
      modifies this`visible, this`hoverIndex
      ensures !visible && hoverIndex == -1
      ensures GetHoveredItem() == None
    {
      visible, hoverIndex := false, -1;
    }

    /** `get_hovered_item`. */
    function GetHoveredItem(): (r: Option<MenuItem>)
      reads this
      ensures r == HoveredAt(items, hoverIndex)
      ensures hoverIndex < 0 ==> r.None?
    {
      HoveredAt(items, hoverIndex)
    }
  }

  /** The top toolbar. */
  class ToolbarState {
    var alpha: real
    var targetAlpha: real
    var buttons: seq<ToolbarButton>
    var hoverIndex: int

    constructor ()
      ensures alpha == 0.0 && targetAlpha == 0.0 && buttons == DefaultToolbarButtons && hoverIndex == -1
    {
      alpha, targetAlpha, buttons, hoverIndex := 0.0, 0.0, DefaultToolbarButtons, -1;
    }

    /** `get_hovered_button`. */
    function GetHoveredButton(): (r: Option<ToolbarButton>)
      reads this
      ensures r == HoveredAt(buttons, hoverIndex)
      ensures hoverIndex < 0 ==> r.None?
    {
      HoveredAt(buttons, hoverIndex)
    }
  }

  /** HUD flags, background mode and the two UI widgets. */
  class UiState {
    var showHud: bool
    var showFilename: bool
    var navLeftAlpha: real
    var navRightAlpha: real
    var closeBtnAlpha: real
    var bgModeIndex: int
    var bgCurrentOpacity: real
    var bgTargetOpacity: real
    const toolbar: ToolbarState
    const contextMenu: ContextMenuState

    ghost predicate Valid()
      reads this
    {
      0 <= bgModeIndex < |BgModes|
    }

    constructor ()
      ensures Valid()
      ensures !showHud && !showFilename
      ensures navLeftAlpha == 0.0 && navRightAlpha == 0.0 && closeBtnAlpha == 0.0
      ensures bgModeIndex == 0 && bgCurrentOpacity == BgModes[0].opacity && bgTargetOpacity == BgModes[0].opacity
      ensures fresh(toolbar) && fresh(contextMenu)
    {
      showHud, showFilename := false, false;
      navLeftAlpha, navRightAlpha, closeBtnAlpha := 0.0, 0.0, 0.0;
      bgModeIndex, bgCurrentOpacity, bgTargetOpacity := 0, BgModes[0].opacity, BgModes[0].opacity;
      toolbar := new ToolbarState();
      contextMenu := new ContextMenuState();
    }

    /** `current_bg_mode`. */
    function CurrentBgMode(): (m: BgMode)
      requires Valid()
      reads this
      ensures m == BgModes[bgModeIndex]
    {
      BgModes[bgModeIndex]
    }

    /** `bg_blur_enabled`: only the two half-transparent modes blur. */
    function BgBlurEnabled(): (b: bool)
      requires Valid()
      reads this
      ensures b == CurrentBgMode().blur
      ensures b <==> CurrentBgMode().opacity < 1.0
    {
      CurrentBgMode().blur
    }

    /** `bg_color`. */
    function BgColor(): (c: (int, int, int))
      requires Valid()
      reads this
      ensures c == CurrentBgMode().color
      ensures c == (0, 0, 0) <==> bgModeIndex < 2
    {
      CurrentBgMode().color
    }

    /** `cycle_bg_mode`: next mode, whose opacity becomes the target. */
    method CycleBgMode()
      requires Valid()
      modifies this`bgModeIndex, this`bgTargetOpacity
      ensures Valid()
      ensures bgModeIndex == NextBgModeIndex(old(bgModeIndex))
      ensures bgTargetOpacity == BgModes[bgModeIndex].opacity
    {
      bgModeIndex := (bgModeIndex + 1) % |BgModes|;
      bgTargetOpacity := BgModes[bgModeIndex].opacity;
    }

    /** `toggle_hud`. */
    method ToggleHud()
      modifies this`showHud
      ensures showHud == !old(showHud)
    {
      showHud := !showHud;
    }

    /** `toggle_filename`. */
    method ToggleFilename()
      modifies this`showFilename
      ensures showFilename == !old(showFilename)
    {
      showFilename := !showFilename;
    }
  }
}
