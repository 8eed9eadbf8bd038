/**
 * Commands triggered by input, their guards, and the command queue with a
 * bounded history (imagura/commands.py). Guards read a snapshot of the
 * application state; the commands that change state act on the per-concern
 * state objects. Log lines are left out.
 */
module Commands {
  import opened Wrappers
  import opened Types
  import StateImages
  import StateAnimation
  import StateView
  import StateInput
  import StateGallery
  import StateUi

  /** Every command with its parameters. */
  datatype Command =
    | NavigateNext(animate: bool, durationMs: int)
    | NavigatePrev(animate: bool, durationMs: int)
    | NavigateToIndex(targetIndex: int, animate: bool, durationMs: int)
    | ZoomIn(step: real, anchor: (int, int))
    | ZoomOut(step: real, anchor: (int, int))
    | WheelZoom(delta: real, anchor: (int, int), stepMultiplier: real)
    | ToggleZoom
    | StartPan(mouseX: real, mouseY: real)
    | UpdatePan(mouseX: real, mouseY: real)
    | EndPan
    | ToggleHud
    | ToggleFilename
    | CycleBackground
    | GalleryScroll(delta: real)
    | GalleryClick(targetIndex: int)
    | RotateClockwise
    | RotateCounterClockwise
    | FlipHorizontal
    | CopyToClipboard
    | ShowContextMenu(x: int, y: int)
    | HideContextMenu
    | ContextMenuClick(itemIndex: int)
    | ToolbarButtonClick(buttonIndex: int)
    | CloseApp

  /** What the guards read of the application state. */
  datatype GuardState = GuardState(
    count: nat,
    index: int,
    hasCurrent: bool,
    openActive: bool,
    toggleZoomActive: bool,
    isZoomed: bool,
    isPanning: bool,
    menuVisible: bool,
    menuItemCount: nat,
    toolbarButtonCount: nat)

  /** `has_next` / `has_prev` of the image list. */
  predicate HasNext(g: GuardState) { g.index < g.count - 1 }
  predicate HasPrev(g: GuardState) { g.index > 0 }

  /** No open or toggle-zoom animation runs and an image is displayed: zooming and panning are allowed. */
  predicate ViewEditable(g: GuardState) {
    g.hasCurrent && !g.openActive && !g.toggleZoomActive
  }

  /** `can_execute` of each command; the commands without a guard always may run. */
  function CanExecute(c: Command, g: GuardState): (ok: bool)
    ensures c.NavigateNext? ==> (ok <==> HasNext(g) && !g.openActive)
    ensures c.NavigatePrev? ==> (ok <==> HasPrev(g) && !g.openActive)
    ensures c.NavigateToIndex? ==> (ok <==> 0 <= c.targetIndex < g.count && c.targetIndex != g.index && !g.openActive)
    ensures c.StartPan? ==> (ok <==> ViewEditable(g) && g.isZoomed && !g.isPanning)
    ensures c.EndPan? || c.UpdatePan? ==> (ok <==> g.isPanning)
    ensures c.ContextMenuClick? ==> (ok <==> g.menuVisible && 0 <= c.itemIndex < g.menuItemCount)
    ensures (c.ToggleHud? || c.ToggleFilename? || c.CycleBackground? || c.GalleryScroll? ||
             c.ShowContextMenu? || c.HideContextMenu? || c.CloseApp?) ==> ok
  {
    match c
    case NavigateNext(_, _) => HasNext(g) && !g.openActive
    case NavigatePrev(_, _) => HasPrev(g) && !g.openActive
    case NavigateToIndex(t, _, _) => 0 <= t < g.count && t != g.index && !g.openActive
    case ZoomIn(_, _) => ViewEditable(g)
    case ZoomOut(_, _) => ViewEditable(g)
    case WheelZoom(_, _, _) => ViewEditable(g)
    case ToggleZoom => g.hasCurrent && !g.toggleZoomActive
    case StartPan(_, _) => ViewEditable(g) && g.isZoomed && !g.isPanning
    case UpdatePan(_, _) => g.isPanning
    case EndPan => g.isPanning
    case GalleryClick(t) => 0 <= t < g.count && t != g.index
    case RotateClockwise => g.hasCurrent
    case RotateCounterClockwise => g.hasCurrent
    case FlipHorizontal => g.hasCurrent
    case CopyToClipboard => g.hasCurrent && g.index < g.count
    case ContextMenuClick(i) => g.menuVisible && 0 <= i < g.menuItemCount
    case ToolbarButtonClick(i) => 0 <= i < g.toolbarButtonCount
    case _ => true
  }

  /** A navigation that may run lands on an image of the list. */
  lemma NavigationTargetsExist(c: Command, g: GuardState)
    requires c.NavigateNext? || c.NavigatePrev? || c.NavigateToIndex? || c.GalleryClick?
    requires CanExecute(c, g) && 0 <= g.index < g.count
    ensures var target := match c
              case NavigateNext(_, _) => g.index + 1
              case NavigatePrev(_, _) => g.index - 1
              case NavigateToIndex(t, _, _) => t
              case GalleryClick(t) => t
              case _ => g.index;
            0 <= target < g.count && target != g.index
  {
  }

  /** An open animation blocks navigation and zooming, but not the zoom toggle. */
  lemma OpenAnimationBlocksNavigationOnly(g: GuardState)
    requires g.openActive && g.hasCurrent && !g.toggleZoomActive
    ensures !CanExecute(NavigateNext(true, 700), g) && !CanExecute(NavigatePrev(true, 700), g)
    ensures !CanExecute(ZoomIn(0.05, (0, 0)), g)
    ensures CanExecute(ToggleZoom, g)
  {
  }

  /** Starting a pan and ending one are never both allowed: a pan cannot start twice or end before it starts. */
  lemma PanGuardsExclusive(g: GuardState, mx: real, my: real)
    ensures !(CanExecute(StartPan(mx, my), g) && CanExecute(EndPan, g))
  {
  }

  /**
   * The index `GalleryScroll` aims at from `base`: one step left for a
   * positive wheel delta, one step right otherwise, kept in the list.
   */
  function GalleryScrollTarget(n: nat, base: int, delta: real): (t: int)
    requires n > 0
    ensures delta > 0.0 ==> t == if base - 1 >= 0 then base - 1 else 0
    ensures delta <= 0.0 ==> t == if base + 1 <= n - 1 then base + 1 else n - 1
    ensures 0 <= base < n ==> 0 <= t < n && -1 <= t - base <= 1
    ensures delta > 0.0 ==> t <= base || t == 0
    ensures delta <= 0.0 ==> t >= base || t == n - 1
  {
    if delta > 0.0 then (if 0 >= base - 1 then 0 else base - 1)
    else (if n - 1 <= base + 1 then n - 1 else base + 1)
  }

  /** Scrolling further keeps the target in the list and moves it at most one place per step. */
  lemma {:induction false} GalleryScrollRepeated(n: nat, base: int, deltas: seq<real>)
    requires n > 0 && 0 <= base < n
    decreases |deltas|
    ensures 0 <= ScrollAll(n, base, deltas) < n
    ensures -|deltas| <= ScrollAll(n, base, deltas) - base <= |deltas|
  {
    if deltas != [] {
      var next := GalleryScrollTarget(n, base, deltas[0]);
      GalleryScrollRepeated(n, next, deltas[1..]);
    }
  }

  /** The target after a series of wheel steps, each starting from the previous target. */
  function ScrollAll(n: nat, base: int, deltas: seq<real>): int
    requires n > 0
    decreases |deltas|
  {
    if deltas == [] then base else ScrollAll(n, GalleryScrollTarget(n, base, deltas[0]), deltas[1..])
  }

  /** The nested per-concern state the commands act on. */
  class AppState {
    const images: StateImages.ImageListState
    const anim: StateAnimation.AnimationState
    const view: StateView.ViewState
    const input: StateInput.InputState
    const gallery: StateGallery.GalleryState
    const ui: StateUi.UiState

    constructor (images: StateImages.ImageListState, anim: StateAnimation.AnimationState,
                 view: StateView.ViewState, input: StateInput.InputState,
                 gallery: StateGallery.GalleryState, ui: StateUi.UiState)
      ensures this.images == images && this.anim == anim && this.view == view
      ensures this.input == input && this.gallery == gallery && this.ui == ui
    {
      this.images, this.anim, this.view := images, anim, view;
      this.input, this.gallery, this.ui := input, gallery, ui;
    }

    /** The values the guards read. */
    function Guards(): (g: GuardState)
      reads this, images, anim, view, input, ui, ui.contextMenu, ui.toolbar
      ensures g.count == |images.images| && g.index == images.index
      ensures g.hasCurrent <==> images.cache.curr.Some?
    {
      GuardState(|images.images|, images.index, images.cache.curr.Some?, anim.openActive, anim.toggleZoomActive,
                 view.isZoomed, input.isPanning, ui.contextMenu.visible, |ui.contextMenu.items|,
                 |ui.toolbar.buttons|)
    }

    /** `StartPan.execute`: records the mouse position and the current view offsets. */
    method ExecuteStartPan(mouseX: real, mouseY: real) returns (result: bool)
      modifies input`isPanning, input`panStartMouse, input`panStartOffset
      ensures result == CanExecute(StartPan(mouseX, mouseY), old(Guards()))
      ensures result ==> input.isPanning && input.panStartMouse == (mouseX, mouseY) &&
                         input.panStartOffset == (view.view.offx, view.view.offy)
      ensures !result ==> unchanged(input)
    {
      if !CanExecute(StartPan(mouseX, mouseY), Guards()) {
        return false;
      }
      input.StartPan(mouseX, mouseY, view.view.offx, view.view.offy);
      return true;
    }

    /** `EndPan.execute`: only while panning; the pan is over afterwards. */
    method ExecuteEndPan() returns (result: bool)
      modifies input`isPanning
      ensures result == old(input.isPanning)
      ensures !input.isPanning
    {
      if !CanExecute(EndPan, Guards()) {
        return false;
      }
      var _ := input.EndPan();
      return true;
    }

    /**
     * `GalleryScroll.execute`: with no images nothing happens; otherwise the
     * target moves one step from the pending target, or from the current
     * index when there is none.
     */
    method ExecuteGalleryScroll(delta: real) returns (result: bool)
      modifies gallery`targetIndex
      ensures result <==> |images.images| > 0
      ensures !result ==> gallery.targetIndex == old(gallery.targetIndex)
      ensures result ==> gallery.targetIndex == Some(GalleryScrollTarget(|images.images|,
        if old(gallery.targetIndex).Some? then old(gallery.targetIndex).value else images.index, delta))
    {
      var n := |images.images|;
      if n == 0 {
        return false;
      }
      var base := if gallery.targetIndex.Some? then gallery.targetIndex.value else images.index;
      gallery.targetIndex := Some(GalleryScrollTarget(n, base, delta));
      return true;
    }

    /** `ContextMenuClick.execute`: a valid item of the open menu closes it. */
    method ExecuteContextMenuClick(itemIndex: int) returns (result: bool)
      modifies ui.contextMenu`visible, ui.contextMenu`hoverIndex
      ensures result <==> old(ui.contextMenu.visible) && 0 <= itemIndex < |ui.contextMenu.items|
      ensures result ==> !ui.contextMenu.visible && ui.contextMenu.hoverIndex == -1
      ensures !result ==> unchanged(ui.contextMenu)
    {
      if !CanExecute(ContextMenuClick(itemIndex), Guards()) {
        return false;
      }
      ui.contextMenu.Hide();
      return true;
    }

    /**
     * The state `execute` of `c` leaves when it reports `result`: what the
     * command changes among the input, gallery and interface state, and that
     * the rest of them is as before. Navigation, zoom, pan updates, rotation,
     * flips, copying, toolbar clicks and closing change none of it here.
     */
    twostate predicate Executed(c: Command, result: bool)
      reads this, images, view, input, gallery, ui, ui.contextMenu
    {
      match c
      case StartPan(mx, my) =>
        unchanged(gallery, ui, ui.contextMenu) &&
        if result then input.isPanning && input.panStartMouse == (mx, my) &&
                       input.panStartOffset == (view.view.offx, view.view.offy)
        else unchanged(input)
      case EndPan =>
        unchanged(gallery, ui, ui.contextMenu) && !input.isPanning &&
        input.panStartMouse == old(input.panStartMouse) && input.panStartOffset == old(input.panStartOffset)
      case GalleryScroll(delta) =>
        unchanged(input, ui, ui.contextMenu) &&
        if result && |images.images| > 0 then gallery.targetIndex == Some(GalleryScrollTarget(|images.images|,
          if old(gallery.targetIndex).Some? then old(gallery.targetIndex).value else images.index, delta))
        else !result && unchanged(gallery)
      case ContextMenuClick(_) =>
        unchanged(input, gallery, ui) &&
        if result then !ui.contextMenu.visible && ui.contextMenu.hoverIndex == -1 &&
                       ui.contextMenu.x == old(ui.contextMenu.x) && ui.contextMenu.y == old(ui.contextMenu.y)
        else unchanged(ui.contextMenu)
      case ToggleHud =>
        unchanged(input, gallery, ui.contextMenu) && ui.showHud == !old(ui.showHud) &&
        ui.showFilename == old(ui.showFilename) && ui.bgModeIndex == old(ui.bgModeIndex) &&
        ui.bgTargetOpacity == old(ui.bgTargetOpacity)
      case ToggleFilename =>
        unchanged(input, gallery, ui.contextMenu) && ui.showFilename == !old(ui.showFilename) &&
        ui.showHud == old(ui.showHud) && ui.bgModeIndex == old(ui.bgModeIndex) &&
        ui.bgTargetOpacity == old(ui.bgTargetOpacity)
      case CycleBackground =>
        unchanged(input, gallery, ui.contextMenu) &&
        ui.bgModeIndex == StateUi.NextBgModeIndex(old(ui.bgModeIndex)) &&
        0 <= ui.bgModeIndex < |StateUi.BgModes| && ui.bgTargetOpacity == StateUi.BgModes[ui.bgModeIndex].opacity &&
        ui.showHud == old(ui.showHud) && ui.showFilename == old(ui.showFilename)
      case ShowContextMenu(x, y) =>
        unchanged(input, gallery, ui) &&
        ui.contextMenu.visible && ui.contextMenu.x == x && ui.contextMenu.y == y && ui.contextMenu.hoverIndex == -1
      case HideContextMenu =>
        unchanged(input, gallery, ui) && !ui.contextMenu.visible && ui.contextMenu.hoverIndex == -1 &&
        ui.contextMenu.x == old(ui.contextMenu.x) && ui.contextMenu.y == old(ui.contextMenu.y)
      case _ =>
        unchanged(input, gallery, ui, ui.contextMenu)
    }

    /**
     * `execute` of any command. Only pan start and end, the gallery scroll,
     * the HUD, file name and background toggles and the context menu change
     * the state here; the other commands only check their guard, and their
     * effect is carried out by the viewer.
     */
    method Execute(c: Command) returns (result: bool)
      requires ui.Valid()
      modifies input`isPanning, input`panStartMouse, input`panStartOffset, gallery`targetIndex
      modifies ui`showHud, ui`showFilename, ui`bgModeIndex, ui`bgTargetOpacity
      modifies ui.contextMenu`visible, ui.contextMenu`x, ui.contextMenu`y, ui.contextMenu`hoverIndex
      ensures ui.Valid()
      ensures !c.GalleryScroll? ==> result == CanExecute(c, old(Guards()))
      ensures c.GalleryScroll? ==> (result <==> |images.images| > 0)
      ensures !result ==> unchanged(input, gallery, ui, ui.contextMenu)
      ensures Executed(c, result)
    {
      match c {
        case StartPan(mx, my) =>
          result := ExecuteStartPan(mx, my);
        case EndPan =>
          result := ExecuteEndPan();
        case GalleryScroll(delta) =>
          result := ExecuteGalleryScroll(delta);
        case ContextMenuClick(i) =>
          result := ExecuteContextMenuClick(i);
        case ToggleHud =>
          ui.ToggleHud();
          result := true;
        case ToggleFilename =>
          ui.ToggleFilename();
          result := true;
        case CycleBackground =>
          ui.CycleBgMode();
          result := true;
        case ShowContextMenu(x, y) =>
          ui.contextMenu.Show(x, y);
          result := true;
        case HideContextMenu =>
          ui.contextMenu.Hide();
          result := true;
        case _ =>
          result := CanExecute(c, Guards());
      }
    }
  }

  /** Default length of the command history. */
  const DefaultMaxHistory: int := 100

  /**
   * The history after a successful command: appended, then trimmed from the
   * front to `maxHistory`; a non-positive bound keeps no history at all.
   */
  function Record(history: seq<Command>, c: Command, maxHistory: int): (h: seq<Command>)
    ensures maxHistory <= 0 ==> h == history
    ensures maxHistory > 0 && |history| <= maxHistory ==> |h| <= maxHistory && h != [] && h[|h| - 1] == c
    ensures maxHistory > 0 && |history| < maxHistory ==> h == history + [c]
  {
    if maxHistory <= 0 then history
    else
      var appended := history + [c];
      if |appended| > maxHistory then appended[1..] else appended
  }

  /** The history after recording `cs` one after the other. */
  function RecordAll(history: seq<Command>, cs: seq<Command>, maxHistory: int): seq<Command>
    decreases |cs|
  {
    if cs == [] then history else RecordAll(Record(history, cs[0], maxHistory), cs[1..], maxHistory)
  }

  /** Starting from an empty history, the history is always the last `maxHistory` commands recorded. */
  lemma {:induction false} HistoryKeepsNewest(history: seq<Command>, cs: seq<Command>, maxHistory: int, all: seq<Command>)
    requires maxHistory > 0 && |history| <= maxHistory
    requires |all| >= |history| && history == all[|all| - |history|..]
    requires |history| == |all| || |history| == maxHistory
    decreases |cs|
    ensures var k := if |all| + |cs| <= maxHistory then |all| + |cs| else maxHistory;
      RecordAll(history, cs, maxHistory) == (all + cs)[|all| + |cs| - k..]
  {
    if cs != [] {
      var next := Record(history, cs[0], maxHistory);
      var all' := all + [cs[0]];
      assert next == all'[|all'| - |next|..];
      assert all' + cs[1..] == all + cs;
      HistoryKeepsNewest(next, cs[1..], maxHistory, all');
    } else {
      assert all + cs == all;
    }
  }

  /** From an empty history: the newest `maxHistory` of the recorded commands, in order. */
  lemma HistoryOfFreshQueue(cs: seq<Command>, maxHistory: int)
    requires maxHistory > 0
    ensures var k := if |cs| <= maxHistory then |cs| else maxHistory;
      RecordAll([], cs, maxHistory) == cs[|cs| - k..]
  {
    HistoryKeepsNewest([], cs, maxHistory, []);
    assert [] + cs == cs;
  }

  /** `CommandQueue`: executes commands and records the successful ones. */
  class CommandQueue {
    var history: seq<Command>
    const maxHistory: int

    ghost predicate Valid()
      reads this
    {
      maxHistory > 0 ==> |history| <= maxHistory
    }

    constructor (maxHistory: int := DefaultMaxHistory)
      ensures Valid() && history == [] && this.maxHistory == maxHistory
    {
      history := [];
      this.maxHistory := maxHistory;
    }

    /**
     * `execute`: a command whose guard fails is refused and the history is
     * left alone; otherwise it runs, and it is recorded when it reports success.
     */
    method Execute(c: Command, st: AppState) returns (result: bool)
      requires Valid() && st.ui.Valid()
      modifies this`history
      modifies st.input`isPanning, st.input`panStartMouse, st.input`panStartOffset, st.gallery`targetIndex
      modifies st.ui`showHud, st.ui`showFilename, st.ui`bgModeIndex, st.ui`bgTargetOpacity
      modifies st.ui.contextMenu`visible, st.ui.contextMenu`x, st.ui.contextMenu`y, st.ui.contextMenu`hoverIndex
      ensures Valid() && st.ui.Valid()
      ensures !CanExecute(c, old(st.Guards())) ==> !result && history == old(history)
      ensures !CanExecute(c, old(st.Guards())) ==> unchanged(st.input, st.gallery, st.ui, st.ui.contextMenu)
      ensures CanExecute(c, old(st.Guards())) ==> st.Executed(c, result)
      ensures result ==> history == Record(old(history), c, maxHistory)
      ensures !result ==> history == old(history)
    {
      if !CanExecute(c, st.Guards()) {
        return false;
      }
      result := st.Execute(c);
      var h := history;
      if result && maxHistory > 0 {
        h := h + [c];
        if |h| > maxHistory {
          h := h[1..];
        }
      }
      history := h;
    }

    /** `history`: the recorded commands, oldest first. */
    function History(): (h: seq<Command>)
      reads this
      ensures h == history
      ensures Valid() && maxHistory > 0 ==> |h| <= maxHistory
    {
      history
    }

    /** `clear_history`. */
    method ClearHistory()
      modifies this`history
      ensures Valid() && history == []
    {
      history := [];
    }
  }
}
