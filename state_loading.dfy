/**
 * Coordination of an animated switch with the asynchronous loader
 * (imagura/state/loading.py): the switch is prepared while the target image
 * loads, and completed once it has arrived. The loader and idle-detector
 * handles the state also carries are not part of this model.
 */
module StateLoading {
  import opened Wrappers
  import opened Types

  /** Default switch duration, in milliseconds, for keyboard navigation. */
  const AnimSwitchKeysMs: int := 200

  /** The fields of the loading state as one value. */
  datatype Loading = Loading(
    loadingCurrent: bool,
    waitingForSwitch: bool,
    waitingPrevSnapshot: Option<TextureInfo>,
    waitingPrevView: ViewParams,
    pendingTargetIndex: Option<int>,
    pendingNeighborsLoad: bool,
    pendingSwitchDurationMs: int)

  /** What `complete_switch` hands back: snapshot, previous view, target index, duration. */
  datatype Completion = Completion(
    snapshot: Option<TextureInfo>, prevView: Option<ViewParams>, targetIndex: int, durationMs: int)

  /** `prepare_switch` on a state value. */
  function Prepare(s: Loading, targetIndex: int, durationMs: int, prevTex: Option<TextureInfo>, prevView: ViewParams): (r: Loading)
    ensures r.waitingForSwitch && r.pendingTargetIndex == Some(targetIndex)
    ensures r.pendingSwitchDurationMs == durationMs && r.waitingPrevSnapshot == prevTex
    ensures r.waitingPrevView == prevView.Copy()
    ensures r.loadingCurrent == s.loadingCurrent && r.pendingNeighborsLoad == s.pendingNeighborsLoad
  {
    s.(waitingForSwitch := true, pendingTargetIndex := Some(targetIndex),
       pendingSwitchDurationMs := durationMs, waitingPrevSnapshot := prevTex,
       waitingPrevView := ViewParams(prevView.scale, prevView.offx, prevView.offy))
  }

  /**
   * `complete_switch` on a state value: with nothing prepared it reports
   * (None, None, 0, 0) and changes nothing; otherwise it reports what was
   * prepared and clears the handshake.
   */
  function Complete(s: Loading): (r: (Completion, Loading))
    ensures !s.waitingForSwitch || s.pendingTargetIndex.None? ==> r == (Completion(None, None, 0, 0), s)
    ensures s.waitingForSwitch && s.pendingTargetIndex.Some? ==>
      r.0 == Completion(s.waitingPrevSnapshot, Some(s.waitingPrevView), s.pendingTargetIndex.value, s.pendingSwitchDurationMs)
    ensures s.waitingForSwitch && s.pendingTargetIndex.Some? ==>
      r.1 == s.(waitingForSwitch := false, waitingPrevSnapshot := None, pendingTargetIndex := None,
                pendingSwitchDurationMs := AnimSwitchKeysMs)
  {
    if !s.waitingForSwitch || s.pendingTargetIndex.None? then
      (Completion(None, None, 0, 0), s)
    else
      var result := Completion(s.waitingPrevSnapshot, Some(s.waitingPrevView), s.pendingTargetIndex.value, s.pendingSwitchDurationMs);
      (result, s.(waitingForSwitch := false, waitingPrevSnapshot := None, pendingTargetIndex := None,
                  pendingSwitchDurationMs := AnimSwitchKeysMs))
  }

  /** `reset_pending` on a state value. */
  function ResetPending(s: Loading): (r: Loading)
    ensures !r.waitingForSwitch && r.waitingPrevSnapshot == None && r.pendingTargetIndex == None
    ensures !r.pendingNeighborsLoad && r.pendingSwitchDurationMs == AnimSwitchKeysMs
    ensures r.loadingCurrent == s.loadingCurrent && r.waitingPrevView == s.waitingPrevView
  {
    s.(waitingForSwitch := false, waitingPrevSnapshot := None, pendingTargetIndex := None,
       pendingNeighborsLoad := false, pendingSwitchDurationMs := AnimSwitchKeysMs)
  }

  /** `is_busy`. */
  predicate IsBusy(s: Loading) {
    s.loadingCurrent || s.waitingForSwitch
  }

  /** `has_pending_switch`. */
  predicate HasPendingSwitch(s: Loading) {
    s.pendingTargetIndex.Some?
  }

  /**
   * Preparing and then completing a switch hands back exactly what was
   * prepared; afterwards nothing is pending, the previous view and the
   * neighbour-load flag are as they were left, and the loader is not busy
   * unless it was loading.
   */
  lemma PrepareThenComplete(s: Loading, targetIndex: int, durationMs: int, prevTex: Option<TextureInfo>, prevView: ViewParams)
    ensures var (c, t) := Complete(Prepare(s, targetIndex, durationMs, prevTex, prevView));
            c == Completion(prevTex, Some(prevView), targetIndex, durationMs) &&
            !HasPendingSwitch(t) && !t.waitingForSwitch && t.waitingPrevSnapshot == None &&
            t.pendingSwitchDurationMs == AnimSwitchKeysMs &&
            t.waitingPrevView == prevView && t.pendingNeighborsLoad == s.pendingNeighborsLoad &&
            (IsBusy(t) <==> s.loadingCurrent)
  {
  }

  /** A second completion after a successful one changes nothing and reports nothing. */
  lemma CompleteTwice(s: Loading)
    ensures var t := Complete(s).1;
            Complete(t) == (Completion(None, None, 0, 0), t)
  {
  }

  /** A prepared switch is pending and keeps the loader busy until it completes. */
  lemma PreparedIsBusy(s: Loading, targetIndex: int, durationMs: int, prevTex: Option<TextureInfo>, prevView: ViewParams)
    ensures var p := Prepare(s, targetIndex, durationMs, prevTex, prevView);
            IsBusy(p) && HasPendingSwitch(p)
  {
  }

  /** The loading coordination state. */
  class LoadingState {
    var loadingCurrent: bool
    var waitingForSwitch: bool
    var waitingPrevSnapshot: Option<TextureInfo>
    var waitingPrevView: ViewParams
    var pendingTargetIndex: Option<int>
    var pendingNeighborsLoad: bool
    var pendingSwitchDurationMs: int

    /** The fields as one value. */
    function Model(): (m: Loading)
      reads this
    {
      Loading(loadingCurrent, waitingForSwitch, waitingPrevSnapshot, waitingPrevView,
              pendingTargetIndex, pendingNeighborsLoad, pendingSwitchDurationMs)
    }

    constructor ()
      ensures Model() == Loading(false, false, None, DefaultView(), None, false, AnimSwitchKeysMs)
    {
      loadingCurrent, waitingForSwitch := false, false;
      waitingPrevSnapshot, waitingPrevView := None, DefaultView();
      pendingTargetIndex, pendingNeighborsLoad := None, false;
      pendingSwitchDurationMs := AnimSwitchKeysMs;
    }

    /** `prepare_switch`. */
    method PrepareSwitch(targetIndex: int, durationMs: int, prevTex: Option<TextureInfo>, prevView: ViewParams)
      modifies this
      ensures Model() == Prepare(old(Model()), targetIndex, durationMs, prevTex, prevView)
    {
      waitingForSwitch := true;
      pendingTargetIndex := Some(targetIndex);
      pendingSwitchDurationMs := durationMs;
      waitingPrevSnapshot := prevTex;
      waitingPrevView := ViewParams(prevView.scale, prevView.offx, prevView.offy);
    }

    /** `complete_switch`. */
    method CompleteSwitch() returns (c: Completion)
      modifies this
      ensures (c, Model()) == Complete(old(Model()))
    {
      if !waitingForSwitch || pendingTargetIndex.None? {
        return Completion(None, None, 0, 0);
      }
      c := Completion(waitingPrevSnapshot, Some(waitingPrevView), pendingTargetIndex.value, pendingSwitchDurationMs);
      waitingForSwitch := false;
      waitingPrevSnapshot := None;
      pendingTargetIndex := None;
      pendingSwitchDurationMs := AnimSwitchKeysMs;
    }

    /** `reset_pending`. */
    method ResetPendingState()
      modifies this
      ensures Model() == ResetPending(old(Model()))
    {
      waitingForSwitch := false;
      waitingPrevSnapshot := None;
      pendingTargetIndex := None;
      pendingNeighborsLoad := false;
      pendingSwitchDurationMs := AnimSwitchKeysMs;
    }
  }
}
