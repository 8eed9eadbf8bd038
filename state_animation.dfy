/**
 * Animation flags and the bounded queue of pending switch animations
 * (imagura/state/animation.py). The queue is given as pure functions on
 * sequences, which the state's methods are proved against.
 */
module StateAnimation {
  import opened Wrappers
  import opened Types

  /** At most this many switches wait in the queue. */
  const MaxQueuedSwitches: nat := 20

  /** A queued switch: direction (+1 or -1) and duration in milliseconds. */
  datatype SwitchRequest = SwitchRequest(direction: int, durationMs: int)

  /**
   * `queue_switch` on a queue value: whether the request was accepted and
   * the new queue. A full queue refuses the new request and keeps its
   * contents; it does not drop the oldest one.
   */
  function EnqueueSwitch(q: seq<SwitchRequest>, req: SwitchRequest): (r: (bool, seq<SwitchRequest>))
    ensures r.0 <==> |q| < MaxQueuedSwitches
    ensures r.0 ==> r.1 == q + [req]
    ensures !r.0 ==> r.1 == q
  {
    if |q| < MaxQueuedSwitches then (true, q + [req]) else (false, q)
  }

  /** `pop_switch` on a queue value: the oldest request and the rest, or None. */
  function DequeueSwitch(q: seq<SwitchRequest>): (r: (Option<SwitchRequest>, seq<SwitchRequest>))
    ensures r.0.Some? <==> |q| > 0
    ensures r.0.Some? ==> q == [r.0.value] + r.1
    ensures r.0.None? ==> r.1 == q
  {
    if |q| > 0 then (Some(q[0]), q[1..]) else (None, q)
  }

  /** Queueing never takes the queue past its bound. */
  lemma EnqueueSwitchBounded(q: seq<SwitchRequest>, req: SwitchRequest)
    requires |q| <= MaxQueuedSwitches
    ensures |EnqueueSwitch(q, req).1| <= MaxQueuedSwitches
  {
  }

  /** Requests come out in the order they went in: A, then B, then nothing. */
  lemma SwitchQueueFifo(a: SwitchRequest, b: SwitchRequest)
    ensures var q1 := EnqueueSwitch([], a).1;
            var q2 := EnqueueSwitch(q1, b).1;
            var (first, q3) := DequeueSwitch(q2);
            var (second, q4) := DequeueSwitch(q3);
            first == Some(a) && second == Some(b) && DequeueSwitch(q4).0 == None
  {
    var q2 := EnqueueSwitch(EnqueueSwitch([], a).1, b).1;
    assert q2 == [a, b];
    assert DequeueSwitch(q2).1 == [b];
  }

  /** An accepted request is served after every request already waiting. */
  lemma {:induction false} EnqueueThenDrain(q: seq<SwitchRequest>, req: SwitchRequest)
    requires |q| < MaxQueuedSwitches
    ensures Drain(EnqueueSwitch(q, req).1) == q + [req]
  {
    DrainIsContents(q + [req]);
  }

  /** The requests popped one after another until the queue is empty. */
  function Drain(q: seq<SwitchRequest>): (r: seq<SwitchRequest>)
    decreases |q|
  {
    match DequeueSwitch(q)
    case (None, _) => []
    case (Some(x), rest) => [x] + Drain(rest)
  }

  /** Draining the queue yields its contents, oldest first. */
  lemma {:induction false} DrainIsContents(q: seq<SwitchRequest>)
    ensures Drain(q) == q
    decreases |q|
  {
    if |q| > 0 {
      DrainIsContents(q[1..]);
    }
  }

  /** The animation flags and parameters of the viewer. */
  class AnimationState {
    var openActive: bool
    var openT0: real
    var switchActive: bool
    var switchT0: real
    var switchDurationMs: int
    var switchDirection: int
    var switchPrevTex: Option<TextureInfo>
    var switchPrevView: ViewParams
    var switchQueue: seq<SwitchRequest>
    var zoomActive: bool
    var zoomT0: real
    var zoomFrom: ViewParams
    var zoomTo: ViewParams
    var toggleZoomActive: bool
    var toggleZoomT0: real
    var toggleZoomFrom: ViewParams
    var toggleZoomTo: ViewParams
    var toggleZoomTargetState: int

    ghost predicate Valid()
      reads this
    {
      |switchQueue| <= MaxQueuedSwitches
    }

    constructor ()
      ensures Valid()
      ensures !openActive && !switchActive && !zoomActive && !toggleZoomActive
      ensures switchQueue == [] && switchPrevTex == None
      ensures openT0 == 0.0 && switchT0 == 0.0 && zoomT0 == 0.0 && toggleZoomT0 == 0.0
      ensures switchDurationMs == 0 && switchDirection == 0 && toggleZoomTargetState == 0
      ensures switchPrevView == DefaultView() && zoomFrom == DefaultView() && zoomTo == DefaultView()
      ensures toggleZoomFrom == DefaultView() && toggleZoomTo == DefaultView()
    {
      openActive, openT0 := false, 0.0;
      switchActive, switchT0, switchDurationMs, switchDirection := false, 0.0, 0, 0;
      switchPrevTex, switchPrevView, switchQueue := None, DefaultView(), [];
      zoomActive, zoomT0, zoomFrom, zoomTo := false, 0.0, DefaultView(), DefaultView();
      toggleZoomActive, toggleZoomT0 := false, 0.0;
      toggleZoomFrom, toggleZoomTo, toggleZoomTargetState := DefaultView(), DefaultView(), 0;
    }

    /** `any_zoom_animating`. */
    predicate AnyZoomAnimating()
      reads this
    {
      zoomActive || toggleZoomActive
    }

    /** `any_animating`: a zoom animation counts as an animation. */
    function AnyAnimating(): (r: bool)
      reads this
      ensures r <==> openActive || switchActive || AnyZoomAnimating()
      ensures AnyZoomAnimating() ==> r
    {
      openActive || switchActive || zoomActive || toggleZoomActive
    }

    /** `has_queued_switches`: exactly when a pop would return a request. */
    function HasQueuedSwitches(): (r: bool)
      reads this
      ensures r <==> DequeueSwitch(switchQueue).0.Some?
    {
      |switchQueue| > 0
    }

    /** `queue_switch`. */
    method QueueSwitch(direction: int, durationMs: int) returns (queued: bool)
      requires Valid()
      modifies this`switchQueue
      ensures Valid()
      ensures (queued, switchQueue) == EnqueueSwitch(old(switchQueue), SwitchRequest(direction, durationMs))
    {
      if |switchQueue| < MaxQueuedSwitches {
        switchQueue := switchQueue + [SwitchRequest(direction, durationMs)];
        queued := true;
      } else {
        queued := false;
      }
    }

    /** `pop_switch`. */
    method PopSwitch() returns (r: Option<SwitchRequest>)
      requires Valid()
      modifies this`switchQueue
      ensures Valid()
      ensures (r, switchQueue) == DequeueSwitch(old(switchQueue))
    {
      if |switchQueue| > 0 {
        r := Some(switchQueue[0]);
        switchQueue := switchQueue[1..];
      } else {
        r := None;
      }
    }

    /** `clear_switch_prev`: hands back the previous texture and forgets it. */
    method ClearSwitchPrev() returns (tex: Option<TextureInfo>)
      modifies this`switchPrevTex
      ensures tex == old(switchPrevTex)
      ensures switchPrevTex == None
    {
      tex := switchPrevTex;
      switchPrevTex := None;
    }
  }
}
