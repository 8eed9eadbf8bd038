/**
 * Non-blocking animations and their controller (imagura/animation.py).
 * Each animation is a value whose progress is a function of an explicit
 * clock reading `now` (seconds); the controller is a class holding the
 * running animations and the completion callbacks, which are opaque tokens
 * that `Update` hands back in the order it would call them.
 */
module Animations {
  import opened Wrappers
  import opened MathUtils
  import opened Types

  datatype AnimationType = Open | Switch | Zoom | ToggleZoom | BgFade

  /** The per-type parameters of an animation. */
  datatype AnimationKind =
    | OpenAnim(fromScale: real, toScale: real, fromAlpha: real, toAlpha: real, fromBgOpacity: real, toBgOpacity: real)
    | SwitchAnim(direction: int, prevView: ViewParams, currView: ViewParams)
    | ZoomAnim(fromView: ViewParams, toView: ViewParams)
    | ToggleZoomAnim(fromView: ViewParams, toView: ViewParams, targetState: int)
    | BgFadeAnim(fromOpacity: real, toOpacity: real)

  /** Start time (seconds), duration (milliseconds), the `finished` flag and the parameters. */
  datatype Animation = Animation(startTime: real, durationMs: real, finished: bool, kind: AnimationKind)

  /** `get_type`. */
  function TypeOf(a: Animation): (t: AnimationType)
  {
    match a.kind
    case OpenAnim(_, _, _, _, _, _) => Open
    case SwitchAnim(_, _, _) => Switch
    case ZoomAnim(_, _) => Zoom
    case ToggleZoomAnim(_, _, _) => ToggleZoom
    case BgFadeAnim(_, _) => BgFade
  }

  lemma QuotientFacts(x: real, d: real)
    requires d > 0.0
    ensures x >= 0.0 ==> x / d >= 0.0
    ensures x / d >= 1.0 <==> x >= d
  {
  }

  /**
   * `progress` at time `now`: 1 for a non-positive duration, otherwise the
   * elapsed fraction of the duration, capped at 1.
   */
  function Progress(a: Animation, now: real): (p: real)
    ensures p <= 1.0
    ensures a.durationMs <= 0.0 ==> p == 1.0
    ensures now >= a.startTime ==> 0.0 <= p
    ensures p == 1.0 <==> a.durationMs <= 0.0 || (now - a.startTime) * 1000.0 >= a.durationMs
    ensures a.durationMs > 0.0 && now == a.startTime ==> p == 0.0
  {
    if a.durationMs <= 0.0 then 1.0
    else
      var elapsed := (now - a.startTime) * 1000.0;
      QuotientFacts(elapsed, a.durationMs);
      Min(1.0, elapsed / a.durationMs)
  }

  /** `is_complete`: the duration has elapsed or the animation was finished. */
  function IsComplete(a: Animation, now: real): (c: bool)
    ensures c <==> a.finished || a.durationMs <= 0.0 || (now - a.startTime) * 1000.0 >= a.durationMs
  {
    Progress(a, now) >= 1.0 || a.finished
  }

  /** `finish`. */
  function Finish(a: Animation): (r: Animation)
    ensures forall now :: IsComplete(r, now)
    ensures TypeOf(r) == TypeOf(a)
  {
    a.(finished := true)
  }

  /** Once complete, an animation stays complete as the clock advances. */
  lemma CompleteStaysComplete(a: Animation, now: real, later: real)
    requires IsComplete(a, now) && now <= later
    ensures IsComplete(a, later)
  {
  }

  /** Progress never decreases as the clock advances. */
  lemma ProgressMonotone(a: Animation, now: real, later: real)
    requires now <= later
    ensures Progress(a, now) <= Progress(a, later)
  {
    if a.durationMs > 0.0 {
      DivMonotone((now - a.startTime) * 1000.0, (later - a.startTime) * 1000.0, a.durationMs);
    }
  }

  lemma DivMonotone(x: real, y: real, d: real)
    requires d > 0.0 && x <= y
    ensures x / d <= y / d
  {
  }

  // ------------------------------------------------ per-type getters

  /** `OpenAnimation.get_current_scale_factor`: eased from `fromScale` to `toScale`. */
  function OpenScaleFactor(a: Animation, now: real): (s: real)
    requires a.kind.OpenAnim?
    ensures Progress(a, now) == 1.0 ==> s == a.kind.toScale
    ensures a.kind.fromScale <= a.kind.toScale ==> a.kind.fromScale <= s <= a.kind.toScale
  {
    Lerp(a.kind.fromScale, a.kind.toScale, EaseOutQuad(Progress(a, now)))
  }

  /** `OpenAnimation.get_current_alpha`. */
  function OpenAlpha(a: Animation, now: real): (alpha: real)
    requires a.kind.OpenAnim?
    ensures Progress(a, now) == 1.0 ==> alpha == a.kind.toAlpha
    ensures a.kind.fromAlpha <= a.kind.toAlpha ==> a.kind.fromAlpha <= alpha <= a.kind.toAlpha
  {
    Lerp(a.kind.fromAlpha, a.kind.toAlpha, EaseOutQuad(Progress(a, now)))
  }

  /** `OpenAnimation.get_current_bg_opacity`. */
  function OpenBgOpacity(a: Animation, now: real): (o: real)
    requires a.kind.OpenAnim?
    ensures Progress(a, now) == 1.0 ==> o == a.kind.toBgOpacity
    ensures a.kind.fromBgOpacity <= a.kind.toBgOpacity ==> a.kind.fromBgOpacity <= o <= a.kind.toBgOpacity
  {
    Lerp(a.kind.fromBgOpacity, a.kind.toBgOpacity, EaseOutQuad(Progress(a, now)))
  }

  /** `SwitchAnimation.get_offset_progress`. */
  function SwitchOffsetProgress(a: Animation, now: real): (p: real)
    ensures 0.0 <= p <= 1.0
    ensures Progress(a, now) == 1.0 ==> p == 1.0
  {
    EaseInOutCubic(Progress(a, now))
  }

  /** `SwitchAnimation.get_prev_alpha`: the outgoing image fades out. */
  function SwitchPrevAlpha(a: Animation, now: real): (alpha: real)
    ensures 0.0 <= alpha <= 1.0
    ensures alpha + SwitchCurrAlpha(a, now) == 1.0
  {
    1.0 - EaseInOutCubic(Progress(a, now))
  }

  /** `SwitchAnimation.get_curr_alpha`: the incoming image fades in as the slide advances. */
  function SwitchCurrAlpha(a: Animation, now: real): (alpha: real)
    ensures 0.0 <= alpha <= 1.0
    ensures alpha == SwitchOffsetProgress(a, now)
  {
    EaseInOutCubic(Progress(a, now))
  }

  /** The view a fraction `t` of the way from `from` to `to`, field by field. */
  function LerpView(from: ViewParams, to: ViewParams, t: real): (v: ViewParams)
    ensures t <= 0.0 ==> v == from
    ensures t >= 1.0 ==> v == to
    ensures from.scale <= to.scale ==> from.scale <= v.scale <= to.scale
    ensures to.scale <= from.scale ==> to.scale <= v.scale <= from.scale
  {
    ViewParams(Lerp(from.scale, to.scale, t), Lerp(from.offx, to.offx, t), Lerp(from.offy, to.offy, t))
  }

  /** `ZoomAnimation.get_current_view`: quadratic ease-out from `fromView` to `toView`. */
  function ZoomCurrentView(a: Animation, now: real): (v: ViewParams)
    requires a.kind.ZoomAnim?
    ensures a.durationMs > 0.0 && now == a.startTime ==> v == a.kind.fromView
    ensures IsComplete(a, now) && !a.finished ==> v == a.kind.toView
    ensures a.kind.fromView.scale <= a.kind.toView.scale ==> a.kind.fromView.scale <= v.scale <= a.kind.toView.scale
  {
    LerpView(a.kind.fromView, a.kind.toView, EaseOutQuad(Progress(a, now)))
  }

  /** `ToggleZoomAnimation.get_current_view`: cubic ease-in-out from `fromView` to `toView`. */
  function ToggleZoomCurrentView(a: Animation, now: real): (v: ViewParams)
    requires a.kind.ToggleZoomAnim?
    ensures a.durationMs > 0.0 && now == a.startTime ==> v == a.kind.fromView
    ensures IsComplete(a, now) && !a.finished ==> v == a.kind.toView
    ensures a.kind.fromView.scale <= a.kind.toView.scale ==> a.kind.fromView.scale <= v.scale <= a.kind.toView.scale
  {
    LerpView(a.kind.fromView, a.kind.toView, EaseInOutCubic(Progress(a, now)))
  }

  /** `BgFadeAnimation.get_current_opacity`. */
  function BgFadeOpacity(a: Animation, now: real): (o: real)
    requires a.kind.BgFadeAnim?
    ensures a.durationMs > 0.0 && now == a.startTime ==> o == a.kind.fromOpacity
    ensures Progress(a, now) == 1.0 ==> o == a.kind.toOpacity
  {
    Lerp(a.kind.fromOpacity, a.kind.toOpacity, EaseOutQuad(Progress(a, now)))
  }

  // ------------------------------------------ sequence specifications

  /** The animations of `s` whose type is not `t`, in order (the list comprehension of `start`/`cancel`). */
  function RemoveType(s: seq<Animation>, t: AnimationType): (r: seq<Animation>)
    ensures |r| <= |s|
    ensures forall a :: a in r ==> a in s && TypeOf(a) != t
    ensures forall a :: a in s && TypeOf(a) != t ==> a in r
  {
    if s == [] then []
    else
      var rest := RemoveType(s[..|s| - 1], t);
      assert s == s[..|s| - 1] + [s[|s| - 1]];
      if TypeOf(s[|s| - 1]) != t then rest + [s[|s| - 1]] else rest
  }

  /** The animations of `s` complete at `now`, in order. */
  function Completed(s: seq<Animation>, now: real): (r: seq<Animation>)
  {
    if s == [] then []
    else if IsComplete(s[|s| - 1], now) then Completed(s[..|s| - 1], now) + [s[|s| - 1]]
    else Completed(s[..|s| - 1], now)
  }

  /** The animations of `s` still running at `now`, in order. */
  function StillRunning(s: seq<Animation>, now: real): (r: seq<Animation>)
  {
    if s == [] then []
    else if IsComplete(s[|s| - 1], now) then StillRunning(s[..|s| - 1], now)
    else StillRunning(s[..|s| - 1], now) + [s[|s| - 1]]
  }

  /**
   * The callbacks `update` fires over the animations of `s`, in order, and
   * the callback table left afterwards: each complete animation pops the
   * callback registered for its type, if any.
   */
  function FiredCallbacks(s: seq<Animation>, callbacks: map<AnimationType, Callback>, now: real): (r: (seq<(Callback, Animation)>, map<AnimationType, Callback>))
  {
    if s == [] then ([], callbacks)
    else
      var (fired, left) := FiredCallbacks(s[..|s| - 1], callbacks, now);
      var a := s[|s| - 1];
      if IsComplete(a, now) && TypeOf(a) in left then (fired + [(left[TypeOf(a)], a)], left - {TypeOf(a)})
      else (fired, left)
  }

  /**
   * `update` splits the animations: the complete ones and the running ones
   * together are exactly the original ones, every complete one is complete,
   * every running one is not.
   */
  lemma {:induction false} UpdatePartitions(s: seq<Animation>, now: real)
    ensures multiset(Completed(s, now)) + multiset(StillRunning(s, now)) == multiset(s)
    ensures forall a :: a in Completed(s, now) ==> IsComplete(a, now)
    ensures forall a :: a in StillRunning(s, now) ==> !IsComplete(a, now)
  {
    if s != [] {
      UpdatePartitions(s[..|s| - 1], now);
      assert s == s[..|s| - 1] + [s[|s| - 1]];
    }
  }

  /**
   * The fired callbacks are exactly those registered for the types of the
   * complete animations, each fired once and then removed from the table;
   * the rest of the table is untouched.
   */
  lemma {:induction false} FiredCallbacksSpec(s: seq<Animation>, callbacks: map<AnimationType, Callback>, now: real)
    ensures var (fired, left) := FiredCallbacks(s, callbacks, now);
      (forall k :: 0 <= k < |fired| ==> fired[k].1 in Completed(s, now) && TypeOf(fired[k].1) in callbacks &&
                                        fired[k].0 == callbacks[TypeOf(fired[k].1)]) &&
      (forall t :: t in left <==> t in callbacks && forall a :: a in Completed(s, now) ==> TypeOf(a) != t) &&
      (forall t :: t in left ==> left[t] == callbacks[t])
  {
    if s != [] {
      FiredCallbacksSpec(s[..|s| - 1], callbacks, now);
      var (fired, left) := FiredCallbacks(s[..|s| - 1], callbacks, now);
      var a := s[|s| - 1];
      assert Completed(s, now) == if IsComplete(a, now) then Completed(s[..|s| - 1], now) + [a] else Completed(s[..|s| - 1], now);
    }
  }

  /** No two animations in `s` have the same type. */
  predicate TypesDistinct(s: seq<Animation>) {
    forall i, j :: 0 <= i < j < |s| ==> TypeOf(s[i]) != TypeOf(s[j])
  }

  lemma TypesDistinctSnoc(s: seq<Animation>, a: Animation)
    requires TypesDistinct(s) && forall b :: b in s ==> TypeOf(b) != TypeOf(a)
    ensures TypesDistinct(s + [a])
  {
    var s' := s + [a];
    forall i, j | 0 <= i < j < |s'| ensures TypeOf(s'[i]) != TypeOf(s'[j]) {
      if j == |s| {
        assert s'[i] in s;
      } else {
        assert s'[i] == s[i] && s'[j] == s[j];
      }
    }
  }

  /** Removing every animation of one type keeps the types distinct. */
  lemma {:induction false} RemoveTypeDistinct(s: seq<Animation>, t: AnimationType)
    requires TypesDistinct(s)
    ensures TypesDistinct(RemoveType(s, t))
  {
    if s != [] {
      var init := s[..|s| - 1];
      assert TypesDistinct(init) by {
        forall i, j | 0 <= i < j < |init| ensures TypeOf(init[i]) != TypeOf(init[j]) {
          assert init[i] == s[i] && init[j] == s[j];
        }
      }
      RemoveTypeDistinct(init, t);
      var a := s[|s| - 1];
      if TypeOf(a) != t {
        forall b | b in RemoveType(init, t) ensures TypeOf(b) != TypeOf(a) {
          var i :| 0 <= i < |init| && init[i] == b;
          assert s[i] == b;
        }
        TypesDistinctSnoc(RemoveType(init, t), a);
      }
    }
  }

  /** Keeping only the running animations keeps the types distinct. */
  lemma {:induction false} StillRunningDistinct(s: seq<Animation>, now: real)
    requires TypesDistinct(s)
    ensures TypesDistinct(StillRunning(s, now))
    ensures forall a :: a in StillRunning(s, now) ==> a in s
  {
    if s != [] {
      var init := s[..|s| - 1];
      assert TypesDistinct(init) by {
        forall i, j | 0 <= i < j < |init| ensures TypeOf(init[i]) != TypeOf(init[j]) {
          assert init[i] == s[i] && init[j] == s[j];
        }
      }
      StillRunningDistinct(init, now);
      var a := s[|s| - 1];
      if !IsComplete(a, now) {
        forall b | b in StillRunning(init, now) ensures TypeOf(b) != TypeOf(a) {
          var i :| 0 <= i < |init| && init[i] == b;
          assert s[i] == b;
        }
        TypesDistinctSnoc(StillRunning(init, now), a);
      }
    }
  }

  /** The first animation of type `t` in `s`, if any (`get_animation`). */
  function FirstOfType(s: seq<Animation>, t: AnimationType): (r: Option<Animation>)
    ensures r.Some? <==> exists a :: a in s && TypeOf(a) == t
    ensures r.Some? ==> r.value in s && TypeOf(r.value) == t
  {
    if s == [] then None
    else if TypeOf(s[0]) == t then Some(s[0])
    else
      var r := FirstOfType(s[1..], t);
      assert forall a :: a in s[1..] ==> a in s;
      assert forall a :: a in s && a != s[0] ==> a in s[1..];
      r
  }

  // --------------------------------------------------------- controller

  /** `AnimationController`: the running animations and the completion callbacks. */
  class AnimationController {
    var animations: seq<Animation>
    var callbacks: map<AnimationType, Callback>

    /** At most one animation of each type runs. */
    ghost predicate Valid()
      reads this
    {
      TypesDistinct(animations)
    }

    constructor ()
      ensures Valid() && animations == [] && callbacks == map[]
    {
      animations, callbacks := [], map[];
    }

    /** `has_animations`. */
    function HasAnimations(): (r: bool)
      reads this
      ensures r <==> animations != []
    {
      |animations| > 0
    }

    /** `get_animation`: the first running animation of the type. */
    method GetAnimation(t: AnimationType) returns (r: Option<Animation>)
      ensures r == FirstOfType(animations, t)
    {
      var i := 0;
      while i < |animations|
        invariant 0 <= i <= |animations|
        invariant FirstOfType(animations, t) == FirstOfType(animations[i..], t)
      {
        assert animations[i..][0] == animations[i] && animations[i..][1..] == animations[i + 1..];
        if TypeOf(animations[i]) == t {
          return Some(animations[i]);
        }
        i := i + 1;
      }
      return None;
    }

    /** `is_running`: some running animation has the type. */
    method IsRunning(t: AnimationType) returns (running: bool)
      ensures running <==> exists a :: a in animations && TypeOf(a) == t
    {
      var found := GetAnimation(t);
      running := found.Some?;
    }

    /**
     * `start`: the new animation replaces any of its type and goes last; its
     * callback replaces the type's callback only when one is given.
     */
    method Start(animation: Animation, onComplete: Option<Callback>)
      requires Valid()
      modifies this
      ensures Valid()
      ensures animations == RemoveType(old(animations), TypeOf(animation)) + [animation]
      ensures onComplete.Some? ==> callbacks == old(callbacks)[TypeOf(animation) := onComplete.value]
      ensures onComplete.None? ==> callbacks == old(callbacks)
    {
      var t := TypeOf(animation);
      RemoveTypeDistinct(animations, t);
      TypesDistinctSnoc(RemoveType(animations, t), animation);
      animations := RemoveType(animations, t) + [animation];
      if onComplete.Some? {
        callbacks := callbacks[t := onComplete.value];
      }
    }

    /** `cancel`: drops the type's animation and callback; other types are kept. */
    method Cancel(t: AnimationType)
      requires Valid()
      modifies this
      ensures Valid()
      ensures animations == RemoveType(old(animations), t)
      ensures callbacks == old(callbacks) - {t}
    {
      RemoveTypeDistinct(animations, t);
      animations := RemoveType(animations, t);
      callbacks := callbacks - {t};
    }

    /** `cancel_all`. */
    method CancelAll()
      modifies this
      ensures Valid() && animations == [] && callbacks == map[]
    {
      animations := [];
      callbacks := map[];
    }

    /**
     * `update` at time `now`: returns the complete animations and the
     * callbacks to call, in order, and keeps the running animations in
     * their original order. A callback that fails is logged and the loop
     * goes on, so every fired callback is reported.
     */
    method Update(now: real) returns (completed: seq<Animation>, fired: seq<(Callback, Animation)>)
      requires Valid()
      modifies this
      ensures Valid()
      ensures completed == Completed(old(animations), now)
      ensures animations == StillRunning(old(animations), now)
      ensures (fired, callbacks) == FiredCallbacks(old(animations), old(callbacks), now)
    {
      var s := animations;
      var table := callbacks;
      completed, fired := [], [];
      var stillRunning := [];
      var i := 0;
      while i < |s|
        invariant 0 <= i <= |s|
        invariant completed == Completed(s[..i], now)
        invariant stillRunning == StillRunning(s[..i], now)
        invariant (fired, callbacks) == FiredCallbacks(s[..i], table, now)
      {
        var a := s[i];
        assert s[..i + 1][..i] == s[..i];
        if IsComplete(a, now) {
          completed := completed + [a];
          var t := TypeOf(a);
          if t in callbacks {
            fired := fired + [(callbacks[t], a)];
            callbacks := callbacks - {t};
          }
        } else {
          stillRunning := stillRunning + [a];
        }
        i := i + 1;
      }
      assert s[..|s|] == s;
      StillRunningDistinct(s, now);
      animations := stillRunning;
    }
  }
}
