/**
 * The state of the single-file viewer (imagura2.py) and the operations that
 * keep its textures: the thumbnail cache (an insertion-ordered dictionary
 * bounded by evicting the oldest entries), the de-duplicated thumbnail
 * queue, the list of textures waiting to be unloaded, the prefetch window of
 * neighbouring images, and the switch to another image. Loading a texture
 * and building a thumbnail are functions passed in; unloading a texture is
 * reported as the sequence of textures unloaded.
 *
 * The slots reuse the package's `TextureInfo` record; the viewer's own record
 * has no `path`; the model fills it with the loaded path, and no decision
 * reads it.
 */
module Viewer {
  import opened Wrappers
  import opened Types
  import opened MathUtils
  import ViewMath
  import ViewerMath
  import StateImages

  const ThumbCacheLimit: int := 400
  const ThumbPreloadSpan: int := 40
  const ThumbBuildBudget: nat := 2
  const GalleryHeightFrac: real := 0.12
  /** Length of the switch slide in milliseconds. */
  const AnimSwitchMs: real := 150.0
  const AnimOpenMs: real := 200.0

  predicate NoDup<T(==)>(s: seq<T>) {
    forall i, j :: 0 <= i < j < |s| ==> s[i] != s[j]
  }

  lemma AppendAssoc<T>(a: seq<T>, b: seq<T>, c: seq<T>)
    ensures a + (b + c) == (a + b) + c
  {
  }

  /** Appending an element the sequence lacks keeps it free of duplicates. */
  lemma NoDupSnoc<T>(s: seq<T>, x: T)
    requires NoDup(s) && x !in s
    ensures NoDup(s + [x])
  {
    forall i, j | 0 <= i < j < |s| + 1
      ensures (s + [x])[i] != (s + [x])[j]
    {
      if j == |s| {
        assert (s + [x])[i] == s[i];
      }
    }
  }

  /** Prepending an element the sequence lacks keeps it free of duplicates. */
  lemma NoDupCons<T>(x: T, s: seq<T>)
    requires NoDup(s) && x !in s
    ensures NoDup([x] + s)
  {
    forall i, j | 0 <= i < j < |s| + 1
      ensures ([x] + s)[i] != ([x] + s)[j]
    {
      assert ([x] + s)[j] == s[j - 1];
      if i > 0 {
        assert ([x] + s)[i] == s[i - 1];
      }
    }
  }

  // ------------------------------------------------------ deferred unload

  /** `unload_texture_deferred`: queues the texture, unless there is none or its id is 0. */
  function DeferUnload(q: seq<Texture>, ti: Option<TextureInfo>): (r: seq<Texture>)
    ensures ti.Some? && ti.value.tex.id != 0 ==> r == q + [ti.value.tex]
    ensures !(ti.Some? && ti.value.tex.id != 0) ==> r == q
  {
    if ti.Some? && ti.value.tex.id != 0 then q + [ti.value.tex] else q
  }

  /** The queue never holds texture 0, the id raylib gives a texture that failed to load. */
  predicate NoNullTextures(q: seq<Texture>) {
    forall t :: t in q ==> t.id != 0
  }

  lemma DeferUnloadKeepsNonNull(q: seq<Texture>, ti: Option<TextureInfo>)
    requires NoNullTextures(q)
    ensures NoNullTextures(DeferUnload(q, ti))
  {
  }

  /** The order `process_deferred_unloads` unloads in: it pops from the end. */
  function Reverse<T>(s: seq<T>): (r: seq<T>)
    ensures |r| == |s|
  {
    if s == [] then [] else [s[|s| - 1]] + Reverse(s[..|s| - 1])
  }

  /** Every queued texture is unloaded exactly as many times as it was queued. */
  lemma {:induction false} ReverseSameElements<T>(s: seq<T>)
    ensures multiset(Reverse(s)) == multiset(s)
  {
    if s != [] {
      ReverseSameElements(s[..|s| - 1]);
      assert s == s[..|s| - 1] + [s[|s| - 1]];
    }
  }

  /** Reverse puts the last queued texture first and the first one last. */
  lemma {:induction false} ReverseIndex<T>(s: seq<T>, i: int)
    requires 0 <= i < |s|
    ensures Reverse(s)[i] == s[|s| - 1 - i]
  {
    if i > 0 {
      ReverseIndex(s[..|s| - 1], i - 1);
    }
  }

  // --------------------------------------------------- thumbnail queue

  /**
   * The loop of `schedule_thumbs` over indices `i..hi`: appends each path
   * that is neither cached nor already queued.
   */
  function ScheduleFrom(images: seq<string>, cached: set<string>, queue: seq<string>, i: int, hi: int): (r: seq<string>)
    requires 0 <= i <= hi + 1 && hi < |images|
    decreases hi - i + 1
    ensures |queue| <= |r| && r[..|queue|] == queue
  {
    if i > hi then queue
    else
      var p := images[i];
      var queue' := if p !in cached && p !in queue then queue + [p] else queue;
      var r := ScheduleFrom(images, cached, queue', i + 1, hi);
      assert r[..|queue|] == r[..|queue'|][..|queue|];
      r
  }

  /** One round of the loop: index `i` is queued unless cached or already queued. */
  lemma ScheduleFromStep(images: seq<string>, cached: set<string>, queue: seq<string>, i: int, hi: int)
    requires 0 <= i <= hi < |images|
    ensures var p := images[i];
      ScheduleFrom(images, cached, queue, i, hi)
      == ScheduleFrom(images, cached, if p !in cached && p !in queue then queue + [p] else queue, i + 1, hi)
  {
  }

  /** Everything `r` holds beyond `queue` comes from `window` and was neither cached nor queued. */
  predicate OnlyNewFrom(r: seq<string>, queue: seq<string>, cached: set<string>, window: seq<string>) {
    forall k :: |queue| <= k < |r| ==> r[k] !in cached && r[k] !in queue && r[k] in window
  }

  /** Each path of `images[i..hi]` is cached or in `r`. */
  predicate Covers(r: seq<string>, cached: set<string>, images: seq<string>, i: int, hi: int)
    requires 0 <= i && hi < |images|
  {
    forall j :: i <= j <= hi ==> images[j] in cached || images[j] in r
  }

  /** What the loop adds: only paths of `images[i..hi]` that are neither cached nor already queued. */
  lemma {:induction false} ScheduleFromAdds(images: seq<string>, cached: set<string>, queue: seq<string>, i: int, hi: int)
    requires 0 <= i <= hi + 1 && hi < |images|
    decreases hi - i + 1
    ensures OnlyNewFrom(ScheduleFrom(images, cached, queue, i, hi), queue, cached, images[i..hi + 1])
  {
    if i <= hi {
      var p := images[i];
      var queue' := if p !in cached && p !in queue then queue + [p] else queue;
      ScheduleFromAdds(images, cached, queue', i + 1, hi);
      var r := ScheduleFrom(images, cached, queue', i + 1, hi);
      assert r == ScheduleFrom(images, cached, queue, i, hi);
      var rest := images[i + 1..hi + 1];
      assert images[i..hi + 1] == [p] + rest;
      assert OnlyNewFrom(r, queue', cached, rest);
      assert forall x :: x in queue ==> x in queue';
      forall k | |queue| <= k < |r|
        ensures r[k] !in cached && r[k] !in queue && r[k] in [p] + rest
      {
        if k < |queue'| {
          assert r[k] == queue'[k] == p;
        } else {
          assert r[k] !in queue' && r[k] in rest;
        }
      }
    }
  }

  /** The loop never queues a path twice. */
  lemma {:induction false} ScheduleFromNoDup(images: seq<string>, cached: set<string>, queue: seq<string>, i: int, hi: int)
    requires 0 <= i <= hi + 1 && hi < |images|
    requires NoDup(queue)
    decreases hi - i + 1
    ensures NoDup(ScheduleFrom(images, cached, queue, i, hi))
  {
    if i <= hi {
      var p := images[i];
      var queue' := if p !in cached && p !in queue then queue + [p] else queue;
      if queue' != queue {
        NoDupSnoc(queue, p);
      }
      ScheduleFromNoDup(images, cached, queue', i + 1, hi);
      assert ScheduleFrom(images, cached, queue, i, hi) == ScheduleFrom(images, cached, queue', i + 1, hi);
    }
  }

  /** After the loop each path of `images[i..hi]` is cached or queued. */
  lemma {:induction false} ScheduleFromCovers(images: seq<string>, cached: set<string>, queue: seq<string>, i: int, hi: int)
    requires 0 <= i <= hi + 1 && hi < |images|
    decreases hi - i + 1
    ensures Covers(ScheduleFrom(images, cached, queue, i, hi), cached, images, i, hi)
  {
    if i <= hi {
      var p := images[i];
      var queue' := if p !in cached && p !in queue then queue + [p] else queue;
      ScheduleFromCovers(images, cached, queue', i + 1, hi);
      var r := ScheduleFrom(images, cached, queue', i + 1, hi);
      assert r == ScheduleFrom(images, cached, queue, i, hi);
      if p in queue {
        var m :| 0 <= m < |queue| && queue[m] == p;
        assert r[m] == p;
      } else if p !in cached {
        assert r[|queue|] == queue'[|queue|] == p;
      }
    }
  }

  /** The window of indices `schedule_thumbs` covers around `around`: 40 either side, within the list. */
  function WindowLo(around: int): (lo: int)
    ensures lo >= 0 && lo >= around - ThumbPreloadSpan
    ensures lo == 0 || lo == around - ThumbPreloadSpan
  {
    if around - ThumbPreloadSpan > 0 then around - ThumbPreloadSpan else 0
  }

  function WindowHi(n: int, around: int): (hi: int)
    ensures hi <= n - 1 && hi <= around + ThumbPreloadSpan
    ensures hi == n - 1 || hi == around + ThumbPreloadSpan
  {
    if n - 1 < around + ThumbPreloadSpan then n - 1 else around + ThumbPreloadSpan
  }

  /**
   * `schedule_thumbs`: the queue extended by the window's paths that are
   * neither cached nor queued, in index order; unchanged with no images.
   */
  function Schedule(images: seq<string>, cached: set<string>, queue: seq<string>, around: int): (r: seq<string>)
    ensures |queue| <= |r| && r[..|queue|] == queue
  {
    if |images| == 0 then queue
    else
      var lo, hi := WindowLo(around), WindowHi(|images|, around);
      if lo > hi then queue else ScheduleFrom(images, cached, queue, lo, hi)
  }

  /** With no images, or an empty window, scheduling leaves the queue as it was. */
  lemma ScheduleEmptyWindow(images: seq<string>, cached: set<string>, queue: seq<string>, around: int)
    requires images == [] || WindowLo(around) > WindowHi(|images|, around)
    ensures Schedule(images, cached, queue, around) == queue
  {
  }

  /** What scheduling adds: only paths of the window, neither cached nor already queued. */
  lemma ScheduleAddsOnlyNew(images: seq<string>, cached: set<string>, queue: seq<string>, around: int)
    requires images != [] && WindowLo(around) <= WindowHi(|images|, around)
    ensures OnlyNewFrom(Schedule(images, cached, queue, around), queue, cached, images[WindowLo(around)..WindowHi(|images|, around) + 1])
  {
    ScheduleFromAdds(images, cached, queue, WindowLo(around), WindowHi(|images|, around));
  }

  /** After scheduling, every path of the window is cached or queued. */
  lemma ScheduleCovers(images: seq<string>, cached: set<string>, queue: seq<string>, around: int)
    requires images != [] && WindowLo(around) <= WindowHi(|images|, around)
    ensures Covers(Schedule(images, cached, queue, around), cached, images, WindowLo(around), WindowHi(|images|, around))
  {
    ScheduleFromCovers(images, cached, queue, WindowLo(around), WindowHi(|images|, around));
  }

  /** Scheduling never queues a path twice. */
  lemma ScheduleNoDup(images: seq<string>, cached: set<string>, queue: seq<string>, around: int)
    requires NoDup(queue)
    ensures NoDup(Schedule(images, cached, queue, around))
  {
    if images != [] && WindowLo(around) <= WindowHi(|images|, around) {
      ScheduleFromNoDup(images, cached, queue, WindowLo(around), WindowHi(|images|, around));
    }
  }

  /** Scheduling the same window twice adds nothing the second time. */
  lemma {:induction false} ScheduleFromSettled(images: seq<string>, cached: set<string>, queue: seq<string>, i: int, hi: int)
    requires 0 <= i <= hi + 1 && hi < |images|
    requires Covers(queue, cached, images, i, hi)
    decreases hi - i + 1
    ensures ScheduleFrom(images, cached, queue, i, hi) == queue
  {
    if i <= hi {
      ScheduleFromSettled(images, cached, queue, i + 1, hi);
    }
  }

  lemma ScheduleIdempotent(images: seq<string>, cached: set<string>, queue: seq<string>, around: int)
    ensures Schedule(images, cached, Schedule(images, cached, queue, around), around) == Schedule(images, cached, queue, around)
  {
    if |images| > 0 && WindowLo(around) <= WindowHi(|images|, around) {
      ScheduleCovers(images, cached, queue, around);
      ScheduleFromSettled(images, cached, Schedule(images, cached, queue, around), WindowLo(around), WindowHi(|images|, around));
    }
  }

  /**
   * The first loop of `process_thumb_queue`: the paths it builds and the
   * queue it leaves. It pops paths while budget remains; a cached path is
   * dropped without spending budget.
   */
  function BuildPlan(queue: seq<string>, cached: set<string>, budget: nat): (r: (seq<string>, seq<string>))
    decreases |queue|
    ensures |r.0| <= budget
  {
    if budget == 0 || queue == [] then ([], queue)
    else if queue[0] in cached then BuildPlan(queue[1..], cached, budget)
    else
      var rest := BuildPlan(queue[1..], cached + {queue[0]}, budget - 1);
      ([queue[0]] + rest.0, rest.1)
  }

  /** One round of the plan: a cached path is dropped for free, another is built. */
  lemma BuildPlanStep(queue: seq<string>, cached: set<string>, budget: nat)
    requires budget > 0 && queue != []
    ensures queue[0] in cached ==> BuildPlan(queue, cached, budget) == BuildPlan(queue[1..], cached, budget)
    ensures queue[0] !in cached ==>
      var rest := BuildPlan(queue[1..], cached + {queue[0]}, budget - 1);
      BuildPlan(queue, cached, budget).0 == [queue[0]] + rest.0 && BuildPlan(queue, cached, budget).1 == rest.1
  {
  }

  /**
   * The plan builds distinct paths that were queued and not cached, leaves
   * a suffix of the queue, and stops early only when the queue runs out.
   */
  lemma BuildPlanSpec(queue: seq<string>, cached: set<string>, budget: nat)
    ensures var r := BuildPlan(queue, cached, budget);
      |r.1| <= |queue| && r.1 == queue[|queue| - |r.1|..]
    ensures forall p :: p in BuildPlan(queue, cached, budget).0 ==> p !in cached && p in queue
    ensures NoDup(BuildPlan(queue, cached, budget).0)
    ensures var r := BuildPlan(queue, cached, budget);
      |r.0| < budget ==> r.1 == []
  {
    BuildPlanLeaves(queue, cached, budget);
    BuildPlanBuildsNew(queue, cached, budget);
    BuildPlanNoDup(queue, cached, budget);
  }

  /** The queue the plan leaves is a suffix, empty unless the budget was used up. */
  lemma {:induction false} BuildPlanLeaves(queue: seq<string>, cached: set<string>, budget: nat)
    decreases |queue|
    ensures var r := BuildPlan(queue, cached, budget);
      |r.1| <= |queue| && r.1 == queue[|queue| - |r.1|..] && (|r.0| < budget ==> r.1 == [])
  {
    if budget > 0 && queue != [] {
      var r := BuildPlan(queue, cached, budget);
      BuildPlanStep(queue, cached, budget);
      if queue[0] in cached {
        BuildPlanLeaves(queue[1..], cached, budget);
        assert queue[1..][|queue| - 1 - |r.1|..] == queue[|queue| - |r.1|..];
      } else {
        var rest := BuildPlan(queue[1..], cached + {queue[0]}, budget - 1);
        BuildPlanLeaves(queue[1..], cached + {queue[0]}, budget - 1);
        assert r.1 == rest.1 && |r.0| == 1 + |rest.0|;
        assert queue[1..][|queue| - 1 - |rest.1|..] == queue[|queue| - |rest.1|..];
      }
    }
  }

  /** Every path the plan builds was queued and not cached. */
  lemma {:induction false} BuildPlanBuildsNew(queue: seq<string>, cached: set<string>, budget: nat)
    decreases |queue|
    ensures forall p :: p in BuildPlan(queue, cached, budget).0 ==> p !in cached && p in queue
  {
    if budget > 0 && queue != [] {
      var tail := queue[1..];
      assert forall p :: p in tail ==> p in queue;
      if queue[0] in cached {
        BuildPlanBuildsNew(tail, cached, budget);
      } else {
        BuildPlanBuildsNew(tail, cached + {queue[0]}, budget - 1);
      }
    }
  }

  /** The plan never builds a path twice. */
  lemma {:induction false} BuildPlanNoDup(queue: seq<string>, cached: set<string>, budget: nat)
    decreases |queue|
    ensures NoDup(BuildPlan(queue, cached, budget).0)
  {
    if budget > 0 && queue != [] {
      if queue[0] in cached {
        BuildPlanNoDup(queue[1..], cached, budget);
      } else {
        BuildPlanNoDup(queue[1..], cached + {queue[0]}, budget - 1);
        BuildPlanBuildsNew(queue[1..], cached + {queue[0]}, budget - 1);
        NoDupCons(queue[0], BuildPlan(queue[1..], cached + {queue[0]}, budget - 1).0);
      }
    }
  }

  /** The insertion order of the thumbnail cache lists each of its keys exactly once. */
  ghost predicate CacheConsistent(order: seq<string>, thumbs: map<string, BitmapThumb>) {
    NoDup(order) && forall p :: p in thumbs <==> p in order
  }

  /** Inserting a new key at the end keeps the order consistent. */
  lemma CacheInsert(order: seq<string>, thumbs: map<string, BitmapThumb>, p: string, bt: BitmapThumb)
    requires CacheConsistent(order, thumbs) && p !in thumbs
    ensures CacheConsistent(order + [p], thumbs[p := bt])
  {
  }

  /** Dropping the oldest key keeps the order consistent. */
  lemma CacheDropOldest(order: seq<string>, thumbs: map<string, BitmapThumb>)
    requires CacheConsistent(order, thumbs) && |order| > 0
    ensures CacheConsistent(order[1..], thumbs - {order[0]})
  {
    forall p | p in thumbs - {order[0]}
      ensures p in order[1..]
    {
      var m :| 0 <= m < |order| && order[m] == p;
      assert order[1..][m - 1] == p;
    }
  }

  /** A thumbnail as it stands after the build loop: kept if cached before, else just built. */
  function ThumbAfterBuild(old_: map<string, BitmapThumb>, build: (string, int) -> BitmapThumb, targetH: int, p: string): BitmapThumb {
    if p in old_ then old_[p] else build(p, targetH)
  }

  /** Every entry of `thumbs` is the one it was before the build loop, or the one built for it. */
  predicate ThumbsAfterBuild(thumbs: map<string, BitmapThumb>, old_: map<string, BitmapThumb>,
                             build: (string, int) -> BitmapThumb, targetH: int) {
    forall p :: p in thumbs ==> thumbs[p] == ThumbAfterBuild(old_, build, targetH, p)
  }

  /** The texture an evicted thumbnail hands to `unload_texture_deferred`, if it has one. */
  function ThumbTexture(bt: BitmapThumb): (ti: Option<TextureInfo>)
    ensures ti.Some? <==> bt.texture.Some?
    ensures ti.Some? ==> ti.value.tex == bt.texture.value
  {
    if bt.texture.Some? then Some(TextureInfo(bt.texture.value, 0, 0, "")) else None
  }

  /** The unload queue after evicting `evicted`, oldest first. */
  function EvictionUnloads(q: seq<Texture>, evicted: seq<string>, old_: map<string, BitmapThumb>,
                           build: (string, int) -> BitmapThumb, targetH: int): (r: seq<Texture>)
    decreases |evicted|
    ensures |q| <= |r| <= |q| + |evicted|
  {
    if evicted == [] then q
    else
      var before := EvictionUnloads(q, evicted[..|evicted| - 1], old_, build, targetH);
      DeferUnload(before, ThumbTexture(ThumbAfterBuild(old_, build, targetH, evicted[|evicted| - 1])))
  }

  /** Evicting one more entry queues its texture after those of the entries evicted before it. */
  lemma EvictionUnloadsStep(q: seq<Texture>, all: seq<string>, e: int, old_: map<string, BitmapThumb>,
                            build: (string, int) -> BitmapThumb, targetH: int)
    requires 0 <= e < |all|
    ensures EvictionUnloads(q, all[..e + 1], old_, build, targetH)
         == DeferUnload(EvictionUnloads(q, all[..e], old_, build, targetH), ThumbTexture(ThumbAfterBuild(old_, build, targetH, all[e])))
  {
    assert all[..e + 1][..e] == all[..e];
  }

  /** The newest `limit` entries of an insertion order. */
  function Newest<T>(s: seq<T>, limit: nat): (r: seq<T>)
    ensures |r| <= limit && |r| <= |s|
    ensures r == s[|s| - |r|..]
    ensures |s| <= limit ==> r == s
  {
    if |s| > limit then s[|s| - limit..] else s
  }

  /** Height thumbnails are built at: 80% of the gallery strip, truncated. */
  function ThumbTargetHeight(screenH: int): (r: int)
    ensures screenH >= 0 ==> 0 <= r && r as real <= screenH as real * 0.096 < r as real + 1.0
    ensures screenH >= 0 ==> r <= Trunc(screenH as real * GalleryHeightFrac)
  {
    Trunc(screenH as real * GalleryHeightFrac * 0.8)
  }

  // ------------------------------------------------------- prefetch window

  /**
   * `load_texture` through `_safe`: `load` gives the decoded size of a path,
   * or None when loading raised; each texture made is a new one, and `id`
   * is its handle.
   */
  function LoadTexture(path: string, load: string -> Option<(int, int)>, id: nat): Option<TextureInfo>
  {
    match load(path)
    case None => None
    case Some((w, h)) => Some(TextureInfo(Texture(id), w, h, path))
  }

  /** The slot is empty or holds a texture whose handle is below `bound`. */
  predicate SlotBelow(slot: Option<TextureInfo>, bound: int)
  {
    slot.Some? ==> slot.value.tex.id < bound
  }

  /** The slot is empty or holds a texture whose handle is at least `lo`. */
  predicate SlotFrom(slot: Option<TextureInfo>, lo: int)
  {
    slot.Some? ==> slot.value.tex.id >= lo
  }

  /** Every texture of the window was made before handle `bound`. */
  predicate CacheBelow(c: ImageCache, bound: int)
  {
    SlotBelow(c.prev, bound) && SlotBelow(c.curr, bound) && SlotBelow(c.next, bound)
  }

  /** Every texture of the window was made at handle `lo` or later. */
  predicate CacheFrom(c: ImageCache, lo: int)
  {
    SlotFrom(c.prev, lo) && SlotFrom(c.curr, lo) && SlotFrom(c.next, lo)
  }

  /** No two slots of the window hold the same texture. */
  predicate SlotsDistinct(c: ImageCache)
  {
    (c.prev.Some? && c.curr.Some? ==> c.prev.value.tex != c.curr.value.tex) &&
    (c.prev.Some? && c.next.Some? ==> c.prev.value.tex != c.next.value.tex) &&
    (c.curr.Some? && c.next.Some? ==> c.curr.value.tex != c.next.value.tex)
  }

  /**
   * The three slots around `i`, loaded current first, then previous, then
   * next, as new textures from handle `firstId` on: each slot holds the
   * size `load` gives for its path, and no slot shares a texture with
   * another or with anything made before.
   */
  function NeighborCache(images: seq<string>, i: int, load: string -> Option<(int, int)>, firstId: nat): (c: ImageCache)
    requires 0 <= i < |images|
    ensures c.curr.None? <==> load(images[i]).None?
    ensures c.curr.Some? ==> (c.curr.value.w, c.curr.value.h) == load(images[i]).value && c.curr.value.path == images[i]
    ensures c.prev.Some? <==> i >= 1 && load(images[i - 1]).Some?
    ensures c.prev.Some? ==> (c.prev.value.w, c.prev.value.h) == load(images[i - 1]).value && c.prev.value.path == images[i - 1]
    ensures c.next.Some? <==> i + 1 < |images| && load(images[i + 1]).Some?
    ensures c.next.Some? ==> (c.next.value.w, c.next.value.h) == load(images[i + 1]).value && c.next.value.path == images[i + 1]
    ensures CacheFrom(c, firstId) && CacheBelow(c, firstId + 3) && SlotsDistinct(c)
  {
    ImageCache(if i - 1 >= 0 then LoadTexture(images[i - 1], load, firstId + 1) else None,
               LoadTexture(images[i], load, firstId),
               if i + 1 < |images| then LoadTexture(images[i + 1], load, firstId + 2) else None)
  }

  /**
   * Releasing one slot. As written every slot is queued for unloading; the
   * corrected viewer leaves out the texture a switch animation still draws.
   */
  function ReleaseSlot(q: seq<Texture>, slot: Option<TextureInfo>, retained: Option<Texture>): (r: seq<Texture>)
    ensures retained.None? ==> r == DeferUnload(q, slot)
    ensures slot.Some? && retained == Some(slot.value.tex) ==> r == q
  {
    if slot.Some? && retained == Some(slot.value.tex) then q else DeferUnload(q, slot)
  }

  /** The unload queue after `preload_neighbors` releases the previous, current and next slots. */
  function SlotUnloads(q: seq<Texture>, cache: ImageCache, retained: Option<Texture>): (r: seq<Texture>)
    ensures |q| <= |r| <= |q| + 3 && r[..|q|] == q
  {
    var r1 := ReleaseSlot(q, cache.prev, retained);
    var r2 := ReleaseSlot(r1, cache.curr, retained);
    var r3 := ReleaseSlot(r2, cache.next, retained);
    assert r3[..|q|] == r2[..|q|] == r1[..|q|] == q;
    r3
  }

  /** The view memory after `preload_neighbors` stores the view of the image being left. */
  function SaveLeavingView(memory: map<string, ViewParams>, images: seq<string>, index: int, cache: ImageCache,
                           view: ViewParams): (m: map<string, ViewParams>)
    requires 0 <= index
    ensures cache.curr.Some? && index < |images| ==> m == memory[images[index] := view]
    ensures !(cache.curr.Some? && index < |images|) ==> m == memory
  {
    if cache.curr.Some? && index < |images| then memory[images[index] := ViewParams(view.scale, view.offx, view.offy)]
    else memory
  }

  /** `compute_fit_view` at 0.95: the default view without a current image. */
  function FitView(curr: Option<TextureInfo>, screenW: int, screenH: int): (v: ViewParams)
    ensures curr.None? ==> v == DefaultView()
    ensures curr.Some? ==> v == ViewMath.ComputeFitView(curr.value.w, curr.value.h, screenW, screenH, ViewMath.FitDefaultScale)
  {
    if curr.None? then ViewParams(1.0, 0.0, 0.0)
    else ViewMath.ComputeFitView(curr.value.w, curr.value.h, screenW, screenH, ViewMath.FitDefaultScale)
  }

  // ------------------------------------------------------------ finding

  /**
   * As written, a switch queues the current texture for unloading while the
   * slide keeps drawing its snapshot, and the end of the slide queues the
   * same texture again: it is unloaded twice.
   */
  lemma SwitchUnloadsTwiceAsWritten(q: seq<Texture>, cache: ImageCache)
    requires cache.curr.Some? && cache.curr.value.tex.id != 0
    ensures var t := cache.curr.value.tex;
      var afterSwitch := SlotUnloads(q, cache, None);
      t in afterSwitch[|q|..] &&
      multiset(DeferUnload(afterSwitch, cache.curr))[t] >= multiset(q)[t] + 2
  {
    var t := cache.curr.value.tex;
    var r1 := ReleaseSlot(q, cache.prev, None);
    var r2 := ReleaseSlot(r1, cache.curr, None);
    var r3 := ReleaseSlot(r2, cache.next, None);
    assert r2 == r1 + [t];
    assert multiset(r2)[t] == multiset(r1)[t] + 1;
    assert multiset(r1)[t] >= multiset(q)[t];
    assert multiset(r3)[t] >= multiset(r2)[t];
    assert r3 == SlotUnloads(q, cache, None);
    assert r3[|q|..][|r1| - |q|] == t;
    assert DeferUnload(r3, cache.curr) == r3 + [t];
  }

  /**
   * Corrected: when the switch keeps the current texture for its slide, the
   * prefetch window does not queue it, so the end of the slide queues it
   * exactly once; the other slots are released as before.
   */
  lemma SwitchUnloadsOnceCorrected(q: seq<Texture>, cache: ImageCache)
    requires cache.curr.Some? && cache.curr.value.tex.id != 0
    requires cache.prev.Some? ==> cache.prev.value.tex != cache.curr.value.tex
    requires cache.next.Some? ==> cache.next.value.tex != cache.curr.value.tex
    ensures var t := cache.curr.value.tex;
      var afterSwitch := SlotUnloads(q, cache, Some(t));
      t !in afterSwitch[|q|..] &&
      multiset(DeferUnload(afterSwitch, cache.curr))[t] == multiset(q)[t] + 1
    ensures var t := cache.curr.value.tex;
      SlotUnloads(q, cache, Some(t)) == DeferUnload(DeferUnload(q, cache.prev), cache.next)
  {
    var t := cache.curr.value.tex;
    var r1 := DeferUnload(q, cache.prev);
    var r3 := DeferUnload(r1, cache.next);
    assert ReleaseSlot(q, cache.prev, Some(t)) == r1;
    assert ReleaseSlot(r1, cache.curr, Some(t)) == r1;
    assert ReleaseSlot(r1, cache.next, Some(t)) == r3;
    assert SlotUnloads(q, cache, Some(t)) == r3;
    DeferUnloadOther(q, cache.prev, t);
    DeferUnloadOther(r1, cache.next, t);
    assert r3[|q|..] == r1[|q|..] + r3[|r1|..];
    assert DeferUnload(r3, cache.curr) == r3 + [t];
  }

  /**
   * The view `cycle_zoom_state` leaves as written: the pan clamp reads the
   * size of the current texture, so without one it fails (None here, an
   * uncaught attribute error in the viewer).
   */
  function ZoomCycleViewAsWritten(from: ViewParams, target: ViewParams, curr: Option<TextureInfo>,
                                  screenW: int, screenH: int): (r: Option<ViewParams>)
    ensures r.None? <==> curr.None?
    ensures r.Some? ==> r.value == ViewerMath.LegacyClampPan(target, curr.value.w, curr.value.h, screenW, screenH)
  {
    if curr.None? then None
    else Some(ViewerMath.ZoomCycleFrameView(from, target, 1.0, curr.value.w, curr.value.h, screenW, screenH))
  }

  /**
   * As written, cycling the zoom fails after a switch to an image whose
   * texture could not be loaded: the prefetch window leaves no current
   * texture, and nothing guards the cycle.
   */
  lemma ZoomCycleFailsAfterFailedLoad(images: seq<string>, i: int, load: string -> Option<(int, int)>, firstId: nat,
                                      from: ViewParams, target: ViewParams, screenW: int, screenH: int)
    requires 0 <= i < |images| && load(images[i]).None?
    ensures NeighborCache(images, i, load, firstId).curr.None?
    ensures ZoomCycleViewAsWritten(from, target, NeighborCache(images, i, load, firstId).curr, screenW, screenH).None?
  {
  }

  /** Queueing a texture other than `t` appends no `t`. */
  lemma DeferUnloadOther(q: seq<Texture>, ti: Option<TextureInfo>, t: Texture)
    requires ti.Some? ==> ti.value.tex != t
    ensures var r := DeferUnload(q, ti);
      |q| <= |r| && r[..|q|] == q && t !in r[|q|..] && multiset(r)[t] == multiset(q)[t]
  {
    var r := DeferUnload(q, ti);
    if r != q {
      assert r[|q|..] == [ti.value.tex];
    }
    assert r[..|q|] == q;
  }

  /** The window holds texture `t` in one of its slots. */
  predicate Holds(c: ImageCache, t: Texture)
  {
    (c.prev.Some? && c.prev.value.tex == t) || (c.curr.Some? && c.curr.value.tex == t) ||
    (c.next.Some? && c.next.value.tex == t)
  }

  /**
   * A switch that starts a new slide while one may still run: the snapshot
   * it replaces is queued for unloading, since nothing draws it any more.
   */
  function Supersede(q: seq<Texture>, snapshot: Option<TextureInfo>, restart: bool): seq<Texture>
  {
    if restart then DeferUnload(q, snapshot) else q
  }

  /** The queue after a switch from window `cache`: the replaced snapshot, then the released slots. */
  function SwitchUnloads(q: seq<Texture>, cache: ImageCache, snapshot: Option<TextureInfo>, restart: bool): seq<Texture>
    requires restart ==> cache.curr.Some?
  {
    SlotUnloads(Supersede(q, snapshot, restart), cache, if restart then Some(cache.curr.value.tex) else None)
  }

  /** Releasing a window made before handle `bound` queues only textures made before it. */
  lemma SlotUnloadsBelow(q: seq<Texture>, cache: ImageCache, retained: Option<Texture>, bound: int)
    requires CacheBelow(cache, bound)
    ensures forall t :: t in SlotUnloads(q, cache, retained)[|q|..] ==> t.id < bound
  {
    var r1 := ReleaseSlot(q, cache.prev, retained);
    var r2 := ReleaseSlot(r1, cache.curr, retained);
    var r3 := ReleaseSlot(r2, cache.next, retained);
    assert r1 == q || (cache.prev.Some? && r1 == q + [cache.prev.value.tex]);
    assert r2 == r1 || (cache.curr.Some? && r2 == r1 + [cache.curr.value.tex]);
    assert r3 == r2 || (cache.next.Some? && r3 == r2 + [cache.next.value.tex]);
    assert r3[|q|..] == r1[|q|..] + r2[|r1|..] + r3[|r2|..];
  }

  /** What one release adds to the queue: nothing, or the slot's texture when it is not the retained one. */
  lemma ReleaseSlotAdds(q: seq<Texture>, slot: Option<TextureInfo>, retained: Option<Texture>)
    ensures var r := ReleaseSlot(q, slot, retained);
      r == q || (slot.Some? && retained != Some(slot.value.tex) && r == q + [slot.value.tex])
  {
  }

  /** The textures a switch may queue: the replaced snapshot, and the slots other than the one kept. */
  predicate SwitchMayQueue(t: Texture, cache: ImageCache, snapshot: Option<TextureInfo>, restart: bool)
  {
    (restart && snapshot.Some? && t == snapshot.value.tex) ||
    (cache.prev.Some? && t == cache.prev.value.tex) ||
    (!restart && cache.curr.Some? && t == cache.curr.value.tex) ||
    (cache.next.Some? && t == cache.next.value.tex)
  }

  /** A queue that keeps its prefix `q` and grows by at most `x` adds nothing else after `q`. */
  lemma GrowsBy(q: seq<Texture>, a: seq<Texture>, b: seq<Texture>, x: Texture)
    requires |q| <= |a| && a[..|q|] == q
    requires b == a || b == a + [x]
    ensures |q| <= |b| && b[..|q|] == q && forall t :: t in b[|q|..] ==> t in a[|q|..] || t == x
  {
    if b != a {
      assert b[|q|..] == a[|q|..] + [x];
      assert b[..|q|] == a[..|q|];
    }
  }

  /** A switch only appends to the queue, and only the textures `SwitchMayQueue` names. */
  lemma SwitchUnloadsAppend(q: seq<Texture>, cache: ImageCache, snapshot: Option<TextureInfo>, restart: bool)
    requires restart ==> cache.curr.Some?
    ensures var r := SwitchUnloads(q, cache, snapshot, restart);
      |q| <= |r| && r[..|q|] == q && forall t :: t in r[|q|..] ==> SwitchMayQueue(t, cache, snapshot, restart)
  {
    var retained := if restart then Some(cache.curr.value.tex) else None;
    var s := Supersede(q, snapshot, restart);
    var r1 := ReleaseSlot(s, cache.prev, retained);
    var r2 := ReleaseSlot(r1, cache.curr, retained);
    var r3 := ReleaseSlot(r2, cache.next, retained);
    assert r3 == SwitchUnloads(q, cache, snapshot, restart);
    if restart && snapshot.Some? {
      GrowsBy(q, q, s, snapshot.value.tex);
    } else {
      assert s == q;
    }
    ReleaseSlotAdds(s, cache.prev, retained);
    if cache.prev.Some? {
      GrowsBy(q, s, r1, cache.prev.value.tex);
    }
    ReleaseSlotAdds(r1, cache.curr, retained);
    if cache.curr.Some? && !restart {
      GrowsBy(q, r1, r2, cache.curr.value.tex);
    } else {
      assert r2 == r1;
    }
    ReleaseSlotAdds(r2, cache.next, retained);
    if cache.next.Some? {
      GrowsBy(q, r2, r3, cache.next.value.tex);
    }
  }

  /**
   * Corrected: a switch queues nothing that the new window holds, since that
   * window was loaded afterwards, and nothing that the slide still draws.
   */
  lemma SwitchQueuesNothingLive(q: seq<Texture>, cache: ImageCache, snapshot: Option<TextureInfo>, restart: bool,
                                bound: int, next: ImageCache)
    requires restart ==> cache.curr.Some?
    requires CacheBelow(cache, bound) && SlotBelow(snapshot, bound) && CacheFrom(next, bound)
    requires SlotsDistinct(cache) && (snapshot.Some? ==> CacheFrom(cache, snapshot.value.tex.id + 1))
    ensures var r := SwitchUnloads(q, cache, snapshot, restart);
      var drawn := if restart then cache.curr else snapshot;
      |q| <= |r| && r[..|q|] == q &&
      forall t :: t in r[|q|..] ==> !Holds(next, t) && (drawn.Some? ==> t != drawn.value.tex)
  {
    SwitchUnloadsAppend(q, cache, snapshot, restart);
    var drawn := if restart then cache.curr else snapshot;
    forall t | SwitchMayQueue(t, cache, snapshot, restart)
      ensures t.id < bound && (drawn.Some? ==> t != drawn.value.tex)
    {
    }
  }

  /**
   * Corrected, two slides in a row: the second switch starts while the first
   * slide still draws snapshot `a`, from the window `c2` the first switch
   * loaded. `a` is queued once, when the second switch replaces it, and the
   * second snapshot `b` once, when its slide ends.
   */
  lemma OverlappingSlidesUnloadEachSnapshotOnce(q: seq<Texture>, c1: ImageCache, c2: ImageCache, lo2: int)
    requires c1.curr.Some? && c1.curr.value.tex.id != 0 && c2.curr.Some? && c2.curr.value.tex.id != 0
    requires SlotsDistinct(c1) && SlotsDistinct(c2)
    requires CacheBelow(c1, lo2) && CacheFrom(c2, lo2)
    ensures var a, b := c1.curr.value.tex, c2.curr.value.tex;
      var first := SwitchUnloads(q, c1, None, true);
      var second := SwitchUnloads(first, c2, c1.curr, true);
      var settled := DeferUnload(second, c2.curr);
      multiset(settled)[a] == multiset(q)[a] + 1 && multiset(settled)[b] == multiset(q)[b] + 1
  {
    var a, b := c1.curr.value.tex, c2.curr.value.tex;
    assert a != b;
    assert Supersede(q, None, true) == q;
    SwitchUnloadsOnceCorrected(q, c1);
    var p1 := DeferUnload(q, c1.prev);
    var first := DeferUnload(p1, c1.next);
    DeferUnloadOther(q, c1.prev, a);
    DeferUnloadOther(p1, c1.next, a);
    DeferUnloadOther(q, c1.prev, b);
    DeferUnloadOther(p1, c1.next, b);
    var s := Supersede(first, c1.curr, true);
    assert s == first + [a];
    assert multiset(s)[a] == multiset(q)[a] + 1 && multiset(s)[b] == multiset(q)[b];
    SwitchUnloadsOnceCorrected(s, c2);
    var p2 := DeferUnload(s, c2.prev);
    var second := DeferUnload(p2, c2.next);
    DeferUnloadOther(s, c2.prev, a);
    DeferUnloadOther(p2, c2.next, a);
    DeferUnloadOther(s, c2.prev, b);
    DeferUnloadOther(p2, c2.next, b);
    assert DeferUnload(second, c2.curr) == second + [b];
  }

  // ------------------------------------------------------- drawing a frame

  /** The part of the state `render_image` changes: the two animations' flags, the snapshot and the unload queue. */
  datatype SlideState = SlideState(openActive: bool, switchActive: bool, prevTex: Option<TextureInfo>, toUnload: seq<Texture>)

  /** The slide is running and has run its 150 ms at `now`. */
  predicate SlideDone(s: SlideState, switchT0: real, now: real)
  {
    s.switchActive && s.prevTex.Some? && (now - switchT0) / (AnimSwitchMs / 1000.0) >= 1.0
  }

  /** The end of the slide: the flag clears and the snapshot is queued for unloading. */
  function EndSlide(s: SlideState): SlideState
  {
    s.(switchActive := false, prevTex := None, toUnload := DeferUnload(s.toUnload, s.prevTex))
  }

  /**
   * Drawing the image at time `now`: nothing without a current image; while
   * the open animation runs it ends once 200 ms have passed and the slide
   * waits; otherwise the slide ends once it has run its 150 ms.
   */
  function RenderStep(s: SlideState, hasCurr: bool, openT0: real, switchT0: real, now: real): SlideState
  {
    if !hasCurr then s
    else if s.openActive then s.(openActive := (now - openT0) / (AnimOpenMs / 1000.0) < 1.0)
    else if SlideDone(s, switchT0, now) then EndSlide(s)
    else s
  }

  /** Drawing the frames at the times `frames`, one after the other. */
  function RenderFrames(s: SlideState, hasCurr: bool, openT0: real, switchT0: real, frames: seq<real>): SlideState
    decreases |frames|
  {
    if frames == [] then s
    else RenderStep(RenderFrames(s, hasCurr, openT0, switchT0, frames[..|frames| - 1]), hasCurr, openT0, switchT0,
                    frames[|frames| - 1])
  }

  /** With the open animation over, any run of frames either leaves the slide as it was or ends it. */
  lemma {:induction false} RenderFramesEndSlideOrNot(s: SlideState, openT0: real, switchT0: real, frames: seq<real>)
    requires !s.openActive
    ensures var r := RenderFrames(s, true, openT0, switchT0, frames);
      r == s || (s.switchActive && s.prevTex.Some? && r == EndSlide(s))
    decreases |frames|
  {
    if frames != [] {
      RenderFramesEndSlideOrNot(s, openT0, switchT0, frames[..|frames| - 1]);
    }
  }

  /**
   * The frames of a zoom cycle begun at `t0`: the loop draws until the
   * first frame at which the 150 ms animation is complete.
   */
  predicate ZoomCycleFrames(t0: real, frames: seq<real>)
  {
    |frames| > 0 && ViewerMath.ZoomProgress(t0, frames[|frames| - 1]) == 1.0 &&
    forall k :: 0 <= k < |frames| - 1 ==> ViewerMath.ZoomProgress(t0, frames[k]) < 1.0
  }

  /**
   * A slide that started no later than a zoom cycle, once the open animation
   * is over, has ended by the cycle's last frame: its snapshot is queued
   * exactly once and the slide state is cleared.
   */
  lemma SlideEndsWithinZoomCycle(s: SlideState, openT0: real, switchT0: real, t0: real, frames: seq<real>)
    requires !s.openActive && s.switchActive && s.prevTex.Some?
    requires switchT0 <= t0 && ZoomCycleFrames(t0, frames)
    ensures var r := RenderFrames(s, true, openT0, switchT0, frames);
      !r.switchActive && r.prevTex == None && !r.openActive && r.toUnload == DeferUnload(s.toUnload, s.prevTex)
  {
    var n := |frames|;
    RenderFramesEndSlideOrNot(s, openT0, switchT0, frames[..n - 1]);
    assert frames[n - 1] - switchT0 >= AnimSwitchMs / 1000.0;
  }

  // ----------------------------------------------------------- the state

  /** The viewer's state (the fields the modelled operations use). */
  class ViewerState {
    var screenW: int
    var screenH: int
    var images: seq<string>
    var index: int
    var cache: ImageCache
    /** The thumbnail cache: insertion order of the keys, and the entries. */
    var thumbOrder: seq<string>
    var thumbs: map<string, BitmapThumb>
    var thumbQueue: seq<string>
    var toUnload: seq<Texture>
    var lastFitView: ViewParams
    var view: ViewParams
    var lastUserView: Option<ViewParams>
    var zoomStateCycle: int
    var isZoomed: bool
    var isPanning: bool
    var viewMemory: map<string, ViewParams>
    var bgCurrentOpacity: real
    var bgTargetOpacity: real
    var switchAnimActive: bool
    var switchAnimT0: real
    var switchAnimDirection: int
    var switchAnimPrevTex: Option<TextureInfo>
    var openAnimActive: bool
    var openAnimT0: real
    /** The handle the next texture loaded for the window gets. */
    var nextTexId: nat

    /**
     * The index is never negative; the thumbnail order lists each cached
     * path once; the window and the slide's snapshot hold textures already
     * made, and no two slots the same one.
     */
    ghost predicate Valid()
      reads this`index, this`thumbOrder, this`thumbs, this`cache, this`switchAnimPrevTex, this`nextTexId
    {
      0 <= index && ThumbsValid() && TexturesIssued()
    }

    ghost predicate TexturesIssued()
      reads this`cache, this`switchAnimPrevTex, this`nextTexId
    {
      CacheBelow(cache, nextTexId) && SlotsDistinct(cache) && SlotBelow(switchAnimPrevTex, nextTexId)
    }

    /** Between switches: the slide's snapshot is older than every texture of the window. */
    ghost predicate SnapshotOlder()
      reads this`cache, this`switchAnimPrevTex
    {
      switchAnimPrevTex.Some? ==> CacheFrom(cache, switchAnimPrevTex.value.tex.id + 1)
    }

    /** The state `render_image` changes. */
    function Slide(): SlideState
      reads this`openAnimActive, this`switchAnimActive, this`switchAnimPrevTex, this`toUnload
    {
      SlideState(openAnimActive, switchAnimActive, switchAnimPrevTex, toUnload)
    }

    ghost predicate ThumbsValid()
      reads this`thumbOrder, this`thumbs
    {
      CacheConsistent(thumbOrder, thumbs)
    }

    constructor (screenW: int, screenH: int, images: seq<string>)
      ensures Valid() && SnapshotOlder()
      ensures this.screenW == screenW && this.screenH == screenH && this.images == images
      ensures index == 0 && cache == EmptyCache() && thumbOrder == [] && thumbs == map[]
      ensures thumbQueue == [] && toUnload == [] && viewMemory == map[]
      ensures view == DefaultView() && lastFitView == DefaultView() && lastUserView == None
      ensures zoomStateCycle == ViewerMath.ZoomFit && !isZoomed && !isPanning
      ensures !switchAnimActive && switchAnimPrevTex == None && !openAnimActive && nextTexId == 1
    {
      this.screenW, this.screenH, this.images := screenW, screenH, images;
      index, cache := 0, ImageCache(None, None, None);
      thumbOrder, thumbs, thumbQueue, toUnload := [], map[], [], [];
      lastFitView, view, lastUserView := ViewParams(1.0, 0.0, 0.0), ViewParams(1.0, 0.0, 0.0), None;
      zoomStateCycle, isZoomed, isPanning := 1, false, false;
      viewMemory := map[];
      bgCurrentOpacity, bgTargetOpacity := 0.5, 0.5;
      switchAnimActive, switchAnimT0, switchAnimDirection, switchAnimPrevTex := false, 0.0, 0, None;
      openAnimActive, openAnimT0 := false, 0.0;
      nextTexId := 1;
    }

    /** `unload_texture_deferred`. */
    method UnloadTextureDeferred(ti: Option<TextureInfo>)
      modifies this`toUnload
      ensures toUnload == DeferUnload(old(toUnload), ti)
    {
      if ti.Some? && ti.value.tex.id != 0 {
        toUnload := toUnload + [ti.value.tex];
      }
    }

    /** `process_deferred_unloads`: unloads everything queued, newest first, leaving the queue empty. */
    method ProcessDeferredUnloads() returns (unloaded: seq<Texture>)
      modifies this`toUnload
      ensures toUnload == []
      ensures unloaded == Reverse(old(toUnload))
    {
      unloaded := [];
      while |toUnload| > 0
        invariant unloaded + Reverse(toUnload) == Reverse(old(toUnload))
        decreases |toUnload|
      {
        var tex := toUnload[|toUnload| - 1];
        assert Reverse(toUnload) == [tex] + Reverse(toUnload[..|toUnload| - 1]);
        toUnload := toUnload[..|toUnload| - 1];
        unloaded := unloaded + [tex];
      }
    }

    /** `schedule_thumbs` around `aroundIndex`. */
    method ScheduleThumbs(aroundIndex: int)
      modifies this`thumbQueue
      ensures thumbQueue == Schedule(images, thumbs.Keys, old(thumbQueue), aroundIndex)
    {
      var n := |images|;
      if n == 0 {
        return;
      }
      var lo := if 0 >= aroundIndex - ThumbPreloadSpan then 0 else aroundIndex - ThumbPreloadSpan;
      var hi := if n - 1 <= aroundIndex + ThumbPreloadSpan then n - 1 else aroundIndex + ThumbPreloadSpan;
      assert lo == WindowLo(aroundIndex) && hi == WindowHi(n, aroundIndex);
      if lo > hi {
        return;
      }
      ScheduleRange(lo, hi);
    }

    /** The loop of `schedule_thumbs` over the indices `lo..hi`. */
    method ScheduleRange(lo: int, hi: int)
      requires 0 <= lo <= hi < |images|
      modifies this`thumbQueue
      ensures thumbQueue == ScheduleFrom(images, thumbs.Keys, old(thumbQueue), lo, hi)
    {
      ghost var cached, target := thumbs.Keys, ScheduleFrom(images, thumbs.Keys, thumbQueue, lo, hi);
      var i := lo;
      while i <= hi
        invariant lo <= i <= hi + 1
        invariant ScheduleFrom(images, cached, thumbQueue, i, hi) == target
      {
        var p := images[i];
        ScheduleFromStep(images, cached, thumbQueue, i, hi);
        if p !in thumbs && p !in thumbQueue {
          thumbQueue := thumbQueue + [p];
        }
        i := i + 1;
      }
    }

    /**
     * `process_thumb_queue`: builds at most two thumbnails from the front of
     * the queue, then evicts the oldest entries until at most 400 remain,
     * queueing their textures for unloading. Returns the paths built.
     */
    method ProcessThumbQueue(build: (string, int) -> BitmapThumb) returns (built: seq<string>)
      requires Valid()
      modifies this`thumbQueue, this`thumbOrder, this`thumbs, this`toUnload
      ensures Valid()
      ensures built == BuildPlan(old(thumbQueue), old(thumbs).Keys, ThumbBuildBudget).0
      ensures thumbQueue == BuildPlan(old(thumbQueue), old(thumbs).Keys, ThumbBuildBudget).1
      ensures |thumbOrder| <= ThumbCacheLimit
      ensures thumbOrder == Newest(old(thumbOrder) + built, ThumbCacheLimit)
      ensures ThumbsAfterBuild(thumbs, old(thumbs), build, ThumbTargetHeight(screenH))
      ensures var all := old(thumbOrder) + built;
        toUnload == EvictionUnloads(old(toUnload), all[..|all| - |thumbOrder|], old(thumbs), build, ThumbTargetHeight(screenH))
    {
      var targetH := ThumbTargetHeight(screenH);
      built := BuildThumbs(build, targetH);
      ghost var all := thumbOrder;
      EvictOldest(build, targetH, old(thumbs), all);
      assert all == old(thumbOrder) + built;
      assert targetH == ThumbTargetHeight(screenH);
      assert ThumbsAfterBuild(thumbs, old(thumbs), build, targetH);
    }

    /** The first loop of `process_thumb_queue`: build thumbnails while the budget of two lasts. */
    method BuildThumbs(build: (string, int) -> BitmapThumb, targetH: int) returns (built: seq<string>)
      requires Valid()
      modifies this`thumbQueue, this`thumbOrder, this`thumbs
      ensures Valid()
      ensures built == BuildPlan(old(thumbQueue), old(thumbs).Keys, ThumbBuildBudget).0
      ensures thumbQueue == BuildPlan(old(thumbQueue), old(thumbs).Keys, ThumbBuildBudget).1
      ensures thumbOrder == old(thumbOrder) + built
      ensures ThumbsAfterBuild(thumbs, old(thumbs), build, targetH)
    {
      var budget: nat := ThumbBuildBudget;
      built := [];
      assert built + BuildPlan(thumbQueue, thumbs.Keys, budget).0 == BuildPlan(thumbQueue, thumbs.Keys, budget).0;
      while budget > 0 && |thumbQueue| > 0
        invariant budget + |built| == ThumbBuildBudget
        invariant BuildPlan(old(thumbQueue), old(thumbs).Keys, ThumbBuildBudget).0 == built + BuildPlan(thumbQueue, thumbs.Keys, budget).0
        invariant BuildPlan(old(thumbQueue), old(thumbs).Keys, ThumbBuildBudget).1 == BuildPlan(thumbQueue, thumbs.Keys, budget).1
        invariant thumbOrder == old(thumbOrder) + built
        invariant Valid()
        invariant ThumbsAfterBuild(thumbs, old(thumbs), build, targetH)
        invariant forall q :: q in old(thumbs) ==> q in thumbs
        decreases |thumbQueue|
      {
        var p := thumbQueue[0];
        ghost var plan := BuildPlan(thumbQueue, thumbs.Keys, budget);
        BuildPlanStep(thumbQueue, thumbs.Keys, budget);
        thumbQueue := thumbQueue[1..];
        if p in thumbs {
          continue;
        }
        ghost var keys := thumbs.Keys;
        ghost var rest := BuildPlan(thumbQueue, keys + {p}, budget - 1);
        var bt := build(p, targetH);
        AddThumb(p, bt);
        assert thumbs.Keys == keys + {p};
        AppendAssoc(built, [p], rest.0);
        built := built + [p];
        budget := budget - 1;
      }
    }

    /** One build of the first loop of `process_thumb_queue`: a new thumbnail joins the cache as its newest entry. */
    method AddThumb(p: string, bt: BitmapThumb)
      requires Valid() && p !in thumbs
      modifies this`thumbOrder, this`thumbs
      ensures Valid()
      ensures thumbs == old(thumbs)[p := bt] && thumbOrder == old(thumbOrder) + [p]
    {
      CacheInsert(thumbOrder, thumbs, p, bt);
      thumbs := thumbs[p := bt];
      thumbOrder := thumbOrder + [p];
    }

    /**
     * The second loop of `process_thumb_queue`: drop the oldest thumbnails
     * until at most 400 remain, queueing their textures for unloading.
     */
    method EvictOldest(build: (string, int) -> BitmapThumb, targetH: int, ghost before: map<string, BitmapThumb>, ghost all: seq<string>)
      requires Valid()
      requires thumbOrder == all
      requires ThumbsAfterBuild(thumbs, before, build, targetH)
      modifies this`thumbOrder, this`thumbs, this`toUnload
      ensures Valid()
      ensures thumbOrder == Newest(all, ThumbCacheLimit)
      ensures ThumbsAfterBuild(thumbs, before, build, targetH)
      ensures toUnload == EvictionUnloads(old(toUnload), all[..|all| - |thumbOrder|], before, build, targetH)
    {
      ghost var e := 0;
      while |thumbOrder| > ThumbCacheLimit
        invariant Valid()
        invariant 0 <= e <= |all| && thumbOrder == all[e..]
        invariant e == 0 || |all| - e >= ThumbCacheLimit
        invariant ThumbsAfterBuild(thumbs, before, build, targetH)
        invariant toUnload == EvictionUnloads(old(toUnload), all[..e], before, build, targetH)
        decreases |thumbOrder|
      {
        assert all[e] == thumbOrder[0];
        EvictionUnloadsStep(old(toUnload), all, e, before, build, targetH);
        DropOldest(build, targetH, before);
        e := e + 1;
      }
      assert |all| - |thumbOrder| == e;
    }

    /** One round of the eviction loop: the oldest entry leaves, and its texture is queued for unloading. */
    method DropOldest(build: (string, int) -> BitmapThumb, targetH: int, ghost before: map<string, BitmapThumb>)
      requires Valid() && |thumbOrder| > 0
      requires ThumbsAfterBuild(thumbs, before, build, targetH)
      modifies this`thumbOrder, this`thumbs, this`toUnload
      ensures Valid()
      ensures thumbOrder == old(thumbOrder)[1..]
      ensures ThumbsAfterBuild(thumbs, before, build, targetH)
      ensures toUnload == DeferUnload(old(toUnload), ThumbTexture(ThumbAfterBuild(before, build, targetH, old(thumbOrder)[0])))
    {
      var k := thumbOrder[0];
      var bt := thumbs[k];
      assert bt == ThumbAfterBuild(before, build, targetH, k);
      CacheDropOldest(thumbOrder, thumbs);
      thumbs := thumbs - {k};
      thumbOrder := thumbOrder[1..];
      if bt.texture.Some? {
        UnloadTextureDeferred(Some(TextureInfo(bt.texture.value, 0, 0, "")));
      }
    }

    /**
     * `preload_neighbors` to `newIndex`, releasing every old slot except
     * the `retained` texture (None for the code as written): with no images
     * the cache empties and the index is 0; otherwise the index is clamped,
     * the view of the image left is remembered, the three slots are loaded,
     * the thumbnails around the index are scheduled, and the view is the
     * remembered one for the new image or else its fit view.
     */
    method PreloadNeighbors(newIndex: int, load: string -> Option<(int, int)>, retained: Option<Texture>)
      requires Valid()
      modifies this`cache, this`index, this`viewMemory, this`toUnload, this`thumbQueue, this`nextTexId
      modifies this`lastFitView, this`view, this`isZoomed
      ensures Valid()
      ensures |images| == 0 ==> cache == EmptyCache() && index == 0
      ensures |images| == 0 ==> viewMemory == old(viewMemory) && toUnload == old(toUnload) &&
                                thumbQueue == old(thumbQueue) && lastFitView == old(lastFitView) &&
                                view == old(view) && isZoomed == old(isZoomed) && nextTexId == old(nextTexId)
      ensures |images| > 0 ==> index == StateImages.ClampIndex(|images|, newIndex)
      ensures |images| > 0 ==> cache == NeighborCache(images, index, load, old(nextTexId)) &&
                               nextTexId == old(nextTexId) + 3
      ensures |images| > 0 ==> viewMemory == SaveLeavingView(old(viewMemory), images, old(index), old(cache), old(view))
      ensures |images| > 0 ==> toUnload == SlotUnloads(old(toUnload), old(cache), retained)
      ensures |images| > 0 ==> thumbQueue == Schedule(images, thumbs.Keys, old(thumbQueue), index)
      ensures |images| > 0 ==> lastFitView == FitView(cache.curr, screenW, screenH)
      ensures |images| > 0 && images[index] in viewMemory ==>
        view == viewMemory[images[index]] && (isZoomed <==> view.scale > lastFitView.scale)
      ensures |images| > 0 && images[index] !in viewMemory ==> view == lastFitView && !isZoomed
    {
      var n := |images|;
      if n == 0 {
        cache := ImageCache(None, None, None);
        index := 0;
        return;
      }
      var target := if newIndex < 0 then 0 else if newIndex > n - 1 then n - 1 else newIndex;
      PreloadAt(target, load, retained);
    }

    /** `preload_neighbors` once the index is clamped into a non-empty list. */
    method PreloadAt(target: int, load: string -> Option<(int, int)>, retained: Option<Texture>)
      requires Valid() && 0 <= target < |images|
      modifies this`cache, this`index, this`viewMemory, this`toUnload, this`thumbQueue, this`nextTexId
      modifies this`lastFitView, this`view, this`isZoomed
      ensures Valid()
      ensures index == target && cache == NeighborCache(images, target, load, old(nextTexId))
      ensures nextTexId == old(nextTexId) + 3
      ensures viewMemory == SaveLeavingView(old(viewMemory), images, old(index), old(cache), old(view))
      ensures toUnload == SlotUnloads(old(toUnload), old(cache), retained)
      ensures thumbQueue == Schedule(images, thumbs.Keys, old(thumbQueue), target)
      ensures lastFitView == FitView(cache.curr, screenW, screenH)
      ensures images[target] in viewMemory ==>
        view == viewMemory[images[target]] && (isZoomed <==> view.scale > lastFitView.scale)
      ensures images[target] !in viewMemory ==> view == lastFitView && !isZoomed
    {
      EnterIndex(target, load, retained);
      ScheduleThumbs(target);
      RestoreView();
    }

    /**
     * The first half of `preload_neighbors`: remember the view being left,
     * release the three slots, and load the window around `target`.
     */
    method EnterIndex(target: int, load: string -> Option<(int, int)>, retained: Option<Texture>)
      requires 0 <= index && 0 <= target < |images|
      modifies this`viewMemory, this`toUnload, this`cache, this`index, this`nextTexId
      ensures index == target && cache == NeighborCache(images, target, load, old(nextTexId))
      ensures nextTexId == old(nextTexId) + 3
      ensures viewMemory == SaveLeavingView(old(viewMemory), images, old(index), old(cache), view)
      ensures toUnload == SlotUnloads(old(toUnload), old(cache), retained)
      ensures old(Valid()) ==> Valid()
    {
      RememberView();
      ReleaseSlots(retained);
      var cur := LoadTexture(images[target], load, nextTexId);
      var prev := if target - 1 >= 0 then LoadTexture(images[target - 1], load, nextTexId + 1) else None;
      var nxt := if target + 1 < |images| then LoadTexture(images[target + 1], load, nextTexId + 2) else None;
      cache := ImageCache(prev, cur, nxt);
      nextTexId := nextTexId + 3;
      index := target;
    }

    /** The first step of `preload_neighbors`: remember the view of the image being left. */
    method RememberView()
      requires 0 <= index
      modifies this`viewMemory
      ensures viewMemory == SaveLeavingView(old(viewMemory), images, index, cache, view)
    {
      if cache.curr.Some? && index < |images| {
        var oldPath := images[index];
        viewMemory := viewMemory[oldPath := ViewParams(view.scale, view.offx, view.offy)];
      }
    }

    /** The second step of `preload_neighbors`: release the three slots, keeping `retained`. */
    method ReleaseSlots(retained: Option<Texture>)
      modifies this`toUnload
      ensures toUnload == SlotUnloads(old(toUnload), cache, retained)
    {
      var slots := [cache.prev, cache.curr, cache.next];
      var s := 0;
      while s < 3
        invariant 0 <= s <= 3
        invariant toUnload == (if s == 0 then old(toUnload)
                               else if s == 1 then ReleaseSlot(old(toUnload), slots[0], retained)
                               else if s == 2 then ReleaseSlot(ReleaseSlot(old(toUnload), slots[0], retained), slots[1], retained)
                               else SlotUnloads(old(toUnload), cache, retained))
      {
        var ti := slots[s];
        if !(ti.Some? && retained == Some(ti.value.tex)) {
          UnloadTextureDeferred(ti);
        }
        s := s + 1;
      }
    }

    /**
     * The last step of `preload_neighbors`: the fit view of the new image,
     * and the remembered view if there is one (zoomed when larger than fit).
     */
    method RestoreView()
      requires 0 <= index < |images|
      modifies this`lastFitView, this`view, this`isZoomed
      ensures lastFitView == FitView(cache.curr, screenW, screenH)
      ensures images[index] in viewMemory ==> view == viewMemory[images[index]] && (isZoomed <==> view.scale > lastFitView.scale)
      ensures images[index] !in viewMemory ==> view == lastFitView && !isZoomed
    {
      lastFitView := FitView(cache.curr, screenW, screenH);
      var newPath := images[index];
      if newPath in viewMemory {
        view := viewMemory[newPath];
        isZoomed := view.scale > lastFitView.scale;
      } else {
        view := lastFitView;
        isZoomed := false;
      }
    }

    /**
     * `switch_to` as written: the slide keeps a snapshot of the current
     * texture, and the prefetch window still releases that texture.
     */
    method SwitchToAsWritten(idx: int, animate: bool, now: real, load: string -> Option<(int, int)>)
      requires Valid()
      modifies this`isPanning, this`switchAnimActive, this`switchAnimPrevTex, this`switchAnimT0, this`switchAnimDirection
      modifies this`cache, this`index, this`viewMemory, this`toUnload, this`thumbQueue, this`nextTexId
      modifies this`lastFitView, this`view, this`isZoomed
      ensures Valid()
      ensures idx == old(index) ==> unchanged(this)
      ensures idx != old(index) ==> !isPanning
      ensures idx != old(index) && animate && old(cache.curr).Some? ==>
        switchAnimActive && switchAnimPrevTex == old(cache.curr) && switchAnimT0 == now &&
        switchAnimDirection == (if idx > old(index) then 1 else -1)
      ensures idx != old(index) && !(animate && old(cache.curr).Some?) ==>
        switchAnimActive == old(switchAnimActive) && switchAnimPrevTex == old(switchAnimPrevTex) &&
        switchAnimT0 == old(switchAnimT0) && switchAnimDirection == old(switchAnimDirection)
      ensures idx != old(index) && |images| == 0 ==>
        cache == EmptyCache() && index == 0 && viewMemory == old(viewMemory) && toUnload == old(toUnload) &&
        thumbQueue == old(thumbQueue) && lastFitView == old(lastFitView) && view == old(view) &&
        isZoomed == old(isZoomed) && nextTexId == old(nextTexId)
      ensures idx != old(index) && |images| > 0 ==>
        index == StateImages.ClampIndex(|images|, idx) &&
        cache == NeighborCache(images, index, load, old(nextTexId)) && nextTexId == old(nextTexId) + 3 &&
        viewMemory == SaveLeavingView(old(viewMemory), images, old(index), old(cache), old(view)) &&
        thumbQueue == Schedule(images, thumbs.Keys, old(thumbQueue), index) &&
        lastFitView == FitView(cache.curr, screenW, screenH)
      ensures idx != old(index) && |images| > 0 && images[index] in viewMemory ==>
        view == viewMemory[images[index]] && (isZoomed <==> view.scale > lastFitView.scale)
      ensures idx != old(index) && |images| > 0 && images[index] !in viewMemory ==> view == lastFitView && !isZoomed
      ensures idx != old(index) && |images| > 0 ==>
        toUnload == SlotUnloads(old(toUnload), old(cache), None)
      ensures |old(toUnload)| <= |toUnload| && forall t :: t in toUnload[|old(toUnload)|..] ==> !Holds(cache, t)
    {
      if idx == index {
        return;
      }
      ghost var q, c, bound := toUnload, cache, nextTexId;
      var _ := BeginSwitch(idx, animate, now);
      PreloadNeighbors(idx, load, None);
      SlotUnloadsBelow(q, c, None, bound);
    }

    /**
     * The part of `switch_to` before the preload: panning stops, and an
     * animated switch from a loaded image snapshots it for the slide, in the
     * direction of travel. Returns the snapshot's texture, if any.
     */
    method BeginSwitch(idx: int, animate: bool, now: real) returns (retained: Option<Texture>)
      requires Valid()
      modifies this`isPanning, this`switchAnimActive, this`switchAnimPrevTex, this`switchAnimT0, this`switchAnimDirection
      ensures Valid()
      ensures !isPanning
      ensures animate && cache.curr.Some? ==>
        switchAnimActive && switchAnimPrevTex == cache.curr && switchAnimT0 == now &&
        switchAnimDirection == (if idx > index then 1 else -1) && retained == Some(cache.curr.value.tex)
      ensures !(animate && cache.curr.Some?) ==>
        retained == None && switchAnimActive == old(switchAnimActive) && switchAnimPrevTex == old(switchAnimPrevTex) &&
        switchAnimT0 == old(switchAnimT0) && switchAnimDirection == old(switchAnimDirection)
    {
      var direction := if idx > index then 1 else -1;
      isPanning := false;
      retained := None;
      if animate && cache.curr.Some? {
        switchAnimPrevTex := cache.curr;
        switchAnimActive := true;
        switchAnimT0 := now;
        switchAnimDirection := direction;
        retained := Some(cache.curr.value.tex);
      }
    }

    /**
     * The slide `switch_to` leaves behind when it moves away from the current
     * index: panning stops, and an animated switch from a loaded image
     * snapshots it for a slide in the direction of travel.
     */
    twostate predicate SlideRestarted(idx: int, animate: bool, now: real)
      reads this
    {
      !isPanning &&
      (animate && old(cache.curr).Some? ==>
        switchAnimActive && switchAnimPrevTex == old(cache.curr) && switchAnimT0 == now &&
        switchAnimDirection == (if idx > old(index) then 1 else -1)) &&
      (!(animate && old(cache.curr).Some?) ==>
        switchAnimActive == old(switchAnimActive) && switchAnimPrevTex == old(switchAnimPrevTex) &&
        switchAnimT0 == old(switchAnimT0) && switchAnimDirection == old(switchAnimDirection))
    }

    /**
     * The window `switch_to`, corrected, leaves behind when it moves away from
     * the current index: it is reloaded around the clamped index with fresh
     * textures, the leaving view is remembered and the arriving one restored
     * or fitted; the queue gains the replaced slide's snapshot and the old
     * window minus the new slide's snapshot.
     */
    twostate predicate WindowMoved(idx: int, animate: bool, load: string -> Option<(int, int)>)
      requires old(0 <= index)
      reads this
    {
      (|images| == 0 ==>
        cache == EmptyCache() && index == 0 && viewMemory == old(viewMemory) &&
        toUnload == Supersede(old(toUnload), old(switchAnimPrevTex), animate && old(cache.curr).Some?) &&
        thumbQueue == old(thumbQueue) && lastFitView == old(lastFitView) && view == old(view) &&
        isZoomed == old(isZoomed) && nextTexId == old(nextTexId)) &&
      (|images| > 0 ==>
        index == StateImages.ClampIndex(|images|, idx) &&
        cache == NeighborCache(images, index, load, old(nextTexId)) && nextTexId == old(nextTexId) + 3 &&
        viewMemory == SaveLeavingView(old(viewMemory), images, old(index), old(cache), old(view)) &&
        thumbQueue == Schedule(images, thumbs.Keys, old(thumbQueue), index) &&
        lastFitView == FitView(cache.curr, screenW, screenH) &&
        (images[index] in viewMemory ==>
          view == viewMemory[images[index]] && (isZoomed <==> view.scale > lastFitView.scale)) &&
        (images[index] !in viewMemory ==> view == lastFitView && !isZoomed) &&
        toUnload == SwitchUnloads(old(toUnload), old(cache), old(switchAnimPrevTex), animate && old(cache.curr).Some?))
    }

    /**
     * `switch_to`, corrected: the texture the slide keeps drawing is left
     * out of the prefetch window's release, and the end of the slide
     * releases it; a new slide replacing one still running releases the
     * snapshot it replaces. Nothing queued is drawn afterwards: neither the
     * new window nor the slide's snapshot.
     */
    method SwitchTo(idx: int, animate: bool, now: real, load: string -> Option<(int, int)>)
      requires Valid() && SnapshotOlder()
      modifies this`isPanning, this`switchAnimActive, this`switchAnimPrevTex, this`switchAnimT0, this`switchAnimDirection
      modifies this`cache, this`index, this`viewMemory, this`toUnload, this`thumbQueue, this`nextTexId
      modifies this`lastFitView, this`view, this`isZoomed
      ensures Valid() && SnapshotOlder()
      ensures idx == old(index) ==> unchanged(this)
      ensures idx != old(index) ==> SlideRestarted(idx, animate, now) && WindowMoved(idx, animate, load)
      ensures |old(toUnload)| <= |toUnload| &&
        forall t :: t in toUnload[|old(toUnload)|..] ==>
          !Holds(cache, t) && (switchAnimPrevTex.Some? ==> t != switchAnimPrevTex.value.tex)
    {
      if idx == index {
        return;
      }
      ghost var q, c, snapshot, bound := toUnload, cache, switchAnimPrevTex, nextTexId;
      ghost var restart := animate && c.curr.Some?;
      SwitchAway(idx, animate, now, load);
      if |images| > 0 {
        SwitchQueuesNothingLive(q, c, snapshot, restart, bound, cache);
      }
    }

    /** `switch_to`, corrected, to another index than the current one. */
    method SwitchAway(idx: int, animate: bool, now: real, load: string -> Option<(int, int)>)
      requires Valid() && SnapshotOlder() && idx != index
      modifies this`isPanning, this`switchAnimActive, this`switchAnimPrevTex, this`switchAnimT0, this`switchAnimDirection
      modifies this`cache, this`index, this`viewMemory, this`toUnload, this`thumbQueue, this`nextTexId
      modifies this`lastFitView, this`view, this`isZoomed
      ensures Valid() && SnapshotOlder()
      ensures SlideRestarted(idx, animate, now)
      ensures WindowMoved(idx, animate, load)
    {
      var retained := RestartSlide(idx, animate, now);
      PreloadNeighbors(idx, load, retained);
    }

    /**
     * The corrected part of `switch_to` before the preload: as `BeginSwitch`,
     * after queueing the snapshot of a slide the new one replaces.
     */
    method RestartSlide(idx: int, animate: bool, now: real) returns (retained: Option<Texture>)
      requires Valid() && SnapshotOlder()
      modifies this`isPanning, this`switchAnimActive, this`switchAnimPrevTex, this`switchAnimT0, this`switchAnimDirection
      modifies this`toUnload
      ensures Valid()
      ensures toUnload == Supersede(old(toUnload), old(switchAnimPrevTex), animate && cache.curr.Some?)
      ensures forall t :: t in toUnload[|old(toUnload)|..] ==> switchAnimPrevTex.Some? && t != switchAnimPrevTex.value.tex
      ensures !isPanning
      ensures animate && cache.curr.Some? ==>
        switchAnimActive && switchAnimPrevTex == cache.curr && switchAnimT0 == now &&
        switchAnimDirection == (if idx > index then 1 else -1) && retained == Some(cache.curr.value.tex)
      ensures !(animate && cache.curr.Some?) ==>
        retained == None && switchAnimActive == old(switchAnimActive) && switchAnimPrevTex == old(switchAnimPrevTex) &&
        switchAnimT0 == old(switchAnimT0) && switchAnimDirection == old(switchAnimDirection)
    {
      if animate && cache.curr.Some? {
        UnloadTextureDeferred(switchAnimPrevTex);
      }
      retained := BeginSwitch(idx, animate, now);
    }

    /**
     * The state changes of drawing the image at time `now`: nothing without
     * a current image; while the open animation runs it ends once 200 ms have
     * passed and the slide waits; otherwise the slide ends once 150 ms have
     * passed and its snapshot texture is queued for unloading, a texture the
     * window no longer holds.
     */
    method SettleSwitchAnimation(now: real)
      modifies this`switchAnimActive, this`switchAnimPrevTex, this`toUnload, this`openAnimActive
      ensures Slide() == RenderStep(old(Slide()), cache.curr.Some?, openAnimT0, switchAnimT0, now)
      ensures cache.curr.None? || old(openAnimActive) ==>
        switchAnimActive == old(switchAnimActive) && switchAnimPrevTex == old(switchAnimPrevTex) &&
        toUnload == old(toUnload)
      ensures cache.curr.None? ==> openAnimActive == old(openAnimActive)
      ensures cache.curr.Some? && old(openAnimActive) ==>
        (openAnimActive <==> (now - openAnimT0) / (AnimOpenMs / 1000.0) < 1.0)
      ensures cache.curr.Some? && !old(openAnimActive) ==> !openAnimActive
      ensures cache.curr.Some? && !old(openAnimActive) ==>
        var done := old(switchAnimActive) && old(switchAnimPrevTex).Some? &&
                    (now - switchAnimT0) / (AnimSwitchMs / 1000.0) >= 1.0;
        (done ==> !switchAnimActive && switchAnimPrevTex == None &&
                  toUnload == DeferUnload(old(toUnload), old(switchAnimPrevTex))) &&
        (!done ==> switchAnimActive == old(switchAnimActive) && switchAnimPrevTex == old(switchAnimPrevTex) &&
                   toUnload == old(toUnload))
      ensures old(Valid()) ==> Valid()
      ensures old(SnapshotOlder()) ==>
        SnapshotOlder() && |old(toUnload)| <= |toUnload| && forall t :: t in toUnload[|old(toUnload)|..] ==> !Holds(cache, t)
    {
      if cache.curr.None? {
        return;
      }
      if openAnimActive {
        var t := (now - openAnimT0) / (AnimOpenMs / 1000.0);
        if t >= 1.0 {
          openAnimActive := false;
        }
        return;
      }
      if switchAnimActive && switchAnimPrevTex.Some? {
        var t := (now - switchAnimT0) / (AnimSwitchMs / 1000.0);
        if t >= 1.0 {
          switchAnimActive := false;
          UnloadTextureDeferred(switchAnimPrevTex);
          switchAnimPrevTex := None;
        }
      }
    }

    /** `apply_bg_opacity_anim`: one frame of the background fade. */
    method ApplyBgOpacityAnim()
      modifies this`bgCurrentOpacity
      ensures bgCurrentOpacity == ViewerMath.BgOpacityTick(old(bgCurrentOpacity), bgTargetOpacity)
    {
      var delta := bgTargetOpacity - bgCurrentOpacity;
      if Abs(delta) < 0.001 {
        return;
      }
      var step := (1.0 / (ViewerMath.BgFadeMs / 1000.0)) / ViewerMath.TargetFps;
      bgCurrentOpacity := bgCurrentOpacity + Clamp(delta, -step, step);
    }

    /** `view_for_1to1_centered`: the current view when there is no image. */
    function ViewFor1to1Centered(): (v: ViewParams)
      reads this
      ensures cache.curr.None? ==> v == view
      ensures cache.curr.Some? ==> v.scale == 1.0 && ViewMath.IsCentered(v, cache.curr.value.w, cache.curr.value.h, screenW, screenH)
    {
      if cache.curr.None? then view
      else ViewMath.ViewFor1to1Centered(cache.curr.value.w, cache.curr.value.h, screenW, screenH)
    }

    /**
     * `cycle_zoom_state`, corrected to do nothing without a current image. It
     * draws a frame at each of the times `frames` until the 150 ms animation
     * begun at `t0` is complete: each frame moves the view along the eased
     * path to the target, pan-clamped, and draws the image, which ends the
     * open animation or the slide when their time is up. Afterwards the cycle
     * is in its next state, the view is the clamped target of that state,
     * and the zoom flag is recomputed.
     */
    method CycleZoomState(t0: real, frames: seq<real>)
      requires zoomStateCycle in {ViewerMath.ZoomOneToOne, ViewerMath.ZoomFit, ViewerMath.ZoomLastUser}
      requires ZoomCycleFrames(t0, frames)
      modifies this`view, this`zoomStateCycle, this`isZoomed
      modifies this`switchAnimActive, this`switchAnimPrevTex, this`toUnload, this`openAnimActive
      ensures cache.curr.None? ==> unchanged(this)
      ensures cache.curr.Some? ==> zoomStateCycle == ViewerMath.NextZoomState(old(zoomStateCycle)).value
      ensures cache.curr.Some? ==> view == ViewerMath.LegacyClampPan(
        ViewerMath.ZoomTarget(zoomStateCycle, old(ViewFor1to1Centered()), lastFitView, lastUserView),
        cache.curr.value.w, cache.curr.value.h, screenW, screenH)
      ensures cache.curr.Some? ==> (isZoomed <==> view.scale > lastFitView.scale)
      ensures cache.curr.Some? ==> Slide() == RenderFrames(old(Slide()), true, openAnimT0, switchAnimT0, frames)
    {
      if cache.curr.None? {
        return;
      }
      var next := ViewerMath.NextZoomState(zoomStateCycle).value;
      var target := ViewerMath.ZoomTarget(next, ViewFor1to1Centered(), lastFitView, lastUserView);
      var from := view;
      var ti := cache.curr.value;
      var k := 0;
      while k < |frames|
        invariant 0 <= k <= |frames|
        invariant Slide() == RenderFrames(old(Slide()), true, openAnimT0, switchAnimT0, frames[..k])
        invariant k > 0 ==> view == ViewerMath.ZoomCycleFrameView(from, target, ViewerMath.ZoomProgress(t0, frames[k - 1]),
                                                                  ti.w, ti.h, screenW, screenH)
      {
        var t := ViewerMath.ZoomProgress(t0, frames[k]);
        view := ViewerMath.ZoomCycleFrameView(from, target, t, ti.w, ti.h, screenW, screenH);
        SettleSwitchAnimation(frames[k]);
        assert frames[..k + 1][..k] == frames[..k];
        k := k + 1;
      }
      assert frames[..|frames|] == frames;
      zoomStateCycle := next;
      isZoomed := view.scale > lastFitView.scale;
    }
  }
}
