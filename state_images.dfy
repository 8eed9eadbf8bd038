/**
 * The image list of the open directory, the viewed index, the neighbour
 * cache and the per-path view memories (imagura/state/images.py).
 */
module StateImages {
  import opened Wrappers
  import opened Types

  /** `clamp_index` on a list of `n` images: 0 for an empty list. */
  function ClampIndex(n: nat, idx: int): (r: int)
    ensures n == 0 ==> r == 0
    ensures n > 0 ==> 0 <= r < n
    ensures 0 <= idx < n ==> r == idx
    ensures n > 0 && idx < 0 ==> r == 0
    ensures n > 0 && idx >= n ==> r == n - 1
  {
    if n == 0 then 0
    else
      var m := if idx <= n - 1 then idx else n - 1;
      if 0 >= m then 0 else m
  }

  /** Clamping twice is clamping once. */
  lemma ClampIndexIdempotent(n: nat, idx: int)
    ensures ClampIndex(n, ClampIndex(n, idx)) == ClampIndex(n, idx)
  {
  }

  /** `get_path` on a list: the element iff the index is in range. */
  function PathAt(images: seq<string>, idx: int): (r: Option<string>)
    ensures r.Some? <==> 0 <= idx < |images|
    ensures r.Some? ==> r.value == images[idx]
  {
    if 0 <= idx < |images| then Some(images[idx]) else None
  }

  /** Every clamped index of a non-empty list names an image. */
  lemma ClampedIndexHasPath(images: seq<string>, idx: int)
    requires |images| > 0
    ensures PathAt(images, ClampIndex(|images|, idx)).Some?
  {
  }

  /** The image list and what is remembered about each image. */
  class ImageListState {
    var images: seq<string>
    var index: int
    var cache: ImageCache
    var viewMemory: map<string, ViewParams>
    var userZoomMemory: map<string, ViewParams>

    constructor ()
      ensures images == [] && index == 0 && cache == EmptyCache()
      ensures viewMemory == map[] && userZoomMemory == map[]
    {
      images, index, cache := [], 0, EmptyCache();
      viewMemory, userZoomMemory := map[], map[];
    }

    /** `count`. */
    function Count(): (n: nat)
      reads this
      ensures n == |images|
      ensures n == 0 ==> CurrentPath().None?
    {
      |images|
    }

    /** `current_path`: the path at the current index, when the index is in range. */
    function CurrentPath(): (r: Option<string>)
      reads this
      ensures r.Some? <==> 0 <= index < |images|
      ensures r.Some? ==> r.value in images
    {
      PathAt(images, index)
    }

    /** `has_prev`. */
    function HasPrev(): (r: bool)
      reads this
      ensures r <==> index > 0
      ensures r && index <= |images| ==> PathAt(images, index - 1).Some?
    {
      index > 0
    }

    /** `has_next`. */
    function HasNext(): (r: bool)
      reads this
      ensures r <==> index < |images| - 1
      ensures r && index >= -1 ==> PathAt(images, index + 1).Some?
    {
      index < |images| - 1
    }

    /** `get_saved_view`. */
    function GetSavedView(path: string): (r: Option<ViewParams>)
      reads this
      ensures r.Some? <==> path in viewMemory
      ensures r.Some? ==> r.value == viewMemory[path]
    {
      if path in viewMemory then Some(viewMemory[path]) else None
    }

    /** `get_user_zoom`. */
    function GetUserZoom(path: string): (r: Option<ViewParams>)
      reads this
      ensures r.Some? <==> path in userZoomMemory
      ensures r.Some? ==> r.value == userZoomMemory[path]
    {
      if path in userZoomMemory then Some(userZoomMemory[path]) else None
    }

    /** `save_view`: remembers a copy for `path`; other paths and the zoom memory are untouched. */
    method SaveView(path: string, view: ViewParams)
      modifies this`viewMemory
      ensures viewMemory == old(viewMemory)[path := view.Copy()]
      ensures GetSavedView(path) == Some(view)
      ensures forall p :: p != path ==> GetSavedView(p) == old(GetSavedView(p))
    {
      viewMemory := viewMemory[path := ViewParams(view.scale, view.offx, view.offy)];
    }

    /** `save_user_zoom`: as `save_view`, in the other memory. */
    method SaveUserZoom(path: string, view: ViewParams)
      modifies this`userZoomMemory
      ensures userZoomMemory == old(userZoomMemory)[path := view.Copy()]
      ensures GetUserZoom(path) == Some(view)
      ensures forall p :: p != path ==> GetUserZoom(p) == old(GetUserZoom(p))
    {
      userZoomMemory := userZoomMemory[path := ViewParams(view.scale, view.offx, view.offy)];
    }
  }
}
