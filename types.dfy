/**
 * Core value types shared by every part of the viewer (imagura/types.py).
 * Textures are opaque handles identified by an id; callbacks are opaque tokens.
 */
module Types {
  import opened Wrappers

  /** A GPU texture handle; id 0 is the "no texture" handle. */
  datatype Texture = Texture(id: nat)

  /** An opaque completion callback, compared only by identity. */
  datatype Callback = Callback(id: nat)

  /** Priority levels of the asynchronous loader; a smaller value is served first. */
  datatype LoadPriority = Current | Neighbor | Gallery {
    function Value(): (v: nat)
      ensures v < 3
    {
      match this
      case Current => 0
      case Neighbor => 1
      case Gallery => 2
    }
  }

  /** A request to the asynchronous loader. */
  datatype LoadTask = LoadTask(path: string, priority: LoadPriority, callback: Callback, timestamp: real)

  /** `LoadTask.__lt__`: priority first, then submission time. */
  predicate TaskLess(a: LoadTask, b: LoadTask) {
    if a.priority != b.priority then a.priority.Value() < b.priority.Value()
    else a.timestamp < b.timestamp
  }

  /** CURRENT < NEIGHBOR < GALLERY, and the values are distinct. */
  lemma PriorityOrder()
    ensures Current.Value() < Neighbor.Value() < Gallery.Value()
    ensures forall p: LoadPriority, q: LoadPriority :: p.Value() == q.Value() ==> p == q
  {
  }

  /** A more urgent priority wins whatever the timestamps. */
  lemma TaskLessPriorityFirst(a: LoadTask, b: LoadTask)
    requires a.priority.Value() < b.priority.Value()
    ensures TaskLess(a, b) && !TaskLess(b, a)
  {
  }

  /** Within one priority, tasks are served in submission order. */
  lemma TaskLessFifo(a: LoadTask, b: LoadTask)
    requires a.priority == b.priority
    ensures TaskLess(a, b) <==> a.timestamp < b.timestamp
  {
  }

  /** `__lt__` is a strict order: irreflexive, asymmetric and transitive. */
  lemma TaskLessStrictOrder(a: LoadTask, b: LoadTask, c: LoadTask)
    ensures !TaskLess(a, a)
    ensures TaskLess(a, b) ==> !TaskLess(b, a)
    ensures TaskLess(a, b) && TaskLess(b, c) ==> TaskLess(a, c)
  {
    PriorityOrder();
  }

  /** Two tasks that differ in priority or timestamp are comparable one way. */
  lemma TaskLessTotal(a: LoadTask, b: LoadTask)
    requires a.priority != b.priority || a.timestamp != b.timestamp
    ensures TaskLess(a, b) || TaskLess(b, a)
  {
    PriorityOrder();
  }

  /** View transformation: scale and top-left offset of the drawn image. */
  datatype ViewParams = ViewParams(scale: real, offx: real, offy: real) {
    /** A field-by-field copy. */
    function Copy(): (r: ViewParams)
      ensures r.scale == scale && r.offx == offx && r.offy == offy
    {
      ViewParams(scale, offx, offy)
    }
  }

  /** `ViewParams()` with its default fields. */
  function DefaultView(): (v: ViewParams)
    ensures v.scale == 1.0 && v.offx == 0.0 && v.offy == 0.0
  {
    ViewParams(1.0, 0.0, 0.0)
  }

  /** A loaded texture with its pixel size and source path. */
  datatype TextureInfo = TextureInfo(tex: Texture, w: int, h: int, path: string) {
    /** A new record referring to the same texture. */
    function CopyRef(): (r: TextureInfo)
      ensures r.tex == tex && r.w == w && r.h == h && r.path == path
    {
      TextureInfo(tex, w, h, path)
    }
  }

  /** The previous, current and next images around the viewed index. */
  datatype ImageCache = ImageCache(prev: Option<TextureInfo>, curr: Option<TextureInfo>, next: Option<TextureInfo>)

  function EmptyCache(): (c: ImageCache)
    ensures c.prev.None? && c.curr.None? && c.next.None?
  {
    ImageCache(None, None, None)
  }

  /** A gallery thumbnail: texture, pixel size, source path and readiness. */
  datatype BitmapThumb = BitmapThumb(texture: Option<Texture>, size: (int, int), srcPath: string, ready: bool)

  function DefaultThumb(): (t: BitmapThumb)
    ensures t.texture.None? && t.size == (0, 0) && t.srcPath == "" && !t.ready
  {
    BitmapThumb(None, (0, 0), "", false)
  }
}
