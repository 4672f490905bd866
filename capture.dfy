/** What one capture produces. The webcam is seen only through what
    `takePhoto` reads from it (is there a video element, what is its
    `readyState`, which frame does it show), and the encoded still is an
    opaque token recording the frame and the canvas filter it was drawn
    through. `Shots` is the photo list a whole capture sequence builds. */
module Capture {
  import Filters

  /** The webcam's video element at the moment a shot is due: absent, or
      present with its `readyState` and the frame it currently shows. */
  datatype Video = NoVideo | Video(readyState: int, frame: nat)

  /** `takePhoto` draws only when there is a video with at least the current
      frame available (`readyState >= 2`). */
  predicate Ready(v: Video) {
    v.Video? && v.readyState >= 2
  }

  /** The JPEG data URL of `frame` drawn through `canvasFilter`. */
  datatype Image = Rendered(frame: nat, canvasFilter: string)

  /** One entry of the photo list: the image and the filter name active when
      it was taken. */
  datatype Photo = Photo(src: Image, filter: string)

  /** The photo `takePhoto` would add for this video under this filter. */
  function Shoot(v: Video, filter: string): Photo
    requires Ready(v)
  {
    Photo(Rendered(v.frame, Filters.CanvasFilter(filter)), filter)
  }

  /** The webcam as seen by pass `i` of a capture sequence. */
  type Camera = nat -> Video

  /** The photo list after the first `n` passes of a sequence under `filter`:
      one photo per pass whose video was ready, in pass order. */
  function Shots(camera: Camera, n: nat, filter: string): seq<Photo>
  {
    if n == 0 then []
    else if Ready(camera(n - 1)) then Shots(camera, n - 1, filter) + [Shoot(camera(n - 1), filter)]
    else Shots(camera, n - 1, filter)
  }

  /** The number of the first `n` passes whose video was ready. */
  function ReadyPasses(camera: Camera, n: nat): nat
  {
    if n == 0 then 0
    else ReadyPasses(camera, n - 1) + (if Ready(camera(n - 1)) then 1 else 0)
  }

  /** A sequence never yields more photos than it runs passes, and yields
      exactly one per ready pass. */
  lemma {:induction false} ShotsCount(camera: Camera, n: nat, filter: string)
    ensures |Shots(camera, n, filter)| == ReadyPasses(camera, n)
    ensures |Shots(camera, n, filter)| <= n
  {
    if n > 0 {
      ShotsCount(camera, n - 1, filter);
    }
  }

  /** If no pass ever sees a ready video the list stays empty. */
  lemma {:induction false} ShotsNoneReady(camera: Camera, n: nat, filter: string)
    requires forall i: nat :: i < n ==> !Ready(camera(i))
    ensures Shots(camera, n, filter) == []
  {
    if n > 0 {
      ShotsNoneReady(camera, n - 1, filter);
    }
  }

  /** If every pass sees a ready video there is one photo per pass, in pass
      order: photo `i` holds pass `i`'s frame. */
  lemma {:induction false} ShotsAllReady(camera: Camera, n: nat, filter: string)
    requires forall i: nat :: i < n ==> Ready(camera(i))
    ensures |Shots(camera, n, filter)| == n
    ensures forall i :: 0 <= i < n ==> Shots(camera, n, filter)[i] == Shoot(camera(i), filter)
  {
    if n > 0 {
      ShotsAllReady(camera, n - 1, filter);
    }
  }

  /** Every photo of a sequence carries the sequence's filter name and was
      drawn through that name's canvas filter. */
  lemma {:induction false} ShotsFilter(camera: Camera, n: nat, filter: string)
    ensures forall k :: 0 <= k < |Shots(camera, n, filter)| ==>
              Shots(camera, n, filter)[k].filter == filter &&
              Shots(camera, n, filter)[k].src.canvasFilter == Filters.CanvasFilter(filter)
  {
    if n > 0 {
      ShotsFilter(camera, n - 1, filter);
    }
  }

  /** The list only grows at its end: what the first `m` passes produced is
      a prefix of what any later pass count produces. */
  lemma {:induction false} ShotsGrowAtEnd(camera: Camera, m: nat, n: nat, filter: string)
    requires m <= n
    ensures Shots(camera, m, filter) <= Shots(camera, n, filter)
  {
    if m < n {
      ShotsGrowAtEnd(camera, m, n - 1, filter);
    }
  }
}
