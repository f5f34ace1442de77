/**
 * Direct manipulation of text overlays on the preview canvas: picking the
 * overlay under the pointer, hover feedback, and dragging with clamping to
 * the safe area and optional snapping to a 10% grid.  Pointer positions are
 * fractions of the canvas's width and height.
 */
module OverlayEditor {
  import opened Wrappers
  import opened Numeric
  import opened Types

  /** Overlays within this distance of the pointer can be grabbed. */
  const HitRadius: real := 0.15

  /** Dragged positions stay within [SafeMin, SafeMax] on each axis. */
  const SafeMin: real := 0.05
  const SafeMax: real := 0.95

  const GridSize: real := 0.1
  const SnapThreshold: real := 0.05

  /**
   * The squared distance from the pointer to an overlay's anchor.  Comparing
   * squared distances orders overlays exactly as comparing distances does.
   */
  function DistSq(o: VideoOverlay, x: real, y: real): (d: real)
    ensures d >= 0.0
  {
    Square(x - o.x) + Square(y - o.y)
  }

  function Square(v: real): (s: real)
    ensures s >= 0.0
  {
    v * v
  }

  /** `dist < 0.15` for a visible overlay, with the distance squared on both sides. */
  predicate IsHit(o: VideoOverlay, x: real, y: real) {
    o.visible && DistSq(o, x, y) < HitRadius * HitRadius
  }

  /** Overlay `i` is what the stable sort puts first: a hit, no farther than any other hit, nearer than any earlier one. */
  predicate BestHit(os: seq<VideoOverlay>, x: real, y: real, i: nat) {
    && i < |os|
    && IsHit(os[i], x, y)
    && (forall j :: 0 <= j < |os| && IsHit(os[j], x, y) ==> DistSq(os[i], x, y) <= DistSq(os[j], x, y))
    && (forall j :: 0 <= j < i && IsHit(os[j], x, y) ==> DistSq(os[j], x, y) > DistSq(os[i], x, y))
  }

  /** At most one overlay is the best hit. */
  lemma BestHitUnique(os: seq<VideoOverlay>, x: real, y: real, i: nat, j: nat)
    requires BestHit(os, x, y, i) && BestHit(os, x, y, j)
    ensures i == j
  {
  }

  /**
   * The hit test of `handlePreviewPointerDown`: filter the visible overlays
   * within reach and take the first after a stable sort by distance.
   */
  method HitTest(os: seq<VideoOverlay>, x: real, y: real) returns (hit: Option<nat>)
    ensures hit.None? <==> forall j :: 0 <= j < |os| ==> !IsHit(os[j], x, y)
    ensures hit.Some? ==> BestHit(os, x, y, hit.value)
  {
    hit := None;
    var k := 0;
    while k < |os|
      invariant 0 <= k <= |os|
      invariant hit.None? <==> forall j :: 0 <= j < k ==> !IsHit(os[j], x, y)
      invariant hit.Some? ==> hit.value < k && IsHit(os[hit.value], x, y)
      invariant hit.Some? ==> forall j :: 0 <= j < k && IsHit(os[j], x, y) ==>
        DistSq(os[hit.value], x, y) <= DistSq(os[j], x, y)
      invariant hit.Some? ==> forall j :: 0 <= j < hit.value && IsHit(os[j], x, y) ==>
        DistSq(os[j], x, y) > DistSq(os[hit.value], x, y)
    {
      if IsHit(os[k], x, y) && (hit.None? || DistSq(os[k], x, y) < DistSq(os[hit.value], x, y)) {
        hit := Some(k);
      }
      k := k + 1;
    }
  }

  /** `draggingOverlayRef.current` as a condition: an empty id counts as not dragging. */
  predicate Dragging(dragging: Option<string>) {
    dragging.Some? && dragging.value != ""
  }

  /** Pointer down: grab the best hit, or keep whatever was being dragged before. */
  method PointerDown(os: seq<VideoOverlay>, x: real, y: real, dragging: Option<string>) returns (next: Option<string>)
    ensures (forall j :: 0 <= j < |os| ==> !IsHit(os[j], x, y)) ==> next == dragging
    ensures (exists j :: 0 <= j < |os| && IsHit(os[j], x, y)) ==>
      exists i :: 0 <= i < |os| && BestHit(os, x, y, i) && next == Some(os[i].id)
  {
    var hit := HitTest(os, x, y);
    if hit.Some? {
      next := Some(os[hit.value].id);
    } else {
      next := dragging;
    }
  }

  /** `Math.max(0.05, Math.min(0.95, raw))`. */
  function ClampSafe(raw: real): (v: real)
    ensures SafeMin <= v <= SafeMax
    ensures SafeMin <= raw <= SafeMax ==> v == raw
  {
    Max(SafeMin, Min(SafeMax, raw))
  }

  /** The grid line nearest to `v`: `Math.round(v / 0.1) * 0.1`. */
  function NearestGrid(v: real): (g: real)
    ensures Abs(v - g) <= SnapThreshold
  {
    JsRound(v / GridSize) as real * GridSize
  }

  /** Snap a coordinate to the nearest grid line when it is strictly within the threshold. */
  function Snap(v: real): (s: real)
    ensures Abs(s - v) <= SnapThreshold
    ensures s == v || s == NearestGrid(v)
  {
    var n := NearestGrid(v);
    if Abs(v - n) < SnapThreshold then n else v
  }

  /**
   * Snapping moves a coordinate onto a grid line unless it lies exactly
   * halfway between two lines, where it stays.
   */
  lemma SnapOutcome(v: real)
    ensures Snap(v) == NearestGrid(v) || v == NearestGrid(v) - SnapThreshold
  {
  }

  /** Snapping a clamped coordinate keeps it inside the safe area. */
  lemma SnapStaysSafe(v: real)
    requires SafeMin <= v <= SafeMax
    ensures SafeMin <= Snap(v) <= SafeMax
  {
  }

  /** The position an overlay is dragged to. */
  function DragTarget(rawX: real, rawY: real, snap: bool): (p: (real, real))
    ensures SafeMin <= p.0 <= SafeMax && SafeMin <= p.1 <= SafeMax
  {
    var x := ClampSafe(rawX);
    var y := ClampSafe(rawY);
    SnapStaysSafe(x);
    SnapStaysSafe(y);
    if snap then (Snap(x), Snap(y)) else (x, y)
  }

  /** Moves every overlay with the given id; all others are returned as they are. */
  function MoveById(os: seq<VideoOverlay>, id: string, x: real, y: real): (r: seq<VideoOverlay>)
    ensures |r| == |os|
    ensures forall i :: 0 <= i < |os| ==> r[i] == if os[i].id == id then os[i].(x := x, y := y) else os[i]
  {
    seq(|os|, i requires 0 <= i < |os| => if os[i].id == id then os[i].(x := x, y := y) else os[i])
  }

  /** Pointer move: hover feedback when nothing is dragged, otherwise the drag. */
  datatype MoveEffect = Cursor(move: bool) | Moved(overlays: seq<VideoOverlay>)

  function PointerMove(s: VideoSettings, dragging: Option<string>, rawX: real, rawY: real): (e: MoveEffect)
    ensures !Dragging(dragging) ==> e.Cursor? && (e.move <==> exists j :: 0 <= j < |s.overlays| && IsHit(s.overlays[j], rawX, rawY))
    ensures Dragging(dragging) ==> e.Moved? && |e.overlays| == |s.overlays|
  {
    if !Dragging(dragging) then
      Cursor(exists j :: 0 <= j < |s.overlays| && IsHit(s.overlays[j], rawX, rawY))
    else
      var p := DragTarget(rawX, rawY, s.snapToGrid);
      Moved(MoveById(s.overlays, dragging.value, p.0, p.1))
  }

  /**
   * A drag moves only the dragged overlay, only its position, and leaves it
   * anchored inside the safe area; every other overlay is untouched.
   */
  lemma DragMovesOnlyTarget(s: VideoSettings, id: string, rawX: real, rawY: real, i: nat)
    requires id != "" && i < |s.overlays|
    ensures var e := PointerMove(s, Some(id), rawX, rawY);
      && (s.overlays[i].id != id ==> e.overlays[i] == s.overlays[i])
      && (s.overlays[i].id == id ==>
           && e.overlays[i] == s.overlays[i].(x := e.overlays[i].x, y := e.overlays[i].y)
           && SafeMin <= e.overlays[i].x <= SafeMax && SafeMin <= e.overlays[i].y <= SafeMax
           && Normalised(e.overlays[i]))
  {
  }

  /** Dragging again to the same pointer position changes nothing more. */
  lemma DragIdempotent(os: seq<VideoOverlay>, id: string, x: real, y: real)
    ensures MoveById(MoveById(os, id, x, y), id, x, y) == MoveById(os, id, x, y)
  {
  }

  /** Pointer up ends any drag. */
  function PointerUp(dragging: Option<string>): (next: Option<string>)
    ensures !Dragging(next)
  {
    None
  }
}
