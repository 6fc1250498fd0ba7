/**
 * Input coordinates across out-of-process iframes: the walk from a node id to the target that owns it,
 * and the composition of the rects met on the way. Coordinates are reals.
 */
module FramesModel {
  import opened Protocol

  datatype Point = Point(x: real, y: real)

  datatype Rect = Rect(x: real, y: real, w: real, h: real, visible: bool)

  datatype Bounds = Bounds(left: real, top: real, right: real, bottom: real)

  function MinR(a: real, b: real): real { if a <= b then a else b }

  function MaxR(a: real, b: real): real { if a <= b then b else a }

  function Clamp(v: real, lo: real, hi: real): real { MinR(hi, MaxR(lo, v)) }

  const IFRAME_EDGE_INSET_PX := 0.01

  // ---- Rects ----

  function BoundsForRect(r: Rect): Option<Bounds> {
    if r.w <= 0.0 || r.h <= 0.0 then None else Some(Bounds(r.x, r.y, r.x + r.w, r.y + r.h))
  }

  function TranslateBounds(b: Bounds, x: real, y: real): Bounds {
    Bounds(b.left + x, b.top + y, b.right + x, b.bottom + y)
  }

  function IntersectBounds(a: Bounds, b: Bounds): Option<Bounds> {
    var i := Bounds(MaxR(a.left, b.left), MaxR(a.top, b.top), MinR(a.right, b.right), MinR(a.bottom, b.bottom));
    if i.right > i.left && i.bottom > i.top then Some(i) else None
  }

  predicate Inside(b: Bounds, p: Point) {
    b.left < p.x < b.right && b.top < p.y < b.bottom
  }

  predicate InsideRect(r: Rect, p: Point) {
    r.x < p.x < r.x + r.w && r.y < p.y < r.y + r.h
  }

  /** The clip of a chain, outermost iframe first, in the coordinates of the outermost viewport. */
  function Clip(rects: seq<Rect>): Option<Bounds>
    requires rects != []
  {
    var own := BoundsForRect(rects[0]);
    if |rects| == 1 then own
    else
      var inner := Clip(rects[1..]);
      if inner.None? || own.None? then None
      else IntersectBounds(TranslateBounds(inner.value, rects[0].x, rects[0].y), own.value)
  }

  /** A point is inside the outermost iframe, and what is left of it there is inside the next one, and so on. */
  predicate InsideAll(rects: seq<Rect>, p: Point) {
    rects != [] ==> InsideRect(rects[0], p) && InsideAll(rects[1..], Point(p.x - rects[0].x, p.y - rects[0].y))
  }

  function SumX(rects: seq<Rect>): real {
    if rects == [] then 0.0 else rects[0].x + SumX(rects[1..])
  }

  function SumY(rects: seq<Rect>): real {
    if rects == [] then 0.0 else rects[0].y + SumY(rects[1..])
  }

  /** Iframe k, shifted by the offsets of all its ancestors. */
  function Shifted(rects: seq<Rect>, k: nat): Rect
    requires k < |rects|
  {
    rects[k].(x := rects[k].x + SumX(rects[..k]), y := rects[k].y + SumY(rects[..k]))
  }

  lemma ShiftedTail(rects: seq<Rect>, k: nat, p: Point)
    requires 0 < k < |rects|
    ensures InsideRect(Shifted(rects, k), p)
       <==> InsideRect(Shifted(rects[1..], k - 1), Point(p.x - rects[0].x, p.y - rects[0].y))
  {
    assert rects[..k][1..] == rects[1..][..k - 1];
  }

  /** The nested reading and the shifted one agree. */
  lemma {:induction false} InsideAllIffShifted(rects: seq<Rect>, p: Point)
    ensures InsideAll(rects, p) <==> forall k :: 0 <= k < |rects| ==> InsideRect(Shifted(rects, k), p)
    decreases |rects|
  {
    if rects != [] {
      var q := Point(p.x - rects[0].x, p.y - rects[0].y);
      InsideAllIffShifted(rects[1..], q);
      assert Shifted(rects, 0) == rects[0] by { assert rects[..0] == []; }
      forall k | 0 < k < |rects|
        ensures InsideRect(Shifted(rects, k), p) <==> InsideRect(Shifted(rects[1..], k - 1), q)
      {
        ShiftedTail(rects, k, p);
      }
      if forall k :: 0 <= k < |rects| ==> InsideRect(Shifted(rects, k), p) {
        forall j | 0 <= j < |rects[1..]|
          ensures InsideRect(Shifted(rects[1..], j), q)
        {
          assert InsideRect(Shifted(rects, j + 1), p);
        }
      }
    }
  }

  /** The clip is exactly the intersection of all the iframes. */
  lemma {:induction false} ClipIsIntersection(rects: seq<Rect>, p: Point)
    requires rects != []
    ensures (Clip(rects).Some? && Inside(Clip(rects).value, p)) <==> InsideAll(rects, p)
    decreases |rects|
  {
    if |rects| == 1 {
      assert InsideAll(rects[1..], Point(p.x - rects[0].x, p.y - rects[0].y));
    } else {
      ClipIsIntersection(rects[1..], Point(p.x - rects[0].x, p.y - rects[0].y));
    }
  }

  lemma {:induction false} ClipHasInterior(rects: seq<Rect>)
    requires rects != [] && Clip(rects).Some?
    ensures var c := Clip(rects).value; c.left < c.right && c.top < c.bottom
  {}

  /** There is a clip if and only if some point lies strictly inside every iframe. */
  lemma ClipExistsIff(rects: seq<Rect>)
    requires rects != []
    ensures Clip(rects).Some? <==> exists p :: InsideAll(rects, p)
  {
    if Clip(rects).Some? {
      ClipHasInterior(rects);
      var c := Clip(rects).value;
      var p := Point((c.left + c.right) / 2.0, (c.top + c.bottom) / 2.0);
      ClipIsIntersection(rects, p);
      assert InsideAll(rects, p);
    }
    if p :| InsideAll(rects, p) {
      ClipIsIntersection(rects, p);
    }
  }

  // ---- The dispatched point ----

  predicate AllVisible(rects: seq<Rect>) {
    forall k :: 0 <= k < |rects| ==> rects[k].visible
  }

  datatype Composed = Composed(rect: Rect, clip: Bounds) | Failed

  function Compose(child: Rect, hops: nat, rects: seq<Rect>): Composed {
    if hops == 0 || hops != |rects| || Clip(rects).None? then Failed
    else
      var moved := child.(x := child.x + SumX(rects), y := child.y + SumY(rects));
      var own := BoundsForRect(moved);
      Composed(moved.(visible := child.visible && AllVisible(rects)
                                 && own.Some? && IntersectBounds(own.value, Clip(rects).value).Some?),
               Clip(rects).value)
  }

  function ClampInto(v: real, lo: real, hi: real): real
    requires hi > lo
  {
    var inset := MinR(IFRAME_EDGE_INSET_PX, (hi - lo) / 2.0);
    Clamp(v, lo + inset, hi - inset)
  }

  /** Clamping lands strictly inside, and moves nothing that was already inside by the inset. */
  lemma ClampIntoInside(v: real, lo: real, hi: real)
    requires hi > lo
    ensures lo < ClampInto(v, lo, hi) < hi
    ensures lo + IFRAME_EDGE_INSET_PX <= v <= hi - IFRAME_EDGE_INSET_PX ==> ClampInto(v, lo, hi) == v
  {}

  /** The point sent to the browser before the viewport clamp. */
  function PointOf(c: Composed, rx: real, ry: real): Point
    requires c.Composed? && c.clip.left < c.clip.right && c.clip.top < c.clip.bottom
  {
    Point(ClampInto(c.rect.x + Clamp(rx, 0.0, 1.0) * c.rect.w, c.clip.left, c.clip.right),
          ClampInto(c.rect.y + Clamp(ry, 0.0, 1.0) * c.rect.h, c.clip.top, c.clip.bottom))
  }

  /** Whatever fractions the viewer sends, the point is strictly inside every iframe on the chain. */
  lemma PointInsideEveryIframe(child: Rect, rects: seq<Rect>, rx: real, ry: real, k: nat)
    requires k < |rects| && Compose(child, |rects|, rects).Composed?
    ensures var c := Compose(child, |rects|, rects);
      && c.clip.left < c.clip.right && c.clip.top < c.clip.bottom
      && InsideRect(Shifted(rects, k), PointOf(c, rx, ry))
  {
    ClipHasInterior(rects);
    var c := Compose(child, |rects|, rects);
    var p := PointOf(c, rx, ry);
    ClampIntoInside(c.rect.x + Clamp(rx, 0.0, 1.0) * c.rect.w, c.clip.left, c.clip.right);
    ClampIntoInside(c.rect.y + Clamp(ry, 0.0, 1.0) * c.rect.h, c.clip.top, c.clip.bottom);
    ClipIsIntersection(rects, p);
    InsideAllIffShifted(rects, p);
  }

  /** Composition fails exactly on a broken chain, or when no point is strictly inside every iframe. */
  lemma ComposeFailsIff(child: Rect, hops: nat, rects: seq<Rect>)
    ensures Compose(child, hops, rects).Failed? <==>
      hops == 0 || hops != |rects| || !exists p :: InsideAll(rects, p)
  {
    if hops != 0 && hops == |rects| { ClipExistsIff(rects); }
  }

  lemma OverlapIff(r: Rect, clip: Bounds, p: Point) returns (q: Point)
    requires clip.left < clip.right && clip.top < clip.bottom
    ensures BoundsForRect(r).Some? && IntersectBounds(BoundsForRect(r).value, clip).Some? ==>
      Inside(clip, q) && InsideRect(r, q)
    ensures Inside(clip, p) && InsideRect(r, p) ==>
      BoundsForRect(r).Some? && IntersectBounds(BoundsForRect(r).value, clip).Some?
  {
    q := p;
    if BoundsForRect(r).Some? && IntersectBounds(BoundsForRect(r).value, clip).Some? {
      var i := IntersectBounds(BoundsForRect(r).value, clip).value;
      q := Point((i.left + i.right) / 2.0, (i.top + i.bottom) / 2.0);
    }
  }

  ghost predicate SomePointShows(rects: seq<Rect>, moved: Rect) {
    exists p :: InsideAll(rects, p) && InsideRect(moved, p)
  }

  /** The node is reported visible exactly when all flags say so and some point is inside it and every iframe. */
  lemma VisibleIff(child: Rect, rects: seq<Rect>)
    requires Compose(child, |rects|, rects).Composed?
    ensures Compose(child, |rects|, rects).rect.visible <==>
      child.visible && AllVisible(rects)
      && SomePointShows(rects, child.(x := child.x + SumX(rects), y := child.y + SumY(rects)))
  {
    var moved := child.(x := child.x + SumX(rects), y := child.y + SumY(rects));
    var clip := Clip(rects).value;
    ClipHasInterior(rects);
    var q := OverlapIff(moved, clip, Point(0.0, 0.0));
    ClipIsIntersection(rects, q);
    if SomePointShows(rects, moved) {
      var p :| InsideAll(rects, p) && InsideRect(moved, p);
      ClipIsIntersection(rects, p);
      var _ := OverlapIff(moved, clip, p);
    }
  }

  // ---- The walk to the owning target ----

  type TargetId = string

  /** A node as one target names it. */
  datatype Place = Place(target: TargetId, id: int)

  /**
   * What asking about a place yields. A place is asked about once, so one answer per place is enough;
   * `Remote` has already been through the lookup of the child's target.
   */
  datatype Answer = Local | Remote(iframeNodeId: int, child: TargetId, remoteId: int) | Refused

  datatype Hop = Hop(target: TargetId, iframeNodeId: int, child: TargetId)

  datatype Resolved = Resolved(place: Place, hops: seq<Hop>) | Cycle | Error

  type Oracle = Place -> Answer

  function NextPlace(a: Answer): Place
    requires a.Remote?
  {
    Place(a.child, a.remoteId)
  }

  /** The n-th place of the walk, if it gets that far. */
  function Nth(answer: Oracle, start: Place, n: nat): Option<Place> {
    if n == 0 then Some(start)
    else
      var before := Nth(answer, start, n - 1);
      if before.None? || !answer(before.value).Remote? then None else Some(NextPlace(answer(before.value)))
  }

  ghost predicate HopsFollow(answer: Oracle, start: Place, hops: seq<Hop>) {
    forall i :: 0 <= i < |hops| ==>
      var at := Nth(answer, start, i);
      at.Some? && answer(at.value).Remote?
      && hops[i] == Hop(at.value.target, answer(at.value).iframeNodeId, answer(at.value).child)
  }

  /** From the tab outwards in: every hop starts at the target the one before it led to. */
  predicate Linked(tab: TargetId, hops: seq<Hop>, last: TargetId) {
    if hops == [] then tab == last
    else
      && hops[0].target == tab && hops[|hops| - 1].child == last
      && forall i :: 0 <= i < |hops| - 1 ==> hops[i].child == hops[i + 1].target
  }

  lemma HopsAreLinked(answer: Oracle, start: Place, hops: seq<Hop>, last: Place)
    requires HopsFollow(answer, start, hops) && Nth(answer, start, |hops|) == Some(last)
    ensures Linked(start.target, hops, last.target)
  {
    forall i | 0 <= i < |hops| - 1
      ensures hops[i].child == hops[i + 1].target
    {
      assert Nth(answer, start, i + 1) == Some(NextPlace(answer(Nth(answer, start, i).value)));
    }
    if hops != [] {
      var k := |hops| - 1;
      assert Nth(answer, start, k + 1) == Some(NextPlace(answer(Nth(answer, start, k).value)));
    }
  }

  lemma HopsFollowOne(answer: Oracle, start: Place, hops: seq<Hop>, at: Place)
    requires HopsFollow(answer, start, hops) && Nth(answer, start, |hops|) == Some(at) && answer(at).Remote?
    ensures HopsFollow(answer, start, hops + [Hop(at.target, answer(at).iframeNodeId, answer(at).child)])
    ensures Nth(answer, start, |hops| + 1) == Some(NextPlace(answer(at)))
  {}

  /** The places of the walk so far. */
  ghost predicate Trail(answer: Oracle, start: Place, trail: seq<Place>) {
    forall i :: 0 <= i < |trail| ==> Nth(answer, start, i) == Some(trail[i])
  }

  lemma BackOnTrail(answer: Oracle, start: Place, trail: seq<Place>, at: Place)
    requires Trail(answer, start, trail) && Nth(answer, start, |trail|) == Some(at) && at in trail
    ensures MeetsTwice(answer, start)
  {
    var i :| 0 <= i < |trail| && trail[i] == at;
    assert i < |trail| && Nth(answer, start, i) == Nth(answer, start, |trail|);
  }

  /** The walk meets some place a second time. */
  ghost predicate MeetsTwice(answer: Oracle, start: Place) {
    exists i: nat, j: nat :: i < j && Nth(answer, start, i).Some? && Nth(answer, start, i) == Nth(answer, start, j)
  }

  /** The walk runs into a place whose target cannot answer, or whose iframe has no attached target. */
  ghost predicate IsRefused(answer: Oracle, start: Place) {
    exists n: nat :: Nth(answer, start, n).Some? && answer(Nth(answer, start, n).value).Refused?
  }

  lemma {:induction false} Repeats(answer: Oracle, start: Place, i: nat, j: nat, n: nat)
    requires Nth(answer, start, i).Some? && Nth(answer, start, i) == Nth(answer, start, j)
    ensures Nth(answer, start, i + n) == Nth(answer, start, j + n)
  {
    if n > 0 { Repeats(answer, start, i, j, n - 1); }
  }

  /** A walk that meets a place twice never ends: it reaches neither the node's owner nor a refusal. */
  lemma {:induction false} CycleNeverEnds(answer: Oracle, start: Place, i: nat, j: nat, n: nat)
    requires i < j && Nth(answer, start, i).Some? && Nth(answer, start, i) == Nth(answer, start, j)
    ensures Nth(answer, start, n).Some?
    ensures answer(Nth(answer, start, n).value).Remote?
  {
    Prefixes(answer, start, n, j);
    if n < j {
      Prefixes(answer, start, n + 1, j);
    } else {
      Repeats(answer, start, i, j, n - j);
      CycleNeverEnds(answer, start, i, j, i + (n - j));
    }
  }

  lemma {:induction false} Prefixes(answer: Oracle, start: Place, n: nat, m: nat)
    ensures n <= m && Nth(answer, start, m).Some? ==> Nth(answer, start, n).Some?
  {
    if n < m { Prefixes(answer, start, n, m - 1); }
  }
}

module Frames {
  import opened Protocol
  import opened FramesModel

  method ComposeRemoteRect(childRect: Rect, frameHops: nat, iframeRects: seq<Rect>) returns (r: Composed)
    ensures r == Compose(childRect, frameHops, iframeRects)
  {
    if frameHops == 0 || frameHops != |iframeRects| { return Failed; }
    var x, y := childRect.x, childRect.y;
    var iframeClip: Option<Bounds> := None;
    var visible := childRect.visible && childRect.w > 0.0 && childRect.h > 0.0;
    var index := |iframeRects|;
    while index > 0
      invariant 0 <= index <= |iframeRects|
      invariant x == childRect.x + SumX(iframeRects[index..]) && y == childRect.y + SumY(iframeRects[index..])
      invariant index < |iframeRects| ==> iframeClip.Some? && Clip(iframeRects[index..]) == iframeClip
      invariant index == |iframeRects| ==> iframeClip.None?
      invariant visible <==> childRect.visible && childRect.w > 0.0 && childRect.h > 0.0 && AllVisible(iframeRects[index..])
    {
      index := index - 1;
      var rect := iframeRects[index];
      var rest := iframeRects[index..];
      assert rest[0] == rect && rest[1..] == iframeRects[index + 1..];
      x, y := x + rect.x, y + rect.y;
      if iframeClip.Some? { iframeClip := Some(TranslateBounds(iframeClip.value, rect.x, rect.y)); }
      var bounds := BoundsForRect(rect);
      if bounds.None? {
        ClipNeedsTail(iframeRects, index);
        return Failed;
      }
      iframeClip := if iframeClip.None? then bounds else IntersectBounds(iframeClip.value, bounds.value);
      if iframeClip.None? {
        ClipNeedsTail(iframeRects, index);
        return Failed;
      }
      visible := visible && rect.visible;
    }
    assert iframeRects[0..] == iframeRects;
    var rect := childRect.(x := x, y := y);
    var own := BoundsForRect(rect);
    visible := visible && own.Some? && IntersectBounds(own.value, iframeClip.value).Some?;
    return Composed(rect.(visible := visible), iframeClip.value);
  }

  lemma {:induction false} ClipNeedsTail(rects: seq<Rect>, i: nat)
    requires i < |rects| && Clip(rects[i..]).None?
    ensures Clip(rects).None?
    decreases i
  {
    if i == 0 {
      assert rects[0..] == rects;
    } else {
      assert rects[i - 1..][1..] == rects[i..];
      ClipNeedsTail(rects, i - 1);
    }
  }

  /**
   * Follow a node id through attached iframes. `places` is a finite set that the walk cannot leave; the
   * set of visited places is what makes the loop end.
   */
  method ResolveNode(answer: Oracle, tab: TargetId, nodeId: int, ghost places: set<Place>) returns (r: Resolved)
    requires Place(tab, nodeId) in places
    requires forall p :: p in places && answer(p).Remote? ==> NextPlace(answer(p)) in places
    ensures r.Resolved? ==>
      && Nth(answer, Place(tab, nodeId), |r.hops|) == Some(r.place) && answer(r.place).Local?
      && HopsFollow(answer, Place(tab, nodeId), r.hops) && Linked(tab, r.hops, r.place.target)
    ensures r.Cycle? ==> MeetsTwice(answer, Place(tab, nodeId))
    ensures r.Error? ==> IsRefused(answer, Place(tab, nodeId))
  {
    var start := Place(tab, nodeId);
    var at := start;
    var hops: seq<Hop> := [];
    var visited: set<Place> := {};
    ghost var trail: seq<Place> := [];
    while true
      invariant at in places && visited <= places
      invariant Nth(answer, start, |hops|) == Some(at) && HopsFollow(answer, start, hops)
      invariant |trail| == |hops| && Trail(answer, start, trail) && forall p :: p in visited <==> p in trail
      decreases places - visited
    {
      if at in visited {
        BackOnTrail(answer, start, trail, at);
        return Cycle;
      }
      visited := visited + {at};
      trail := trail + [at];
      var a := answer(at);
      match a
      case Refused => return Error;
      case Local =>
        HopsAreLinked(answer, start, hops, at);
        return Resolved(at, hops);
      case Remote(iframeNodeId, child, remoteId) =>
        HopsFollowOne(answer, start, hops, at);
        hops := hops + [Hop(at.target, iframeNodeId, child)];
        at := Place(child, remoteId);
    }
  }
}
