/** The image viewer shared by the product modal of the catalogue list and
    the product detail page: wrap-around next/previous over a gallery of
    `n` images, zoom, mouse panning while zoomed and horizontal swipes. The
    two components carry identical copies of these handlers. */
module GalleryViewer {
  import opened Wrappers

  /** `(i + 1) % n`. */
  function Next(i: nat, n: nat): (r: nat)
    requires n > 0
    ensures r < n
    ensures i + 1 < n ==> r == i + 1
    ensures i + 1 == n ==> r == 0
  {
    (i + 1) % n
  }

  /** `i === 0 ? n - 1 : i - 1`. */
  function Prev(i: nat, n: nat): (r: nat)
    requires n > 0
    ensures i < n ==> r < n
    ensures i == 0 ==> r == n - 1
    ensures 0 < i ==> r == i - 1
  {
    if i == 0 then n - 1 else i - 1
  }

  /** Next and Prev undo each other on every valid index. */
  lemma PrevNext(i: nat, n: nat)
    requires i < n
    ensures Prev(Next(i, n), n) == i
    ensures Next(Prev(i, n), n) == i
  {
  }

  /** `k` presses of the next button. */
  function Advance(i: nat, n: nat, k: nat): (r: nat)
    requires n > 0
    ensures r < n
  {
    if k == 0 then i % n else Next(Advance(i, n, k - 1), n)
  }

  /** Pressing next `k` times moves `k` places round the gallery, so `n`
      presses come back to the start. */
  lemma {:induction false} AdvanceIsModular(i: nat, n: nat, k: nat)
    requires i < n
    ensures Advance(i, n, k) == (i + k) % n
  {
    if k > 0 {
      AdvanceIsModular(i, n, k - 1);
      var j := (i + k - 1) % n;
      assert Advance(i, n, k) == (j + 1) % n;
      ModSucc(i + k - 1, n);
    }
  }

  lemma MulAtLeast(d: int, n: nat)
    requires d >= 1
    ensures d * n >= n
  {
    if d > 1 {
      MulAtLeast(d - 1, n);
      assert d * n == (d - 1) * n + n;
    }
  }

  /** Euclidean division has only one remainder. */
  lemma ModUnique(x: nat, q: int, r: int, n: nat)
    requires n > 0 && 0 <= r < n && x == q * n + r
    ensures x % n == r
  {
    var q2, r2 := x / n, x % n;
    assert x == q2 * n + r2;
    if q > q2 {
      MulAtLeast(q - q2, n);
      assert false;
    } else if q < q2 {
      MulAtLeast(q2 - q, n);
      assert false;
    }
  }

  lemma ModSucc(a: nat, n: nat)
    requires n > 0
    ensures (a % n + 1) % n == (a + 1) % n
  {
    var q := a / n;
    assert a == q * n + a % n;
    if a % n + 1 < n {
      ModUnique(a % n + 1, 0, a % n + 1, n);
      ModUnique(a + 1, q, a % n + 1, n);
    } else {
      ModUnique(a % n + 1, 1, 0, n);
      assert a + 1 == (q + 1) * n + 0;
      ModUnique(a + 1, q + 1, 0, n);
    }
  }

  lemma FullCircle(i: nat, n: nat)
    requires i < n
    ensures Advance(i, n, n) == i
  {
    AdvanceIsModular(i, n, n);
    ModUnique(i + n, 1, i, n);
  }

  const SwipeThreshold := 50

  datatype Swipe = SwipePrev | SwipeNext | NoSwipe

  /** The reaction to a horizontal touch movement of `delta` pixels. */
  function SwipeOf(delta: int): (s: Swipe)
    ensures s == SwipePrev <==> delta > SwipeThreshold
    ensures s == SwipeNext <==> delta < -SwipeThreshold
    ensures s == NoSwipe <==> -SwipeThreshold <= delta <= SwipeThreshold
  {
    if delta > SwipeThreshold then SwipePrev
    else if delta < -SwipeThreshold then SwipeNext
    else NoSwipe
  }

  /** The image a swipe of `delta` pixels leads to: the previous one, the
      next one, or the same. */
  function SwipeTarget(i: nat, n: nat, delta: int): nat
    requires n > 0
  {
    match SwipeOf(delta)
    case SwipePrev => Prev(i, n)
    case SwipeNext => Next(i, n)
    case NoSwipe => i
  }

  datatype Point = Point(x: int, y: int)

  const Origin := Point(0, 0)

  /** The drag origin recorded on mouse-down: the cursor minus the current
      image offset. */
  function GrabOffset(cursor: Point, pos: Point): Point {
    Point(cursor.x - pos.x, cursor.y - pos.y)
  }

  /** The image offset while dragging. */
  function DragTo(start: Point, cursor: Point): Point {
    Point(cursor.x - start.x, cursor.y - start.y)
  }

  /** A drag moves the image by exactly the cursor's displacement since
      mouse-down; in particular it does not jump when grabbed. */
  lemma DragFollowsCursor(pos: Point, down: Point, now: Point)
    ensures DragTo(GrabOffset(down, pos), now) == Point(pos.x + (now.x - down.x), pos.y + (now.y - down.y))
    ensures DragTo(GrabOffset(down, pos), down) == pos
  {
  }

  class Viewer {
    var index: nat
    var zoomed: bool
    var dragging: bool
    var dragStart: Point
    var pos: Point
    var touchStart: Option<int>

    /** The index addresses an image of a gallery of `n` images. */
    predicate Valid(n: nat)
      reads this
    {
      index < n
    }

    constructor ()
      ensures index == 0 && !zoomed && !dragging
      ensures dragStart == Origin && pos == Origin && touchStart == None
    {
      index := 0;
      zoomed := false;
      dragging := false;
      dragStart := Origin;
      pos := Origin;
      touchStart := None;
    }

    /** What opening or closing the modal and choosing a colour do: first
        image, zoom off, offset cleared. */
    method Reset()
      modifies this
      ensures index == 0 && !zoomed && pos == Origin
      ensures dragging == old(dragging) && dragStart == old(dragStart) && touchStart == old(touchStart)
      ensures Valid(1)
    {
      index := 0;
      zoomed := false;
      pos := Origin;
    }

    method NextImage(n: nat)
      requires n > 0
      modifies this
      ensures index == Next(old(index), n) && pos == Origin
      ensures zoomed == old(zoomed) && dragging == old(dragging)
      ensures dragStart == old(dragStart) && touchStart == old(touchStart)
      ensures Valid(n)
    {
      index := Next(index, n);
      pos := Origin;
    }

    method PrevImage(n: nat)
      requires n > 0
      modifies this
      ensures index == Prev(old(index), n) && pos == Origin
      ensures zoomed == old(zoomed) && dragging == old(dragging)
      ensures dragStart == old(dragStart) && touchStart == old(touchStart)
      ensures old(Valid(n)) ==> Valid(n)
    {
      index := Prev(index, n);
      pos := Origin;
    }

    /** Zoom flips; zooming out also clears the offset. */
    method ToggleZoom()
      modifies this
      ensures zoomed == !old(zoomed)
      ensures pos == if old(zoomed) then Origin else old(pos)
      ensures index == old(index) && dragging == old(dragging)
      ensures dragStart == old(dragStart) && touchStart == old(touchStart)
    {
      if zoomed {
        pos := Origin;
      }
      zoomed := !zoomed;
    }

    /** Mouse-down starts a drag, but only while zoomed. */
    method MouseDown(cursor: Point)
      modifies this
      ensures old(zoomed) ==> dragging && dragStart == GrabOffset(cursor, old(pos))
      ensures !old(zoomed) ==> dragging == old(dragging) && dragStart == old(dragStart)
      ensures index == old(index) && zoomed == old(zoomed) && pos == old(pos) && touchStart == old(touchStart)
    {
      if !zoomed {
        return;
      }
      dragging := true;
      dragStart := GrabOffset(cursor, pos);
    }

    /** A mouse move pans the image only while zoomed and dragging. */
    method MouseMove(cursor: Point)
      modifies this
      ensures pos == if old(zoomed) && old(dragging) then DragTo(old(dragStart), cursor) else old(pos)
      ensures index == old(index) && zoomed == old(zoomed) && dragging == old(dragging)
      ensures dragStart == old(dragStart) && touchStart == old(touchStart)
    {
      if !zoomed || !dragging {
        return;
      }
      pos := DragTo(dragStart, cursor);
    }

    method MouseUp()
      modifies this
      ensures !dragging
      ensures index == old(index) && zoomed == old(zoomed) && pos == old(pos)
      ensures dragStart == old(dragStart) && touchStart == old(touchStart)
    {
      dragging := false;
    }

    /** A touch is remembered only while not zoomed. */
    method TouchStart(x: int)
      modifies this
      ensures touchStart == if old(zoomed) then old(touchStart) else Some(x)
      ensures index == old(index) && zoomed == old(zoomed) && pos == old(pos)
      ensures dragging == old(dragging) && dragStart == old(dragStart)
    {
      if zoomed {
        return;
      }
      touchStart := Some(x);
    }

    /** The end of a touch: ignored while zoomed or with no touch start;
        otherwise a swipe right of more than 50 pixels shows the previous
        image, a swipe left of more than 50 the next, and the touch start is
        forgotten. */
    method TouchEnd(x: int, n: nat)
      requires n > 0
      modifies this
      ensures old(zoomed) || old(touchStart).None? ==>
        index == old(index) && pos == old(pos) && touchStart == old(touchStart)
      ensures !old(zoomed) && old(touchStart).Some? ==>
        touchStart == None &&
        index == SwipeTarget(old(index), n, x - old(touchStart).value) &&
        pos == (if SwipeOf(x - old(touchStart).value) == NoSwipe then old(pos) else Origin)
      ensures zoomed == old(zoomed) && dragging == old(dragging) && dragStart == old(dragStart)
      ensures old(Valid(n)) ==> Valid(n)
    {
      if zoomed || touchStart.None? {
        return;
      }
      var swipe := SwipeOf(x - touchStart.value);
      if swipe == SwipePrev {
        PrevImage(n);
      } else if swipe == SwipeNext {
        NextImage(n);
      }
      touchStart := None;
    }
  }
}
