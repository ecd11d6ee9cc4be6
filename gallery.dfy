/**
 * The art gallery's expanded view: a fixed list of images, the index of
 * the one shown, and circular next/prev navigation.
 */
module Gallery {

  /** The images of the gallery, in frame order. */
  const GalleryImages: seq<string> := [
    "assets/BBQ.webp",
    "assets/Chapli Kabab.webp",
    "assets/Chicken.webp",
    "assets/Lamb.webp",
    "assets/Mutton.webp",
    "assets/Platter.webp",
    "assets/Pulao.webp",
    "assets/Meetha.webp",
    "assets/Sides.webp",
    "assets/Beverages.webp"
  ]

  datatype Direction = Next | Prev

  /**
   * JavaScript's `%` for a positive divisor: the remainder takes the sign of
   * the dividend and is smaller than the divisor in magnitude; a dividend
   * below the divisor is its own remainder, one in [b, 2b) loses one b.
   */
  function JsRem(a: int, b: int): (r: int)
    requires b > 0
    ensures a >= 0 ==> 0 <= r < b
    ensures a < 0 ==> -b < r <= 0
    ensures 0 <= a < b ==> r == a
    ensures b <= a < 2 * b ==> r == a - b
  {
    if a >= 0 then
      SmallRemainders(a, b);
      a % b
    else -((-a) % b)
  }

  lemma SmallRemainders(a: int, b: int)
    requires 0 <= a && 0 < b
    ensures 0 <= a < b ==> a % b == a
    ensures b <= a < 2 * b ==> a % b == a - b
  {
    if b <= a < 2 * b {
      assert a / b == 1;
    }
  }

  /**
   * One navigation step of `changeImage` over `m` images: "next" adds one
   * and wraps from the last image to the first, "prev" subtracts one and
   * wraps from the first image to the last.
   */
  function Step(i: int, dir: Direction, m: int): (r: int)
    requires 0 <= i < m
    ensures 0 <= r < m
    ensures dir == Next ==> r == if i == m - 1 then 0 else i + 1
    ensures dir == Prev ==> r == if i == 0 then m - 1 else i - 1
  {
    match dir
    case Next => JsRem(i + 1, m)
    case Prev => JsRem(i - 1 + m, m)
  }

  /** `k` steps in the same direction. */
  function Steps(i: int, dir: Direction, k: nat, m: int): (r: int)
    requires 0 <= i < m
    ensures 0 <= r < m
  {
    if k == 0 then i else Step(Steps(i, dir, k - 1, m), dir, m)
  }

  /** "next" undoes "prev" and "prev" undoes "next". */
  lemma StepsCancel(i: int, m: int)
    requires 0 <= i < m
    ensures Step(Step(i, Next, m), Prev, m) == i
    ensures Step(Step(i, Prev, m), Next, m) == i
  {
  }

  /** Steps in one direction compose: `a` steps then `b` steps are `a + b` steps. */
  lemma {:induction false} StepsCompose(i: int, dir: Direction, a: nat, b: nat, m: int)
    requires 0 <= i < m
    ensures Steps(Steps(i, dir, a, m), dir, b, m) == Steps(i, dir, a + b, m)
  {
    if b > 0 {
      StepsCompose(i, dir, a, b - 1, m);
      var j := Steps(i, dir, a, m);
      assert Steps(j, dir, b, m) == Step(Steps(j, dir, b - 1, m), dir, m);
      assert Steps(i, dir, a + b, m) == Step(Steps(i, dir, a + b - 1, m), dir, m);
    }
  }

  /** Before wrapping, `k` "next" steps add `k`. */
  lemma {:induction false} NextStepsAdd(i: int, k: nat, m: int)
    requires 0 <= i && i + k < m
    ensures Steps(i, Next, k, m) == i + k
  {
    if k > 0 {
      NextStepsAdd(i, k - 1, m);
    }
  }

  /** Before wrapping, `k` "prev" steps subtract `k`. */
  lemma {:induction false} PrevStepsSubtract(i: int, k: nat, m: int)
    requires k <= i < m
    ensures Steps(i, Prev, k, m) == i - k
  {
    if k > 0 {
      PrevStepsSubtract(i, k - 1, m);
    }
  }

  /** Navigating as many times as there are images, in one direction, comes back to the start. */
  lemma FullCycle(i: int, dir: Direction, m: int)
    requires 0 <= i < m
    ensures Steps(i, dir, m, m) == i
  {
    if dir == Next {
      FullCycleNext(i, m);
    } else {
      FullCyclePrev(i, m);
    }
  }

  /** From image `i`, `m - i` "next" steps wrap around to the first image. */
  lemma {:induction false} NextWraps(i: int, m: int)
    requires 0 <= i < m
    ensures Steps(i, Next, m - i, m) == 0
  {
    NextStepsAdd(i, m - 1 - i, m);
    StepsCompose(i, Next, m - 1 - i, 1, m);
    assert Steps(m - 1, Next, 1, m) == Step(m - 1, Next, m) == 0;
  }

  /** From image `i`, `i + 1` "prev" steps wrap around to the last image. */
  lemma {:induction false} PrevWraps(i: int, m: int)
    requires 0 <= i < m
    ensures Steps(i, Prev, i + 1, m) == m - 1
  {
    PrevStepsSubtract(i, i, m);
    StepsCompose(i, Prev, i, 1, m);
    assert Steps(0, Prev, 1, m) == Step(0, Prev, m) == m - 1;
  }

  lemma {:induction false} FullCycleNext(i: int, m: int)
    requires 0 <= i < m
    ensures Steps(i, Next, m, m) == i
  {
    NextWraps(i, m);
    NextStepsAdd(0, i, m);
    StepsCompose(i, Next, m - i, i, m);
  }

  lemma {:induction false} FullCyclePrev(i: int, m: int)
    requires 0 <= i < m
    ensures Steps(i, Prev, m, m) == i
  {
    PrevWraps(i, m);
    PrevStepsSubtract(m - 1, m - 1 - i, m);
    StepsCompose(i, Prev, i + 1, m - 1 - i, m);
  }

  /**
   * The swipe gesture on the expanded view: a move of more than 50 pixels
   * to the left goes to the next image, more than 50 to the right to the previous one.
   */
  function SwipeSteps(startX: int, endX: int): (r: seq<Direction>)
    ensures |r| <= 1
    ensures r == [Next] <==> endX < startX - 50
    ensures r == [Prev] <==> endX > startX + 50
  {
    if endX < startX - 50 then [Next]
    else if endX > startX + 50 then [Prev]
    else []
  }

  class GalleryView {
    /** Index of the image the expanded view shows. */
    var currentIndex: int
    /** The `src` of the expanded image. */
    var shownSrc: string
    /** Whether the expanded view carries the `hidden` class. */
    var expandedHidden: bool
    /**
     * The directions of `changeImage` calls whose 300 ms timer has not fired
     * yet. All of them have the same delay, so they fire in call order.
     */
    var pending: seq<Direction>

    ghost predicate Valid()
      reads this
    {
      0 <= currentIndex < |GalleryImages|
    }

    constructor (src: string, hidden: bool)
      ensures Valid()
      ensures currentIndex == 0 && shownSrc == src && expandedHidden == hidden && pending == []
    {
      currentIndex := 0;
      shownSrc := src;
      expandedHidden := hidden;
      pending := [];
    }

    /** Clicking frame `index`: show that image in the expanded view. */
    method ExpandFrame(index: int)
      requires Valid() && 0 <= index < |GalleryImages|
      modifies this
      ensures Valid()
      ensures currentIndex == index && shownSrc == GalleryImages[index] && !expandedHidden
      ensures pending == old(pending)
    {
      currentIndex := index;
      shownSrc := GalleryImages[currentIndex];
      expandedHidden := false;
    }

    /** `changeImage(direction)`: fade the image out and schedule the switch. */
    method ChangeImage(dir: Direction)
      requires Valid()
      modifies this
      ensures Valid()
      ensures pending == old(pending) + [dir]
      ensures currentIndex == old(currentIndex) && shownSrc == old(shownSrc)
      ensures expandedHidden == old(expandedHidden)
    {
      pending := pending + [dir];
    }

    /** The oldest pending 300 ms timer fires: step the index and show that image. */
    method ChangeImageTimerFired()
      requires Valid() && pending != []
      modifies this
      ensures Valid()
      ensures pending == old(pending)[1..]
      ensures currentIndex == Step(old(currentIndex), old(pending)[0], |GalleryImages|)
      ensures shownSrc == GalleryImages[currentIndex]
      ensures expandedHidden == old(expandedHidden)
    {
      var dir := pending[0];
      pending := pending[1..];
      if dir == Next {
        currentIndex := JsRem(currentIndex + 1, |GalleryImages|);
      } else {
        currentIndex := JsRem(currentIndex - 1 + |GalleryImages|, |GalleryImages|);
      }
      shownSrc := GalleryImages[currentIndex];
    }

    /** Back to the frame grid: hide the expanded view. */
    method BackToGrid()
      requires Valid()
      modifies this
      ensures Valid()
      ensures expandedHidden
      ensures currentIndex == old(currentIndex) && shownSrc == old(shownSrc) && pending == old(pending)
    {
      expandedHidden := true;
    }

    /** A finished swipe on the expanded view. */
    method HandleSwipe(startX: int, endX: int)
      requires Valid()
      modifies this
      ensures Valid()
      ensures pending == old(pending) + SwipeSteps(startX, endX)
      ensures currentIndex == old(currentIndex) && shownSrc == old(shownSrc)
      ensures expandedHidden == old(expandedHidden)
    {
      if endX < startX - 50 {
        ChangeImage(Next);
      }
      if endX > startX + 50 {
        ChangeImage(Prev);
      }
    }
  }

  /** Three images: opening the first and going back once shows the last. */
  lemma ThreeImagePrev()
    ensures Step(0, Prev, 3) == 2
  {
  }
}
