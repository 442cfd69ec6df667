/**
 * The photo gallery of a listing: a current image moved cyclically by the
 * previous and next buttons, a thumbnail strip whose offset follows the
 * current image, and the "more images" badge.
 */
module ImageSlider {
  import opened Wrappers

  /** `handleNext`: from the last index back to 0, otherwise one on. */
  function NextIndex(i: int, n: int): (r: int)
    ensures 0 <= i < n ==> 0 <= r < n && r == (i + 1) % n
  {
    if i == n - 1 then 0 else i + 1
  }

  /** `handlePrev`: from 0 to the last index, otherwise one back. */
  function PrevIndex(i: int, n: int): (r: int)
    ensures 0 <= i < n ==> 0 <= r < n && r == (i - 1 + n) % n
  {
    if i == 0 then n - 1 else i - 1
  }

  /** Next then previous, or previous then next, returns to the same image. */
  lemma PrevUndoesNext(i: int, n: int)
    requires 0 <= i < n
    ensures PrevIndex(NextIndex(i, n), n) == i
    ensures NextIndex(PrevIndex(i, n), n) == i
  {
  }

  /** The index after `k` presses of next. */
  function NextTimes(i: int, n: int, k: nat): int
    decreases k
  {
    if k == 0 then i else NextIndex(NextTimes(i, n, k - 1), n)
  }

  /** `k` presses of next move the index `k` places around the circle. */
  lemma {:induction false} NextTimesIsModular(i: int, n: int, k: nat)
    requires 0 <= i < n
    ensures NextTimes(i, n, k) == (i + k) % n
    decreases k
  {
    if k > 0 {
      NextTimesIsModular(i, n, k - 1);
      var j := (i + k - 1) % n;
      assert NextIndex(j, n) == (j + 1) % n;
      ModularStep(i + k - 1, n);
    }
  }

  lemma {:induction false} MulAtLeast(d: int, n: int)
    requires d >= 1 && n > 0
    ensures d * n >= n
    decreases d
  {
    if d > 1 {
      MulAtLeast(d - 1, n);
      assert d * n == (d - 1) * n + n;
    }
  }

  /** Euclidean division has one quotient and one remainder. */
  lemma ModUnique(x: int, n: int, q: int, r: int)
    requires 0 < n && 0 <= r < n && x == q * n + r
    ensures x % n == r
  {
    var q0 := x / n;
    var r0 := x % n;
    var d := q - q0;
    assert d * n == q * n - q0 * n;
    assert d * n == r0 - r;
    if d >= 1 {
      MulAtLeast(d, n);
    } else if d <= -1 {
      MulAtLeast(-d, n);
    }
  }

  lemma ModularStep(a: int, n: int)
    requires 0 <= a && 0 < n
    ensures (a % n + 1) % n == (a + 1) % n
  {
    var q := a / n;
    var r := a % n;
    assert a == q * n + r;
    if r + 1 < n {
      ModUnique(a + 1, n, q, r + 1);
      ModUnique(r + 1, n, 0, r + 1);
    } else {
      assert (q + 1) * n == q * n + n;
      ModUnique(a + 1, n, q + 1, 0);
      ModUnique(r + 1, n, 1, 0);
    }
  }

  /** After `n` presses of next the first image is back. */
  lemma FullCircle(i: int, n: int)
    requires 0 <= i < n
    ensures NextTimes(i, n, n) == i
  {
    NextTimesIsModular(i, n, n);
    ModUnique(i + n, n, 1, i);
  }

  /** With no images the buttons leave the range: next gives 1, previous gives -1. */
  lemma EmptyGalleryLeavesRange()
    ensures NextIndex(0, 0) == 1 && PrevIndex(0, 0) == -1
  {
  }

  /** The thumbnail strip offset for image `i` (`-3 - currentImage * 6`). */
  function ThumbnailOffset(i: int): (p: int)
    ensures i >= 0 ==> p <= -3
  {
    -3 - i * 6
  }

  /** Different images give different offsets, and image 0 gives the closing value -3. */
  lemma ThumbnailOffsetInjective(i: int, j: int)
    ensures ThumbnailOffset(i) == ThumbnailOffset(j) <==> i == j
    ensures ThumbnailOffset(0) == -3
  {
  }

  /** `extraImagensNumber`. */
  function ExtraImages(totalImages: int): int {
    totalImages - 5
  }

  /**
   * The fifth thumbnail carries the badge: the screen is wide, there are at
   * least five images and the fifth URL is not empty.
   */
  predicate BadgeShown(wide: bool, totalImages: int, images: seq<string>) {
    wide && totalImages >= 5 && |images| > 4 && images[4] != ""
  }

  /** A shown badge never counts a negative number of further images. */
  lemma BadgeCountNonNegative(wide: bool, totalImages: int, images: seq<string>)
    requires BadgeShown(wide, totalImages, images)
    ensures ExtraImages(totalImages) >= 0
    ensures ExtraImages(totalImages) == 0 <==> totalImages == 5
  {
  }

  /** The gallery's state. */
  class Gallery {
    const images: seq<string>
    var currentImage: int
    var thumbnailPosition: int
    var isOpen: bool

    /** The current image is one of the images. */
    predicate InRange()
      reads this
    {
      0 <= currentImage < |images|
    }

    /** The strip is where the effect puts it for the current image. */
    predicate ThumbnailInSync()
      reads this
    {
      thumbnailPosition == ThumbnailOffset(currentImage)
    }

    constructor (images: seq<string>)
      ensures this.images == images
      ensures currentImage == 0 && thumbnailPosition == -3 && !isOpen
      ensures ThumbnailInSync()
      ensures images != [] ==> InRange()
    {
      this.images := images;
      currentImage := 0;
      thumbnailPosition := -3;
      isOpen := false;
    }

    /** `handleOpen(i)`: show image `i` in the modal. */
    method HandleOpen(i: int)
      modifies this
      ensures currentImage == i && isOpen
      ensures thumbnailPosition == old(thumbnailPosition)
    {
      currentImage := i;
      isOpen := true;
    }

    /**
     * `handleClose`: the strip goes back to -3; the current image stays, so
     * the strip is in step afterwards only when that image is the first.
     */
    method HandleClose()
      modifies this
      ensures thumbnailPosition == -3 && !isOpen
      ensures currentImage == old(currentImage)
      ensures ThumbnailInSync() <==> currentImage == 0
    {
      thumbnailPosition := -3;
      isOpen := false;
    }

    /** `handlePrev`. */
    method HandlePrev()
      modifies this
      ensures currentImage == PrevIndex(old(currentImage), |images|)
      ensures thumbnailPosition == old(thumbnailPosition) && isOpen == old(isOpen)
      ensures old(InRange()) ==> InRange()
    {
      if currentImage == 0 {
        currentImage := |images| - 1;
      } else {
        currentImage := currentImage - 1;
      }
    }

    /** `handleNext`. */
    method HandleNext()
      modifies this
      ensures currentImage == NextIndex(old(currentImage), |images|)
      ensures thumbnailPosition == old(thumbnailPosition) && isOpen == old(isOpen)
      ensures old(InRange()) ==> InRange()
    {
      if currentImage == |images| - 1 {
        currentImage := 0;
      } else {
        currentImage := currentImage + 1;
      }
    }

    /**
     * The effect run after the current image changes. `thumbnailCount` is the
     * number of children of the strip's container, or `None` while the
     * container is not mounted; the strip moves only when a child exists at
     * the current index.
     */
    method SyncThumbnail(thumbnailCount: Option<nat>)
      modifies this
      ensures currentImage == old(currentImage) && isOpen == old(isOpen)
      ensures thumbnailCount.Some? && 0 <= currentImage < thumbnailCount.value ==> ThumbnailInSync()
      ensures !(thumbnailCount.Some? && 0 <= currentImage < thumbnailCount.value) ==>
                thumbnailPosition == old(thumbnailPosition)
    {
      if thumbnailCount.Some? && 0 <= currentImage < thumbnailCount.value {
        thumbnailPosition := -3 - currentImage * 6;
      }
    }
  }
}
