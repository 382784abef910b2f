/** The home page hero carousel: the slides it shows (its own slides, or
    slides made from an image list or a single image), the current index
    that the arrows, the indicators and the six-second timer change, and
    what it renders. */
module Carousel {
  import opened Wrappers
  import opened PageModel

  /** The `images` prop: an array, a single image URL, or nothing (an absent
      or empty value, which JavaScript treats as false). */
  datatype ImagesProp = NoImages | ImageList(urls: seq<string>) | SingleImage(url: string)

  function ImageListOf(images: ImagesProp): (r: seq<string>)
    ensures images.ImageList? ==> r == images.urls
    ensures images.SingleImage? && images.url != "" ==> r == [images.url]
    ensures images.NoImages? || (images.SingleImage? && images.url == "") ==> r == []
  {
    match images
    case ImageList(urls) => urls
    case SingleImage(url) => if url == "" then [] else [url]
    case NoImages => []
  }

  /** `heroImages || heroImage` as the pages pass it: a stored list (even
      an empty one) wins over the single legacy image. */
  function ImagesOf(heroImages: Option<seq<string>>, heroImage: string): (p: ImagesProp)
    ensures heroImages.Some? ==> p == ImageList(heroImages.value)
    ensures heroImages.None? ==> ImageListOf(p) == (if heroImage == "" then [] else [heroImage])
  {
    if heroImages.Some? then ImageList(heroImages.value)
    else if heroImage != "" then SingleImage(heroImage)
    else NoImages
  }

  /** The slides the carousel shows: its own slides when there are any,
      otherwise one slide per image, each with the given title and text. */
  function Normalize(slides: seq<HeroSlide>, images: ImagesProp, title: string, text: string): (r: seq<HeroSlide>)
    ensures |slides| > 0 ==> r == slides
    ensures |slides| == 0 ==> |r| == |ImageListOf(images)|
    ensures |slides| == 0 ==>
      forall k :: 0 <= k < |r| ==> r[k] == HeroSlide(ImageListOf(images)[k], title, text)
  {
    if |slides| > 0 then slides
    else
      var list := ImageListOf(images);
      seq(|list|, k requires 0 <= k < |list| => HeroSlide(list[k], title, text))
  }

  /** The next index, wrapping from the last slide to the first. */
  function NextIndex(i: nat, n: nat): (r: nat)
    requires i < n
    ensures r < n
    ensures i + 1 < n ==> r == i + 1
    ensures i + 1 == n ==> r == 0
  {
    (i + 1) % n
  }

  /** The previous index, wrapping from the first slide to the last. */
  function PrevIndex(i: nat, n: nat): (r: nat)
    requires i < n
    ensures r < n
    ensures i > 0 ==> r == i - 1
    ensures i == 0 ==> r == n - 1
  {
    (i - 1 + n) % n
  }

  /** The arrows undo each other. */
  lemma PrevUndoesNext(i: nat, n: nat)
    requires i < n
    ensures PrevIndex(NextIndex(i, n), n) == i
    ensures NextIndex(PrevIndex(i, n), n) == i
  {
  }

  /** The index after `k` timer ticks (or clicks on the right arrow). */
  function Advance(i: nat, n: nat, k: nat): (r: nat)
    requires i < n
    ensures r < n
  {
    if k == 0 then i else NextIndex(Advance(i, n, k - 1), n)
  }

  /** Before the wrap, `k` steps add `k`. */
  lemma {:induction false} AdvanceNoWrap(i: nat, n: nat, k: nat)
    requires i + k < n
    ensures Advance(i, n, k) == i + k
  {
    if k > 0 {
      AdvanceNoWrap(i, n, k - 1);
    }
  }

  lemma {:induction false} AdvanceSplit(i: nat, n: nat, a: nat, b: nat)
    requires i < n
    ensures Advance(i, n, a + b) == Advance(Advance(i, n, a), n, b)
  {
    if b > 0 {
      AdvanceSplit(i, n, a, b - 1);
    }
  }

  /** The timer shows every slide in turn and comes back to the one it
      started from after one round. */
  lemma AdvanceReachesEverySlide(i: nat, n: nat, j: nat)
    requires i < n && j < n
    ensures Advance(i, n, n) == i
    ensures j >= i ==> Advance(i, n, j - i) == j
    ensures j < i ==> Advance(i, n, n - i + j) == j
  {
    AdvanceNoWrap(i, n, n - 1 - i);
    assert Advance(i, n, n - i) == 0;
    AdvanceSplit(i, n, n - i, i);
    AdvanceNoWrap(0, n, i);
    if j >= i {
      AdvanceNoWrap(i, n, j - i);
    } else {
      AdvanceSplit(i, n, n - i, j);
      AdvanceNoWrap(0, n, j);
    }
  }

  /** What the carousel renders. */
  datatype View =
    | Welcome
    | Showing(slide: HeroSlide, position: nat, controls: bool, indicators: nat)

  /** The carousel component: the slides, fixed for its lifetime here, and
      the current index. */
  class HeroCarousel {
    const slides: seq<HeroSlide>
    var currentIndex: nat

    ghost predicate Valid()
      reads this
    {
      |slides| > 0 ==> currentIndex < |slides|
    }

    constructor (slides: seq<HeroSlide>)
      ensures this.slides == slides && currentIndex == 0
      ensures Valid()
    {
      this.slides := slides;
      currentIndex := 0;
    }

    /** The empty state when there are no slides; otherwise the current
        slide, with arrows and one indicator per slide when there are
        several. */
    function Render(): (v: View)
      requires Valid()
      reads this
      ensures |slides| == 0 <==> v == Welcome
      ensures v.Showing? ==> v.slide == slides[currentIndex] && v.position == currentIndex
      ensures v.Showing? ==> (v.controls <==> |slides| > 1)
      ensures v.Showing? && v.controls ==> v.indicators == |slides|
    {
      if |slides| == 0 then Welcome
      else if |slides| > 1 then Showing(slides[currentIndex], currentIndex, true, |slides|)
      else Showing(slides[currentIndex], currentIndex, false, 0)
    }

    method NextSlide()
      requires Valid() && |slides| > 0
      modifies this
      ensures Valid() && currentIndex == NextIndex(old(currentIndex), |slides|)
    {
      currentIndex := (currentIndex + 1) % |slides|;
    }

    method PrevSlide()
      requires Valid() && |slides| > 0
      modifies this
      ensures Valid() && currentIndex == PrevIndex(old(currentIndex), |slides|)
    {
      currentIndex := (currentIndex - 1 + |slides|) % |slides|;
    }

    /** An indicator click. */
    method GoTo(index: nat)
      requires Valid() && index < |slides|
      modifies this
      ensures Valid() && currentIndex == index
    {
      currentIndex := index;
    }

    /** One tick of the six-second timer, which runs only when there is more
        than one slide. */
    method Tick()
      requires Valid()
      modifies this
      ensures Valid()
      ensures |slides| > 1 ==> currentIndex == NextIndex(old(currentIndex), |slides|)
      ensures |slides| <= 1 ==> currentIndex == old(currentIndex)
    {
      if |slides| > 1 {
        NextSlide();
      }
    }
  }
}
