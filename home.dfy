/** The public home page: what it renders for each fetch outcome, the props
    it hands to the hero carousel, and the block each content section is
    drawn as. */
module Home {
  import opened Wrappers
  import opened PageModel
  import Carousel
  import Stats

  const DefaultHeroTitle: string := "Welcome to Sharvari"
  const DefaultHeroText: string := "Building the future, one pixel at a time."
  const NotFoundError: string := "Document not found"

  datatype HeroProps = HeroProps(slides: seq<HeroSlide>, images: Carousel.ImagesProp,
                                 title: string, text: string)

  /** `images={heroImages || heroImage}` with the title and text defaults. */
  function HeroPropsOf(doc: PageDoc): (p: HeroProps)
    ensures p.slides == doc.heroSlides
    ensures doc.heroImages.Some? ==> p.images == Carousel.ImageList(doc.heroImages.value)
    ensures doc.heroImages.None? && doc.heroImage != "" ==> p.images == Carousel.SingleImage(doc.heroImage)
    ensures doc.heroImages.None? && doc.heroImage == "" ==> p.images == Carousel.NoImages
    ensures p.title == (if doc.title == "" then DefaultHeroTitle else doc.title)
    ensures p.text == (if doc.heroText == "" then DefaultHeroText else doc.heroText)
  {
    var images :=
      if doc.heroImages.Some? then Carousel.ImageList(doc.heroImages.value)
      else if doc.heroImage != "" then Carousel.SingleImage(doc.heroImage)
      else Carousel.NoImages;
    HeroProps(doc.heroSlides, images,
      if doc.title == "" then DefaultHeroTitle else doc.title,
      if doc.heroText == "" then DefaultHeroText else doc.heroText)
  }

  /** The slides the home carousel shows for a document. */
  function HeroSlidesShown(doc: PageDoc): seq<HeroSlide> {
    var p := HeroPropsOf(doc);
    Carousel.Normalize(p.slides, p.images, p.title, p.text)
  }

  /** The stored slides win; otherwise the image list, even an empty one,
      decides; only without a list does the single legacy image give one
      slide. Legacy slides carry the page title and subtitle or the
      defaults. */
  lemma HeroSlidesShownCases(doc: PageDoc)
    ensures doc.heroSlides != [] ==> HeroSlidesShown(doc) == doc.heroSlides
    ensures doc.heroSlides == [] && doc.heroImages.Some? ==>
      |HeroSlidesShown(doc)| == |doc.heroImages.value|
    ensures doc.heroSlides == [] && doc.heroImages.Some? ==>
      forall k :: 0 <= k < |doc.heroImages.value| ==>
        HeroSlidesShown(doc)[k].image == doc.heroImages.value[k]
    ensures doc.heroSlides == [] && doc.heroImages.None? && doc.heroImage != "" ==>
      HeroSlidesShown(doc) == [HeroSlide(doc.heroImage, HeroPropsOf(doc).title, HeroPropsOf(doc).text)]
    ensures doc.heroSlides == [] && doc.heroImages.None? && doc.heroImage == "" ==>
      HeroSlidesShown(doc) == []
    ensures doc.heroSlides == [] && doc.heroImages == Some([]) ==> HeroSlidesShown(doc) == []
    ensures forall k :: 0 <= k < |HeroSlidesShown(doc)| && doc.heroSlides == [] ==>
      HeroSlidesShown(doc)[k].title != ""
  {
  }

  /** How a content section is drawn. */
  datatype Block = FullWidth | Card | Standard(reversed: bool, grey: bool)

  /** `isReverse`: image on the right. */
  predicate IsReverse(layout: Option<string>, index: nat) {
    layout == Some("reverse") || (layout != Some("standard") && index % 2 == 1)
  }

  function BlockFor(layout: Option<string>, index: nat): (b: Block)
    ensures layout == Some("full-width") <==> b == FullWidth
    ensures layout == Some("card") <==> b == Card
    ensures b.Standard? ==> (b.grey <==> index % 2 == 1)
    ensures b.Standard? && layout == Some("reverse") ==> b.reversed
    ensures b.Standard? && layout == Some("standard") ==> !b.reversed
    ensures b.Standard? && layout != Some("reverse") && layout != Some("standard") ==>
      (b.reversed <==> index % 2 == 1)
  {
    if layout == Some("full-width") then FullWidth
    else if layout == Some("card") then Card
    else Standard(IsReverse(layout, index), index % 2 == 1)
  }

  /** Section blocks in order, one per section. */
  function Blocks(sections: seq<Section>): (r: seq<Block>)
    ensures |r| == |sections|
    ensures forall k :: 0 <= k < |r| ==> r[k] == BlockFor(sections[k].layout, k)
  {
    seq(|sections|, k requires 0 <= k < |sections| => BlockFor(sections[k].layout, k))
  }

  /** With no layout chosen, consecutive standard sections alternate sides
      and backgrounds. */
  lemma DefaultLayoutAlternates(sections: seq<Section>, k: nat)
    requires k + 1 < |sections|
    requires sections[k].layout.None? && sections[k + 1].layout.None?
    ensures Blocks(sections)[k].reversed != Blocks(sections)[k + 1].reversed
    ensures Blocks(sections)[k].grey != Blocks(sections)[k + 1].grey
  {
  }

  datatype HomeView =
    | Spinner
    | ErrorMessage(message: string)
    | Fallback
    | Page(hero: HeroProps, blocks: seq<Block>, counters: Option<seq<Stats.Counter>>)

  /** The home page for a fetch still running, a failed fetch, a missing
      document and a loaded one. A missing document is reported by the store
      as "Document not found" and shows the fixed fallback, never an
      error. */
  function RenderHome(loading: bool, error: Option<string>, data: Option<PageDoc>): (v: HomeView)
    ensures loading <==> v == Spinner
    ensures !loading && Truthy(error) && error.value != NotFoundError <==> v.ErrorMessage?
    ensures v.ErrorMessage? ==> v.message == error.value
    ensures v == Fallback <==> !loading && (!Truthy(error) || error.value == NotFoundError) && data.None?
    ensures v.Page? ==> data.Some? && v.hero == HeroPropsOf(data.value)
    ensures v.Page? ==> v.blocks == Blocks(data.value.sections)
    ensures v.Page? ==> v.counters == Stats.RenderStats(data.value.stats)
  {
    if loading then Spinner
    else if Truthy(error) && error.value != NotFoundError then ErrorMessage(error.value)
    else if data.None? then Fallback
    else Page(HeroPropsOf(data.value), Blocks(data.value.sections), Stats.RenderStats(data.value.stats))
  }

  /** An empty error string is falsy: the page renders as if no error had
      been reported. */
  lemma EmptyErrorIgnored(data: Option<PageDoc>)
    ensures RenderHome(false, Some(""), data) == RenderHome(false, None, data)
    ensures !RenderHome(false, Some(""), data).ErrorMessage?
  {
  }
}
