/** The public services page: the built-in catalogue shown when there is no
    stored document, the hero switch, and the image each service card shows
    (its own, else the built-in one for the same heading, else an icon). */
module Services {
  import opened Wrappers
  import opened PageModel
  import Carousel

  const NotFoundError: string := "Document not found"

  /** The page's built-in data: title, subtitle and the eleven sections; no
      hero images. */
  const BuiltIn: PageDoc :=
    EmptyDoc.(title := ServicesTitle, heroText := ServicesHeroText, sections := ServiceDefaults)

  /** `data || defaultData`. */
  function DisplayDoc(data: Option<PageDoc>): (d: PageDoc)
    ensures data.Some? ==> d == data.value
    ensures data.None? ==> d.sections == ServiceDefaults && d.title == ServicesTitle && d.showHero.None?
  {
    data.GetOr(BuiltIn)
  }

  /** Only an explicit `showHero: false` hides the hero. */
  predicate ShowHero(doc: PageDoc) {
    doc.showHero != Some(false)
  }

  /** `find(s => s.heading === heading)`: the position of the first
      section whose heading equals `heading` exactly (an absent heading
      equals only an absent one). */
  function FindHeading(catalogue: seq<Section>, heading: Option<string>): (r: Option<nat>)
    ensures r.Some? ==> r.value < |catalogue| && catalogue[r.value].heading == heading
    ensures r.Some? ==> forall j :: 0 <= j < r.value ==> catalogue[j].heading != heading
    ensures r.None? ==> forall j :: 0 <= j < |catalogue| ==> catalogue[j].heading != heading
  {
    if catalogue == [] then None
    else if catalogue[0].heading == heading then Some(0)
    else
      match FindHeading(catalogue[1..], heading)
      case None => None
      case Some(k) => Some(k + 1)
  }

  /** `?.image` of that section in the built-in catalogue. */
  function DefaultImage(heading: Option<string>): Option<string> {
    match FindHeading(ServiceDefaults, heading)
    case None => None
    case Some(k) => ServiceDefaults[k].image
  }

  /** What a card shows on top. */
  datatype CardImage = Picture(url: string) | Icon

  /** `section.image || defaultImage`, and the icon when both are falsy. */
  function CardImageFor(s: Section): (c: CardImage)
    ensures Truthy(s.image) ==> c == Picture(s.image.value)
    ensures !Truthy(s.image) && Truthy(DefaultImage(s.heading)) ==>
      c == Picture(DefaultImage(s.heading).value)
    ensures !Truthy(s.image) && !Truthy(DefaultImage(s.heading)) ==> c == Icon
  {
    if Truthy(s.image) then Picture(s.image.value)
    else
      var d := DefaultImage(s.heading);
      if Truthy(d) then Picture(d.value) else Icon
  }

  datatype Card = Card(heading: Option<string>, content: Option<string>, image: CardImage)

  datatype ServicesView =
    | Spinner
    | ErrorMessage(message: string)
    /** `hero` is None when the hero is hidden; `cards` is None for the
        "No services listed yet." message. */
    | Page(hero: Option<seq<HeroSlide>>, cards: Option<seq<Card>>)

  function RenderServices(loading: bool, error: Option<string>, data: Option<PageDoc>): (v: ServicesView)
    ensures loading <==> v == Spinner
    ensures !loading && Truthy(error) && error.value != NotFoundError <==> v.ErrorMessage?
    ensures v.Page? ==> (v.hero.Some? <==> ShowHero(DisplayDoc(data)))
    ensures v.Page? ==> (v.cards.None? <==> DisplayDoc(data).sections == [])
    ensures v.Page? && v.cards.Some? ==> |v.cards.value| == |DisplayDoc(data).sections|
    ensures v.Page? && v.cards.Some? ==> forall k :: 0 <= k < |v.cards.value| ==>
      v.cards.value[k].image == CardImageFor(DisplayDoc(data).sections[k])
  {
    if loading then Spinner
    else if Truthy(error) && error.value != NotFoundError then ErrorMessage(error.value)
    else
      var d := DisplayDoc(data);
      var hero := if ShowHero(d) then
        Some(Carousel.Normalize([], Carousel.ImagesOf(d.heroImages, d.heroImage), d.title, d.heroText))
        else None;
      var secs := d.sections;
      var cards := if secs == [] then None else
        Some(seq(|secs|, k requires 0 <= k < |secs| => Card(secs[k].heading, secs[k].content, CardImageFor(secs[k]))));
      Page(hero, cards)
  }

  // ---- Properties -------------------------------------------------------

  /** Without a stored document the page shows eleven cards, each with its
      built-in picture, under a hero in its empty state. */
  lemma BuiltInPage()
    ensures var v := RenderServices(false, Some(NotFoundError), None);
      v.Page? && v.hero == Some([]) && v.cards.Some? && |v.cards.value| == 11 &&
      forall k :: 0 <= k < 11 ==>
        v.cards.value[k].image.Picture? && Some(v.cards.value[k].image.url) == ServiceDefaults[k].image
  {
    ServiceDefaultsPictured();
    var d := DisplayDoc(None);
    assert d.sections == ServiceDefaults;
    var v := RenderServices(false, Some(NotFoundError), None);
    forall k | 0 <= k < 11
      ensures v.cards.value[k].image.Picture? && Some(v.cards.value[k].image.url) == ServiceDefaults[k].image
    {
      assert Truthy(ServiceDefaults[k].image);
    }
  }

  /** A stored section without its own image that keeps a built-in heading
      shows the built-in picture for that heading. */
  lemma BuiltInHeadingKeepsPicture(s: Section, k: nat)
    requires k < |ServiceDefaults| && !Truthy(s.image)
    requires s.heading == ServiceDefaults[k].heading
    ensures CardImageFor(s) == Picture(ServiceDefaults[k].image.value)
  {
    ServiceDefaultsShape();
  }

  /** A section without its own image whose heading matches no built-in
      heading exactly shows the icon. */
  lemma UnknownHeadingShowsIcon(s: Section)
    requires !Truthy(s.image)
    requires forall k :: 0 <= k < |ServiceDefaults| ==> ServiceDefaults[k].heading != s.heading
    ensures CardImageFor(s) == Icon
  {
  }
}
