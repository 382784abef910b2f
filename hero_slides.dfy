/** The home page's slide editor. It works on the document's `heroSlides`
    when there are any, and otherwise on slides made from the older
    `heroImages` list (each image with the page title and subtitle). Every
    edit stores the whole edited list as `heroSlides`. */
module HeroSlides {
  import opened Wrappers
  import opened PageModel
  import ListOps

  /** The slides made from `heroImages` for a document without slides. */
  function LegacySlides(doc: PageDoc): (r: seq<HeroSlide>)
    ensures |r| == |doc.heroImages.GetOr([])|
    ensures forall k :: 0 <= k < |r| ==>
      r[k] == HeroSlide(doc.heroImages.GetOr([])[k], doc.title, doc.heroText)
  {
    var images := doc.heroImages.GetOr([]);
    seq(|images|, k requires 0 <= k < |images| => HeroSlide(images[k], doc.title, doc.heroText))
  }

  /** The slides the editor shows. */
  function Slides(doc: PageDoc): (r: seq<HeroSlide>)
    ensures doc.heroSlides != [] ==> r == doc.heroSlides
    ensures doc.heroSlides == [] ==> r == LegacySlides(doc)
  {
    if |doc.heroSlides| > 0 then doc.heroSlides else LegacySlides(doc)
  }

  /** `updateSlides`: the edited list replaces `heroSlides`. */
  function Store(doc: PageDoc, slides: seq<HeroSlide>): PageDoc
  {
    doc.(heroSlides := slides)
  }

  function MoveSlide(doc: PageDoc, index: nat, dir: ListOps.Direction): PageDoc
    requires index < |Slides(doc)|
  {
    Store(doc, ListOps.Move(Slides(doc), index, dir))
  }

  function RemoveSlide(doc: PageDoc, index: nat): PageDoc
    requires index < |Slides(doc)|
  {
    Store(doc, ListOps.RemoveAt(Slides(doc), index))
  }

  const BlankSlide: HeroSlide := HeroSlide("", "", "")

  function AddSlide(doc: PageDoc): PageDoc {
    Store(doc, ListOps.Append(Slides(doc), BlankSlide))
  }

  datatype SlideField = SlideImage | SlideTitle | SlideSubtext

  function SetSlideField(s: HeroSlide, f: SlideField, value: string): HeroSlide {
    match f
    case SlideImage => s.(image := value)
    case SlideTitle => s.(title := value)
    case SlideSubtext => s.(subtext := value)
  }

  function EditSlide(doc: PageDoc, index: nat, f: SlideField, value: string): PageDoc
    requires index < |Slides(doc)|
  {
    Store(doc, ListOps.Replace(Slides(doc), index, SetSlideField(Slides(doc)[index], f, value)))
  }

  // ---- Properties -------------------------------------------------------

  /** Moving a slide moves it in the list the editor shows. */
  lemma MoveShown(doc: PageDoc, index: nat, dir: ListOps.Direction)
    requires index < |Slides(doc)|
    ensures Slides(MoveSlide(doc, index, dir)) == ListOps.Move(Slides(doc), index, dir)
  {
  }

  /** Editing a field of one slide changes that field of that slide only;
      the other fields of the slide and every other slide stay as shown. */
  lemma EditShown(doc: PageDoc, index: nat, f: SlideField, value: string)
    requires index < |Slides(doc)|
    ensures var after := Slides(EditSlide(doc, index, f, value));
      |after| == |Slides(doc)| &&
      (forall k :: 0 <= k < |after| && k != index ==> after[k] == Slides(doc)[k]) &&
      (f == SlideImage ==> after[index] == Slides(doc)[index].(image := value)) &&
      (f == SlideTitle ==> after[index] == Slides(doc)[index].(title := value)) &&
      (f == SlideSubtext ==> after[index] == Slides(doc)[index].(subtext := value))
  {
  }

  /** Adding a slide and removing it again shows the slides of before,
      including when they were made from the older image list. */
  lemma AddThenRemove(doc: PageDoc)
    ensures |Slides(AddSlide(doc))| == |Slides(doc)| + 1
    ensures Slides(RemoveSlide(AddSlide(doc), |Slides(doc)|)) == Slides(doc)
  {
    var s := Slides(doc);
    var added := AddSlide(doc);
    assert Slides(added) == s + [BlankSlide];
    assert ListOps.RemoveAt(s + [BlankSlide], |s|) == s;
  }

  /** Removing the last stored slide stores an empty list, and the editor
      then shows the older image list again. */
  lemma RemovingLastStoredSlideRestoresLegacy(doc: PageDoc)
    requires |doc.heroSlides| == 1
    ensures RemoveSlide(doc, 0).heroSlides == []
    ensures Slides(RemoveSlide(doc, 0)) == LegacySlides(doc)
  {
  }

  /** Any edit, of any field, of a document without slides first turns its
      images into stored slides carrying the page title and subtitle; the
      edited slide is that migrated slide with the one field changed. */
  lemma EditMigrates(doc: PageDoc, index: nat, f: SlideField, value: string)
    requires doc.heroSlides == [] && index < |Slides(doc)|
    ensures var stored := EditSlide(doc, index, f, value).heroSlides;
      var images := doc.heroImages.GetOr([]);
      |stored| == |images| &&
      (forall k :: 0 <= k < |stored| && k != index ==>
        stored[k] == HeroSlide(images[k], doc.title, doc.heroText)) &&
      stored[index] == SetSlideField(HeroSlide(images[index], doc.title, doc.heroText), f, value)
  {
  }
}
