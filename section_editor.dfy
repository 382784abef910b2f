/** The editor card for one content section: four fields, each edit giving
    the section back with that one field replaced, and the values the inputs
    show for fields that are absent. */
module SectionEditor {
  import opened Wrappers
  import opened PageModel

  datatype SectionField = Heading | Content | Layout | Image

  function FieldOf(s: Section, f: SectionField): Option<string> {
    match f
    case Heading => s.heading
    case Content => s.content
    case Layout => s.layout
    case Image => s.image
  }

  /** `{ ...section, [field]: value }`: the edited field holds the new value
      and every other field is as before. */
  function SetField(s: Section, f: SectionField, value: string): (r: Section)
    ensures FieldOf(r, f) == Some(value)
    ensures forall g :: g != f ==> FieldOf(r, g) == FieldOf(s, g)
  {
    match f
    case Heading => s.(heading := Some(value))
    case Content => s.(content := Some(value))
    case Layout => s.(layout := Some(value))
    case Image => s.(image := Some(value))
  }

  /** Setting a field to the value it already holds changes nothing, and a
      second edit of the same field overrides the first. */
  lemma SetFieldLaws(s: Section, f: SectionField, v: string, w: string)
    ensures FieldOf(s, f) == Some(v) ==> SetField(s, f, v) == s
    ensures SetField(SetField(s, f, v), f, w) == SetField(s, f, w)
  {
  }

  /** What the heading, content and layout inputs show. An empty layout
      shows as "standard", like an absent one. */
  function ShownText(s: Section, f: SectionField): (t: string)
    requires f != Image
    ensures f != Layout ==> (t == "" <==> !Truthy(FieldOf(s, f)))
    ensures f == Layout ==> (t == "standard" <==> (!Truthy(s.layout) || s.layout.value == "standard"))
    ensures Truthy(FieldOf(s, f)) ==> t == FieldOf(s, f).value
  {
    if f == Layout then StringOr(s.layout, "standard") else StringOr(FieldOf(s, f), "")
  }

  /** The card's title, numbered from one. */
  function CardNumber(index: nat): nat {
    index + 1
  }

  /** The cards are numbered consecutively from one, so no two cards share
      a number. */
  lemma CardsNumberedConsecutively(i: nat, j: nat)
    ensures CardNumber(0) == 1 && CardNumber(i + 1) == CardNumber(i) + 1
    ensures i != j ==> CardNumber(i) != CardNumber(j)
  {
  }
}
