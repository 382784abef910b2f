/** The public projects page: which view it shows (category tables, the
    older section list, or the empty state), the one-open accordion of
    categories, and the table drawn for an open category. */
module Projects {
  import opened Wrappers
  import opened PageModel
  import ProjectTable

  /** The page's built-in data when there is no stored document. */
  const BuiltIn: PageDoc :=
    EmptyDoc.(title := "Our Major Projects",
              heroText := "Showcasing our excellence in execution across various sectors.")

  function DisplayDoc(data: Option<PageDoc>): PageDoc {
    data.GetOr(BuiltIn)
  }

  datatype ProjectsView = Categories(categories: seq<ProjectCategory>) | LegacySections(sections: seq<Section>) | NothingYet

  /** Categories win over sections; with neither the empty state shows. */
  function ChooseView(doc: PageDoc): (v: ProjectsView)
    ensures doc.projectCategories != [] <==> v.Categories?
    ensures v.Categories? ==> v.categories == doc.projectCategories
    ensures doc.projectCategories == [] && doc.sections != [] <==> v.LegacySections?
    ensures v.LegacySections? ==> v.sections == doc.sections
    ensures v == NothingYet <==> doc.projectCategories == [] && doc.sections == []
  {
    if doc.projectCategories != [] then Categories(doc.projectCategories)
    else if doc.sections != [] then LegacySections(doc.sections)
    else NothingYet
  }

  /** Without a stored document the page shows the empty state. */
  lemma BuiltInShowsNothingYet()
    ensures ChooseView(DisplayDoc(None)) == NothingYet
  {
  }

  /** In the older section list every second section has its image on the
      right. */
  function SectionReversed(index: nat): bool {
    index % 2 != 0
  }

  /** The layout alternates: the first section has its image on the left
      and each section is laid out opposite to the one before it. */
  lemma SectionsAlternate(index: nat)
    ensures !SectionReversed(0)
    ensures SectionReversed(index + 1) == !SectionReversed(index)
  {
  }

  /** The expanded category after the load: the first category's id when
      there is one, otherwise none. */
  function InitialExpanded(data: Option<PageDoc>): (e: Option<string>)
    ensures data.Some? && data.value.projectCategories != [] ==> e == Some(data.value.projectCategories[0].id)
    ensures data.None? || data.value.projectCategories == [] ==> e.None?
  {
    if data.Some? && |data.value.projectCategories| > 0 then Some(data.value.projectCategories[0].id)
    else None
  }

  /** `toggleCategory`: the open category closes, any other opens alone. */
  function Toggle(expanded: Option<string>, id: string): (r: Option<string>)
    ensures expanded == Some(id) ==> r.None?
    ensures expanded != Some(id) ==> r == Some(id)
  {
    if expanded == Some(id) then None else Some(id)
  }

  predicate IsOpen(expanded: Option<string>, c: ProjectCategory) {
    expanded == Some(c.id)
  }

  /** With distinct ids at most one category is ever open, and after a
      toggle that opens `id` exactly the categories with that id are open. */
  lemma AtMostOneOpen(expanded: Option<string>, cats: seq<ProjectCategory>, id: string)
    requires forall j, k :: 0 <= j < k < |cats| ==> cats[j].id != cats[k].id
    ensures forall j, k :: 0 <= j < k < |cats| ==> !(IsOpen(expanded, cats[j]) && IsOpen(expanded, cats[k]))
    ensures expanded != Some(id) ==> forall k :: 0 <= k < |cats| ==> (IsOpen(Toggle(expanded, id), cats[k]) <==> cats[k].id == id)
    ensures expanded == Some(id) ==> forall k :: 0 <= k < |cats| ==> !IsOpen(Toggle(expanded, id), cats[k])
  {
  }

  /** Toggling the same id twice restores the state exactly when nothing
      else was open before: from closed, or from that id itself. */
  lemma ToggleTwice(expanded: Option<string>, id: string)
    ensures Toggle(Toggle(expanded, id), id) == expanded <==> (expanded.None? || expanded == Some(id))
  {
  }

  /** When another category was open, toggling one twice closes all. */
  lemma ToggleTwiceFromOther(expanded: Option<string>, id: string)
    requires expanded.Some? && expanded != Some(id)
    ensures Toggle(expanded, id) == Some(id)
    ensures Toggle(Toggle(expanded, id), id) == None
  {
  }

  /** One table row as drawn: its number and the cell texts. */
  datatype TableRow = TableRow(number: nat, cells: seq<string>)

  function RowCells(row: Row, columns: seq<string>): (cells: seq<string>)
    ensures |cells| == |columns|
    ensures forall j :: 0 <= j < |columns| ==> cells[j] == ProjectTable.CellText(row, columns[j])
  {
    seq(|columns|, j requires 0 <= j < |columns| => ProjectTable.CellText(row, columns[j]))
  }

  /** The table of an open category: None for "No projects added to this
      category yet."; otherwise row `k` numbered `k + 1`, its cells in
      column order, and a missing key drawn blank. */
  function RenderTable(c: ProjectCategory): (t: Option<seq<TableRow>>)
    ensures t.None? <==> c.rows == []
    ensures t.Some? ==> |t.value| == |c.rows|
    ensures t.Some? ==> forall k :: 0 <= k < |c.rows| ==>
      t.value[k].number == k + 1 && |t.value[k].cells| == |c.columns| &&
      forall j :: 0 <= j < |c.columns| ==>
        t.value[k].cells[j] == (if c.columns[j] in c.rows[k] then c.rows[k][c.columns[j]] else "")
  {
    if c.rows == [] then None
    else Some(seq(|c.rows|, k requires 0 <= k < |c.rows| => TableRow(k + 1, RowCells(c.rows[k], c.columns))))
  }

  /** The projects page's accordion state. */
  class ProjectsPage {
    var expanded: Option<string>

    constructor ()
      ensures expanded.None?
    {
      expanded := None;
    }

    /** The load: open the first category when there is one, otherwise
        leave the state alone (so a fresh page stays closed). */
    method Loaded(data: Option<PageDoc>)
      modifies this
      ensures data.Some? && data.value.projectCategories != [] ==> expanded == InitialExpanded(data)
      ensures data.None? || data.value.projectCategories == [] ==> expanded == old(expanded)
    {
      if data.Some? && |data.value.projectCategories| > 0 {
        expanded := Some(data.value.projectCategories[0].id);
      }
    }

    method ToggleCategory(id: string)
      modifies this
      ensures expanded == Toggle(old(expanded), id)
    {
      expanded := if expanded == Some(id) then None else Some(id);
    }
  }
}
