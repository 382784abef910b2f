/** The admin editor: one page document held in memory, the page and tab
    being edited, the received messages and a loading flag. Selecting a page
    loads its document (or the default content), the handlers edit the held
    document one field at a time, and saving writes it back. */
module Dashboard {
  import opened Wrappers
  import opened PageModel
  import ListOps
  import Validation
  import AboutSeeding
  import ProjectTable
  import SectionEditor
  import HeroSlides

  /** A stored contact message, field name to text. */
  type Message = map<string, string>

  const SettingsPageId: string := "settings"
  const AboutPageId: string := "about"
  const ContactPageId: string := "contact"

  /** The held document before the first load: every field absent except an
      empty `heroImages` list. */
  const InitialDoc: PageDoc := EmptyDoc.(heroImages := Some([]))

  /** Where a page's document lives: the settings page in
      `settings/general`, every other page in `pages/<page id>`. */
  function DocRef(pageId: string): (r: (string, string))
    ensures pageId == SettingsPageId ==> r == ("settings", "general")
    ensures pageId != SettingsPageId ==> r == ("pages", pageId)
  {
    if pageId == SettingsPageId then ("settings", "general") else ("pages", pageId)
  }

  /** Different pages never share a document, and no page is stored as
      `pages/settings`. */
  lemma DocRefSeparatesPages(p: string, q: string)
    ensures DocRef(p) == DocRef(q) ==> p == q
    ensures DocRef(p) != ("pages", SettingsPageId)
  {
  }

  /** The tabs each page offers, in order; the settings page and unknown
      pages have none. */
  function Tabs(pageId: string): seq<string> {
    if pageId == "home" then ["hero", "stats", "content"]
    else if pageId == AboutPageId then ["team", "images"]
    else if pageId == ServicesPageId then ["content"]
    else if pageId == "projects" then ["categories"]
    else if pageId == "clients" then ["logos"]
    else if pageId == ContactPageId then ["messages"]
    else []
  }

  /** The tab opened when a page is selected: its first tab, or "hero" for a
      page without tabs. */
  function FirstTab(pageId: string): (t: string)
    ensures Tabs(pageId) != [] ==> t == Tabs(pageId)[0] && t in Tabs(pageId)
    ensures Tabs(pageId) == [] ==> t == "hero"
  {
    if |Tabs(pageId)| > 0 then Tabs(pageId)[0] else "hero"
  }

  /** Every page but the home page opens on a tab other than the hero tab,
      and the settings page has no tabs at all. */
  lemma OpeningTabs()
    ensures FirstTab("home") == "hero"
    ensures FirstTab(AboutPageId) == "team" && "content" !in Tabs(AboutPageId)
    ensures FirstTab(ServicesPageId) == "content"
    ensures FirstTab("projects") == "categories"
    ensures FirstTab("clients") == "logos"
    ensures FirstTab(ContactPageId) == "messages"
    ensures Tabs(SettingsPageId) == [] && FirstTab(SettingsPageId) == "hero"
  {
  }

  /** The document held after loading a page: the fetched document, or the
      page's default content when there is none; on the about page the
      sections are then completed by the seeding step. */
  function LoadedDoc(pageId: string, fetched: Option<PageDoc>): PageDoc {
    var base := fetched.GetOr(DefaultState(pageId));
    if pageId == AboutPageId then base.(sections := AboutSeeding.Seeded(base.sections)) else base
  }

  /** Loading a page other than the about page holds exactly the fetched
      document, or the default content of that page. */
  lemma LoadHoldsFetchedOrDefault(pageId: string, fetched: Option<PageDoc>)
    requires pageId != AboutPageId
    ensures fetched.Some? ==> LoadedDoc(pageId, fetched) == fetched.value
    ensures fetched.None? ==> LoadedDoc(pageId, fetched) == DefaultState(pageId)
    ensures fetched.None? && pageId == ServicesPageId ==>
      |LoadedDoc(pageId, fetched).sections| == 11
  {
    if fetched.None? && pageId == ServicesPageId {
      ServiceDefaultsShape();
    }
  }

  /** Loading the about page changes only the sections, and the loaded
      sections come first. A load with a headless section keeps the
      document as loaded; when all loaded sections are headed every
      required keyword is found afterwards. */
  lemma AboutLoadCompletes(fetched: Option<PageDoc>)
    ensures var base := fetched.GetOr(DefaultState(AboutPageId));
      var d := LoadedDoc(AboutPageId, fetched);
      d.(sections := base.sections) == base &&
      d.sections[..|base.sections|] == base.sections &&
      (!AboutSeeding.AllHeaded(base.sections) ==> d == base) &&
      (AboutSeeding.AllHeaded(base.sections) ==>
        forall k :: 0 <= k < |AboutSeeding.Requirements| ==>
          AboutSeeding.FindKeyword(d.sections, AboutSeeding.Requirements[k].keyword) == AboutSeeding.Found)
  {
    var base := fetched.GetOr(DefaultState(AboutPageId));
    AboutSeeding.SeedingKeepsLoaded(base.sections);
    if AboutSeeding.AllHeaded(base.sections) {
      AboutSeeding.SeedingCompletes(base.sections);
    }
  }

  /** Saving a loaded about page and loading it again gives the same
      document: the seeding step adds placeholders at most once. */
  lemma AboutReloadStable(fetched: Option<PageDoc>)
    ensures LoadedDoc(AboutPageId, Some(LoadedDoc(AboutPageId, fetched))) == LoadedDoc(AboutPageId, fetched)
  {
    AboutSeeding.SeedingStable(fetched.GetOr(DefaultState(AboutPageId)).sections);
  }

  /** A document write: collection, document id and the document. */
  datatype SaveRequest = SaveRequest(collection: string, docId: string, doc: PageDoc)

  /** The array fields that share the generic move handler. */
  datatype ListKey = SectionsList | StatsList | FeaturesList | TeamList | LogosList | CategoriesList

  function Count(d: PageDoc, key: ListKey): nat {
    match key
    case SectionsList => |d.sections|
    case StatsList => |d.stats|
    case FeaturesList => |d.features|
    case TeamList => |d.teamMembers|
    case LogosList => |d.clientLogos|
    case CategoriesList => |d.projectCategories|
  }

  /** The editable fields of the list elements. */
  datatype StatField = StatValue | StatLabel
  datatype FeatureField = FeatureTitle | FeatureDesc
  datatype MemberField = MemberName | MemberRole | MemberImage | MemberEmail | MemberMobile
  /** The four image slots of the about page's "Page Images" tab. */
  datatype ImageSlot = HeroBackground | AboutMain | InfraFirst | InfraSecond
  /** The three inputs of the settings page. */
  datatype SettingsField = EmailInput | PhoneInput | AddressInput

  const NewStat: Stat := Stat("100+", "Projects")
  const NewFeature: Feature := Feature("Feature", "Description")
  const NewMember: TeamMember := TeamMember("New Member", "Role", "", "", "")
  const NewSection: Section := Section(Some("New Section"), Some(""), Some(""), None)

  function SetStatField(s: Stat, f: StatField, v: string): (r: Stat)
    ensures f == StatValue ==> r.value == v && r.labelText == s.labelText
    ensures f == StatLabel ==> r.labelText == v && r.value == s.value
  {
    match f
    case StatValue => s.(value := v)
    case StatLabel => s.(labelText := v)
  }

  function SetFeatureField(x: Feature, f: FeatureField, v: string): (r: Feature)
    ensures f == FeatureTitle ==> r.title == v && r.desc == x.desc
    ensures f == FeatureDesc ==> r.desc == v && r.title == x.title
  {
    match f
    case FeatureTitle => x.(title := v)
    case FeatureDesc => x.(desc := v)
  }

  function MemberFieldOf(m: TeamMember, f: MemberField): string {
    match f
    case MemberName => m.name
    case MemberRole => m.role
    case MemberImage => m.image
    case MemberEmail => m.email
    case MemberMobile => m.mobile
  }

  /** The member with one field replaced; every other field is kept. */
  function SetMemberField(m: TeamMember, f: MemberField, v: string): (r: TeamMember)
    ensures MemberFieldOf(r, f) == v
    ensures forall g :: g != f ==> MemberFieldOf(r, g) == MemberFieldOf(m, g)
  {
    match f
    case MemberName => m.(name := v)
    case MemberRole => m.(role := v)
    case MemberImage => m.(image := v)
    case MemberEmail => m.(email := v)
    case MemberMobile => m.(mobile := v)
  }

  /** Writing a field's old value back undoes an edit, and a second edit of
      the same field overrides the first. */
  lemma MemberEditLaws(m: TeamMember, f: MemberField, v: string, w: string)
    ensures SetMemberField(SetMemberField(m, f, v), f, MemberFieldOf(m, f)) == m
    ensures SetMemberField(SetMemberField(m, f, v), f, w) == SetMemberField(m, f, w)
  {
  }

  /** What the content tab lets the user do to the sections. */
  datatype ContentAction =
    | EditField(index: nat, field: SectionEditor.SectionField, value: string)
    | DeleteSection(index: nat, confirmed: bool)
    | AddSection
    | MoveSection(index: nat, dir: ListOps.Direction)

  /** The add button and each section editor's delete control are shown
      only when the page is not the about page. */
  predicate Offered(pageId: string, a: ContentAction) {
    match a
    case DeleteSection(_, _) => pageId != AboutPageId
    case AddSection => pageId != AboutPageId
    case _ => true
  }

  /** The action names an existing section. */
  predicate InRange(sections: seq<Section>, a: ContentAction) {
    match a
    case EditField(i, _, _) => i < |sections|
    case DeleteSection(i, _) => i < |sections|
    case AddSection => true
    case MoveSection(i, _) => i < |sections|
  }

  class AdminDashboard {
    var activePage: string
    var activeTab: string
    var pageData: PageDoc
    var messages: seq<Message>
    var initLoading: bool

    /** Everything but the held document. */
    function Chrome(): (string, string, seq<Message>, bool)
      reads this
    {
      (activePage, activeTab, messages, initLoading)
    }

    constructor()
      ensures activePage == "home" && activeTab == "hero"
      ensures pageData == InitialDoc && messages == [] && !initLoading
    {
      activePage := "home";
      activeTab := "hero";
      pageData := InitialDoc;
      messages := [];
      initLoading := false;
    }

    /** `loadPageData`: the fetched document (`None` when it does not exist
        or the read failed) or the default content; the contact page also
        replaces the messages with the listed ones (an empty list when the
        listing failed); the about page then seeds its missing sections. */
    method LoadPageData(pageId: string, fetched: Option<PageDoc>, listed: seq<Message>)
      modifies this
      ensures pageData == LoadedDoc(pageId, fetched)
      ensures messages == if pageId == ContactPageId then listed else old(messages)
      ensures !initLoading
      ensures activePage == old(activePage) && activeTab == old(activeTab)
    {
      initLoading := true;
      var base := if fetched.Some? then fetched.value else DefaultState(pageId);
      assert base == fetched.GetOr(DefaultState(pageId));
      pageData := base;
      if pageId == ContactPageId {
        messages := listed;
      }
      if pageId == AboutPageId {
        var missing := AboutSeeding.MissingSections(base.sections, AboutSeeding.Requirements);
        if missing.Some? && |missing.value| > 0 {
          pageData := base.(sections := base.sections + missing.value);
        } else {
          assert missing.Some? ==> base.sections + missing.value == base.sections;
          assert base.(sections := base.sections) == base;
        }
      }
      initLoading := false;
    }

    /** Choosing a page in the sidebar. Choosing another page makes it the
        active page, loads its document and opens its first tab. Choosing
        the page already active sets the same state value, so no render
        follows, the effect keyed on the active page does not run again and
        nothing changes. */
    method SelectPage(pageId: string, fetched: Option<PageDoc>, listed: seq<Message>)
      modifies this
      ensures pageId == old(activePage) ==>
        pageData == old(pageData) && activeTab == old(activeTab) &&
        messages == old(messages) && initLoading == old(initLoading)
      ensures activePage == pageId
      ensures pageId != old(activePage) ==>
        activeTab == FirstTab(pageId) && pageData == LoadedDoc(pageId, fetched) &&
        messages == (if pageId == ContactPageId then listed else old(messages)) &&
        !initLoading
    {
      if pageId != activePage {
        activePage := pageId;
        LoadPageData(pageId, fetched, listed);
        activeTab := FirstTab(pageId);
      }
    }

    method SelectTab(tab: string)
      modifies this
      ensures activeTab == tab
      ensures activePage == old(activePage) && pageData == old(pageData)
      ensures messages == old(messages) && initLoading == old(initLoading)
    {
      activeTab := tab;
    }

    /** `handleSave`: the write it issues, if any, and whether the page
        reloads afterwards (`stored` is whether the write succeeded). Pages
        are always written to their own document; the settings page is
        written only when at least one contact field is filled in and a
        filled-in e-mail has the e-mail shape, and it reloads after a
        successful write. */
    method HandleSave(stored: bool) returns (write: Option<SaveRequest>, reload: bool)
      ensures write.Some? ==> write.value == SaveRequest(DocRef(activePage).0, DocRef(activePage).1, pageData)
      ensures activePage != SettingsPageId ==> write.Some?
      ensures activePage == SettingsPageId ==>
        (write.Some? <==> Validation.CheckSettings(pageData.email, pageData.phone, pageData.address) == None)
      ensures activePage == SettingsPageId && !Truthy(pageData.email) && !Truthy(pageData.phone) && !Truthy(pageData.address) ==>
        write.None?
      ensures reload <==> write.Some? && stored && activePage == SettingsPageId
    {
      var (collection, docId) := DocRef(activePage);
      if activePage == SettingsPageId && Validation.CheckSettings(pageData.email, pageData.phone, pageData.address) != None {
        return None, false;
      }
      write := Some(SaveRequest(collection, docId, pageData));
      reload := stored && activePage == SettingsPageId;
    }

    /** `moveItem`: swap an element of one array field with its neighbour. */
    method MoveItem(key: ListKey, index: nat, dir: ListOps.Direction)
      requires index < Count(pageData, key)
      modifies this
      ensures key == SectionsList ==>
        pageData == old(pageData).(sections := ListOps.Move(old(pageData).sections, index, dir))
      ensures key == StatsList ==>
        pageData == old(pageData).(stats := ListOps.Move(old(pageData).stats, index, dir))
      ensures key == FeaturesList ==>
        pageData == old(pageData).(features := ListOps.Move(old(pageData).features, index, dir))
      ensures key == TeamList ==>
        pageData == old(pageData).(teamMembers := ListOps.Move(old(pageData).teamMembers, index, dir))
      ensures key == LogosList ==>
        pageData == old(pageData).(clientLogos := ListOps.Move(old(pageData).clientLogos, index, dir))
      ensures key == CategoriesList ==>
        pageData == old(pageData).(projectCategories := ListOps.Move(old(pageData).projectCategories, index, dir))
      ensures Chrome() == old(Chrome())
    {
      match key {
        case SectionsList =>
          var l := ListOps.MoveItem(pageData.sections, index, dir);
          pageData := pageData.(sections := l);
        case StatsList =>
          var l := ListOps.MoveItem(pageData.stats, index, dir);
          pageData := pageData.(stats := l);
        case FeaturesList =>
          var l := ListOps.MoveItem(pageData.features, index, dir);
          pageData := pageData.(features := l);
        case TeamList =>
          var l := ListOps.MoveItem(pageData.teamMembers, index, dir);
          pageData := pageData.(teamMembers := l);
        case LogosList =>
          var l := ListOps.MoveItem(pageData.clientLogos, index, dir);
          pageData := pageData.(clientLogos := l);
        case CategoriesList =>
          var l := ListOps.MoveItem(pageData.projectCategories, index, dir);
          pageData := pageData.(projectCategories := l);
      }
    }

    /** The delete buttons: filter one index out of an array field. */
    method DeleteItem(key: ListKey, index: nat)
      requires index < Count(pageData, key)
      modifies this
      ensures key == SectionsList ==>
        pageData == old(pageData).(sections := ListOps.RemoveAt(old(pageData).sections, index))
      ensures key == StatsList ==>
        pageData == old(pageData).(stats := ListOps.RemoveAt(old(pageData).stats, index))
      ensures key == FeaturesList ==>
        pageData == old(pageData).(features := ListOps.RemoveAt(old(pageData).features, index))
      ensures key == TeamList ==>
        pageData == old(pageData).(teamMembers := ListOps.RemoveAt(old(pageData).teamMembers, index))
      ensures key == LogosList ==>
        pageData == old(pageData).(clientLogos := ListOps.RemoveAt(old(pageData).clientLogos, index))
      ensures key == CategoriesList ==>
        pageData == old(pageData).(projectCategories := ListOps.RemoveAt(old(pageData).projectCategories, index))
      ensures Chrome() == old(Chrome())
    {
      match key {
        case SectionsList => pageData := pageData.(sections := ListOps.RemoveAt(pageData.sections, index));
        case StatsList => pageData := pageData.(stats := ListOps.RemoveAt(pageData.stats, index));
        case FeaturesList => pageData := pageData.(features := ListOps.RemoveAt(pageData.features, index));
        case TeamList => pageData := pageData.(teamMembers := ListOps.RemoveAt(pageData.teamMembers, index));
        case LogosList => pageData := pageData.(clientLogos := ListOps.RemoveAt(pageData.clientLogos, index));
        case CategoriesList =>
          pageData := pageData.(projectCategories := ListOps.RemoveAt(pageData.projectCategories, index));
      }
    }

    /** `handleSectionChange`: the section editor hands back the whole
        edited section. */
    method HandleSectionChange(index: nat, section: Section)
      requires index < |pageData.sections|
      modifies this
      ensures pageData == old(pageData).(sections := ListOps.Replace(old(pageData).sections, index, section))
      ensures Chrome() == old(Chrome())
    {
      pageData := pageData.(sections := ListOps.Replace(pageData.sections, index, section));
    }

    /** One field typed into the section editor. */
    method EditSection(index: nat, f: SectionEditor.SectionField, value: string)
      requires index < |pageData.sections|
      modifies this
      ensures pageData == old(pageData).(sections := ListOps.Replace(old(pageData).sections, index,
        SectionEditor.SetField(old(pageData).sections[index], f, value)))
      ensures Chrome() == old(Chrome())
    {
      HandleSectionChange(index, SectionEditor.SetField(pageData.sections[index], f, value));
    }

    /** `handleDeleteSection`: the section goes only when the user confirms. */
    method HandleDeleteSection(index: nat, confirmed: bool)
      requires index < |pageData.sections|
      modifies this
      ensures confirmed ==> pageData == old(pageData).(sections := ListOps.RemoveAt(old(pageData).sections, index))
      ensures !confirmed ==> pageData == old(pageData)
      ensures Chrome() == old(Chrome())
    {
      if confirmed {
        DeleteItem(SectionsList, index);
      }
    }

    method HandleAddSection()
      modifies this
      ensures pageData == old(pageData).(sections := ListOps.Append(old(pageData).sections, NewSection))
      ensures Chrome() == old(Chrome())
    {
      pageData := pageData.(sections := ListOps.Append(pageData.sections, NewSection));
    }

    /** One action on the content tab. On the about page only edits and
        moves are offered, so the number of sections never changes there;
        the about page lists no content tab, so that case is only reached
        when the tab is set directly. */
    method ContentTab(a: ContentAction)
      requires Offered(activePage, a) && InRange(pageData.sections, a)
      modifies this
      ensures a.EditField? ==> pageData == old(pageData).(sections := ListOps.Replace(old(pageData).sections, a.index,
        SectionEditor.SetField(old(pageData).sections[a.index], a.field, a.value)))
      ensures a.DeleteSection? && a.confirmed ==>
        pageData == old(pageData).(sections := ListOps.RemoveAt(old(pageData).sections, a.index))
      ensures a.DeleteSection? && !a.confirmed ==> pageData == old(pageData)
      ensures a.AddSection? ==> pageData == old(pageData).(sections := ListOps.Append(old(pageData).sections, NewSection))
      ensures a.MoveSection? ==>
        pageData == old(pageData).(sections := ListOps.Move(old(pageData).sections, a.index, a.dir))
      ensures activePage == AboutPageId ==> |pageData.sections| == |old(pageData).sections|
      ensures Chrome() == old(Chrome())
    {
      match a {
        case EditField(i, f, v) => EditSection(i, f, v);
        case DeleteSection(i, confirmed) => HandleDeleteSection(i, confirmed);
        case AddSection => HandleAddSection();
        case MoveSection(i, dir) => MoveItem(SectionsList, i, dir);
      }
    }

    method AddStat()
      modifies this
      ensures pageData == old(pageData).(stats := ListOps.Append(old(pageData).stats, NewStat))
      ensures Chrome() == old(Chrome())
    {
      pageData := pageData.(stats := ListOps.Append(pageData.stats, NewStat));
    }

    method EditStat(index: nat, f: StatField, value: string)
      requires index < |pageData.stats|
      modifies this
      ensures pageData == old(pageData).(stats := ListOps.Replace(old(pageData).stats, index,
        SetStatField(old(pageData).stats[index], f, value)))
      ensures Chrome() == old(Chrome())
    {
      pageData := pageData.(stats := ListOps.Replace(pageData.stats, index, SetStatField(pageData.stats[index], f, value)));
    }

    method AddFeature()
      modifies this
      ensures pageData == old(pageData).(features := ListOps.Append(old(pageData).features, NewFeature))
      ensures Chrome() == old(Chrome())
    {
      pageData := pageData.(features := ListOps.Append(pageData.features, NewFeature));
    }

    method EditFeature(index: nat, f: FeatureField, value: string)
      requires index < |pageData.features|
      modifies this
      ensures pageData == old(pageData).(features := ListOps.Replace(old(pageData).features, index,
        SetFeatureField(old(pageData).features[index], f, value)))
      ensures Chrome() == old(Chrome())
    {
      pageData := pageData.(features := ListOps.Replace(pageData.features, index,
        SetFeatureField(pageData.features[index], f, value)));
    }

    method AddMember()
      modifies this
      ensures pageData == old(pageData).(teamMembers := ListOps.Append(old(pageData).teamMembers, NewMember))
      ensures Chrome() == old(Chrome())
    {
      pageData := pageData.(teamMembers := ListOps.Append(pageData.teamMembers, NewMember));
    }

    method EditMember(index: nat, f: MemberField, value: string)
      requires index < |pageData.teamMembers|
      modifies this
      ensures pageData == old(pageData).(teamMembers := ListOps.Replace(old(pageData).teamMembers, index,
        SetMemberField(old(pageData).teamMembers[index], f, value)))
      ensures Chrome() == old(Chrome())
    {
      pageData := pageData.(teamMembers := ListOps.Replace(pageData.teamMembers, index,
        SetMemberField(pageData.teamMembers[index], f, value)));
    }

    /** An upload into one of the about page's image slots. */
    method SetPageImage(slot: ImageSlot, url: string)
      modifies this
      ensures slot == HeroBackground ==> pageData == old(pageData).(heroImage := url)
      ensures slot == AboutMain ==> pageData == old(pageData).(aboutImage := url)
      ensures slot == InfraFirst ==> pageData == old(pageData).(infraImage1 := url)
      ensures slot == InfraSecond ==> pageData == old(pageData).(infraImage2 := url)
      ensures Chrome() == old(Chrome())
    {
      match slot {
        case HeroBackground => pageData := pageData.(heroImage := url);
        case AboutMain => pageData := pageData.(aboutImage := url);
        case InfraFirst => pageData := pageData.(infraImage1 := url);
        case InfraSecond => pageData := pageData.(infraImage2 := url);
      }
    }

    /** Uploaded logos are appended in the order the uploader reports them. */
    method AddLogos(urls: seq<string>)
      modifies this
      ensures pageData == old(pageData).(clientLogos := old(pageData).clientLogos + urls)
      ensures Chrome() == old(Chrome())
    {
      pageData := pageData.(clientLogos := pageData.clientLogos + urls);
    }

    /** A typed value in one of the settings inputs; an emptied input holds
        "" (not an absent field). */
    method SetSettingsField(f: SettingsField, value: string)
      modifies this
      ensures f == EmailInput ==> pageData == old(pageData).(email := Some(value))
      ensures f == PhoneInput ==> pageData == old(pageData).(phone := Some(value))
      ensures f == AddressInput ==> pageData == old(pageData).(address := Some(value))
      ensures Chrome() == old(Chrome())
    {
      match f {
        case EmailInput => pageData := pageData.(email := Some(value));
        case PhoneInput => pageData := pageData.(phone := Some(value));
        case AddressInput => pageData := pageData.(address := Some(value));
      }
    }

    /** "Add Category", with the id the editor derives from the clock. */
    method AddCategory(id: string)
      modifies this
      ensures pageData == old(pageData).(projectCategories :=
        ListOps.Append(old(pageData).projectCategories, ProjectTable.NewCategory(id)))
      ensures Chrome() == old(Chrome())
    {
      pageData := pageData.(projectCategories := ListOps.Append(pageData.projectCategories, ProjectTable.NewCategory(id)));
    }

    method DeleteCategory(index: nat, confirmed: bool)
      requires index < |pageData.projectCategories|
      modifies this
      ensures confirmed ==> pageData == old(pageData).(projectCategories :=
        ListOps.RemoveAt(old(pageData).projectCategories, index))
      ensures !confirmed ==> pageData == old(pageData)
      ensures Chrome() == old(Chrome())
    {
      if confirmed {
        DeleteItem(CategoriesList, index);
      }
    }

    /** Replace category `index` by `c`. */
    method UpdateCategory(index: nat, c: ProjectCategory)
      requires index < |pageData.projectCategories|
      modifies this
      ensures pageData == old(pageData).(projectCategories := ListOps.Replace(old(pageData).projectCategories, index, c))
      ensures Chrome() == old(Chrome())
    {
      pageData := pageData.(projectCategories := ListOps.Replace(pageData.projectCategories, index, c));
    }

    method SetCategoryTitle(index: nat, title: string)
      requires index < |pageData.projectCategories|
      modifies this
      ensures pageData == old(pageData).(projectCategories := ListOps.Replace(old(pageData).projectCategories, index,
        old(pageData).projectCategories[index].(title := title)))
      ensures Chrome() == old(Chrome())
    {
      UpdateCategory(index, pageData.projectCategories[index].(title := title));
    }

    /** The columns input: the typed text is parsed into column names; the
        rows are left as they are. */
    method SetColumns(index: nat, text: string)
      requires index < |pageData.projectCategories|
      modifies this
      ensures pageData == old(pageData).(projectCategories := ListOps.Replace(old(pageData).projectCategories, index,
        old(pageData).projectCategories[index].(columns := ProjectTable.ParseColumns(text))))
      ensures Chrome() == old(Chrome())
    {
      UpdateCategory(index, pageData.projectCategories[index].(columns := ProjectTable.ParseColumns(text)));
    }

    /** "Add Row": a row with an empty cell for each current column. */
    method AddRow(index: nat)
      requires index < |pageData.projectCategories|
      modifies this
      ensures |pageData.projectCategories| == |old(pageData).projectCategories|
      ensures forall k :: 0 <= k < |pageData.projectCategories| && k != index ==>
        pageData.projectCategories[k] == old(pageData).projectCategories[k]
      ensures var c := old(pageData).projectCategories[index];
        var n := pageData.projectCategories[index];
        n.(rows := c.rows) == c && |n.rows| == |c.rows| + 1 && n.rows[..|c.rows|] == c.rows &&
        n.rows[|c.rows|].Keys == (set col | col in c.columns) &&
        forall col :: col in n.rows[|c.rows|] ==> n.rows[|c.rows|][col] == ""
      ensures pageData.(projectCategories := old(pageData).projectCategories) == old(pageData)
      ensures Chrome() == old(Chrome())
    {
      var c := pageData.projectCategories[index];
      var row := ProjectTable.NewRow(c.columns);
      UpdateCategory(index, c.(rows := ListOps.Append(c.rows, row)));
    }

    /** A typed cell: the row's value for that column. */
    method EditCell(index: nat, rowIndex: nat, column: string, value: string)
      requires index < |pageData.projectCategories|
      requires rowIndex < |pageData.projectCategories[index].rows|
      modifies this
      ensures var c := old(pageData).projectCategories[index];
        pageData == old(pageData).(projectCategories := ListOps.Replace(old(pageData).projectCategories, index,
          c.(rows := ListOps.Replace(c.rows, rowIndex, c.rows[rowIndex][column := value]))))
      ensures Chrome() == old(Chrome())
    {
      var c := pageData.projectCategories[index];
      UpdateCategory(index, c.(rows := ListOps.Replace(c.rows, rowIndex, c.rows[rowIndex][column := value])));
    }

    method DeleteRow(index: nat, rowIndex: nat)
      requires index < |pageData.projectCategories|
      requires rowIndex < |pageData.projectCategories[index].rows|
      modifies this
      ensures var c := old(pageData).projectCategories[index];
        pageData == old(pageData).(projectCategories := ListOps.Replace(old(pageData).projectCategories, index,
          c.(rows := ListOps.RemoveAt(c.rows, rowIndex))))
      ensures Chrome() == old(Chrome())
    {
      var c := pageData.projectCategories[index];
      UpdateCategory(index, c.(rows := ListOps.RemoveAt(c.rows, rowIndex)));
    }

    /** The hero slide editor's handlers, which replace the held document. */
    method MoveHeroSlide(index: nat, dir: ListOps.Direction)
      requires index < |HeroSlides.Slides(pageData)|
      modifies this
      ensures pageData == HeroSlides.MoveSlide(old(pageData), index, dir)
      ensures Chrome() == old(Chrome())
    {
      pageData := HeroSlides.MoveSlide(pageData, index, dir);
    }

    method RemoveHeroSlide(index: nat)
      requires index < |HeroSlides.Slides(pageData)|
      modifies this
      ensures pageData == HeroSlides.RemoveSlide(old(pageData), index)
      ensures Chrome() == old(Chrome())
    {
      pageData := HeroSlides.RemoveSlide(pageData, index);
    }

    method AddHeroSlide()
      modifies this
      ensures pageData == HeroSlides.AddSlide(old(pageData))
      ensures Chrome() == old(Chrome())
    {
      pageData := HeroSlides.AddSlide(pageData);
    }

    method EditHeroSlide(index: nat, f: HeroSlides.SlideField, value: string)
      requires index < |HeroSlides.Slides(pageData)|
      modifies this
      ensures pageData == HeroSlides.EditSlide(old(pageData), index, f, value)
      ensures Chrome() == old(Chrome())
    {
      pageData := HeroSlides.EditSlide(pageData, index, f, value);
    }
  }

  /** Editing the columns never touches the rows, and the text the input
      then shows parses back to the same columns. */
  lemma ColumnsEditStable(c: ProjectCategory, text: string)
    ensures var n := c.(columns := ProjectTable.ParseColumns(text));
      n.rows == c.rows && ProjectTable.ParseColumns(ProjectTable.ShowColumns(n.columns)) == n.columns
  {
    ProjectTable.ParseShowParse(text);
  }
}
