/** The page document the admin editor holds as one editable value and the
    public pages render: the optional top-level fields and the element shapes
    of its array fields, plus the built-in default content. */
module PageModel {
  import opened Wrappers

  datatype HeroSlide = HeroSlide(image: string, title: string, subtext: string)

  /** A content section; each field may be absent in a stored document. */
  datatype Section = Section(heading: Option<string>, content: Option<string>,
                             image: Option<string>, layout: Option<string>)

  datatype Stat = Stat(value: string, labelText: string)  // `label` in the stored document

  datatype Feature = Feature(title: string, desc: string)

  /** A team card; an absent `email` or `mobile` reads as "". */
  datatype TeamMember = TeamMember(name: string, role: string, image: string,
                                   email: string, mobile: string)

  /** One project-table row, keyed by column name. */
  type Row = map<string, string>

  datatype ProjectCategory = ProjectCategory(id: string, title: string,
                                             columns: seq<string>, rows: seq<Row>)

  /** A document of the `pages` collection (or `settings/general`, which the
      editor holds in the same value). Absent array fields read as empty.
      `heroImages` stays optional because `heroImages || heroImage` keeps an
      empty array; `showHero` because only an explicit `false` hides the hero;
      `email`/`phone`/`address` because an absent field keeps the site-wide
      default while "" replaces it. */
  datatype PageDoc = PageDoc(
    title: string,
    heroText: string,
    showHero: Option<bool>,
    heroSlides: seq<HeroSlide>,
    heroImages: Option<seq<string>>,
    heroImage: string,
    sections: seq<Section>,
    stats: seq<Stat>,
    features: seq<Feature>,
    teamMembers: seq<TeamMember>,
    clientLogos: seq<string>,
    projectCategories: seq<ProjectCategory>,
    aboutImage: string,
    infraImage1: string,
    infraImage2: string,
    email: Option<string>,
    phone: Option<string>,
    address: Option<string>)

  /** A document with every field absent. */
  const EmptyDoc: PageDoc :=
    PageDoc("", "", None, [], None, "", [], [], [], [], [], [], "", "", "", None, None, None)

  const ServicesPageId: string := "services"

  /** The default content for a page whose document does not exist yet:
      empty strings and lists (and empty contact fields), except that the
      services page gets its title, subtitle and the eleven built-in
      sections. */
  function DefaultState(pageId: string): (d: PageDoc)
    ensures d.heroSlides == [] && d.heroImages == Some([]) && d.heroImage == ""
    ensures d.stats == [] && d.features == [] && d.teamMembers == []
    ensures d.clientLogos == [] && d.projectCategories == []
    ensures d.email == Some("") && d.phone == Some("") && d.address == Some("")
    ensures pageId == ServicesPageId ==>
      d.title == ServicesTitle && d.heroText == ServicesHeroText && d.sections == ServiceDefaults
    ensures pageId != ServicesPageId ==> d.title == "" && d.heroText == "" && d.sections == []
  {
    var base := EmptyDoc.(heroImages := Some([]), email := Some(""), phone := Some(""), address := Some(""));
    if pageId == ServicesPageId then
      base.(title := ServicesTitle, heroText := ServicesHeroText, sections := ServiceDefaults)
    else base
  }

  const ServicesTitle: string := "Our Services"
  const ServicesHeroText: string := "Leading the way in Electrical Infrastructure Development."

  function ServiceSection(heading: string, content: string, image: string): Section {
    Section(Some(heading), Some(content), Some(image), None)
  }

  /** The eleven built-in service sections (the editor's default for the
      services page and the public services page's fallback). */
  const ServiceDefaults: seq<Section> := [
    ServiceSection("EHV Transmission Lines",
      "Turnkey & EPC of EHV Transmission Lines of all types, including Design, Supply, Civil, Erection, Testing & Commissioning of projects (up to 765 kV)",
      "https://placehold.co/800x600/2563eb/FFF?text=EHV+Transmission+Lines"),
    ServiceSection("Sub-stations",
      "Turnkey EPC of all types of Sub-stations including Supply, Civil, Erection, Testing & Commissioning of projects (up to 765 kV)",
      "https://placehold.co/800x600/2563eb/FFF?text=Sub-stations"),
    ServiceSection("Railway Traction Sub-Stations",
      "Turnkey EPC of Traction Sub Stations for Railways including Supply, Civil, Erection, Testing & Commissioning of projects (up to 25/220 kV)",
      "https://placehold.co/800x600/2563eb/FFF?text=Railway+Traction"),
    ServiceSection("Rural Electrification",
      "Rural Electrification & Distribution Projects including infrastructure setup and grid connectivity.",
      "https://placehold.co/800x600/2563eb/FFF?text=Rural+Electrification"),
    ServiceSection("Maintenance Services",
      "On Site Service Contracts like Live/Hot/Cold line maintenance of EHV Lines/Sub-stations.",
      "https://placehold.co/800x600/2563eb/FFF?text=Maintenance+Services"),
    ServiceSection("Solar & Irrigation Projects",
      "Electrical Transmission & Sub \U{2013} Station Projects of Lift Irrigation Schemes, Mega Scale Solar Power Plants.",
      "https://placehold.co/800x600/2563eb/FFF?text=Solar+%26+Irrigation"),
    ServiceSection("Industrial Electrification",
      "Comprehensive Industrial Electrification Projects for factories and industrial zones.",
      "https://placehold.co/800x600/2563eb/FFF?text=Industrial+Electrification"),
    ServiceSection("Line Upgradation",
      "Up gradation of EHV Lines to increase capacity and reliability.",
      "https://placehold.co/800x600/2563eb/FFF?text=Line+Upgradation"),
    ServiceSection("Harmonic Analysis",
      "Detailed Harmonic Analysis to ensure power system health and efficiency.",
      "https://placehold.co/800x600/2563eb/FFF?text=Harmonic+Analysis"),
    ServiceSection("Power Quality Audit",
      "Power Quality audit services to identify and resolve electrical issues.",
      "https://placehold.co/800x600/2563eb/FFF?text=Power+Quality+Audit"),
    ServiceSection("Energy Saving Consultant",
      "Expert consultancy for energy saving and efficiency improvements.",
      "https://placehold.co/800x600/2563eb/FFF?text=Energy+Saving")
  ]

  /** Every built-in section has a heading and a non-empty image. Proofs
      that need only this call it instead of `ServiceDefaultsShape`, so the
      pairwise comparison of headings stays out of their context. */
  lemma ServiceDefaultsPictured()
    ensures |ServiceDefaults| == 11
    ensures forall k :: 0 <= k < 11 ==>
      ServiceDefaults[k].heading.Some? && Truthy(ServiceDefaults[k].image)
  {
  }

  /** The built-in catalogue is pictured as above, and no two sections
      share a heading. */
  lemma ServiceDefaultsShape()
    ensures |ServiceDefaults| == 11
    ensures forall k :: 0 <= k < 11 ==>
      ServiceDefaults[k].heading.Some? && Truthy(ServiceDefaults[k].image)
    ensures forall j, k :: 0 <= j < k < 11 ==> ServiceDefaults[j].heading != ServiceDefaults[k].heading
  {
    ServiceDefaultsPictured();
  }
}
