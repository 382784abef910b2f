# Sharvari Electricals site: a Dafny model of its editing and rendering rules

The site is a React marketing site for an electrical EPC company. It has five public pages (home, about, services, projects, contact) and an admin editor behind a login. Every page renders from one document of the `pages` collection. The site-wide contact details come from `settings/general`.

This project models the parts of the site that are rules rather than layout. The store, the image host and the identity provider become inputs (an optional document, a write outcome, an upload answer, a role lookup). The rules modelled are:

- **The admin editor** (`Dashboard.AdminDashboard`). It holds one page document and edits it:
  - its array fields support add, delete, move and single-field edit, written once generically in `ListOps`;
  - the hero slide editor (`HeroSlides`) migrates the older image list into slides;
  - the section editor (`SectionEditor`) edits one section at a time;
  - the project tables (`ProjectTable`) keep their columns as comma-separated text, and "Add Row" creates empty cells;
  - loading picks the document location and the default content, and the about page seeds its five required sections (`AboutSeeding`);
  - saving is gated by a settings check (`Validation`).
- **The public pages**:
  - the hero carousel's slides and index arithmetic (`Carousel`);
  - the home page's hero props and section layouts (`Home`);
  - stat values split into a number and a suffix (`Stats`);
  - the services page's built-in catalogue and card images (`Services`);
  - the projects page's view choice, one-open accordion and tables (`Projects`).
- **The contact form**: validation, the digit-only mobile input, and the submit that writes and resets (`Contact`).
- **The image uploader**: checks before upload, and what it reports afterwards (`Uploader`).
- **The access state**:
  - the site settings merged over built-in defaults (`SiteSettings`);
  - the signed-in user and role (`Auth`);
  - the admin route guard (`PrivateRoute`).

Behaviour the model makes explicit:

- **Seeding uses keywords, not headings.** The about page needs five sections. A section counts as present when its heading *contains* a keyword ("About Sharvari", "Infrastructure", "Vision", "Mission", "Strength"), not when it equals a full heading. The model follows the code here.
  - A section without a heading makes the search throw once the search reaches it. The load's error handler then keeps the sections as loaded.
  - When every section has a heading, seeding appends exactly the missing placeholders, after the existing sections and in keyword order. With a headless section it appends nothing. Either way it is idempotent (`AboutSeeding.SeedingStable`).
- **Toggling a project category twice does not always restore the accordion.** It restores it only when nothing was open or that same category was open. From another open category, two toggles close everything (`Projects.ToggleTwice`, `Projects.ToggleTwiceFromOther`). The accordion can only ever have one category open, so this is how it is meant to work, not a defect.
- **An empty stored image list hides the legacy image.** The home page passes `heroImages || heroImage` to the carousel. A stored empty `heroImages` list therefore hides a legacy `heroImage`, and the carousel shows its "Welcome" state (`Home.HeroSlidesShownCases`).
- **Removing the last slide brings legacy images back.** Removing the last stored hero slide stores an empty slide list, so the editor again shows slides made from the legacy image list (`HeroSlides.RemovingLastStoredSlideRestoresLegacy`).
- **A failed read looks like a missing document.** The store answers a failed read the same way as a missing document. The editor then holds the page's default content, and a save would write that content over the stored document. The model keeps the two cases as one input (`fetched == None`), as the code does.
- **The guard's spinner never shows.** The route guard has a spinner branch, but the guard is drawn only inside the authentication provider, which hides its children while loading. So nobody sees that spinner (`PrivateRoute.GuardUnderProvider`).
- **A pending role lookup shows the previous user's role.** The provider sets the new user before it awaits the role lookup, and it does not touch the role or the loading flag until the lookup settles. When a second user signs in without a sign-out in between, the guard meanwhile sees the first user's role. An admin's role then opens the dashboard for someone with no record, until their lookup answers (`PrivateRoute.StaleRoleWindow`). A lookup that settles late, after a newer notification, likewise sets a role for a user no longer on show (`Auth.AuthProvider.RoleSettled`).

## Model

| member | source | states |
|---|---|---|
| ListOps.Move | src/pages/AdminDashboard.jsx:72-80 | Moving up at index 0, or down at the last index, leaves the list as it was. Otherwise exactly positions i and i±1 are exchanged, every other element stays in place, and the result is a permutation of the input. |
| ListOps.MoveItem | src/pages/AdminDashboard.jsx:73-77 | The copy-and-swap on a fresh array returns exactly `Move` of the input. |
| ListOps.MoveUpThenDown | src/components/admin/HeroSlideManager.jsx:25-33 | Moving an element up and then back down restores the list. |
| ListOps.Append | src/pages/AdminDashboard.jsx:229-235 | Add puts the new element last and keeps all earlier elements unchanged and in order. |
| ListOps.RemoveAt | src/pages/AdminDashboard.jsx:223-228 | Delete removes exactly index i. Elements before it keep their positions, elements after it shift down by one, and the multiset loses only that element. |
| ListOps.Replace | src/pages/AdminDashboard.jsx:217-221 | Replacing element i leaves the length and every other element unchanged. |
| PageModel.DefaultState | src/pages/AdminDashboard.jsx:97-130 | The default content of a page without a document: empty strings and lists, empty contact fields, and an empty `heroImages` list. For "services" it also has the title, the subtitle and the built-in sections. |
| PageModel.ServiceDefaultsShape | src/pages/Services.jsx:22-38 | The built-in catalogue has eleven sections. Each has a heading and a non-empty image, and the headings are pairwise distinct. The editor's services defaults (src/pages/AdminDashboard.jsx:113-126) are the same list. |
| Validation.EmailRegexMeansShape | src/pages/AdminDashboard.jsx:204-205 | The e-mail pattern matches a string exactly when it has: no white space, exactly one `@`, a non-empty local part, and a domain with a `.` that is neither its first nor its last character. |
| Validation.IsValidEmail | src/pages/Contact.jsx:189-192 | A whole-string match of `/^[^\s@]+@[^\s@]+\.[^\s@]+$/`: the same pattern as AdminDashboard.jsx lines 204-205. `EmailRegexMeansShape` states what it accepts. |
| Validation.IsValidMobile | src/pages/Contact.jsx:190-195 | `/^[0-9]{10}$/`: exactly ten characters, all digits. |
| Validation.EmailExamples | src/pages/Contact.jsx:189 | Concrete accepted and rejected addresses under the same pattern. |
| Validation.CheckSettings | src/pages/AdminDashboard.jsx:199-211 | The settings save is refused for "no contact field" exactly when e-mail, phone and address are all empty. It is refused for "invalid e-mail" exactly when a non-empty e-mail fails the shape. It is accepted otherwise. |
| AboutSeeding.FindKeyword | src/pages/AdminDashboard.jsx:155 | A search that finds nothing has passed only headed sections, none of whose headings contains the keyword. |
| AboutSeeding.Missing | src/pages/AdminDashboard.jsx:144-181 | The placeholders to push, in requirement order, or none when a search throws; `MissingExactly` and `HeadlessPushesNothing` state what it holds. |
| AboutSeeding.Seeded | src/pages/AdminDashboard.jsx:144-181 | The loaded sections followed by the missing placeholders, or the loaded sections alone when a search throws and the catch at line 183 keeps them; `SeedingCompletes`, `SeedingKeepsLoaded` and `SeedingStable` state its properties. |
| AboutSeeding.CheckOne | src/pages/AdminDashboard.jsx:155-161 | One check-and-push for the first requirement still to check. It reports a throw exactly when that search throws, and then the overall outcome is None. Otherwise what it pushed, followed by what the remaining requirements find missing, equals the overall outcome. |
| AboutSeeding.CheckStep | src/pages/AdminDashboard.jsx:154-177 | Pushing the placeholder exactly when the first keyword is not found consumes that requirement without changing the overall outcome. |
| AboutSeeding.ThrowStep | src/pages/AdminDashboard.jsx:183-186 | A search that throws makes the overall outcome None, whatever was pushed before. Also line 155. |
| AboutSeeding.MissingSections | src/pages/AdminDashboard.jsx:154-177 | The five checks in sequence, over five requirements (the editor passes `Requirements`), compute exactly `Missing` of them. The result is None when a search throws. |
| AboutSeeding.PlaceholdersMatchTheirKeywords | src/pages/AdminDashboard.jsx:155-177 | Each placeholder has a heading, and that heading contains its own keyword. |
| AboutSeeding.FindHeaded | src/pages/AdminDashboard.jsx:155 | Over headed sections the search never throws, and it finds the keyword exactly when some heading contains it. |
| AboutSeeding.FindInConcat | src/pages/AdminDashboard.jsx:155 | Searching a concatenation gives the first part's answer, unless the first part has no match and no headless section. |
| AboutSeeding.MissingExactly | src/pages/AdminDashboard.jsx:154-177 | Over headed sections the missing list exists. Entry by entry it is the placeholders of the unmatched requirements, given by an ascending index list (`Unmatched`) that holds a requirement's position exactly when its keyword is not found. So each unmatched requirement contributes once, in the order of the requirements, and nothing else is pushed. It is empty when everything matched. |
| AboutSeeding.HeadlessFirstSectionStopsSeeding | src/pages/AdminDashboard.jsx:183-186 | A first section without a heading makes the first search throw, so nothing is seeded. Also line 155. |
| AboutSeeding.HeadlessFirstSectionKeepsSections | src/pages/AdminDashboard.jsx:179-186 | In that case the sections stay exactly as loaded. |
| AboutSeeding.SeedingCompletes | src/pages/AdminDashboard.jsx:179-181 | Over headed sections: the loaded sections stay a prefix, at most five sections are added, and afterwards every keyword is found. |
| AboutSeeding.PlaceholdersHeaded | src/pages/AdminDashboard.jsx:154-177 | When the loaded sections and every placeholder have headings, seeding succeeds and every appended placeholder has a heading. |
| AboutSeeding.SeedingIdempotent | src/pages/AdminDashboard.jsx:144-181 | When every loaded section is headed, seeding an already seeded list finds nothing missing and leaves it unchanged. |
| AboutSeeding.HeadlessPushesNothing | src/pages/AdminDashboard.jsx:144-181 | With a headless section loaded, no placeholder is ever pushed: every search either matches before that section or throws there. |
| AboutSeeding.SeedingKeepsLoaded | src/pages/AdminDashboard.jsx:144-181 | For every loaded list the loaded sections come first. A list with a headless section is kept exactly as loaded, whether the search throws (line 183) or matches first. |
| AboutSeeding.SeedingStable | src/pages/AdminDashboard.jsx:144-181 | Seeding is idempotent for every loaded list, headed or not. |
| ProjectTable.TrimNonEmpty | src/pages/AdminDashboard.jsx:949 | Trimming and dropping blanks keeps at most as many pieces, each non-empty and trimmed. |
| ProjectTable.TrimNonEmptyNoComma | src/pages/AdminDashboard.jsx:949 | Pieces taken from a comma split stay comma-free after trimming. |
| ProjectTable.ParseColumns | src/pages/AdminDashboard.jsx:949 | Every stored column is non-empty, trimmed and comma-free. |
| ProjectTable.ShowColumns | src/pages/AdminDashboard.jsx:947 | `columns.join(", ")`, the text the columns field shows; `ParseShow` and `ParseShowParse` state its round trip. |
| ProjectTable.ParseShow | src/pages/AdminDashboard.jsx:946-952 | For proper column names, parsing `columns.join(", ")` gives back the same list. |
| ProjectTable.ParseShowParse | src/pages/AdminDashboard.jsx:946-952 | The columns the handler stored show as text that parses back to themselves. |
| ProjectTable.DefaultColumnsRoundTrip | src/pages/AdminDashboard.jsx:894-895 | The default columns of a new category survive the text field. |
| ProjectTable.NewCategory | src/pages/AdminDashboard.jsx:891-896 | A new category has the given id, the title "New Category", the default columns and no rows. |
| ProjectTable.NewRow | src/pages/AdminDashboard.jsx:964-965 | The new row's keys are exactly the current columns, and every value is "". |
| ProjectTable.CellText | src/pages/AdminDashboard.jsx:994 | A cell shows the row's value for its column, or "" when the row lacks that key. |
| SectionEditor.SetField | src/components/SectionEditor.jsx:5-7 | The edited field holds the new value, and every other field is unchanged. |
| SectionEditor.SetFieldLaws | src/components/SectionEditor.jsx:5-7 | Writing a field's current value changes nothing, and a second edit of the same field overrides the first. |
| SectionEditor.ShownText | src/components/SectionEditor.jsx:29-50 | An absent or empty heading or content shows as "". An absent or empty layout shows as "standard". A non-empty value shows as itself. |
| SectionEditor.CardsNumberedConsecutively | src/components/SectionEditor.jsx:21 | Card titles are numbered consecutively from one, so no two cards share a number. |
| SectionEditor.CardNumber | src/components/SectionEditor.jsx:21 | The card title's number, `index + 1`; `CardsNumberedConsecutively` states the numbering. |
| HeroSlides.LegacySlides | src/components/admin/HeroSlideManager.jsx:12-16 | One slide per stored image, in order, each carrying the page title and subtitle. |
| HeroSlides.Slides | src/components/admin/HeroSlideManager.jsx:7-17 | The stored slides when there are any, otherwise the legacy slides. |
| HeroSlides.Store | src/components/admin/HeroSlideManager.jsx:21-23 | `updateSlides`: the given list replaces `heroSlides`, and every other field of the document stays. |
| HeroSlides.MoveSlide | src/components/admin/HeroSlideManager.jsx:25-33 | `moveSlide` reorders the shown slides with `ListOps.Move` and stores the result; `MoveShown` states the effect. |
| HeroSlides.RemoveSlide | src/components/admin/HeroSlideManager.jsx:113-115 | Filters the shown slide at the index out and stores the rest; `AddThenRemove` and `RemovingLastStoredSlideRestoresLegacy` state the effect. |
| HeroSlides.AddSlide | src/components/admin/HeroSlideManager.jsx:128-132 | Appends the blank slide (empty image, title and subtext) to the shown slides and stores them. |
| HeroSlides.SetSlideField | src/components/admin/HeroSlideManager.jsx:100-104 | The slide with one of its three fields set by a spread update. |
| HeroSlides.EditSlide | src/components/admin/HeroSlideManager.jsx:67-104 | Sets one field of one shown slide and stores the whole shown list; `EditShown` and `EditMigrates` state the effect. |
| HeroSlides.MoveShown | src/components/admin/HeroSlideManager.jsx:25-33 | Moving a slide moves it in the list the editor shows, with the same boundary no-ops. |
| HeroSlides.EditShown | src/components/admin/HeroSlideManager.jsx:67-104 | Editing the image, title or subtext of slide i changes only that field of that slide. |
| HeroSlides.AddThenRemove | src/components/admin/HeroSlideManager.jsx:113-132 | Adding a blank slide adds exactly one. Removing it again shows the slides of before, including slides derived from legacy images. |
| HeroSlides.RemovingLastStoredSlideRestoresLegacy | src/components/admin/HeroSlideManager.jsx:8-16 | Removing the only stored slide stores an empty list, and the editor falls back to the legacy images. Also lines 113-115. |
| HeroSlides.EditMigrates | src/components/admin/HeroSlideManager.jsx:100-104 | An edit of any field (image, title or subtext) of a document without slides stores one slide per legacy image. Every slide except the edited one carries its image with the page title and subtitle. The edited slide is that migrated slide with the one field set. Also lines 21-23. |
| Carousel.ImageListOf | src/components/HeroCarousel.jsx:16 | An array is used as is, a truthy single value becomes a one-element list, and anything falsy gives the empty list. |
| Carousel.ImagesOf | src/pages/Home.jsx:58 | `heroImages || heroImage`: a stored list wins, even an empty one. Without a list, the single image is used when it is non-empty. |
| Carousel.Normalize | src/components/HeroCarousel.jsx:10-22 | Non-empty slides are used as is. Otherwise there is one slide per image, with the given title and text. |
| Carousel.NextIndex | src/components/HeroCarousel.jsx:50 | The next index stays in [0, n). It is i+1, or 0 after the last slide. |
| Carousel.PrevIndex | src/components/HeroCarousel.jsx:51 | The previous index stays in [0, n). It is i-1, or n-1 before the first slide. |
| Carousel.PrevUndoesNext | src/components/HeroCarousel.jsx:50-51 | The two arrows undo each other. |
| Carousel.Advance | src/components/HeroCarousel.jsx:29-31 | Any number of steps keeps the index in range. |
| Carousel.AdvanceNoWrap | src/components/HeroCarousel.jsx:30 | Before the wrap, k steps add k. |
| Carousel.AdvanceSplit | src/components/HeroCarousel.jsx:30 | a+b steps are a steps followed by b steps. |
| Carousel.AdvanceReachesEverySlide | src/components/HeroCarousel.jsx:29-31 | n steps return to the start, and every slide is reached within one round. |
| Carousel.HeroCarousel.constructor | src/components/HeroCarousel.jsx:5-6 | The carousel starts at index 0. |
| Carousel.HeroCarousel.Render | src/components/HeroCarousel.jsx:133-156 | The "Welcome" state appears exactly when there are no slides. Otherwise the current slide shows, with arrows and one indicator per slide exactly when there is more than one slide. Also lines 36-53. |
| Carousel.HeroCarousel.NextSlide | src/components/HeroCarousel.jsx:50 | The index becomes `NextIndex` of the old index. |
| Carousel.HeroCarousel.PrevSlide | src/components/HeroCarousel.jsx:51 | The index becomes `PrevIndex` of the old index. |
| Carousel.HeroCarousel.GoTo | src/components/HeroCarousel.jsx:156 | An indicator sets the index to its own position. |
| Carousel.HeroCarousel.Tick | src/components/HeroCarousel.jsx:26-34 | The timer step advances the index only when there are at least two slides. Otherwise it leaves the index alone. |
| Stats.Digits | src/components/StatsSection.jsx:14 | The kept characters are all digits. |
| Stats.NumericValue | src/components/StatsSection.jsx:14 | `parseInt` of the digits kept by the replace, with 0 for NaN: the decimal value of the digits, or 0 when there are none; `ParseShown` and `NoDigits` state it. |
| Stats.Suffix | src/components/StatsSection.jsx:15 | The suffix contains no digit. |
| Stats.DigitsAndSuffixPartition | src/components/StatsSection.jsx:14-15 | The digits and the suffix partition the value's characters, by length and by multiset. |
| Stats.DigitsConcat | src/components/StatsSection.jsx:14-15 | Both replaces distribute over concatenation. |
| Stats.ShowNatValue | src/components/StatsSection.jsx:14 | Reading the decimal digits of n gives n. |
| Stats.ParseShown | src/components/StatsSection.jsx:14-15 | A decimal number followed by a digit-free suffix parses back to that number and that suffix. |
| Stats.Example | src/components/StatsSection.jsx:13-15 | "100+" parses to 100 and "+". |
| Stats.NoDigits | src/components/StatsSection.jsx:14-15 | A value without digits counts to 0, and the whole value shows as the suffix. |
| Stats.RenderStats | src/components/StatsSection.jsx:53-54 | Nothing renders exactly when there are no stats. Otherwise there is one counter per stat, in order. |
| Home.HeroPropsOf | src/pages/Home.jsx:56-61 | The carousel gets the stored slides, the images as `heroImages || heroImage`, and the title and text with their defaults. |
| Home.HeroSlidesShownCases | src/pages/Home.jsx:56-61 | Stored slides win. Otherwise a stored list decides, so an empty list gives no slides. Only without a list does a legacy image give one slide. Derived slides always have a title. |
| Home.BlockFor | src/pages/Home.jsx:66-70 | "full-width" is chosen first, then "card". In the standard branch, "reverse" is always reversed and "standard" never is; any other or absent layout is reversed exactly at odd indexes. The background is grey exactly at odd indexes. Also lines 101, 133. |
| Home.IsReverse | src/pages/Home.jsx:66 | A layout of "reverse", or an odd index when the layout is not "standard"; `DefaultLayoutAlternates` states the alternation. |
| Home.Blocks | src/pages/Home.jsx:65 | One block per section, in order. |
| Home.DefaultLayoutAlternates | src/pages/Home.jsx:66 | Neighbouring sections without a layout alternate sides and backgrounds. Also line 133. |
| Home.RenderHome | src/pages/Home.jsx:23-61 | The spinner shows exactly while loading. An error message shows exactly for a non-empty error other than "Document not found"; an empty error string is falsy and ignored. The fixed fallback shows exactly for a missing document. The page shows otherwise. |
| Home.EmptyErrorIgnored | src/pages/Home.jsx:31 | An empty error string renders the same view as no error at all. |
| Services.DisplayDoc | src/pages/Services.jsx:40 | A stored document is shown as is. Without one, the built-in title and the eleven sections are shown. |
| Services.ShowHero | src/pages/Services.jsx:41 | `showHero !== false`: only a stored `false` hides the hero. |
| Services.DefaultImage | src/pages/Services.jsx:113 | The image of the built-in section whose heading equals the card's heading, when there is one. |
| Services.FindHeading | src/pages/Services.jsx:113 | The first catalogue section whose heading is exactly equal, or none when no heading is. |
| Services.CardImageFor | src/pages/Services.jsx:120-136 | A card shows its own image when truthy, otherwise the built-in image for an exactly equal heading, otherwise the icon. Also lines 113-114. |
| Services.RenderServices | src/pages/Services.jsx:110-150 | Spinner exactly while loading; error message exactly for a non-empty error other than "Document not found" (an empty error string is falsy). The hero is hidden exactly when `showHero` is `false`. "No services listed yet." shows exactly for empty sections, and otherwise there is one card per section. Also lines 19-20, 41, 67. |
| Services.BuiltInPage | src/pages/Services.jsx:22-40 | Without a document: eleven cards, each showing the picture of its own built-in section, under an empty hero. Also line 113. |
| Services.BuiltInHeadingKeepsPicture | src/pages/Services.jsx:113-114 | A section without an image that keeps a built-in heading shows that heading's picture. |
| Services.UnknownHeadingShowsIcon | src/pages/Services.jsx:113-136 | A section without an image whose heading matches no built-in heading shows the icon. |
| Projects.ChooseView | src/pages/Projects.jsx:196-204 | Categories show when there are any. Otherwise the sections show when there are any. Otherwise the empty state shows. Also lines 83, 171. |
| Projects.BuiltInShowsNothingYet | src/pages/Projects.jsx:28-37 | Without a document the page shows the empty state. |
| Projects.SectionsAlternate | src/pages/Projects.jsx:174 | The older section list alternates its layout: the first section has its image on the left, and each section is laid out opposite to the one before it. |
| Projects.SectionReversed | src/pages/Projects.jsx:174 | `index % 2 !== 0`; `SectionsAlternate` states the alternation. |
| Projects.InitialExpanded | src/pages/Projects.jsx:18-20 | The first category opens when there is one. |
| Projects.Toggle | src/pages/Projects.jsx:39-41 | Toggling the open category closes it, and toggling any other opens it. |
| Projects.AtMostOneOpen | src/pages/Projects.jsx:39-41 | With distinct ids at most one category is open. After a toggle that opens an id, exactly that category is open. Also line 92. |
| Projects.ToggleTwice | src/pages/Projects.jsx:39-41 | Two toggles of the same id restore the state exactly when nothing else was open before. |
| Projects.ToggleTwiceFromOther | src/pages/Projects.jsx:39-41 | For any open category and any other id, the first toggle opens that id and the second closes everything. |
| Projects.RowCells | src/pages/Projects.jsx:147-150 | Cells follow the column order, and a missing key is blank. |
| Projects.RenderTable | src/pages/Projects.jsx:126-160 | "No projects added…" shows exactly when there are no rows. Otherwise row k is numbered k+1. |
| Projects.ProjectsPage.constructor | src/pages/Projects.jsx:11 | Nothing is open at first. |
| Projects.ProjectsPage.Loaded | src/pages/Projects.jsx:15-20 | The load opens the first category when there is one. Otherwise the state is unchanged. |
| Projects.ProjectsPage.ToggleCategory | src/pages/Projects.jsx:39-41 | The state becomes `Toggle` of the old state. |
| SiteSettings.Merge | src/context/SiteSettingsContext.jsx:24 | Each field the document holds wins, even an empty one. An absent field keeps the previous value. |
| SiteSettings.AfterFetch | src/context/SiteSettingsContext.jsx:22-25 | A fetch that returns no document leaves the settings unchanged. |
| SiteSettings.MergeLaws | src/context/SiteSettingsContext.jsx:24 | Merging is idempotent. A document with all three fields decides the settings, and one with none leaves them unchanged. |
| SiteSettings.SiteSettingsStore.constructor | src/context/SiteSettingsContext.jsx:12-17 | The built-in defaults, and loading. |
| SiteSettings.SiteSettingsStore.BeginFetch | src/context/SiteSettingsContext.jsx:20 | Loading starts, and the settings are unchanged. |
| SiteSettings.SiteSettingsStore.EndFetch | src/context/SiteSettingsContext.jsx:22-30 | Loading ends, whatever the fetch gave, and the settings are `AfterFetch`. |
| SiteSettings.SiteSettingsStore.FetchSettings | src/context/SiteSettingsContext.jsx:19-31 | A whole fetch ends not loading, with the merged settings. |
| SiteSettings.SiteSettingsStore.RefreshSettings | src/context/SiteSettingsContext.jsx:37-39 | The same as a fetch. |
| Auth.RoleFrom | src/context/AuthContext.jsx:18-24 | A record gives its role, which may be absent. No record gives no role. A failed read sets nothing. |
| Auth.AuthProvider.constructor | src/context/AuthContext.jsx:9-11 | No user, no role, loading. |
| Auth.AuthProvider.ChildrenShown | src/context/AuthContext.jsx:52 | Children render exactly when not loading. |
| Auth.AuthProvider.OnAuthStateChanged | src/context/AuthContext.jsx:14-29 | The user is always replaced, and signing out clears the role. A record sets its role, and no record sets none. Loading then ends, except after a failed read, which leaves the role and loading as they were. |
| Auth.AuthProvider.UserChanged | src/context/AuthContext.jsx:14-16 | The synchronous part of a notification. The user is always replaced. A sign-out also clears the role and ends loading (lines 25-28). A sign-in leaves the role, its owner and the loading flag as they were until the lookup settles. |
| Auth.AuthProvider.RoleSettled | src/context/AuthContext.jsx:18-28 | The awaited lookup settles for the user it was issued for. A record sets its role, no record sets none, and both end loading and make the role that user's own. A failed read changes nothing. The user on show is never touched. |
| PrivateRoute.Decide | src/components/PrivateRoute.jsx:7-20 | Spinner exactly while loading. The dashboard shows exactly for a signed-in user whose role is exactly "admin". Every other case redirects to the login page. |
| PrivateRoute.GuardUnderProvider | src/context/AuthContext.jsx:52 | Under the provider the spinner never shows. The dashboard opens exactly for a signed-in user whose role on show is "admin". That role need not be the user's own while a lookup is pending (see `StaleRoleWindow`). |
| PrivateRoute.StaleRoleWindow | src/context/AuthContext.jsx:14-28 | After an admin's settled sign-in, a second user without a record signs in with no sign-out in between. Until that user's lookup settles the guard opens the dashboard for them; afterwards it redirects. |
| PrivateRoute.NoDefaultAdmin | src/components/PrivateRoute.jsx:16-17 | A missing role, or any role but exactly "admin", redirects. |
| Contact.Set | src/pages/Contact.jsx:209 | Setting a field changes only that field. |
| Contact.Accepts | src/pages/Contact.jsx:204-206 | The mobile field takes an empty value or one of digits only; every other field takes anything. |
| Contact.ValidateForm | src/pages/Contact.jsx:187-199 | An e-mail error exactly when the e-mail fails the shape, and a mobile error exactly when the mobile is not ten digits. No other key; the fixed messages. |
| Contact.ValidFormOnlyMissesNameOrMessage | src/pages/Contact.jsx:219-227 | A form that passes validation has a non-empty e-mail and mobile. |
| Contact.ShortMobileRejected | src/pages/Contact.jsx:190 | "12345" is rejected, and a ten-digit number is accepted. |
| Contact.ContactForm.constructor | src/pages/Contact.jsx:176-185 | An empty form with no errors. |
| Contact.ContactForm.HandleChange | src/pages/Contact.jsx:201-214 | A non-digit mobile value is refused, so the stored mobile is always digits. Otherwise the field takes the value, and only its own shown error is blanked. |
| Contact.ContactForm.HandleSubmit | src/pages/Contact.jsx:216-240 | Once the handler runs, a message is written exactly when validation passes and all four fields are filled. When validation fails nothing is written and the errors become exactly its result: an e-mail key exactly when the e-mail fails the shape check, and a mobile key exactly when the mobile is not ten digits, each with its fixed message and no other key. After an accepted write the form is empty, the errors are cleared and the confirmation shows. |
| Contact.ContactForm.ConfirmationTimerFires | src/pages/Contact.jsx:236-238 | The confirmation ends, and the form is unchanged. |
| Uploader.FirstRejection | src/components/ImageUploader.jsx:25-35 | No rejection exactly when every file has an allowed type and is at most 5 MiB. |
| Uploader.Check | src/components/ImageUploader.jsx:15-45 | An empty selection is ignored, and a missing configuration stops the batch. The batch proceeds exactly when configured and every file passes. A preview is set exactly in single mode with one file. |
| Uploader.HandleFileChange | src/components/ImageUploader.jsx:15-45 | The loop that returns at the first failing file gives exactly `Check`. |
| Uploader.FirstFailureWins | src/components/ImageUploader.jsx:26-34 | The first failing file, with type checked before size, decides the outcome. |
| Uploader.SizeCap | src/components/ImageUploader.jsx:25-35 | Exactly 5 MiB is accepted, and one byte more is too large. A GIF is refused. |
| Uploader.UploadFiles | src/components/ImageUploader.jsx:47-89 | Any failed upload means no report. Multiple mode reports every URL, and single mode reports the first. |
| Dashboard.DocRef | src/pages/AdminDashboard.jsx:88-91 | The settings page lives in `settings/general`, and every other page in `pages/<id>`. |
| Dashboard.DocRefSeparatesPages | src/pages/AdminDashboard.jsx:88-91 | Distinct pages never share a document, and nothing is stored as `pages/settings`. Also lines 192-197. |
| Dashboard.FirstTab | src/pages/AdminDashboard.jsx:43 | A page opens on its first tab, or on "hero" when it has none. |
| Dashboard.OpeningTabs | src/pages/AdminDashboard.jsx:43-70 | Each page's opening tab. The about page has no content tab. The settings page has no tabs. |
| Dashboard.Tabs | src/pages/AdminDashboard.jsx:47-70 | The `TABS` table: each page's tab ids in order, and none for the settings page or an unknown page. |
| Dashboard.LoadedDoc | src/pages/AdminDashboard.jsx:93-181 | The fetched document, or the page's default when the read gave none; on the about page the sections are then seeded. `LoadHoldsFetchedOrDefault`, `AboutLoadCompletes` and `AboutReloadStable` state it. |
| Dashboard.LoadHoldsFetchedOrDefault | src/pages/AdminDashboard.jsx:94-130 | Outside the about page, the editor holds the fetched document, or else the page's default content. For services that default has eleven sections. |
| Dashboard.AboutLoadCompletes | src/pages/AdminDashboard.jsx:144-181 | For every fetched document, loading the about page changes only its sections and keeps the loaded ones first. A document with a headless section is held exactly as loaded. With all sections headed, every keyword is found afterwards. |
| Dashboard.AboutReloadStable | src/pages/AdminDashboard.jsx:144-181 | For every fetched document, saving the loaded about page and loading it again gives the same document. |
| Dashboard.SetStatField | src/pages/AdminDashboard.jsx:407-421 | The value or the label of a stat changes, and the other stays. |
| Dashboard.SetFeatureField | src/pages/AdminDashboard.jsx:480-494 | The title or the description of a feature changes, and the other stays. |
| Dashboard.SetMemberField | src/pages/AdminDashboard.jsx:707-761 | The edited field of a team member holds the value, and every other field is unchanged. |
| Dashboard.MemberEditLaws | src/pages/AdminDashboard.jsx:707-761 | Writing the old value back undoes an edit, and a second edit overrides the first. |
| Dashboard.AdminDashboard.constructor | src/pages/AdminDashboard.jsx:22-39 | Home page, hero tab, an almost empty document, no messages, not loading. |
| Dashboard.AdminDashboard.LoadPageData | src/pages/AdminDashboard.jsx:82-190 | The held document becomes `LoadedDoc`. The contact page replaces the messages. Loading ends, and the page and tab are unchanged. |
| Dashboard.AdminDashboard.SelectPage | src/pages/AdminDashboard.jsx:41-45 | Choosing another page makes it active, loads its document and opens its first tab. Choosing the page already active changes nothing: React drops a set to the same value, so the effect keyed on `activePage` does not run again. The first load on mount is `LoadPageData` on the initial page. Also lines 21-23. |
| Dashboard.AdminDashboard.SelectTab | src/pages/AdminDashboard.jsx:335 | Only the tab changes. |
| Dashboard.AdminDashboard.HandleSave | src/pages/AdminDashboard.jsx:191-215 | Any write goes to the page's own document with the held data. Pages other than settings are always written. Settings are written exactly when `CheckSettings` passes, so never with all three fields empty. A reload follows exactly a successful settings write. |
| Dashboard.AdminDashboard.MoveItem | src/pages/AdminDashboard.jsx:72-80 | The named array field becomes `Move` of itself. Every other field and the editor state are unchanged. |
| Dashboard.AdminDashboard.DeleteItem | src/pages/AdminDashboard.jsx:425-427 | The named array field loses exactly index i, and nothing else changes. The same filter serves features (466-468), team members (690-692) and logos (863-865). |
| Dashboard.AdminDashboard.HandleSectionChange | src/pages/AdminDashboard.jsx:217-221 | Section i is replaced, and nothing else changes. |
| Dashboard.AdminDashboard.EditSection | src/components/SectionEditor.jsx:5-7 | One typed field of section i changes through `SetField`. |
| Dashboard.AdminDashboard.HandleDeleteSection | src/pages/AdminDashboard.jsx:223-228 | The section goes only when the user confirms. |
| Dashboard.AdminDashboard.HandleAddSection | src/pages/AdminDashboard.jsx:230-235 | Appends "New Section" with empty content and image. |
| Dashboard.AdminDashboard.ContentTab | src/pages/AdminDashboard.jsx:509-547 | Each content-tab action has its effect on the sections. Add and delete are not offered on the about page, so the number of sections there never changes. Those guards cannot be reached from the sidebar, because the about page lists no content tab (lines 53-56, stated in `OpeningTabs`). |
| Dashboard.AdminDashboard.AddStat | src/pages/AdminDashboard.jsx:383-387 | Appends the stat "100+"/"Projects". |
| Dashboard.AdminDashboard.EditStat | src/pages/AdminDashboard.jsx:407-421 | One field of stat i changes. |
| Dashboard.AdminDashboard.AddFeature | src/pages/AdminDashboard.jsx:445-449 | Appends the feature "Feature"/"Description". |
| Dashboard.AdminDashboard.EditFeature | src/pages/AdminDashboard.jsx:480-494 | One field of feature i changes. |
| Dashboard.AdminDashboard.AddMember | src/pages/AdminDashboard.jsx:671-673 | Appends "New Member"/"Role" with no image. |
| Dashboard.AdminDashboard.EditMember | src/pages/AdminDashboard.jsx:707-761 | One field of member i changes. |
| Dashboard.AdminDashboard.SetPageImage | src/pages/AdminDashboard.jsx:790-824 | The uploaded URL goes into exactly the chosen image slot. |
| Dashboard.AdminDashboard.AddLogos | src/pages/AdminDashboard.jsx:846-848 | The uploaded URLs are appended after the existing logos. |
| Dashboard.AdminDashboard.SetSettingsField | src/pages/AdminDashboard.jsx:305-323 | The typed value, even "", replaces exactly that contact field. |
| Dashboard.AdminDashboard.AddCategory | src/pages/AdminDashboard.jsx:887-899 | Appends `NewCategory` with the given id. |
| Dashboard.AdminDashboard.DeleteCategory | src/pages/AdminDashboard.jsx:915-918 | The category goes only when the user confirms. |
| Dashboard.AdminDashboard.UpdateCategory | src/pages/AdminDashboard.jsx:933-936 | Category i is replaced, and nothing else changes. |
| Dashboard.AdminDashboard.SetCategoryTitle | src/pages/AdminDashboard.jsx:933-936 | Only the title of category i changes. |
| Dashboard.AdminDashboard.SetColumns | src/pages/AdminDashboard.jsx:947-952 | Only the columns of category i change, to `ParseColumns` of the text. The rows are untouched. |
| Dashboard.ColumnsEditStable | src/pages/AdminDashboard.jsx:946-952 | A column edit keeps the rows, and the text then shown parses back to the stored columns. |
| Dashboard.AdminDashboard.AddRow | src/pages/AdminDashboard.jsx:962-968 | Category i gains one last row, whose keys are exactly its columns, each "". Every other category, row and field is unchanged. |
| Dashboard.AdminDashboard.EditCell | src/pages/AdminDashboard.jsx:995-998 | Only that cell of row r in category i changes. |
| Dashboard.AdminDashboard.DeleteRow | src/pages/AdminDashboard.jsx:1005-1008 | Only row r of category i goes. |
| Dashboard.AdminDashboard.MoveHeroSlide | src/components/admin/HeroSlideManager.jsx:25-33 | The held document becomes `MoveSlide` of itself. |
| Dashboard.AdminDashboard.RemoveHeroSlide | src/components/admin/HeroSlideManager.jsx:113-115 | The held document becomes `RemoveSlide` of itself. |
| Dashboard.AdminDashboard.AddHeroSlide | src/components/admin/HeroSlideManager.jsx:128-132 | A blank slide is appended to the shown slides. |
| Dashboard.AdminDashboard.EditHeroSlide | src/components/admin/HeroSlideManager.jsx:67-104 | One field of the shown slide i changes, and the whole list is stored. |

## Left out

- The store (`src/hooks/useFirestore.js`) is not modelled. Reads are an input: an optional document (none for a missing document or a failed read), the listed messages, and a write outcome. The store's merge-on-write and its `updatedAt`/`createdAt` timestamps belong to the library.
- Uploads to the image host are not modelled: the network call, concurrency and the progress percentage. `Uploader.UploadFiles` takes each upload's answer as an input, in the order the uploads finish.
- Uploader.UploadFiles: does not model that `Promise.all` stops at the first rejection, which is the moment the caller is told nothing. It only models that the caller receives nothing once any upload failed.
- Sign-in, sign-out and the identity provider's subscription are not modelled: they are calls into the identity provider. The notification handler is an input-driven method.
- The browser side effects are inputs or left out:
  - the confirmation dialog is a boolean input;
  - a save's reload into the new settings is a returned flag;
  - toasts and console logging are left out;
  - the carousel's six-second interval is the step method `Carousel.HeroCarousel.Tick`, and the contact page's three-second confirmation timer is `Contact.ContactForm.ConfirmationTimerFires`;
  - the map's 500 ms load delay on the contact page and the counter's spring animation in the stats section are left out, because they are presentation only.
- Category ids come from the clock, so `AddCategory` takes the id as a parameter.
- The showHero checkbox of the hero tab is not an operation. It is drawn only when the page is not "home", inside a block drawn only when the page is "home", so it can never appear.
- The messages modal and the message list rendering are not modelled: they only display the stored messages.
- The title split into words on the public pages, and the framer-motion and random particle animations, are left out because they are presentation only.
- The presentational pages and components are left out because they only render stored fields with `||` fallbacks: About, Clients, FeaturesSection, ClientMarquee, Navbar, Footer, Layout and App.
- `parseInt` loses precision beyond 2^53; the stat value is modelled as an unbounded natural number.
- Field edits in the editor mutate elements of a shallow copy of an array that the previous state shares. The model treats documents as values, because React discards the previous state. Aliasing between the old and new state is not modelled.
- Carousel.HeroCarousel: the slides are fixed for one carousel's lifetime. What the index does when a parent passes a different number of slides is not modelled.
- A getDocument error with a message other than "Document not found" is modelled on the public pages as an error string input. The exact message text comes from the store.
- A document's fields beyond those the site reads, and the settings document's extra fields, are not modelled. Absent arrays and absent strings read as empty wherever the code treats them alike.

- Dashboard.AdminDashboard.LoadPageData: each load is one atomic step. A load is never cancelled, so a slower read of a page left earlier can finish after the current page's read. The held document then belongs to the old page while the active page is the new one. The model does not capture that interleaving.
- Dashboard.AdminDashboard.HandleSave: writes the held document to the active page's document. After the interleaving above, that would write the old page's content into the new page's document. The Save button is disabled only while one store call is pending; the model does not capture this.
- Dashboard.AdminDashboard.SetPageImage: applied to the document held when the upload completes. In the source the upload callback spreads the document captured when the upload started, so edits made during the upload are overwritten. The model does not capture that loss.
- Dashboard.AdminDashboard.AddLogos: has the same upload-callback limitation as `SetPageImage`: edits made during the upload are lost in the source but kept in the model.
- Dashboard.AdminDashboard.AddHeroSlide: in the source, a slide added while a slide image upload is pending is dropped when that upload completes. The upload's callback writes back the slide list captured when the upload started. The model keeps the added slide.
- Dashboard.AdminDashboard.EditHeroSlide: an image edit coming from an upload callback applies to the document captured at the upload's start. The model applies it to the current document.
- Projects.ProjectsPage.Loaded: models only the completed load. The spinner while loading and the error screen for a read error other than "Document not found" are not modelled, because they only choose what to render.
- Contact.ContactForm.HandleSubmit: the browser's own form check is not modelled. All four inputs are `required`, the e-mail input has `type="email"`, and the form has no `noValidate` (Contact.jsx:255-300). So the browser refuses a submit with an empty field or a malformed e-mail before `handleSubmit` runs. The model starts at the handler. For an empty e-mail it records the e-mail error, where the page records nothing. An address such as "a@b..c" matches the handler's pattern and is written by the model, but the browser's e-mail check refuses its empty domain label.
- Contact.ContactForm.HandleChange: the mobile input's `maxLength={10}` is not modelled. The browser stops typing at ten characters, while `Accepts` lets a longer digit string through to the handler.
