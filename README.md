# A verified model of the site's interactive components

The repository is a Next.js brochure site for a digital agency. Most of it is fixed markup.
A handful of components hold behaviour that can be stated exactly, and this project models
those in Dafny:

- the software catalog's category filter and case-insensitive search;
- the graphics portfolio's category filter, orbit, focus toggle and lightbox navigation;
- the category filters, featured badges and live-site links of the projects page and the
  home-page projects section;
- the contact form's fields and simulated submission;
- the rotating services section's screen-size classification, call-to-action split and
  hover pause;
- the services page's colour-class lookup and its service data.

Each component is one module. Its hard-coded data are constants, its pure expressions are
functions, and its React state is a class whose methods are the event handlers. Three
shared modules supply the rest:

- `Wrappers` has the `Option` type, used for `number | null` state and for `find`.
- `Seqs` has `filter`, `find` and `findIndex`, together with the facts about them that
  every filter relies on.
- `Text` covers `toLowerCase`, restricted to ASCII, along with `includes` and `trim`.

JavaScript semantics that matter are written out:

- `%` truncates toward zero.
- `findIndex` returns -1 when nothing matches.
- `trim` removes the ECMAScript white-space and line-terminator code points.
- Reading the `id` of a missing array element throws. The model represents that as
  `None`, or as a handler result of `false`.

A React effect is modelled as an explicit step. In the catalog it is `RunFilterEffect`; in
the portfolio it is `CommitRender`. A timer callback is an explicit event as well:
`TimerFires` in the contact form.

Browser input never reaches these functions, so they take it as parameters:

- The window width comes in as an integer.
- A form field's value comes in as a string.
- The choice of clicked element comes in as an id or an index.

## Where the source's expressions are defined

The table below lists the members that carry contracts. The definitions they talk about
model the following expressions of the source; each carries no contract of its own, and
the lemmas named with it state what it computes.

- `SoftwareCatalog.IsBlank`, `MatchesSearch`, `CategoryAdmits`, `SearchAdmits`, `Admits` and `Shown`:
  the `trim() !== ""` test, the three `includes` tests and the two filter steps of
  src/app/software-catalog/page.tsx:177-191 (`ShownIff`, `SearchSelects`, `FilterEffect`).
- `Text.Includes` and `Text.Trim`: `includes` and `trim` as used at
  src/app/software-catalog/page.tsx:185-190 (`TrimEmptyIff`, `SearchSelects`).
- `GraphicsPortfolio.FilteredGraphics`: `filteredGraphics`, src/components/GraphicsPortfolio.tsx:57-59
  (`FilteredIff`, `FilteredIsSubsequence`, `FilteredDistinct`).
- `GraphicsPortfolio.SetUp`: the orbit setup of src/components/GraphicsPortfolio.tsx:63-78;
  `AfterRenderAsWritten` and `AfterRenderIntended`: that setup under the written
  `[filteredGraphics]` dependency and under a category dependency, :61-79
  (`FocusLostAsWritten`, `SetupRerunsIff`, `Portfolio.CommitRender`).
- `GraphicsPortfolio.Portfolio.IsRotating`: the auto-rotate guard at
  src/components/GraphicsPortfolio.tsx:83; `Portfolio.LightboxShown`: the overlay guard at :329
  (`Portfolio.HandleFocus`, `ResetView`, `OpenLightbox`, `CloseLightbox`).
- `ProjectCards.FilterProjects`: `filteredProjects`, src/app/projects/page.tsx:91-93 and
  src/components/ProjectsSection.tsx:58-60 (`FilterProjectsIff`, `FilterProjectsOrdered`,
  `FilterProjectsEmptyIff`).
- `ProjectsPage.Page.Listed` and `EmptyStateShown`: the rendered list and the empty-state
  condition of src/app/projects/page.tsx:91-93 and :335 (`Page.SelectCategory`, `Page.ShowAll`).
- `ContactPage.RequiredFilled`: the `required` attributes of the name, email and message
  controls, src/app/contact/page.tsx:145, 158 and 205; `ContactForm.FormShown`: the
  `submitSuccess` switch at :113 (`ContactForm.HandleSubmit`, `OptionalFieldsIrrelevant`).
- `ServicesSection.Radius`: `radius`, src/components/ServicesSection.tsx:195 (`RadiusTable`,
  `RadiusMonotone`); `CtaCard` and `ServiceCards`: `ctaCard` and `serviceCards`, :136-137
  (`CtaSplit`).
- `ServicesPage.ColorMap`: `colorMap`, src/app/services/page.tsx:151-200; `Palette`: the
  independent class scheme it is checked against (`ColorMapFollowsPalette`, `GetColorClasses`).

## Model

| member | source | states |
|---|---|---|
| Text.ToLower | src/app/software-catalog/page.tsx:186-190 | lower-casing maps A–Z to a–z and leaves every other character alone; the result is never an upper-case letter |
| Text.LowerStr | src/app/software-catalog/page.tsx:186-190 | the ASCII lower-casing keeps the length of the string, mapping it character by character |
| Text.LowerStrIdempotent | src/app/software-catalog/page.tsx:186 | lower-casing twice is lower-casing once |
| Text.TrimStart | src/app/software-catalog/page.tsx:185 | the result is a suffix of the input; the removed prefix is all white space; the result does not start with white space |
| Text.TrimEnd | src/app/software-catalog/page.tsx:185 | the result is a prefix of the input; the removed suffix is all white space; the result does not end with white space |
| Text.TrimEmptyIff | src/app/software-catalog/page.tsx:185 | `trim() === ""` holds exactly when every character is white space |
| Text.LowerKeepsWhitespace | src/app/software-catalog/page.tsx:185-186 | lower-casing neither creates nor removes white space |
| Text.BlankIgnoresCase | src/app/software-catalog/page.tsx:185-186 | two queries that lower-case alike are either both blank or both non-blank |
| Seqs.Filter | src/app/software-catalog/page.tsx:181 | `filter` returns no more elements than it got, and every element it returns satisfies the predicate |
| Seqs.Find | src/components/ServicesSection.tsx:136 | `find` returns a value exactly when some element satisfies the predicate; the value satisfies it and comes from the array |
| Seqs.FindIsFirst | src/components/ServicesSection.tsx:136 | `find` returns the first element satisfying the predicate: the element at the index `findIndex` returns, and nothing when that index is -1 |
| Seqs.FindIndex | src/components/GraphicsPortfolio.tsx:133 | `findIndex` returns -1 exactly when no element matches; otherwise it returns the first matching index |
| Seqs.FilterMembership | src/app/software-catalog/page.tsx:181 | an element is kept exactly when it is in the input and satisfies the predicate |
| Seqs.FilterIsSubsequence | src/app/software-catalog/page.tsx:181-187 | `filter` returns an order-preserving subsequence of its input |
| Seqs.SubsequenceElements | src/app/software-catalog/page.tsx:177-194 | a subsequence is no longer than its source and holds only elements of it |
| Seqs.FilterKeepsAll | src/app/software-catalog/page.tsx:177 | when every element satisfies the predicate, the input comes back unchanged |
| Seqs.FilterEmptyIff | src/app/projects/page.tsx:335 | the result is empty exactly when no element satisfies the predicate |
| Seqs.FilterUnique | src/components/ProjectsSection.tsx:58-60 | when exactly one element satisfies the predicate, the result is that element alone |
| Seqs.FilterPrefix | src/components/ServicesSection.tsx:137 | when exactly the first k elements satisfy the predicate, the result is that prefix |
| Seqs.FilterAgree | src/app/software-catalog/page.tsx:180-191 | two predicates that agree on every element select the same elements |
| Seqs.FilterThenFilter | src/app/software-catalog/page.tsx:177-194 | two chained `filter` calls select what a single pass with both conditions selects |
| SoftwareCatalog.FilterEffect | src/app/software-catalog/page.tsx:176-195 | the two-step effect stores exactly the single-pass selection `Shown`: the catalog items that pass both the category and the search condition, in order |
| SoftwareCatalog.UnfilteredShowsAll | src/app/software-catalog/page.tsx:177-185 | with category "all" and a blank query, the whole catalog is shown in its original order |
| SoftwareCatalog.ShownIsSubsequence | src/app/software-catalog/page.tsx:177-194 | the result is always an order-preserving subsequence of the catalog |
| SoftwareCatalog.ShownIff | src/app/software-catalog/page.tsx:177-194 | soundness and completeness: an item is shown exactly when it is in the catalog and passes both conditions |
| SoftwareCatalog.ShownHaveCategory | src/app/software-catalog/page.tsx:180-182 | when the category is not "all", every shown item has exactly that category |
| SoftwareCatalog.SearchSelects | src/app/software-catalog/page.tsx:185-191 | for a non-blank query, an item of the category is shown exactly when the lower-cased, untrimmed query occurs in its lower-cased name, description or provider |
| SoftwareCatalog.SearchIgnoresCase | src/app/software-catalog/page.tsx:186-190 | queries that lower-case alike show the same items |
| SoftwareCatalog.SearchLowerCaseQuery | src/app/software-catalog/page.tsx:186 | a query and its lower-cased form show the same items |
| SoftwareCatalog.CategoryWithoutSearch | src/app/software-catalog/page.tsx:179-185 | with a blank query, a category shows exactly the `filter` of the catalog by that category |
| SoftwareCatalog.InitiallyAll | src/app/software-catalog/page.tsx:171-173 | on load the whole catalog is shown, as the initial state promises |
| SoftwareCatalog.ButtonShowsPair | src/app/software-catalog/page.tsx:9-163 | with no search, every category button other than "all" shows the two products of that category |
| SoftwareCatalog.ButtonsAreCategories | src/app/software-catalog/page.tsx:157-163 | every category button is "all" or one of the four catalog categories |
| SoftwareCatalog.ViewConsistent | src/app/software-catalog/page.tsx:285-289 | the count shown equals the number of cards; the "No results found" panel appears exactly when there are no cards; the cards are the filtered list |
| SoftwareCatalog.CatalogPage.constructor | src/app/software-catalog/page.tsx:171-173 | the initial state is category "all", an empty query and the full catalog, and it is consistent |
| SoftwareCatalog.CatalogPage.RunFilterEffect | src/app/software-catalog/page.tsx:176-195 | after the effect, the stored list is `Shown` of the current category and query |
| SoftwareCatalog.CatalogPage.SelectCategory | src/app/software-catalog/page.tsx:274 | a button sets the category, keeps the query, and the effect makes the list consistent |
| SoftwareCatalog.CatalogPage.SetSearchQuery | src/app/software-catalog/page.tsx:259 | typing sets the query, keeps the category, and the effect makes the list consistent |
| SoftwareCatalog.CatalogPage.ClearAllFilters | src/app/software-catalog/page.tsx:370-373 | "Clear all filters" sets the category to "all" and the query to "", and then the full catalog is shown |
| GraphicsPortfolio.FilteredIff | src/components/GraphicsPortfolio.tsx:57-59 | `FilteredGraphics(c)` lists a graphic exactly when it is one of the twelve and either c is 'All' or the graphic's category is c |
| GraphicsPortfolio.FilteredIsSubsequence | src/components/GraphicsPortfolio.tsx:57-59 | `FilteredGraphics(c)` keeps the order of the twelve graphics |
| GraphicsPortfolio.GraphicsDistinct | src/components/GraphicsPortfolio.tsx:6-19 | no two graphics share an id |
| GraphicsPortfolio.FilterKeepsDistinct | src/components/GraphicsPortfolio.tsx:59 | filtering a list with distinct ids leaves the ids distinct |
| GraphicsPortfolio.FilteredDistinct | src/components/GraphicsPortfolio.tsx:57-59 | every `FilteredGraphics(c)` has distinct ids |
| GraphicsPortfolio.EveryButtonSelectsSomething | src/components/GraphicsPortfolio.tsx:6-45 | every category button lists at least one graphic |
| GraphicsPortfolio.OrbitGraphics | src/components/GraphicsPortfolio.tsx:64-75 | an orbit's graphics are its entries' graphics, in order |
| GraphicsPortfolio.AtRest | src/components/GraphicsPortfolio.tsx:64-75 | every graphic becomes an entry with scale 1 and depth 0, in order |
| GraphicsPortfolio.BuildOrbit | src/components/GraphicsPortfolio.tsx:63-75 | the orbit holds exactly min(n, 8) entries: the first filtered graphics in order, each with scale 1 and depth 0 |
| GraphicsPortfolio.FocusOn | src/components/GraphicsPortfolio.tsx:108-115 | the matching entry gets scale 1.5 and depth 10; every other entry gets 0.8 and 0; graphics and order are unchanged |
| GraphicsPortfolio.FocusKeepsGraphics | src/components/GraphicsPortfolio.tsx:108-115 | focusing leaves the ids and their order alone |
| GraphicsPortfolio.FocusIdempotent | src/components/GraphicsPortfolio.tsx:108-115 | focusing the same id a second time changes nothing |
| GraphicsPortfolio.FocusSingleFront | src/components/GraphicsPortfolio.tsx:108-115 | with distinct ids, exactly one entry is at the front after a focus |
| GraphicsPortfolio.JsRem | src/components/GraphicsPortfolio.tsx:134-142 | JavaScript's truncating `%` has magnitude below n and is non-negative for a non-negative dividend |
| GraphicsPortfolio.JsRemIsIndex | src/components/GraphicsPortfolio.tsx:134-142 | for the dividends the handlers form, `%` wraps at most once; -1 % 1 gives 0 |
| GraphicsPortfolio.IndexOfId | src/components/GraphicsPortfolio.tsx:133 | the result is -1 exactly when the id is not listed; otherwise it is the first index holding the id |
| GraphicsPortfolio.IndexOfListed | src/components/GraphicsPortfolio.tsx:133 | with distinct ids, the index of an entry's id is that entry's position |
| GraphicsPortfolio.NextImageId | src/components/GraphicsPortfolio.tsx:131-137 | `nextImage` gives an id exactly when the list is non-empty; an empty list makes the handler throw |
| GraphicsPortfolio.PrevImageId | src/components/GraphicsPortfolio.tsx:139-145 | `prevImage` gives an id exactly when the list is non-empty; an empty list makes the handler throw |
| GraphicsPortfolio.StepsStayInList | src/components/GraphicsPortfolio.tsx:131-145 | next and previous always select an id of the filtered list |
| GraphicsPortfolio.StepPositions | src/components/GraphicsPortfolio.tsx:133-143 | from a listed id, next moves to position (k+1) mod n and previous to (k-1) mod n |
| GraphicsPortfolio.StepsFromUnlisted | src/components/GraphicsPortfolio.tsx:133-143 | for an unlisted id, next selects index 0 and previous selects index n-2 (index 0 when n = 1) |
| GraphicsPortfolio.NextPrevRoundTrip | src/components/GraphicsPortfolio.tsx:131-145 | next then previous, and previous then next, return to a listed selection |
| GraphicsPortfolio.LightboxGraphic | src/components/GraphicsPortfolio.tsx:381-392 | the lightbox's lookup finds a graphic exactly when one of the twelve has the selected id |
| GraphicsPortfolio.StepsShowAGraphic | src/components/GraphicsPortfolio.tsx:131-145 | after next or previous over any non-empty filtered list, the lightbox has a graphic to show |
| GraphicsPortfolio.FocusLostAsWritten | src/components/GraphicsPortfolio.tsx:57-79 | as written, a focus click under "Branding" is undone by the re-run setup; with the intended dependency the focus stays |
| GraphicsPortfolio.SetupRerunsIff | src/components/GraphicsPortfolio.tsx:57-79 | with the intended dependency the orbit is rebuilt exactly when the category changed; as written it is rebuilt after every render unless the category is 'All' |
| GraphicsPortfolio.Portfolio.constructor | src/components/GraphicsPortfolio.tsx:48-79 | initial state: category 'All', nothing selected, lightbox closed, auto-rotate on, orbit set up over all graphics and unfocused |
| GraphicsPortfolio.Portfolio.SelectCategory | src/components/GraphicsPortfolio.tsx:181 | a category button sets the active category |
| GraphicsPortfolio.Portfolio.CommitRender | src/components/GraphicsPortfolio.tsx:61-79 | the setup effect with the intended dependency: when the category changed, the orbit is rebuilt and unfocused; otherwise orbit and focus are kept |
| GraphicsPortfolio.Portfolio.HandleFocus | src/components/GraphicsPortfolio.tsx:101-116 | clicking the focused id clears the focus and leaves the entries unchanged; any other id is focused, its entry comes to the front and the rotation stops |
| GraphicsPortfolio.Portfolio.ResetView | src/components/GraphicsPortfolio.tsx:299 | "Reset View" clears the focus, so the orbit rotates exactly when auto-rotate is on |
| GraphicsPortfolio.Portfolio.ToggleAutoRotate | src/components/GraphicsPortfolio.tsx:291 | the pause/resume button flips auto-rotate |
| GraphicsPortfolio.Portfolio.OpenLightbox | src/components/GraphicsPortfolio.tsx:118-123 | a double click selects the id, opens the lightbox and stops auto-rotation; the overlay renders when the id is truthy |
| GraphicsPortfolio.Portfolio.CloseLightbox | src/components/GraphicsPortfolio.tsx:125-129 | closing turns auto-rotate back on, hides the overlay and keeps the selection; the orbit rotates again unless something is focused |
| GraphicsPortfolio.Portfolio.NextImage | src/components/GraphicsPortfolio.tsx:131-137 | with no selection, nothing happens; otherwise the selection becomes `NextImageId`, and the handler fails on an empty list |
| GraphicsPortfolio.Portfolio.PrevImage | src/components/GraphicsPortfolio.tsx:139-145 | with no selection, nothing happens; otherwise the selection becomes `PrevImageId`, and the handler fails on an empty list |
| ProjectCards.FilterProjectsIff | src/app/projects/page.tsx:91-93 | `FilterProjects(data, c)` lists a project exactly when it is in the data and either c is 'All' or the project's category is c |
| ProjectCards.FilterProjectsOrdered | src/components/ProjectsSection.tsx:58-60 | `FilterProjects(data, c)` keeps the order of the data |
| ProjectCards.FilterProjectsEmptyIff | src/app/projects/page.tsx:335 | `FilterProjects(data, c)` for a category other than 'All' is empty exactly when no project has category c |
| ProjectCards.LinkFor | src/app/projects/page.tsx:315-322 | the link reads "Visit Live Site" and opens `_blank` exactly when the URL is not "#"; otherwise it reads "Coming Soon" with empty target and rel |
| ProjectCards.CardFor | src/app/projects/page.tsx:272-276 | a card gets the yellow border and the "Featured Client" badge exactly when the project's id is at most 2 |
| ProjectCards.NewTabIsIsolated | src/components/ProjectsSection.tsx:180-187 | a link that opens a new tab always carries `noopener noreferrer` |
| ProjectsPage.FeaturedAreLive | src/app/projects/page.tsx:10-71 | among the six projects, the featured ones are exactly those with a live site |
| ProjectsPage.EveryButtonSelectsSomething | src/app/projects/page.tsx:10-82 | every category button lists at least one project |
| ProjectsPage.Page.constructor | src/app/projects/page.tsx:85-86 | the page starts on the web tab with category 'All' |
| ProjectsPage.Page.SelectTab | src/app/projects/page.tsx:192-207 | the tab buttons set the tab and nothing else |
| ProjectsPage.Page.SelectCategory | src/app/projects/page.tsx:250 | a category button sets the category; for a button's category `EmptyStateShown()` is false |
| ProjectsPage.Page.ShowAll | src/app/projects/page.tsx:335-348 | "Show All Projects" resets the category to 'All'; then `Listed()` is every project and `EmptyStateShown()` is false |
| ProjectsSection.CoveredCategories | src/components/ProjectsSection.tsx:9-40 | 'Corporate', 'Creative' and 'E-commerce' each list exactly one project |
| ProjectsSection.UncoveredCategories | src/components/ProjectsSection.tsx:9-51 | 'Web Application', 'Mobile App' and 'Education' are buttons that list no project |
| ProjectsSection.Section.constructor | src/components/ProjectsSection.tsx:54-60 | the section starts at 'All', listing its three projects in order |
| ProjectsSection.Section.SelectCategory | src/components/ProjectsSection.tsx:115 | a button sets the active category to its label |
| ContactPage.UpdateField | src/app/contact/page.tsx:34-37 | `handleChange` sets the named field to the value and leaves the other four unchanged |
| ContactPage.FormExtensionality | src/app/contact/page.tsx:23-29 | helper for the three update laws below: the form state is exactly the five controlled values, so two states showing the same in every control are equal |
| ContactPage.LastChangeWins | src/app/contact/page.tsx:34-37 | a later change to a control overrides an earlier one |
| ContactPage.ChangesCommute | src/app/contact/page.tsx:34-37 | changes to different controls commute |
| ContactPage.ChangeToSameValue | src/app/contact/page.tsx:34-37 | setting a control to the value it already shows changes nothing |
| ContactPage.OptionalFieldsIrrelevant | src/app/contact/page.tsx:145-205 | editing phone or service never changes `RequiredFilled`, whether name, email and message are non-empty |
| ContactPage.ContactForm.constructor | src/app/contact/page.tsx:23-32 | all five fields start as "", not submitting and not sent, with no timer pending |
| ContactPage.ContactForm.HandleChange | src/app/contact/page.tsx:34-37 | while the form is shown, an edit updates exactly that field |
| ContactPage.ContactForm.HandleSubmit | src/app/contact/page.tsx:39-48 | a submit is accepted exactly when the form is shown, the button is enabled (not submitting) and name, email and message are filled; it sets submitting and schedules the timer, keeping the data and the success flag |
| ContactPage.ContactForm.TimerFires | src/app/contact/page.tsx:44-47 | the timer callback sets success, clears submitting and replaces the form with the success panel |
| ContactPage.ContactForm.SendAnother | src/app/contact/page.tsx:113-135 | "Send Another Message" hides the success panel and shows the form again; the data is not cleared |
| ContactPage.SubmitCycle | src/app/contact/page.tsx:23-135 | a form filled with any valid data goes through submit, timer and reset, and comes back showing that data |
| ServicesSection.Classify | src/components/ServicesSection.tsx:148-156 | width < 768 classifies as mobile, 768 ≤ width < 1024 as tablet, and width ≥ 1024 as desktop |
| ServicesSection.ClassifyMonotone | src/components/ServicesSection.tsx:148-156 | a wider window never classifies as a narrower screen |
| ServicesSection.RadiusTable | src/components/ServicesSection.tsx:195 | at a window width below 768 pixels the orbit radius is 140, below 1024 it is 200, and from 1024 on it is 260 |
| ServicesSection.RadiusFollowsRank | src/components/ServicesSection.tsx:195 | a wider screen class never has a smaller radius |
| ServicesSection.RadiusMonotone | src/components/ServicesSection.tsx:195 | `Radius(Classify(w))` never decreases as the window width w grows |
| ServicesSection.CtaSplit | src/components/ServicesSection.tsx:136-137 | `CtaCard()` (`ctaCard`) is the entry titled "CTA"; `ServiceCards()` (`serviceCards`) is the other seven in order, none titled "CTA" |
| ServicesSection.CtaLabel | src/components/ServicesSection.tsx:400-417 | there is no button without a CTA entry; the label is its non-empty `buttonText`, otherwise "Get Started" |
| ServicesSection.CtaButtonShown | src/components/ServicesSection.tsx:136-417 | the section renders a "Get Started" button |
| ServicesSection.ZIndex | src/components/ServicesSection.tsx:315-331 | the hovered card has z-index 50 and every other card 10 |
| ServicesSection.OneCardOnTop | src/components/ServicesSection.tsx:315-331 | at most one card has z-index 50 |
| ServicesSection.RotatingServices.constructor | src/components/ServicesSection.tsx:140-143 | nothing is hovered, the rotation is not paused, and the screen size is 'desktop' until the first check |
| ServicesSection.RotatingServices.CheckScreenSize | src/components/ServicesSection.tsx:148-156 | the stored screen size is the classification of the width |
| ServicesSection.RotatingServices.MouseEnter | src/components/ServicesSection.tsx:352-355 | entering a card sets it as hovered, lifts it to z-index 50 above all the others, and pauses the rotation |
| ServicesSection.RotatingServices.MouseLeave | src/components/ServicesSection.tsx:356-359 | leaving clears the hover, puts every card at z-index 10 and resumes the rotation |
| ServicesPage.ColorMapFollowsPalette | src/app/services/page.tsx:150-200 | `ColorMap`'s keys are exactly the six colour names; for each colour c the classes are bg-c-50, bg-c-100, bg-c-600, border-c-200, text-c-600 and "hover:bg-c-600 hover:text-white" |
| ServicesPage.EntryFollowsPalette | src/app/services/page.tsx:150-200 | every entry of `ColorMap` equals `Palette` of its key |
| ServicesPage.BlueHover | src/app/services/page.tsx:158 | the blue hover class follows the scheme |
| ServicesPage.BlueEntry | src/app/services/page.tsx:152-159 | the blue entry follows the scheme |
| ServicesPage.PurpleHover | src/app/services/page.tsx:166 | the purple hover class follows the scheme |
| ServicesPage.PurpleEntry | src/app/services/page.tsx:160-167 | the purple entry follows the scheme |
| ServicesPage.PinkHover | src/app/services/page.tsx:174 | the pink hover class follows the scheme |
| ServicesPage.PinkEntry | src/app/services/page.tsx:168-175 | the pink entry follows the scheme |
| ServicesPage.GreenHover | src/app/services/page.tsx:182 | the green hover class follows the scheme |
| ServicesPage.GreenEntry | src/app/services/page.tsx:176-183 | the green entry follows the scheme |
| ServicesPage.YellowHover | src/app/services/page.tsx:190 | the yellow hover class follows the scheme |
| ServicesPage.YellowEntry | src/app/services/page.tsx:184-191 | the yellow entry follows the scheme |
| ServicesPage.RedHover | src/app/services/page.tsx:198 | the red hover class follows the scheme |
| ServicesPage.RedEntry | src/app/services/page.tsx:192-199 | the red entry follows the scheme |
| ServicesPage.GetColorClasses | src/app/services/page.tsx:150-203 | a known colour name gets its scheme's classes; any other string falls back to the blue classes |
| ServicesPage.ColorClassesInjective | src/app/services/page.tsx:150-203 | different colour names get different dark classes |
| ServicesPage.RefsCoverServices | src/app/services/page.tsx:206-264 | there are as many refs as services, so `serviceRefs[index]` is defined for every rendered index |
| ServicesPage.ServiceColorsAreMapped | src/app/services/page.tsx:51-137 | every service's colour is a key of the map, so no card falls back to blue |
| ServicesPage.ServiceColorsDistinct | src/app/services/page.tsx:51-137 | the six service colours are pairwise distinct, and so are their classes |
| ServicesPage.FiveFeaturesEach | src/app/services/page.tsx:52-144 | every service lists exactly five features |

## Left out

- Floating-point geometry is not modelled: orbit angles and positions, the 0.005 rotation step, and `calculatePosition`. The model keeps an orbit entry's graphic, scale and depth, with scales as exact reals.
- Timers are not modelled as time. The 16 ms rotation interval, the 100 ms resize debounce and the 1500 ms submission delay are not clocks; the submission timer is the explicit `TimerFires` event, and `ClientLoader`'s load-time race is not part of this model.
- DOM side effects are not modelled: `document.body.style.overflow`, the resize listener, and click propagation in the lightbox.
- Clicks are not modelled at the level of events. A double click also delivers two single clicks, and so two focus toggles, before `openLightbox`; the model has the handlers as separate methods.
- Framer-motion animations, `useInView`, Next.js routing, images, links, layouts, metadata and the Tailwind and Next configuration are framework behaviour and are not modelled.
- Native form validation is only the `RequiredFilled` condition on `HandleSubmit`. The browser's `type="email"` syntax check is not modelled.
- Text.ToLower: maps only A–Z. JavaScript's `toLowerCase` follows the full Unicode case mapping, which this model does not capture.
- ServicesPage.GetColorClasses: models the lookup over the six declared keys only. In JavaScript, a string such as "constructor" would find an inherited object property instead of falling back to blue; the `ColorName` type excludes such strings.
- SoftwareCatalog.ButtonShowsPair: states that each button's two products are shown, not that they are the only ones. Computing the whole filter over the eight-entry catalog literal is too costly for the verifier, so the exact list is given by `ShownIff` instead.
- ProjectsSection uses the first three entries of `ProjectsPage.WebProjects` as its data. The section declares its own literal, and that literal is identical to those three entries.
- The card rendering (images, descriptions, technology chips and colours), the centre card and the `Tilt` colour fallback are fixed markup and are not modelled.
- These components are purely presentational and are not part of this model: HeroSection (including the unused `AnimatedTitle`), Navbar, CTASection, StatsSection, CustomStatsSection, VisualSection, SoftwareSolutions, the about page, the not-found page and the layouts.
- The Chatbot is not modelled. It holds a single open/closed toggle, and its send handler is an empty stub.

## Findings

| source | as written | input that shows it | evidently intended | confidence | as-written member | corrected member |
|---|---|---|---|---|---|---|
| src/components/GraphicsPortfolio.tsx:57-79 | the orbit-setup effect depends on `filteredGraphics`, which is a fresh array on every render for any category other than 'All'; the setup therefore re-runs after every render, resetting the scales and clearing the focus; since the setup's own `setOrbitItems` stores a new array and schedules another render, the render/effect cycle never settles, and each pass also overwrites the position update of the 16 ms rotation interval | with "Branding" active, click graphic 1: `handleFocus` focuses it and re-renders, and the re-run setup returns it to scale 1 and focus null | the orbit is rebuilt only when the category changes, as it is for 'All' | not executed | GraphicsPortfolio.FocusLostAsWritten | GraphicsPortfolio.Portfolio.CommitRender |
