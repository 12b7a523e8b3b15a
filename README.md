# Portfolio site — a Dafny model of its interactive core

This project models the behaviour behind a single-page React portfolio. It
covers:

- the page shell: a scroll-spy picks the active section; there is section
  navigation, a mobile menu and a dark-mode theme kept in local storage and
  on the root element;
- the standalone header;
- the project catalogue: categories come from the tags; there is a tag
  filter, a detail modal with a scroll lock and the Escape key, and an image
  fallback;
- the experience timeline: work and education records are merged and
  normalised, the period text is the sort key, and tabs filter the list;
- the contact form: it is controlled, it has a submission cycle with a
  status banner and a clearing timer, and it builds `tel:` and `mailto:`
  links;
- the skills panel: categories, tabs, the tab indicator, and parsing of
  `name (level)` labels;
- the footer's links;
- the shared button component.

Each source file becomes one module.

- **Stateful components are classes.** Each state hook becomes a field. The
  document body's `style.overflow` is a `Dom.Body` object that both the header
  and the catalogue can be given.
- **Pure derivations are functions with lemmas.** For the header menu and
  the contact form, the handlers are also written as a `Step` function over
  a state value. Each class method is proved to perform that step, and the
  lemmas about whole event histories are stated over `Step`.
- **Browser values are inputs.** These are the scroll offset, element boxes,
  local storage, the system colour preference, the key pressed, and the mail
  service's answer.
- **The configuration is transcribed.** The values the logic reads from
  `src/config/site.ts` become constants in module `Site`.

Two behaviours of the code are worth knowing when reading the model:

- **Navigating to a section.** `scrollToSection` (`src/App.new.tsx:45-53`)
  makes any section id active, watched or not. The configured `skills` and
  `education` links pass ids that the scroll-spy does not watch
  (`App.NavTargetsOutsideSpy`).
- **The button's class template.** The class string
  (`src/components/Button.tsx:61`) keeps the template's empty slots, so it can
  hold two spaces in a row. `Button.ButtonClassesTokens` shows the class names
  the browser reads from it.

## Model

| member | source | states |
|---|---|---|
| Text.BeforeFirst | src/sections/Experience.tsx:78-79 | `split(sep)[0]` is the prefix before the first occurrence of the separator, or the whole string when it does not occur |
| Text.Keep | src/sections/Contact.tsx:101 | a global character-class `replace` keeps exactly the characters of the string outside the class, and no others |
| Text.KeepAppend | src/sections/Contact.tsx:101 | the filter distributes over concatenation, so the kept characters stay in their order |
| Text.KeepCount | src/sections/Contact.tsx:101 | each kept character occurs as often as in the string, and each dropped one not at all |
| App.ScanSections | src/App.new.tsx:57-73 | the `for` loop with `break` returns the first watched section whose box holds `scrollY + 100`, or none |
| App.FirstHitAt | src/App.new.tsx:61-70 | when the k-th watched section is the first to hold the threshold, the scan stops at it |
| App.FirstHitIsFirst | src/App.new.tsx:61-70 | the section found holds the threshold and no earlier watched section does; none is found exactly when no watched section holds it |
| App.FirstHitOnlyCovering | src/App.new.tsx:63-67 | a section found is rendered and its half-open range `[offsetTop, offsetTop + offsetHeight)` holds the threshold |
| App.NextActiveSpec | src/App.new.tsx:57-72 | after a scroll event the active section is the first hit, or stays unchanged when nothing is hit |
| App.NextActiveIdempotent | src/App.new.tsx:57-72 | handling the same scroll position twice changes nothing more |
| App.ScrollExample | src/App.new.tsx:59-67 | concrete boxes: a threshold at a section's end selects the next section; a threshold above every section keeps the previous value |
| App.InitialDarkCases | src/App.new.tsx:19-30 | a stored theme decides alone, and `'light'` overrides a dark system preference; the system preference decides only when nothing is stored |
| App.ToggleTwice | src/App.new.tsx:33-42 | a toggle flips dark mode and writes the matching theme and root class; two toggles restore a consistent state |
| App.NavTargetsOutsideSpy | src/App.new.tsx:168-171 | of the six configured navigation targets, `skills` and `education` are not watched by the scroll-spy and the other four are |
| App.Controller.constructor | src/App.new.tsx:14-16 | light mode, menu closed, `home` active |
| App.Controller.ApplyInitialTheme | src/App.new.tsx:19-30 | the on-load effect sets the flag and the root class from storage and system preference, and writes nothing to storage |
| App.Controller.ToggleDarkMode | src/App.new.tsx:33-42 | the theme state becomes `Toggled` of the old one |
| App.Controller.ScrollToSection | src/App.new.tsx:45-53 | the section becomes active, whatever it is, and the mobile menu closes |
| App.Controller.ToggleMobileMenu | src/App.new.tsx:147 | the menu flag flips |
| App.Controller.CloseMobileMenu | src/App.new.tsx:186 | the menu is closed |
| App.Controller.HandleScroll | src/App.new.tsx:57-73 | the active section becomes `NextActive` of the old one |
| Header.ScrolledThreshold | src/components/Header.tsx:20-26 | not scrolled at 50 px, scrolled from 51 px, and monotone in the offset |
| Header.NavTargets | src/components/Header.tsx:7-13 | five distinct targets: home, about, experience, projects, contact |
| Header.StepFacts | src/components/Header.tsx:32-40 | a toggle flips the menu and sets the lock to match; a close leaves the menu closed and unlocked from any state |
| Header.RunInStep | src/components/Header.tsx:32-40 | any sequence of toggles and closes keeps the body lock on exactly while the menu is open |
| Header.InitialRunsInStep | src/components/Header.tsx:17-40 | from the initial closed menu with no inline overflow, every history keeps lock and menu in step |
| Header.HeaderView.constructor | src/components/Header.tsx:16-17 | not scrolled and menu closed |
| Header.HeaderView.HandleScroll | src/components/Header.tsx:20-26 | the scrolled flag is `scrollY > 50` |
| Header.HeaderView.ToggleMobileMenu | src/components/Header.tsx:32-35 | menu flag and body overflow take one `Toggle` step |
| Header.HeaderView.CloseMobileMenu | src/components/Header.tsx:37-40 | menu flag and body overflow take one `Close` step |
| Projects.AllTagsMember | src/sections/Projects.tsx:44 | a tag is in the flattened tag list exactly when some project carries it |
| Projects.Dedup | src/sections/Projects.tsx:44 | the set spread keeps exactly the values of the list, with no repeats |
| Projects.DedupOrder | src/sections/Projects.tsx:44 | the deduplicated values come in order of first appearance |
| Projects.DedupSnoc | src/sections/Projects.tsx:44 | appending a value adds it to the deduplicated list exactly when it is new |
| Projects.CategoriesSpec | src/sections/Projects.tsx:44 | the categories are `Tous`, then each tag of each project once, in order of first appearance |
| Projects.SiteTags | src/config/site.ts:105-172 | the configured projects' tags in scan order, with `React.js` twice |
| Projects.WithTag | src/sections/Projects.tsx:47 | the filter keeps exactly the projects carrying the tag and never grows the list |
| Projects.WithTagAppend | src/sections/Projects.tsx:47 | the filter keeps the projects' relative order |
| Projects.FilteredSpec | src/sections/Projects.tsx:45-47 | `Tous` shows every project; any other filter shows exactly the tagged projects; a category that came from a tag never shows an empty list |
| Projects.ImageSrc | src/sections/Projects.tsx:176 | a known id gets its bundled image, any other id the placeholder, and the source is never empty |
| Projects.SiteImages | src/sections/Projects.tsx:21-26 | every configured project has its own image |
| Projects.CardTags | src/sections/Projects.tsx:193 | a card shows a prefix of the tags, of length `min(|tags|, limit)` (3 on the grid, 4 on the carousel at line 302) |
| Projects.ProjectsView.Visible | src/sections/Projects.tsx:45-47 | with the filter one of the buttons, `Tous` shows every project and, while there are projects, the grid is never empty |
| Projects.ProjectsView.constructor | src/sections/Projects.tsx:34-37 | filter `Tous`, nothing selected, modal closed |
| Projects.ProjectsView.SelectCategory | src/sections/Projects.tsx:145-149 | a category button makes its category the filter, which stays one of the buttons |
| Projects.ProjectsView.OpenModal | src/sections/Projects.tsx:49-53 | the project is selected, the modal is open and the body is locked |
| Projects.ProjectsView.CloseModal | src/sections/Projects.tsx:55-58 | the modal is closed and the body unlocked; the selection is kept |
| Projects.ProjectsView.HandleKeyDown | src/sections/Projects.tsx:61-66 | Escape closes the modal and unlocks the body; any other key changes nothing |
| Experience.MergeSpec | src/sections/Experience.tsx:59-75 | one card per record; a work card wraps a paragraph into a list and defaults missing tags to none; an education card maps degree and institution and defaults the location to `Non spécifié` |
| Experience.PeriodStartSpec | src/sections/Experience.tsx:78-79 | the sort key of `start - end` is `start` when `start` has no hyphen; a period without the separator is its own key |
| Experience.OfKind | src/sections/Experience.tsx:83-86 | a tab shows exactly the cards of its kind |
| Experience.OfKindAppend | src/sections/Experience.tsx:83-86 | the tab filter keeps the cards' order |
| Experience.OfKindCount | src/sections/Experience.tsx:83-86 | a tab keeps every card of its kind as often as it occurs |
| Experience.OfKindAll | src/sections/Experience.tsx:83-86 | a tab shows the whole list when every card is of its kind |
| Experience.OfKindNone | src/sections/Experience.tsx:83-86 | a tab shows nothing when no card is of its kind |
| Experience.TabsPartition | src/sections/Experience.tsx:83-86 | `all` shows every card; the work and education tabs split the cards between them |
| Experience.OfKindSizeUnderReorder | src/sections/Experience.tsx:76-86 | reordering the cards does not change how many a tab shows |
| Experience.MergeByKind | src/sections/Experience.tsx:59-86 | before sorting, the work tab has one card per work record and the education tab one per education record |
| Experience.TabSizesAfterAnySort | src/sections/Experience.tsx:59-86 | whatever order the date sort produces, the tab sizes are the record counts |
| Experience.TimelineView.constructor | src/sections/Experience.tsx:22 | the initial tab is `all` |
| Experience.TimelineView.SelectTab | src/sections/Experience.tsx:172 | a tab button selects its tab |
| ExperienceNew.MergeSpec | src/sections/Experience.new.tsx:6-19 | a work card keeps its record whole, tagged as work; an education card takes degree, institution and period, with its lines joined |
| ExperienceNew.EducationDescriptionSpec | src/sections/Experience.new.tsx:16 | the joined paragraph holds every line with exactly one space between each two, and joining groups puts one space between them |
| ExperienceNew.SortKeySpec | src/sections/Experience.new.tsx:20-23 | a card whose period is `start - end` sorts by `start` |
| Contact.Set | src/sections/Contact.tsx:112-118 | the named input takes the new value and the other three keep theirs |
| Contact.StepKeepsBanner | src/sections/Contact.tsx:120-164 | every handler keeps a shown banner backed by a pending clearing timer |
| Contact.RunKeepsBanner | src/sections/Contact.tsx:120-164 | across any feasible history, a shown banner always has a timer that will clear it |
| Contact.SubmitOutcomes | src/sections/Contact.tsx:120-163 | from a filled form, a successful send empties every input and shows the success text; a failed one keeps the inputs and shows the failure text; either way the button is enabled again and one more timer is pending; typing during a send is lost on success |
| Contact.TypingOnly | src/sections/Contact.tsx:112-118 | typing changes only the inputs |
| Contact.TypingOnlyData | src/sections/Contact.tsx:112-122 | what is typed during a send equals what the same typing gives before it |
| Contact.TimersClearBanner | src/sections/Contact.tsx:159-162 | once every pending timer has fired, no banner is shown |
| Contact.TelLinkSpec | src/sections/Contact.tsx:101 | the dialled number is the concatenation of the non-space characters of the number's parts, so it keeps their order; it keeps each non-space character as often as it occurs, holds no white space, and linking twice is linking once |
| Contact.PrintableTelLink | src/sections/Contact.tsx:101 | a number of visible ASCII characters is dialled as written |
| Contact.SpacedTelLink | src/sections/Contact.tsx:101 | a number with a space between code and rest is dialled without the space |
| Contact.MailLinkSpec | src/sections/Contact.tsx:95 | the address is recovered from its `mailto:` link |
| Contact.ContactForm.constructor | src/sections/Contact.tsx:36-43 | empty inputs, not submitting, no banner |
| Contact.ContactForm.HandleChange | src/sections/Contact.tsx:112-118 | the form takes one `Change` step |
| Contact.ContactForm.StartSubmit | src/sections/Contact.tsx:120-135 | only with the button enabled and every required input filled: the in-flight flag rises, disabling the button, and the payload is the current inputs |
| Contact.ContactForm.Settle | src/sections/Contact.tsx:137-163 | success shows the success banner and resets the inputs; failure shows the failure banner and keeps them; the flag drops and a timer starts |
| Contact.ContactForm.FireTimer | src/sections/Contact.tsx:160-162 | a timer clears the banner, whichever submission set it |
| About.Labels | src/sections/About.tsx:185 | one card per language; each card reads back as its language: the name shown is the language's name and the line under it its level, for a name without `(` and a non-empty level without `)` |
| About.SkillCategoriesSpec | src/sections/About.tsx:147-192 | four distinct tabs; the third lists tools then infrastructure; the last has one label per language |
| About.CloseFrom | src/sections/About.tsx:330 | the first `)` at or after a position, or none |
| About.GroupFrom | src/sections/About.tsx:330 | a group is found exactly when `\(([^)]+)\)` matches somewhere |
| About.CloseFromAt | src/sections/About.tsx:330 | the `)` search stops at the first `)` at or after its start |
| About.GroupFromSkips | src/sections/About.tsx:330 | the regex group is taken from the leftmost match, between its `(` and the next `)` |
| About.SubLabel | src/sections/About.tsx:328-331 | the sub-label line is absent exactly when the skill has no `(` |
| About.PlainSkill | src/sections/About.tsx:327-332 | a skill without parentheses is shown whole, with no sub-label |
| About.LabelRoundTrip | src/sections/About.tsx:327-330 | reading back a `name (level)` label gives the name and the level, when the name has no `(` and the level is non-empty without `)` |
| About.EmptyLevel | src/sections/About.tsx:328-330 | `name ()` shows the name and an empty sub-label line |
| About.IndicatorIndex | src/sections/About.tsx:350 | `findIndex`: the first tab with the id, or -1 exactly when no tab has it |
| About.IndicatorUnderTab | src/sections/About.tsx:349-350 | the i-th tab puts the indicator at `100 * i` percent, within the track |
| About.AboutTabs.constructor | src/sections/About.tsx:87 | the initial tab is `frontend` |
| About.AboutTabs.Indicator | src/sections/About.tsx:349-350 | with the active tab one of the four, the indicator sits under a tab, at 0, 100, 200 or 300 percent, never at `-100` |
| About.AboutTabs.HandleTabChange | src/sections/About.tsx:93-94 | a tab button makes its tab active |
| About.UpperChar | src/sections/About.tsx:80 | upper-casing yields one character, except `ß`, which yields `SS` |
| About.UpperCharSpec | src/sections/About.tsx:80 | lower-case ASCII letters become capitals; capitals and digits stay; upper-casing again changes nothing |
| About.SiteIcons | src/sections/About.tsx:324 | the `techIcons[skill] ||` fallback lookup over the icon table: every configured technology gets its dedicated icon, and every language card falls back to the capitalised initial of its name |
| AboutNew.SameItemsAsTabs | src/sections/About.new.tsx:6-27 | the static list shows the same four groups of skills, in the same order, as the tabbed panel |
| AboutNew.EverySkillListed | src/sections/About.new.tsx:6-27 | every configured skill and every language label is listed |
| Footer.TelHrefSpec | src/components/Footer.tsx:168 | the phone link is the concatenation of the digits of the number's parts, so it keeps their order; it keeps each digit as often as it occurs and nothing else; a number of digits only is dialled as written; stripping twice is stripping once |
| Footer.InternationalTelHref | src/components/Footer.tsx:168 | `+code rest` is dialled as the digits run together, without the `+` |
| Footer.GroupedTelHref | src/components/Footer.tsx:168 | `+code local-line` is dialled as the three groups run together, without the `+` |
| Footer.SitePhoneShape | src/config/site.ts:210 | the configured footer number is `+212 648-307515` |
| Footer.GlobalTelHref | src/components/Footer.tsx:168 | the corrected link: after `tel:` comes a `+` exactly when the number starts with `+`, then exactly the number's digits |
| Footer.GroupedGlobalTelHref | src/components/Footer.tsx:168 | for `+code local-line` the corrected link keeps the `+` and differs from the link as written |
| Footer.SocialLinksSpec | src/components/Footer.tsx:10-35 | four icons in order GitHub, LinkedIn, Twitter, Email; each profile links to its own setting, the mail icon to `mailto:` and the contact address; no Instagram icon |
| Footer.QuickLinkTargets | src/components/Footer.tsx:117-134 | one quick link per navigation link; a quick link with a given text and target exists exactly when a navigation link has that name and href, and a section has a quick link exactly when a navigation link targets it |
| Footer.QuickLinksAppend | src/components/Footer.tsx:117-134 | the quick links of two lists are those of the first, then those of the second, so the footer keeps the navigation order |
| Button.DefaultsSpec | src/components/Button.tsx:17-28 | unset props become primary, `md`, icon on the left, no extra classes, no download; set props are kept |
| Button.TokensJoin | src/components/Button.tsx:61 | one space between two class strings separates their class names and adds none |
| Button.ButtonClassesTokens | src/components/Button.tsx:61 | the class names are base, size and variant, then `p-2` exactly for an icon-only button, then the caller's classes |
| Button.ContentSpec | src/components/Button.tsx:43-59 | the icon comes before the label on the left and after it on the right, with a margin only next to a label; icon-only means a lone unspaced icon |
| Button.RenderSpec | src/components/Button.tsx:63-100 | a truthy `to` gives a scroll link; otherwise a truthy `href` gives an anchor that opens in a new tab, with `noopener noreferrer`, exactly when it starts with `http`; otherwise a `type="button"` button; every branch has the same content |
| Button.ScrollLinkClasses | src/components/Button.tsx:69 | the scroll link adds only `cursor-pointer` to the class names |
| Button.ExternalExamples | src/components/Button.tsx:83-84 | links starting with `http` are external; relative and in-page links are not |

## Findings

| source | as written | input that shows it | evidently intended | confidence | as-written member | corrected member |
|---|---|---|---|---|---|---|
| src/components/Footer.tsx:168 | `replace(/\D/g, '')` drops every non-digit, including the leading `+` of an international number | the configured `+212 648-307515` gives `tel:212648307515`, a local number | `tel:+212648307515`: a global number keeps its `+` (section 5.1.4 of RFC 3966) | medium; not executed | Footer.GroupedTelHref | Footer.GlobalTelHref |

## Left out

- Animation, the parallax background, the carousel and the scroll-into-view and smooth-scroll calls are presentation only. Navigation is modelled by its effect on state.
- The date sort of the timelines compares `new Date(...)` parsed from French period text, which JavaScript engines mostly reject. Its order is not modelled. The tab lemmas hold for every reordering of the merged list, and `ExperienceNew.SortKey` gives only the key text.
- Contact.ContactForm.Settle: the mail service call is not modelled; its outcome is the `delivered` input. The five-second delay is not modelled either; a pending timer fires as an explicit event.
- Contact.ContactForm.StartSubmit: the precondition that no send is in flight stands for the disabled submit button. A second concurrent send is not modelled.
- Contact.ContactForm.HandleChange: only the four named inputs are modelled. An input with another `name` attribute would add a field to the form object.
- The location card's Google Maps link (`encodeURIComponent`) and the section's own social icon list are left out. They are fixed links from the configuration, with no logic.
- About.UpperChar: only ASCII and Latin-1 are upper-cased as JavaScript does. Every other character is mapped to itself.
- About.FallbackInitial: `charAt(0)` takes a UTF-16 code unit. The model takes the first character, which differs for characters outside the Basic Multilingual Plane.
- Projects.ImageSrc: an id naming a property inherited by every JavaScript object (such as `constructor`) would find that property. The model treats such ids as unknown.
- The gradient colour of the tab indicator (a string `replace` on a colour class) and the soft-skills list are presentation only.
- Scroll offsets and element boxes are integers. Browsers may report fractional `scrollY`.
- The footer's copyright year reads the clock, and its address is a fixed string. Neither is modelled.
- Button: `onClick` handlers are not modelled, children are modelled as their text, and icons are modelled by name.
- App: the logo text (`name.split(' ')[0]`) is presentation only, and so are the scroll listeners' registration and removal.
- The category buttons for the configured projects are not stated as one literal list. They follow from `Projects.SiteTags` and the general lemmas `Projects.CategoriesSpec` and `Projects.DedupSnoc`.
- Contact.ContactForm.StartSubmit: the `required` check on the inputs is modelled as non-empty. The browser's validation of the address format (`type="email"`) is not modelled; an address it would reject is treated as accepted.
- About.IconFor: an id naming a property inherited by every JavaScript object (such as `constructor`) would find that property in the icon table. The model treats such ids as having no icon.
- Button.ButtonClassesTokens: class names are split at spaces only. A `className` holding tabs or newlines, which the browser also splits at, is not modelled.
- The header's menu lock and the catalogue's modal lock both write the body's `overflow`, and the catalogue's Escape handler unlocks it whenever the key is pressed. When both components are mounted, pressing Escape while the header menu is open leaves the menu open and the page unlocked. `Header.RunInStep` covers the header's own handlers only; this interplay is not modelled.
