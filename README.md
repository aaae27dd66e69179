# Portfolio site: navigation, contact form and skill colours

A model of the three pieces of logic in a single-page portfolio website:

- **Navigation** (`header.dfy`, module `Navigation`): the header's state:
  the highlighted entry (`activeTab`), the `scrolled` flag and the mobile menu.
  It also covers the intersection observer the header installs on the home page.
  Its event handlers are modelled: scroll, pathname change, hash change,
  observer report, nav click, logo click, menu toggle and overlay click. Browser
  facts are parameters: the scroll offset, the pathname, the hash, the set of
  element ids in the document, and the observer's entries (id, isIntersecting, top).
- **Contact** (`contact.dfy`, module `Contact`): the contact form's four
  fields and its `isSubmitted`, `isLoading` and `errorMessage` flags. It covers
  edits, a submit (gated as the browser gates it), the relay's two outcomes and
  "send another message". The heading, paragraph, success card, error line and
  disabled button are pure functions of that state.
- **Skills** (`skills.dfy`, module `Skills`): the lookup from a `text-…`
  colour token to its `bg-…` token with its `bg-blue-500` fallback, and the
  static skill table together with its invariants.

Each stateful component has the same shape. Its state is a datatype value
(`NavState`, `ContactState`) and each event is a pure transition function with
a contract. A class (`Navigation.Header`, `Contact.ContactForm`) holds the same
state in fields. Each of its methods updates the fields as the source's handler
does and ensures that the new state is the transition applied to the old state.
The lemmas relate transitions to each other: traces, invariants and idempotence.

The observer callback sorts its `visible` entries by top edge and takes the
first one. Here that sort is a stable insertion sort on values (`SortByTop`).
It is proved sorted and a permutation of its input. Its head is proved to be
the reference choice `PickIndex`: the earliest intersecting entry with the
smallest top.

Points where the code does less than a reader might expect:
- There is no "home" fallback while scrolling.
- `activeTab` starts as `""`. Only the route effect (contact, projects) and the hash effect set it from the URL when the header mounts. On "/" with no hash nothing is highlighted until the observer reports.
- The route effect lower-cases the pathname.
- Scroll tracking needs the pathname to be exactly `/`.
- A tracked section that appears after the pathname effect has run is not observed.

Every route renders its own header (src/App.tsx:12, src/pages/Contact.tsx:79,
src/pages/MainProjects.tsx:391; routes at src/main.tsx:10-20). A navigation to
another route therefore mounts a fresh header (`Navigation.Mount`), which starts
from `Initial()`: coming back from "/contact" to "/" shows nothing highlighted,
the menu closed and `scrolled` false. A live header's pathname handler only sees
paths the router sends to the same page, such as case variants.

Of the three section anchors, only "skills" (src/pages/Skills.tsx:171) and
"projects" (src/pages/Projects.tsx:105) are given as element ids in the site's
pages; no page carries the id "about". With `present` as the site renders it,
the About entry therefore never scrolls, and neither a hash nor the observer
highlights it; only a click on it does.

## Model

| member | source | states |
|---|---|---|
| `Navigation.Initial` | src/components/Header.tsx:8-10 | at first render nothing is highlighted (no nav entry's id), the header is not scrolled, the menu is closed, and no observer is installed |
| `Navigation.Scroll` | src/components/Header.tsx:22-24 | after a scroll event `scrolled` holds exactly when the offset exceeds 20; nothing else changes |
| `Navigation.NavItemsWellFormed` | src/components/Header.tsx:29-37 | nav ids are distinct; every section entry's href is "/#" + id; the only route entry is "contact" with href "/contact" |
| `Navigation.SectionIdsOf` | src/components/Header.tsx:63 | the filter/map keeps exactly the ids of the section entries, and never more ids than entries |
| `Navigation.SectionIdsValue` | src/components/Header.tsx:63 | the tracked ids are about, skills, projects, in that order |
| `Navigation.ToLower` | src/components/Header.tsx:40-44 | lower-casing keeps the length and maps each character by itself (ASCII letters) |
| `Navigation.RouteTab` | src/components/Header.tsx:39-48 | a lower-cased "/contact" selects "contact", "/projects" selects "projects", any other path changes nothing |
| `Navigation.LowerProjects` | src/main.tsx:17 | the registered route "/Projects" lower-cases to "/projects" |
| `Navigation.RegisteredProjectsRoute` | src/components/Header.tsx:44-47 | on the registered projects route "/Projects" its entry is highlighted and no observer is installed |
| `Navigation.ContactRoutePrecedence` | src/components/Header.tsx:39-61 | on a path that lower-cases to "/contact" the contact entry is highlighted and scroll tracking is off, so no observer report can override it |
| `Navigation.FirstIndex` | src/components/Header.tsx:52 | the position of the first occurrence of a character, or -1 when there is none |
| `Navigation.RemoveFirst` | src/components/Header.tsx:52 | `replace("#", "")` removes exactly the first "#": with none the string is unchanged; otherwise the result is the string with the first occurrence (no "#" before it) cut out |
| `Navigation.HashTarget` | src/components/Header.tsx:50-58 | an empty hash names nothing; otherwise the hash without its "#" is the target exactly when an element with that (non-empty) id exists |
| `Navigation.HashChanged` | src/components/Header.tsx:50-58 | the hash effect highlights the target when there is one and changes nothing otherwise |
| `Navigation.HashSelectsExistingAnchor` | src/components/Header.tsx:50-58 | for every x, the hash "#x" selects x when its element exists and leaves the state unchanged when it does not |
| `Navigation.FilterPresent` | src/components/Header.tsx:63-66 | keeps exactly the ids whose element exists, never more than given |
| `Navigation.TrackedSections` | src/components/Header.tsx:60-68 | tracking is off unless the pathname is exactly "/"; on "/" the observed ids are exactly the section ids whose element exists |
| `Navigation.TrackedSectionsOnHome` | src/components/Header.tsx:63-81 | on "/" the observed ids are about, skills, projects in that order, each one only when present |
| `Navigation.PathnameChanged` | src/components/Header.tsx:39-83 | a pathname change highlights contact or projects on those (lower-cased) paths and otherwise keeps the highlight; the observed ids become the tracked sections; `scrolled` and the menu are untouched |
| `Navigation.InstallTracking` | src/components/Header.tsx:60-83 | the tracking effect replaces the observed ids with the tracked sections and changes no other field |
| `Navigation.Visible` | src/components/Header.tsx:72 | the filter keeps only intersecting entries, keeps every intersecting entry, and is empty exactly when no entry intersects |
| `Navigation.VisibleConcat` | src/components/Header.tsx:72 | the filter keeps report order: filtering a concatenation concatenates the filtered parts |
| `Navigation.InsertByTop` | src/components/Header.tsx:74 | inserting into a sorted list gives a sorted list with one more element, the same multiset plus x, and x at the head when no element is strictly smaller |
| `Navigation.SortByTop` | src/components/Header.tsx:74 | the sort returns a permutation of its input ordered by top (which entry comes first is `SortedVisibleHead`) |
| `Navigation.PickIndex` | src/components/Header.tsx:71-76 | no choice exactly when nothing intersects; otherwise the chosen entry intersects, has the minimal top, and every earlier intersecting entry has a strictly larger top |
| `Navigation.ChosenUnique` | src/components/Header.tsx:74-75 | at most one entry satisfies that choice |
| `Navigation.SortedVisibleHead` | src/components/Header.tsx:72-75 | the first element of the stably sorted visible entries is the reference choice; there is one exactly when some entry intersects |
| `Navigation.Observe` | src/components/Header.tsx:71-77 | with no intersecting entry nothing changes; otherwise only `activeTab` changes, to the id of the chosen entry |
| `Navigation.ObserverSelectsSection` | src/components/Header.tsx:63-81 | when the reported entries are section ids, a report can only highlight a section entry |
| `Navigation.Click` | src/components/Header.tsx:85-88 | a click always selects the clicked id and closes the menu; `scrolled` and the observer are untouched |
| `Navigation.ClickScrolls` | src/components/Header.tsx:89-93 | a click scrolls only for a section entry, on "/", whose element exists; a section click on an id the observer tracks always scrolls; a route-kind click never scrolls |
| `Navigation.LogoNeverScrolls` | src/components/Header.tsx:85-94 | the logo's click ("home" with the default route kind) never scrolls and highlights no nav entry |
| `Navigation.MissingAnchorStillSelects` | src/components/Header.tsx:85-94 | clicking a section whose anchor is missing does not scroll but still selects it |
| `Navigation.ToggleMenu` | src/components/Header.tsx:179 | the menu button flips the menu and changes nothing else |
| `Navigation.CloseMenu` | src/components/Header.tsx:196 | an overlay click closes the menu and changes nothing else |
| `Navigation.HashAndPathnameCommute` | src/components/Header.tsx:39-83 | running route, hash and tracking effects in declaration order equals the pathname effects followed by the hash effect |
| `Navigation.HandlersIdempotent` | src/components/Header.tsx:21-77 | scroll, pathname, hash and observer handlers give the same state when repeated with the same inputs |
| `Navigation.Mount` | src/components/Header.tsx:8-83 | each route of src/main.tsx:10-20 renders its own header, so a freshly mounted header runs route, hash and tracking effects once, in declaration order, on `Initial()`; it is neither scrolled nor has its menu open |
| `Navigation.MountHighlights` | src/components/Header.tsx:8-83 | mounted on a path that lower-cases to "/contact" with no matching anchor, contact is highlighted and nothing observed; mounted on "/" with no hash, nothing is highlighted and the present sections are observed |
| `Navigation.ReturningHomeRemounts` | src/pages/Contact.tsx:79 | a header kept alive across "/contact" then "/" would still highlight contact; the header the home page mounts highlights nothing |
| `Navigation.Header.constructor` | src/components/Header.tsx:8-10 | the component's fields start in `Initial()` |
| `Navigation.Header.HandleScroll` | src/components/Header.tsx:22-24 | the fields become `Scroll` of the old state |
| `Navigation.Header.OnPathnameChange` | src/components/Header.tsx:39-83 | runs the route effect, disconnects the old observer, and observes each present section in order; the new state is `PathnameChanged` of the old one |
| `Navigation.Header.OnHashChange` | src/components/Header.tsx:50-58 | the new state is `HashChanged` of the old one; it scrolls into view exactly when the hash names an existing element |
| `Navigation.Header.OnIntersection` | src/components/Header.tsx:70-77 | filters, sorts and adopts the head's id; the new state is `Observe` of the old one |
| `Navigation.Header.HandleClick` | src/components/Header.tsx:85-94 | the new state is `Click` of the old one; it scrolls exactly for a section entry, on "/", whose element exists |
| `Navigation.Header.ClickLogo` | src/components/Header.tsx:127-131 | selects "home" and never scrolls |
| `Navigation.Header.ToggleMobileMenu` | src/components/Header.tsx:179 | the new state is `ToggleMenu` of the old one |
| `Navigation.Header.CloseMobileMenu` | src/components/Header.tsx:196 | the new state is `CloseMenu` of the old one |
| `Contact.Set` | src/pages/Contact.tsx:32-35 | the edited field takes the new value and the other three keep theirs |
| `Contact.Initial` | src/pages/Contact.tsx:21-29 | on mount all fields are empty, nothing is submitted or loading, and there is no error |
| `Contact.StatusOf` | src/pages/Contact.tsx:27-29 | how the flags encode Submitted, Submitting and Failed (carrying the shown error) |
| `Contact.Change` | src/pages/Contact.tsx:32-35 | an edit changes exactly one field; flags and error are unchanged |
| `Contact.SubmitAllowed` | src/pages/Contact.tsx:172-193 | a submit goes through if and only if the status is Idle or Failed, every field is non-empty and the email is accepted |
| `Contact.Submit` | src/pages/Contact.tsx:37-40 | an allowed submit sets loading and clears the error, keeping fields and `isSubmitted`; a blocked one changes nothing |
| `Contact.Resolve` | src/pages/Contact.tsx:49-63 | success: submitted, not loading, all fields empty, error kept; failure: the fixed failure text, not loading, fields and `isSubmitted` kept |
| `Contact.SendAnother` | src/pages/Contact.tsx:160 | only `isSubmitted` becomes false |
| `Contact.TransitionsPreserveValid` | src/pages/Contact.tsx:37-62 | every transition keeps the invariant: never submitted while loading, no error while loading or after success, the error is "" or the failure text |
| `Contact.SubmitGated` | src/pages/Contact.tsx:172-193 | with an empty required field, a rejected email, or a request in flight, the submit does nothing |
| `Contact.SingleRequestInFlight` | src/pages/Contact.tsx:193 | after a started submit the status is Submitting and every further submit is a no-op |
| `Contact.SuccessClearsFields` | src/pages/Contact.tsx:50-55 | a delivered request ends Submitted with an empty form and an empty error |
| `Contact.FailurePreservesInput` | src/pages/Contact.tsx:56-62 | a rejected request ends Failed with the fixed text and the fields as entered |
| `Contact.RetryAfterFailure` | src/pages/Contact.tsx:37-62 | after a rejection the same input can be submitted again, and that submit clears the error |
| `Contact.SendAnotherAfterSuccess` | src/pages/Contact.tsx:160 | success followed by "send another message" returns exactly the initial empty form |
| `Contact.Heading` | src/pages/Contact.tsx:98 | "Message Sent!" when submitted, "Get In Touch" otherwise |
| `Contact.Paragraph` | src/pages/Contact.tsx:101 | never empty: the thank-you text when submitted, else the error when there is one, else the invitation |
| `Contact.ShowsSuccessCard` | src/pages/Contact.tsx:151 | the success card replaces the form exactly in the Submitted status |
| `Contact.ShowsErrorBanner` | src/pages/Contact.tsx:190 | the error line appears only inside the form and repeats the paragraph's text; in a reachable state it appears exactly in the Failed status |
| `Contact.SubmitDisabled` | src/pages/Contact.tsx:193 | a disabled button lets no submit through; while the form is shown it is disabled exactly while Submitting |
| `Contact.ViewFollowsStatus` | src/pages/Contact.tsx:98-193 | in every reachable state: heading "Message Sent!" iff Submitted; thank-you text iff Submitted; failure text iff Failed; invitation iff Idle or Submitting; success card iff Submitted; error line iff Failed; button disabled iff Submitting |
| `Contact.ContactForm.constructor` | src/pages/Contact.tsx:21-29 | the fields start in `Initial()`, which satisfies `Valid` |
| `Contact.ContactForm.HandleChange` | src/pages/Contact.tsx:32-35 | the new state is `Change` of the old one and stays `Valid` |
| `Contact.ContactForm.SendEmail` | src/pages/Contact.tsx:37-48 | the relay is called exactly when the browser lets the submit through; the new state is `Submit` of the old one and stays `Valid` |
| `Contact.ContactForm.OnRelayResult` | src/pages/Contact.tsx:49-63 | for the request in flight, the new state is `Resolve` of the old one and stays `Valid` |
| `Contact.ContactForm.SendAnotherMessage` | src/pages/Contact.tsx:160 | the new state is `SendAnother` of the old one and stays `Valid` |
| `Skills.LastIndexOf` | src/pages/Skills.tsx:43-65 | the index property access sees: the last definition of the key, or -1 when there is none |
| `Skills.Lookup` | src/pages/Skills.tsx:65 | property access finds nothing exactly when the key is absent; what it finds is a value defined for that key |
| `Skills.LookupDistinct` | src/pages/Skills.tsx:43-65 | with distinct keys a present key yields its value and a missing key yields nothing |
| `Skills.ColorTableSameSuffix` | src/pages/Skills.tsx:43-64 | each of the 20 keys "text-S" maps to "bg-S" with the same suffix S |
| `Skills.ColorTableKeysDistinct` | src/pages/Skills.tsx:43-64 | no key of the colour table is defined twice |
| `Skills.GetBgColorFromTextColor` | src/pages/Skills.tsx:42-66 | total on its domain; always a non-empty "bg-" class; a table key "text-S" gives "bg-S"; any other input gives "bg-blue-500" |
| `Skills.TextTokenNotPrototypeName` | src/pages/Skills.tsx:65 | a "text-" token is never a name inherited from Object.prototype |
| `Skills.FallbackNotInTable` | src/pages/Skills.tsx:43-65 | "bg-blue-500" is not a value of the table, so a hit never looks like a miss |
| `Skills.SkillLevelsArePercentages` | src/pages/Skills.tsx:68-122 | every skill level lies in 0..100 |
| `Skills.CategoryTitlesDistinct` | src/pages/Skills.tsx:221-223 | category titles are distinct |
| `Skills.SkillNamesDistinct` | src/pages/Skills.tsx:239-241 | skill names are distinct within each category |
| `Skills.SkillColorsInTable` | src/pages/Skills.tsx:73-119 | every skill colour is a key of the colour table |
| `Skills.NoSkillBarUsesFallback` | src/pages/Skills.tsx:270 | no skill's level bar falls back to "bg-blue-500" |

## Left out

- Navigation.ToLower: lower-cases only the ASCII letters A–Z, not all of Unicode as `toLowerCase` does. No other character lower-cases to a letter of "/contact" or "/projects", so for this comparison the outcome is the same.
- Scroll offsets and `boundingClientRect.top` are integers here. In the browser they are floating point numbers.
- Navigation.Header: one instance per mounted page. A route change is modelled by `Mount` on a new instance, not as a call on the old one; unmounting (removing the listener, disconnecting the observer) is not modelled as state.
- `Navigation.SortByTop` is one stable sort, written on values. The source sorts its local `visible` array in place with the engine's `Array.prototype.sort`, which is stable. That a stable sort's result is unique, so the engine's head is the same entry, is argued and not proved. Stability itself is not stated in full: what is proved is that the result is a sorted permutation and which entry comes first.
- Observer geometry (`rootMargin`, thresholds) and whether an entry intersects are up to the browser. Entries come in as parameters. `OnIntersection` requires that they name observed targets, because that is all the browser reports.
- Not modelled as state: registering and removing the scroll listener, `scrollIntoView`, `window.scrollTo`, `focus`, and the scroll progress bar (`useScroll`/`useSpring`). Whether a handler scrolls is returned as a boolean instead.
- `emailjs.sendForm` is not modelled; its resolution is the `RelayOutcome` event. Its service, template and key identifiers and the console logging are left out. A component that unmounts mid-request has no guard in the source and is not modelled. There is no timeout either.
- Contact.SubmitAllowed: the browser's email format check is a boolean parameter, not a definition of valid addresses.
- Contact.ContactForm.OnRelayResult: requires a request in flight. The relay only answers a request that was sent.
- Contact.ContactForm methods require `Valid(State())`, the invariant the constructor establishes and every method keeps.
- Skills.GetBgColorFromTextColor: names inherited from Object.prototype, such as "toString", are outside its domain. For those the source yields a truthy inherited member instead of the fallback.
- All framer-motion configuration, `Math.random` decorations and every Tailwind class other than the skills lookup. These are presentation only.
- Skill icons are not modelled, because they are JSX elements.
- The router table and the page composition matter only in that each route mounts its own header (`Mount`); the theme toggle carries no logic. The rest of the site's pages and components (projects, home, about, footer, profile image) are static content and are not part of this model.
