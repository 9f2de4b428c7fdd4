# Portfolio site scripts, modelled in Dafny

This project models the behaviour of the browser scripts of a personal
portfolio site:

- **js/main.js**: the `Portfolio` class (js/main.js:441-1006). It loads
  the project and skill data (with fallback lists when loading fails). It
  drives a scroll-linked dark mode, a theme toggle persisted in storage, a
  navbar that shows past 80% of the viewport, and the active navigation
  link. It also runs a project modal. The same file holds, outside the
  class, the methods of a full-screen image viewer with wrap-around
  navigation (js/main.js:215-290). The model places them in `Portfolio`.
- **js/projects.js**: `ProjectsGallery`, an accordion of project panels.
  At most one panel is expanded. Collapsed panels get hover effects.
  Panels make a one-way entrance.
- **js/data.js**: the constant project, skill and timeline data and the
  loaders that turn them into cards. It also holds the hover preview of a
  project's first four images and the project gallery modal, with its
  thumbnails and previous/next navigation.
- **js/animation.js**: the `clamp` helper, the intro overlay with its
  one-shot morph latch, and the 720-tile grid behind the hero.

Files and modules:

| file | module | scope |
|---|---|---|
| options.dfy | `Options` | `Option` |
| portfolio_rules.dfy | `PortfolioRules` | the pure rules of `Portfolio` |
| portfolio_data.dfy | `PortfolioData` | its records, fallback lists and project lookup |
| portfolio.dfy | `PortfolioPage` | the `Portfolio` class |
| projects_gallery.dfy | `ProjectPanels` | js/projects.js |
| data_gallery.dfy | `SiteContent` | js/data.js |
| intro_animation.dfy | `IntroAnimation` | js/animation.js |

How the model works:

- Objects whose fields the scripts update become classes with `modifies`
  clauses. The page elements a method touches are fields of that class
  (class lists as booleans, inline styles as strings, element lists as
  sequences).
- Each loop of the source is a `while` loop, proved against a pure function
  or a quantified postcondition.
- Event handlers and timer callbacks are methods. They are called in any
  order the page could dispatch them.
- `fetch` results and `localStorage` are parameters or fields. The page's
  base URL is a field.
- JavaScript's truncating `%` is `PortfolioRules.JsRem`.
- Scroll offsets and viewport heights are `real`.

Behaviour of the code worth noting:

- `openImageViewer` does not clamp `startIndex` (js/main.js:215-218). An
  out-of-range start shows no image. From a start `i` below -1 one
  press of `nextImage` gives `(i + 1) % n` with JavaScript's sign, which
  stays negative unless `n` divides `i + 1`: -3 in a list of 3 gives -2
  (`PortfolioRules.NegativeStartStaysOutOfRange`). After that each press
  adds one, so the viewer shows an image again within `n` presses
  (`PortfolioRules.NegativeStartClimbs`).
- The field `manualThemeOverride` is set in the constructor
  (js/main.js:449) and never read. `updateThemeTransition`
  (js/main.js:643-652) only ever adds dark mode.
- The scroll listener of `setupNavigation` (js/main.js:770-773) reads
  `scrollPosition`, which only the animation-frame handler updates
  (js/main.js:615-633). It may lag behind the real offset by one frame.
  The model reads the field, as the code does.

## Model

| member | source | states |
|---|---|---|
| PortfolioRules.JsRem | js/main.js:278 | JavaScript `%`: non-negative below the divisor for a non-negative dividend, in (-n, 0] for a negative one, and the identity inside (-n, n) |
| PortfolioRules.NextImageWraps | js/main.js:276-282 | from any index in [-1, n) `nextImage` steps forward by one and wraps the last image to the first |
| PortfolioRules.PreviousImageWraps | js/main.js:284-290 | from any index in range `previousImage` steps back by one and wraps the first image to the last |
| PortfolioRules.NextImageIndex | js/main.js:278 | from an index of at least -1 the next index is in range; from a lower start it stays in (-n, 0] |
| PortfolioRules.PreviousImageIndex | js/main.js:286 | from an index of at least 1 - n the previous index is in range; from a lower start it stays in (-n, 0] |
| PortfolioRules.NextImageInRange | js/main.js:278 | the index after `nextImage` is in range whenever the old index is at least -1 |
| PortfolioRules.PreviousImageInRange | js/main.js:286 | the index after `previousImage` is in range whenever the old index is at least 1 - n |
| PortfolioRules.NegativeStartStaysOutOfRange | js/main.js:215-218 | an unclamped start of -3 in a list of 3 stays negative after `nextImage` |
| PortfolioRules.NegativeStartClimbs | js/main.js:276-282 | from a start index i in [-n, 0) each press of `nextImage` adds one, so after k ≤ -i presses the index is i + k and after -i presses it is 0 |
| PortfolioRules.NextPreviousInverse | js/main.js:276-290 | next then previous, and previous then next, restore any in-range index |
| PortfolioRules.NextImageTimesCycles | js/main.js:276-282 | k presses of "next" from index i show image (i + k) mod n, so n presses return to the start |
| PortfolioRules.DarkModeProgress | js/main.js:621 | the progress is at most 1, non-negative for a non-negative offset, and exactly 1 once the offset reaches half the viewport |
| PortfolioRules.DarkModeForcedPast | js/main.js:643-652 | the progress exceeds 0.3 exactly when the offset exceeds 15% of the viewport height |
| PortfolioRules.ScrollRatio | js/main.js:659-660 | the name's scroll ratio is at most 1 and non-negative for a non-negative offset |
| PortfolioRules.NameDockedPast | js/main.js:659-689 | the profile name is docked exactly from 56% of the viewport height on |
| PortfolioRules.NamePhaseAt | js/main.js:671-689 | the name is centred below a ratio of 0.3, rising from 0.3 up to 0.7, and docked from 0.7 on |
| PortfolioRules.NamePhaseMonotone | js/main.js:659-689 | scrolling further never moves the name back to an earlier phase |
| PortfolioRules.NavbarShown | js/main.js:716-722 | defines the navbar rule: shown exactly when the scroll position exceeds 80% of the viewport height |
| PortfolioRules.NavbarShownImpliesDockedAndDark | js/main.js:714-723 | whenever the navbar shows, the name is docked and the dark-mode progress is 1 |
| PortfolioRules.StoredThemeValue | js/main.js:733-739 | the toggle stores 'dark' exactly when dark mode is on and 'light' exactly when it is off |
| PortfolioRules.ThemeIconClass | js/main.js:733-739 | the theme icon is the moon exactly in dark mode and the sun exactly in light mode |
| PortfolioRules.SavedThemeTurnsDark | js/main.js:743-747 | defines the startup rule: only a saved value of exactly 'dark' turns dark mode on |
| PortfolioRules.ThemePersistenceRoundTrip | js/main.js:729-747 | the value the toggle stores turns dark mode on at the next startup exactly when dark mode was on |
| PortfolioRules.SectionContains | js/main.js:791-794 | defines when a section holds the scroll position: from 150 pixels above its top, for its height, upper end excluded |
| PortfolioRules.LastSectionContaining | js/main.js:786-797 | the result is a section holding the position with no later section holding it, or None when no section holds it |
| PortfolioRules.CurrentSectionId | js/main.js:788-799 | '' when no section holds the position; otherwise exactly the id of the last section that holds it |
| PortfolioData.FallbackShape | js/main.js:523-577 | three fallback projects with distinct ids, each with a first image, four skill groups, three timeline entries |
| PortfolioData.FindProject | js/main.js:825-827 | `find` by id: the first project with that id, or None exactly when no project has it |
| PortfolioPage.ImageAt | js/main.js:227 | reading `images[i]` gives the image exactly when i is in range, `undefined` otherwise |
| PortfolioPage.Portfolio.constructor | js/main.js:442-452 | the initial field values of the constructor |
| PortfolioPage.Portfolio.LoadData | js/main.js:488-521 | both fetches succeed: the fetched lists and the embedded timeline; either fails: both fallback lists, timeline untouched; nothing else changes |
| PortfolioPage.Portfolio.SetFallbackData | js/main.js:523-577 | installs the fallback projects and skills |
| PortfolioPage.Portfolio.Init | js/main.js:457-486 | fetched lists with the embedded timeline on success; on any failure the fallback lists (3 projects, 4 skill groups) with the timeline kept; dark mode on and the moon icon exactly if it was on or the saved theme is 'dark'; every other field unchanged |
| PortfolioPage.Portfolio.FinishLoading | js/main.js:481-485 | the loading flag is cleared |
| PortfolioPage.Portfolio.SetupThemeToggle | js/main.js:742-747 | only a saved 'dark' turns dark mode on and sets the moon icon |
| PortfolioPage.Portfolio.ToggleTheme | js/main.js:729-740 | dark mode flips, and the stored value and the icon match the new mode |
| PortfolioPage.Portfolio.UpdateThemeTransition | js/main.js:643-652 | dark mode is added past a progress of 0.3 and never removed; the transition class is added exactly when dark mode is switched on |
| PortfolioPage.Portfolio.EndThemeTransition | js/main.js:648-650 | the transition class is removed |
| PortfolioPage.Portfolio.OnScrollFrame | js/main.js:615-630 | after a frame dark mode is on exactly if it was or the offset passed 15% of the viewport, the transition class is added exactly when dark mode switches on, and the navbar shows exactly past 80% |
| PortfolioPage.Portfolio.UpdateNavigationVisibility | js/main.js:714-723 | the navbar shows exactly when `NavbarShown` holds of the scroll position: past 80% of the viewport |
| PortfolioPage.Portfolio.UpdateActiveNavigation | js/main.js:777-784 | exactly the links whose href is '#' + id are active; hrefs and order are kept |
| PortfolioPage.Portfolio.CurrentSection | js/main.js:787-797 | the loop ends with the id of the last section holding the position, '' when none |
| PortfolioPage.Portfolio.UpdateActiveNavigationOnScroll | js/main.js:786-802 | the links follow the section found, and stay untouched when none is found |
| PortfolioPage.Portfolio.OnAnchorClick | js/main.js:752-767 | for an existing target exactly the links whose href is `#` + target are active and every href is kept; for a missing target the links stay untouched |
| PortfolioPage.Portfolio.OpenProjectModal | js/main.js:825-853 | shows the first project with the id and locks scrolling; an unknown id changes nothing |
| PortfolioPage.Portfolio.CloseProjectModal | js/main.js:855-859 | hides the modal and unlocks scrolling |
| PortfolioPage.Portfolio.OnModalKey | js/main.js:818-822 | Escape closes a visible modal; any other key, or a hidden modal, changes nothing |
| PortfolioPage.Portfolio.OpenImageViewer | js/main.js:215-230 | stores the list and the unclamped start index, creates the viewer once, shows `images[startIndex]` and locks scrolling |
| PortfolioPage.Portfolio.CloseImageViewer | js/main.js:268-274 | hides the viewer and unlocks scrolling, and does nothing when no viewer exists |
| PortfolioPage.Portfolio.NextImage | js/main.js:276-282 | with more than one image the index becomes the wrapped successor and that image shows; otherwise nothing changes; an in-range index stays in range |
| PortfolioPage.Portfolio.PreviousImage | js/main.js:284-290 | with more than one image the index becomes the wrapped predecessor and that image shows; otherwise nothing changes; an in-range index stays in range |
| PortfolioPage.Portfolio.OnViewerKey | js/main.js:252-258 | while the viewer is visible, Escape closes it and restores scrolling, and the arrows step the index with wrap-around and show that image, leaving visibility alone (no change with one image or none); any other key, or a hidden viewer, changes nothing |
| PortfolioPage.Portfolio.OnViewerBackdropClick | js/main.js:261-265 | a click on the backdrop closes the viewer |
| ProjectPanels.SingleExpandedAtMostOne | js/projects.js:47-56 | no two panels are expanded together |
| ProjectPanels.Collapsed | js/projects.js:95-111 | the panel loses 'expanded', its details and every achievement card lose their inline opacity, transform and transition, and nothing else changes |
| ProjectPanels.ExpandStarted | js/projects.js:58-86 | the panel gains 'expanded' and every achievement card is made transparent and scaled to 0.8, keeping its transition; nothing else changes |
| ProjectPanels.EntranceSettled | js/projects.js:70-91 | after the timers the details and every achievement card are opaque and in place; class, panel style, image, placeholder and tags are kept |
| ProjectPanels.WithHover | js/projects.js:113-133 | the image scales to 1.05, the placeholder scales and tilts, both with the hover transition, and every tag glows; nothing else changes |
| ProjectPanels.WithoutHover | js/projects.js:135-151 | the image and placeholder transforms and every tag's glow are cleared, their transitions kept; nothing else changes |
| ProjectPanels.CollapseUndoesExpand | js/projects.js:58-111 | expanding then collapsing a panel equals collapsing it directly |
| ProjectPanels.EntranceStyleKept | js/projects.js:153-173 | no collapse, expansion, entrance timer or hover effect changes the panel's entrance style |
| ProjectPanels.HoverRoundTrip | js/projects.js:113-151 | hover in then out clears the transforms and the tags' glow, keeps the transitions, and changes nothing else |
| ProjectPanels.HoverIdempotent | js/projects.js:113-133 | adding the hover effect twice equals adding it once |
| ProjectPanels.ProjectsGallery.constructor | js/projects.js:2-12 | no panel expanded, each panel hidden for its entrance |
| ProjectPanels.ProjectsGallery.SetupIntersectionObserver | js/projects.js:166-172 | every panel gets the hidden entrance style and nothing else changes |
| ProjectPanels.ProjectsGallery.OnIntersect | js/projects.js:154-160 | the intersecting panel becomes opaque and moves into place |
| ProjectPanels.ProjectsGallery.TogglePanel | js/projects.js:47-56 | the expanded panel collapses; any other panel collapses the expanded one and becomes the only expanded panel |
| ProjectPanels.ProjectsGallery.ExpandPanel | js/projects.js:58-93 | the panel becomes the current one, gets the class, and its achievements start transparent and shrunk |
| ProjectPanels.ProjectsGallery.CollapsePanel | js/projects.js:95-111 | no panel is current, and the panel loses the class and its details' and achievements' inline styles |
| ProjectPanels.ProjectsGallery.EntranceTimersFired | js/projects.js:70-92 | the panel's details and achievements end opaque and in place, whether or not it is still expanded |
| ProjectPanels.ProjectsGallery.OnClick | js/projects.js:15-37 | a click in the expanded panel collapses it; a click in another panel collapses the expanded one, if any, and expands the clicked one; a click outside collapses the expanded panel; the panels change exactly so |
| ProjectPanels.ProjectsGallery.OnKeyDown | js/projects.js:40-44 | Escape collapses the expanded panel; other keys change nothing |
| ProjectPanels.ProjectsGallery.OnMouseEnter | js/projects.js:19-23 | the hover effect is added unless the panel is expanded |
| ProjectPanels.ProjectsGallery.OnMouseLeave | js/projects.js:25-29 | the hover effect is removed unless the panel is expanded |
| ProjectPanels.ProjectsGallery.AddHoverEffect | js/projects.js:113-133 | the panel becomes `WithHover` of itself and every other panel is untouched |
| ProjectPanels.ProjectsGallery.RemoveHoverEffect | js/projects.js:135-151 | the panel becomes `WithoutHover` of itself and every other panel is untouched |
| SiteContent.FirstImage | js/data.js:117 | the first image of the list, or the text 'undefined' when the list is empty |
| SiteContent.ProjectCards | js/data.js:107-133 | one project card per project, in data order, with the title, the first image ('undefined' when there is none) and a delay of 0.2 s per position |
| SiteContent.SkillCards | js/data.js:136-154 | one skill card per skill group, in data order, with its name and icon and a delay of 0.1 s per position |
| SiteContent.TimelineItems | js/data.js:157-175 | one timeline item per milestone, in data order, with its year and title and a delay of 0.3 s per position |
| SiteContent.CardsInOrder | js/data.js:107-175 | each card's animation delay exceeds the one before it, and every project card shows the project's first image |
| SiteContent.PreviewImages | js/data.js:196 | at most four images, a prefix of the list, the whole list when it has four or fewer |
| SiteContent.ContentPage.InitializeData | js/data.js:100-104 | the three regions gain the project, skill and timeline cards |
| SiteContent.ContentPage.LoadProjects | js/data.js:107-133 | one card per project is appended, in order, 0.2 s apart |
| SiteContent.ContentPage.LoadSkills | js/data.js:136-154 | one card per skill is appended, in order, 0.1 s apart |
| SiteContent.ContentPage.LoadTimeline | js/data.js:157-175 | one item per milestone is appended, in order, 0.3 s apart |
| SiteContent.ContentPage.ShowProjectPreview | js/data.js:178-203 | a transparent, shrunk preview of the first four images is appended |
| SiteContent.ContentPage.PreviewShownTimerFired | js/data.js:205-208 | that preview becomes opaque and full size |
| SiteContent.ContentPage.HideProjectPreview | js/data.js:212-216 | the first preview on the page fades out; with none nothing happens |
| SiteContent.ContentPage.PreviewRemovalTimerFired | js/data.js:217 | that preview leaves the page and the others keep their order |
| SiteContent.NavigateIndex | js/data.js:255-258 | the new index is in range; next wraps the last image (and a missing one) to 0; previous wraps the first image (and a missing one) to the last |
| SiteContent.NavigateInverse | js/data.js:255-258 | next then previous, and previous then next, restore any in-range index |
| SiteContent.FindIndex | js/data.js:254 | the first position holding the value, -1 exactly when it is absent |
| SiteContent.ResolveUrl | js/data.js:229-260 | what `img.src` reads back: an absolute URL unchanged, a relative path joined to the page's base URL |
| SiteContent.ResolvedIsAbsolute | js/data.js:229 | an image path assigned to `src` reads back as an absolute URL |
| SiteContent.CurrentIndexAsWritten | js/data.js:254 | as written: a position whose path equals the shown URL, -1 exactly when no path equals it |
| SiteContent.AsWrittenNeverFinds | js/data.js:254 | the lookup as written never finds the shown image among relative paths |
| SiteContent.AsWrittenNavigationStuck | js/data.js:253-260 | as written, next always shows the first image and previous always the last |
| SiteContent.AsWrittenNextRepeatsFirstImage | js/data.js:253-260 | on the first project, showing image 0, next as written shows image 0 again where the corrected lookup shows image 1 |
| SiteContent.ShownIndex | js/data.js:254 | corrected: the first position whose resolved URL equals the shown URL, -1 exactly when none does |
| SiteContent.ShownIndexFinds | js/data.js:254 | with distinct image URLs the corrected lookup finds exactly the shown image |
| SiteContent.ShownIndexNavigates | js/data.js:253-260 | with the corrected lookup next and previous step by one from the shown image, wrapping at both ends |
| SiteContent.FreshThumbs | js/data.js:235-248 | one thumbnail per image, in order, only the first active |
| SiteContent.GalleryModal.OpenProjectGallery | js/data.js:222-270 | title, first image, fresh thumbnails and navigation for the project; the modal is shown |
| SiteContent.GalleryModal.ClickThumbnail | js/data.js:240-244 | the thumbnail's image shows, and it is the only active thumbnail |
| SiteContent.GalleryModal.NavigateImages | js/data.js:253-264 | with the corrected lookup the image shown and the only active thumbnail move one step with wrap-around from the image shown |
| SiteContent.GalleryModal.ToggleThumbs | js/data.js:261-263 | each thumbnail is active exactly when its position is the new index; images and order are kept |
| IntroAnimation.Clamp | js/animation.js:11 | within [a, b] when a <= b, the value itself when already inside, the nearer bound outside, and a when a > b |
| IntroAnimation.ClampIdempotent | js/animation.js:11 | clamping twice equals clamping once |
| IntroAnimation.LatchMorph | js/animation.js:113-122 | `startMorph` sets `handled`, dispatches one event the first time and does nothing after that, and keeps `touchStartY` |
| IntroAnimation.Triggers | js/animation.js:124-140 | defines which events call `startMorph`: a wheel with deltaY above 5, a touchmove more than 30 pixels above the last touchstart, and the fallback timer; never a touchstart |
| IntroAnimation.Step | js/animation.js:124-140 | once `handled` is set no event dispatches again; one event dispatches at most once; a touchstart only records its position |
| IntroAnimation.StepLatches | js/animation.js:111-133 | `handled` is set exactly when it was or the event triggers, and an event dispatches only on the first trigger |
| IntroAnimation.RunAppend | js/animation.js:123-140 | running two batches of events equals running them one after the other |
| IntroAnimation.RunDispatchesOnce | js/animation.js:111-121 | once set `handled` stays set, and a run dispatches at most once |
| IntroAnimation.MorphAtMostOnce | js/animation.js:111-140 | from a fresh overlay 'intro:morph' is dispatched at most once, and exactly once after the six-second timer |
| IntroAnimation.SmallGesturesIgnored | js/animation.js:123-133 | a wheel with deltaY <= 5 or a swipe of at most 30 pixels changes nothing |
| IntroAnimation.SwipeFromLastTouchStart | js/animation.js:126-133 | after touchstarts at y0 then y1, a touchmove to y morphs exactly when y1 - y exceeds 30, whatever y0 was, and dispatches only if the latch was not yet set |
| IntroAnimation.BuildTiles | js/animation.js:166-171 | exactly 40 × 18 = 720 identical small tiles |
| IntroAnimation.IntroPage.CreateTileBackground | js/animation.js:149-173 | one 40-column grid of 720 tiles is appended to the hero, nothing without a hero |
| IntroAnimation.IntroPage.OnDomContentLoaded | js/animation.js:176-179 | the hero gains its tile grid; an overlay is on the page and listening; an overlay already present keeps its latch, fade and timers, otherwise the latch is fresh and no timer is pending; no morph is dispatched |
| IntroAnimation.IntroPage.CreateIntroOverlay | js/animation.js:14-31 | with an overlay present nothing changes; otherwise a fresh overlay and latch, listening |
| IntroAnimation.IntroPage.StartMorph | js/animation.js:112-121 | the first call dispatches, sets `handled` and schedules the fade; later calls change nothing |
| IntroAnimation.IntroPage.Dispatch | js/animation.js:123-140 | each wheel, touch or timer event updates the latch as `Step` does, and the fade is scheduled exactly when the event morphs while the overlay is present; with no listener nothing changes |
| IntroAnimation.IntroPage.RemoveIntroTimerFired | js/animation.js:101-108 | the overlay fades and lets clicks through, and its removal is scheduled |
| IntroAnimation.IntroPage.DetachTimerFired | js/animation.js:105-107 | the overlay leaves the page |
| IntroAnimation.IntroPage.MorphsPerOverlay | js/animation.js:111-121 | no overlay created so far has dispatched more than one 'intro:morph' |

## Left out

- js/skills-sphere.js is not part of this model. It is floating-point trigonometry and DOM drag handling.
- HTML template strings, CSS injection, `populate*`, `populateProjectsDropdown`, `scrollToProject` and the style writes of `updateProfileTransform` are left out. They are presentation only. The name phases are kept as `NamePhaseAt`.
- `setupWelcomeSequence`, `setupIntersectionObservers` of main.js, `setupForm`, `showNotification`, the resume popup and the contact links are left out. They are timed class additions and constant URLs, with no rule to state.
- The loose method bodies at js/main.js:1-213 are left out. They are variants of `updateProfileTransform`, `setupProjectHoverEffects` and `populateProjects`, and one of them is cut off mid-statement (js/main.js:138-149).
- The image viewer methods at js/main.js:215-290 stand outside `class Portfolio`, and nothing in the class calls `openImageViewer`. The model places them in `Portfolio`, the object they use through `this`. The file as given does not parse, because it starts with method bodies outside any class (js/main.js:1). None of js/main.js would run; the model describes the code as its methods are written.
- The model assumes every element the scripts look up exists. Where one is missing the code throws a TypeError, for example `navbar.classList` at js/main.js:719 or `projectsContainer.appendChild` at js/data.js:131. The model does not capture those failures.
- `fetch`, JSON parsing and `localStorage` are inputs or fields. Smooth scrolling, `requestFullscreen` and the rendered markup are not modelled.
- `setTimeout`, `requestAnimationFrame` and `IntersectionObserver` callbacks are separate methods. Delays and frame throttling are not modelled.
- Card delays are `real` seconds. The formatting of the CSS `animationDelay` string is not modelled.
- NaN and infinite numbers are not modelled.
- PortfolioPage.Portfolio.LoadData: a response body that parses but is not an array is not modelled.
- ProjectPanels.ProjectsGallery.constructor: requires that no panel is expanded when the page loads, which the page's markup guarantees.
- ProjectPanels.ProjectsGallery.EntranceTimersFired: models the state after all of a panel's entrance timers have fired, not each timer on its own.
- SiteContent.GalleryModal.OpenProjectGallery: requires a project with images, which every project in the data has.
- SiteContent.GalleryModal.NavigateImages: uses the corrected lookup. The lookup as written is `CurrentIndexAsWritten`.
- `ResolveUrl` joins a relative path to the page's base URL. It does not resolve `..` segments or percent-encode spaces. The images of the data need neither for the finding.
- IntroAnimation.IntroPage.Dispatch: events before any overlay exists find no listener. Listeners of earlier, removed overlays are spent, and `Valid` records this.
- The staged fade-ins of the intro overlay's name and picture, and the returned `removeIntro`, are left out. No caller keeps that object.

## Findings

| source | as written | input that shows it | evidently intended | confidence | as-written member | corrected member |
|---|---|---|---|---|---|---|
| js/data.js:254 | `navigateImages` finds the shown image by comparing each relative image path with `mainImage.src`, which the browser reports as an absolute URL. No path matches, so the index is -1: "next" always shows image 0 and "previous" always the last image | the first project, showing image 0 (`Image/Projectec/1.png`), then "next": the index found is -1, so image 0 shows again | "next" and "previous" step one image from the one shown | not executed | SiteContent.AsWrittenNavigationStuck | SiteContent.ShownIndexNavigates |
