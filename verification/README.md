# PortfolioApp behaviour, modelled in Dafny

A model of the logic inside `PortfolioApp`, the class that drives a single-page
portfolio site (`script.js`). Five parts of it are modelled and proved:

- **Typewriter** (`typewriter.dfy`, module `Typewriter`). The hero banner types a
  phrase one character per tick, holds it, erases it one character per tick, then
  moves to the next phrase, for ever. `Step` is one tick as a pure function of the
  three fields `textIndex`, `charIndex` and `isDeleting`. The class
  `TypingAnimation` has those fields. Its `Tick` follows `typeText` statement by
  statement and returns the text written and the delay chosen. The `setTimeout`
  chain is replaced by `Drive`, which calls `Tick` n times. Lemmas prove the state
  invariant, the rendered prefix, the direction flips and their delays, the
  2n-tick cycle of a phrase of length n, and the period of the whole animation
  (132 ticks for the page's four phrases).
- **Theme** (`theme.dfy`, module `Theme`). The mapping from the current theme to
  the next theme, the icon class and the aria-label, as functions. The class
  `ThemePage` holds `data-theme`, the saved preference, the icon class and the
  label.
- **Mobile menu** (`menu.dfy`, module `MobileMenu`). The menu's open state is
  shown in four places: the button class, the links class, the body overflow and
  aria-expanded. Toggling, closing and the four handlers that can only close the
  menu are functions on a `MenuView` value, and `Menu` is the class whose methods
  change those attributes.
- **Project filter** (`projects.dfy`, module `ProjectFilter`). Cards and filter
  buttons are arrays. The callbacks a click schedules are returned as `Timer`
  values, with their delays. `ApplyTimers` gives the page once they have all
  fired. The announcement text is a function, and its count can be read back.
- **One-shot reveals** (`reveal.dfy`, module `Reveal`). The three
  IntersectionObserver setups are three classes. Each holds the set of observed
  target indices and a `Deliver(entries)` method for one callback batch. Only
  `isIntersecting` is an input. A ghost set `handled` records whose handler has
  run. Each `Deliver` proves that the targets it handles were never handled
  before.

`decimal.dfy` (module `Decimal`) renders a count the way a JavaScript template
string does. `wrappers.dfy` defines `Option`, which stands for a DOM attribute or
stored value that may be null.

A progress bar with no `data-width` gets the width `null%`: the page writes
`` `${width}%` `` with a null attribute (script.js:122-126), and `WidthStyle`
models that.

## Model

| member | source | states |
|---|---|---|
| Typewriter.Substring | script.js:410-413 | `substring(0, end)` with both ends clamped; inside the bounds it is exactly the slice `s[start..end]` |
| Typewriter.NextPhrase | script.js:424 | the phrase after `i` is `i + 1`, or the first one after the last; it is always in range |
| Typewriter.Next | script.js:406-426 | the fields after one tick keep the phrase index in range and keep the invariant (`1 <= charIndex` while erasing, `charIndex < length` while typing, so `0 <= charIndex <= length`) when every phrase is non-empty |
| Typewriter.Step | script.js:406-426 | one tick moves to `Next`'s state; it writes the first `charIndex` characters of the phrase it started on and moves `charIndex` by one; erasing starts only when typing reaches the phrase length (delay 2000); typing restarts only when erasing reaches 0, with the phrase index advanced circularly (delay 500); every other tick keeps phrase and direction, with delay 50 when erasing and 100 when typing |
| Typewriter.Run | script.js:25-27 | the state after n ticks keeps the phrase index in range and keeps the invariant when every phrase is non-empty |
| Typewriter.RunAdd | script.js:428 | n ticks and then m more are n + m ticks of the same rescheduling chain |
| Typewriter.FramesAdd | script.js:428 | the frames of n + m ticks are the first n frames followed by the next m |
| Typewriter.TypingPhase | script.js:412-421 | from charIndex 0, k typing ticks show k characters, and erasing begins exactly at the phrase length |
| Typewriter.ErasingPhase | script.js:409-425 | from a fully typed phrase, k erasing ticks remove k characters, and the last one moves to the next phrase at charIndex 0, typing |
| Typewriter.PhaseCycle | script.js:406-428 | from (charIndex 0, typing) on a phrase of length n, exactly 2n ticks return to (0, typing) with the phrase index advanced by one, circularly |
| Typewriter.PhaseCycleIsFirstReturn | script.js:406-428 | no tick strictly inside those 2n returns to charIndex 0 |
| Typewriter.CyclesAdvanceInOrder | script.js:19-27 | after the first k phrases have been typed and erased from the initial state, the animation stands at the start of phrase k; phrases are visited in order |
| Typewriter.FullCycle | script.js:25-27 | after 2 × (total length of the phrases) ticks the state is the initial (0, 0, typing) again |
| Typewriter.Replay | script.js:406-428 | after one period every later tick repeats the corresponding tick of the first period, both its state and its frame |
| Typewriter.PagePeriod | script.js:19-24 | the page's own phrase list is well formed, and its period is 132 ticks |
| Typewriter.TypingAnimation.constructor | script.js:19-27 | the animation starts at phrase 0, charIndex 0, typing |
| Typewriter.TypingAnimation.Start | script.js:398-404 | nothing is scheduled without a text span; otherwise the first tick comes after 1000 |
| Typewriter.TypingAnimation.Tick | script.js:406-429 | updates the three fields to `Step`'s next state, writes `Step`'s text into the span and returns `Step`'s delay |
| Typewriter.TypingAnimation.Drive | script.js:401-402 | n ticks of the chain leave the state at `Run` of n and return `Frames` of n |
| Theme.ToggledTheme | script.js:312-313 | the next theme is light exactly when the current attribute is dark, and dark for any other value, absent included |
| Theme.SavedOrDefault | script.js:171 | a missing or empty saved value gives light; any other saved value is used unchanged |
| Theme.IconClass | script.js:326-329 | the icon is `fas fa-sun` in dark mode and `fas fa-moon` otherwise |
| Theme.AriaLabel | script.js:331-334 | the label is "Switch to light mode" in dark mode and "Switch to dark mode" otherwise |
| Theme.LabelNamesToggleTarget | script.js:313 | the label names exactly the theme a toggle would switch to |
| Theme.ToggleTwice | script.js:313 | two toggles give dark back from dark and light from anything else, so they are the identity on dark and on light |
| Theme.ToggleAlternates | script.js:313 | one toggle always lands on dark or light, and from there toggles alternate |
| Theme.Announcement | script.js:339 | the screen-reader message is "Switched to <theme> mode", naming the theme exactly ("Switched to dark mode", "Switched to light mode") |
| Theme.ThemePage.UpdateThemeIcon | script.js:323-335 | without a toggle button nothing changes; the icon is set only when the button has one; the label is set otherwise |
| Theme.ThemePage.InitializeTheme | script.js:170-174 | applies the saved theme (light by default), saves nothing, and leaves the toggle showing that theme |
| Theme.ThemePage.ToggleTheme | script.js:311-321 | applies the toggled theme, saves exactly that value, leaves the toggle showing it and returns "Switched to … mode" |
| MobileMenu.Toggled | script.js:254-264 | both classes flip; overflow is `hidden` iff the links are active; aria-expanded is "true" iff they are; a synced view stays synced |
| MobileMenu.ToggleTwice | script.js:254-264 | two toggles restore a synced view |
| MobileMenu.Closed | script.js:266-271 | closing leaves both classes off, overflow empty and aria-expanded "false", synced whatever came before |
| MobileMenu.CloseIdempotent | script.js:266-271 | closing a closed menu changes nothing |
| MobileMenu.OnKey | script.js:235-239 | Escape closes the menu; other keys leave it alone; no key opens it; sync is preserved |
| MobileMenu.OnResize | script.js:246-251 | a width above 768 closes the menu; other widths leave it alone; never opens it |
| MobileMenu.OnDocumentClick | script.js:209-213 | a click outside the nav closes the menu; a click inside leaves it alone; never opens it |
| MobileMenu.OnAnchorClick | script.js:220-222 | following an in-page link whose target exists closes the menu; never opens it |
| MobileMenu.Menu.ToggleMobileMenu | script.js:254-264 | the four attributes become `Toggled` of the old ones; the keyboard flag is untouched |
| MobileMenu.Menu.CloseMobileMenu | script.js:266-271 | the four attributes become `Closed` |
| MobileMenu.Menu.HandleDocumentClick | script.js:209-213 | the view becomes `OnDocumentClick` of the old one |
| MobileMenu.Menu.HandleKeyboardNavigation | script.js:235-244 | the view becomes `OnKey` of the old one, and Tab sets the `keyboard-navigation` body class |
| MobileMenu.Menu.HandleResize | script.js:246-251 | the view becomes `OnResize` of the old one |
| MobileMenu.Menu.HandleAnchorClick | script.js:215-233 | the view becomes `OnAnchorClick` of the old one |
| ProjectFilter.ShouldShow | script.js:362-363 | every card is shown under "all"; under any other filter a card is shown iff its category equals the filter, and a missing filter shows exactly the cards with no category (`null === null`) |
| ProjectFilter.Fire | script.js:367-374 | a show callback adds `visible` and leaves the display; a hide callback sets `display: none` and leaves `visible`; the category never changes |
| ProjectFilter.ApplyTimers | script.js:367-374 | running the callbacks keeps the number of cards and every card's category |
| ProjectFilter.ApplyTimersLeavesOthers | script.js:367-374 | a card that no callback names is left exactly as it was |
| ProjectFilter.Immediate | script.js:365-375 | synchronously, a shown card gets `display: block` and keeps its `visible` class; a hidden card loses `visible` and keeps its display |
| ProjectFilter.Immediately | script.js:361-376 | every card gets the synchronous effect of `ShouldShow` for its own category |
| ProjectFilter.FilterTimers | script.js:361-376 | one callback per card, in card order: a shown card gets `visible` after index × 50, a hidden card leaves the layout after 300; show delays never decrease along the cards |
| ProjectFilter.RevealTimers | script.js:183-188 | the first reveal gives card i `visible` after i × 100; the delays never decrease |
| ProjectFilter.FilterSettlesPrefix | script.js:361-376 | after the first k callbacks, the first k cards are settled and the rest are as the synchronous part left them |
| ProjectFilter.FilterSettles | script.js:361-376 | once every callback has run, a card is visible and `display: block` iff the filter is "all" or equals its category, and `display: none` otherwise |
| ProjectFilter.RevealSettlesPrefix | script.js:183-188 | after the first k reveal callbacks, the first k cards are visible and the rest are unchanged |
| ProjectFilter.RevealSettles | script.js:183-188 | once every reveal callback has run, every card is visible |
| ProjectFilter.CountVisibleFollowsFilter | script.js:379 | cards whose `visible` class matches the filter one for one are counted by the filter |
| ProjectFilter.SettledVisibleCount | script.js:379-380 | once a click has settled, the number of visible cards is the number of cards the filter shows |
| ProjectFilter.StaleCountAsWritten | script.js:379-380 | after "web", a click on "all" shows 3 cards, but the count read at that moment is 1, and the page announces "Showing 1 all projects" |
| ProjectFilter.AnnouncementCarriesCount | script.js:383-386 | the count can be read back from the announcement text unchanged, whatever the filter |
| ProjectFilter.AnnouncementNamesFilter | script.js:385-386 | the message is "Showing <count> all projects" for "all" and "Showing <count> <filter> projects" otherwise |
| ProjectFilter.CountAsWritten | script.js:379 | the count read right after the card loop never exceeds the number of cards the filter shows, and equals it exactly when every shown card already carried `visible` before the click |
| ProjectFilter.StaleCountAtMostShown | script.js:361-379 | right after the loop only shown cards can carry `visible`, so the stale count is at most the shown count, with equality iff every shown card was already visible |
| ProjectFilter.CountVisibleCards | script.js:379 | counts the cards that carry `visible` in the array as it stands |
| ProjectFilter.FilterText | script.js:385 | the words after the count always end in " projects": "all projects" for "all", "<filter> projects" for another filter, "null projects" for a missing one |
| ProjectFilter.FilterAnnouncement | script.js:383-386 | the message always starts with "Showing " |
| ProjectFilter.ActivateButton | script.js:356-358 | afterwards exactly the clicked button carries `active`; filter values are unchanged |
| ProjectFilter.ApplyFilter | script.js:361-376 | the cards become `Immediately` of the old cards, and the returned callbacks are `FilterTimers` |
| ProjectFilter.FilterProjects | script.js:351-381 | exactly the clicked button is active; cards and callbacks are as in `ApplyFilter`; the announcement carries the count read right after the card loop (`CountAsWritten`), as the page does |
| ProjectFilter.InitializeProjects | script.js:176-194 | with no button or no card nothing happens; otherwise every card gets `display: block`, the reveal callbacks are `RevealTimers` and the handlers are attached |
| Decimal.NatToString | script.js:386 | a count is rendered as at least one digit, with no leading zero |
| Decimal.NatToStringRoundTrip | script.js:386 | reading the rendered digits back gives the count |
| Reveal.Intersecting | script.js:94-95 | a target is handled by a batch iff some entry of the batch names it as intersecting |
| Reveal.FirstWithId | script.js:46 | `#home` is the first section whose id is "home", if there is one |
| Reveal.SectionObserver.constructor | script.js:107-111 | every section except "home" is observed; nothing is visible or handled yet |
| Reveal.SectionObserver.RevealHome | script.js:45-49 | the home section gets `section-visible` directly and was never observed |
| Reveal.SectionObserver.Deliver | script.js:93-105 | each intersecting section gets `section-visible` and is unobserved, in the same callback; classes are only added; handled sections were never handled before |
| Reveal.WidthStyle | script.js:122-126 | the style is the `data-width` followed by `%`, and `null%` when the attribute is missing |
| Reveal.FillTimers | script.js:118-128 | each intersecting bar gets one fill after 200 to its own `data-width` followed by `%`; no other bar gets one |
| Reveal.ProgressBarObserver.constructor | script.js:114-136 | with no bars no observer is created; otherwise every bar is observed |
| Reveal.ProgressBarObserver.Deliver | script.js:118-131 | returns `FillTimers` and unobserves every intersecting bar; handled bars were never handled before |
| Reveal.Truthy | script.js:149 | a `data-src` counts as present exactly when it is non-empty |
| Reveal.LoadedSources | script.js:145-150 | after a callback, an intersecting image with a non-empty `data-src` has exactly that value as its `src`; every other image keeps its `src`, absent included; the number of images is unchanged |
| Reveal.LazyImageObserver.constructor | script.js:139-167 | with no lazy image no observer is created; otherwise every image is observed |
| Reveal.LazyImageObserver.HandleEntry | script.js:145-161 | an intersecting entry sets `src` to its image's `data-src` when that is non-empty and unobserves the image either way; a non-intersecting entry changes nothing |
| Reveal.LazyImageObserver.Deliver | script.js:143-162 | the `src` attributes become `LoadedSources` of the old ones; every intersecting image is unobserved, whatever its `data-src`; handled images were never handled before |

## Findings

| source | as written | input that shows it | evidently intended | confidence | as-written member | corrected member |
|---|---|---|---|---|---|---|
| script.js:379-380 | the announced count is the number of `.project-card.visible` read right after the card loop, before any deferred `visible` addition has run | three cards, one "web" and two "app", with "web" applied and settled; click "all": 3 cards are shown but 1 is counted, so the page announces "Showing 1 all projects" | announce the number of cards the filter shows, which is the number visible once the click has settled | medium; not executed | ProjectFilter.StaleCountAsWritten | ProjectFilter.SettledVisibleCount |

`ProjectFilter.CountAsWritten` is the count as the page reads it, and
`ProjectFilter.FilterProjects` announces it, as the page does. The corrected
count is `CountShown`: `SettledVisibleCount` proves that it is the number of
visible cards once the click has settled.

## Left out

- Timers and frames. `setTimeout`, `requestAnimationFrame`, `handleScroll`, and `debounce`/`throttle` (which nothing calls) are not modelled. Delays are returned as numbers, and callbacks as `Timer`/`WidthTimer` values.
- ProjectFilter.ApplyTimers runs callbacks in list order, but the browser runs them in delay order. Each callback of a click touches a different card, so the final state does not depend on the order. Interleaving with callbacks that are still pending is not modelled. These can be left over from an earlier click, or they can be the first-reveal callbacks of `initializeProjects` (i × 100, script.js:185-187), which may still be pending at the first click. For example, a card hidden by a click at t = 50 later gets `visible` from its reveal callback while it has `display: none`, and then `FilterSettles` does not describe the page.
- IntersectionObserver geometry. Thresholds, root margins and when a target intersects are decided by the browser. `isIntersecting` is an input. A batch only names targets observed when it was formed (`DeliveredFrom`).
- Reveal Deliver methods: "handled at most once" is proved across batches. If one batch names the same target twice as intersecting, the source runs its handler twice, and so does the model. The effect is the same value again.
- Scroll progress and the scroll-to-top button. `updateScrollProgress` and the `scrollY > 500` check are floating-point arithmetic on browser metrics.
- Browser side effects with no logic of their own: `localStorage` access itself (modelled as a field), `history.pushState`, `scrollIntoView`/`scrollTo`, creating and removing announcement nodes, and the image `onload`/`onerror` callbacks. The `loaded` class and the removal of `data-src` happen in those callbacks. Also left out: `console` logging and the `module.exports` shim.
- Null handles in `toggleMobileMenu`. `isActive.toString()` throws when `.nav-links` is absent. The model assumes both menu handles exist.
- The empty stubs `updateActiveNavigation` and `updateNavigationOnScroll`.
- Typewriter.TypingAnimation.Tick requires a text span. The page only schedules ticks when the span exists (`Start`), and a span detached later is not modelled.
- Typewriter.Next keeps the invariant only for non-empty phrases. With an empty phrase the source would type for ever. The page's phrase list is non-empty and all its phrases are non-empty (`PagePeriod`).
- Reveal.SectionObserver.RevealHome takes `#home` to be a section. An element with id "home" outside the `section[id]` list is not modelled.
- Strings are sequences of characters, but JavaScript's `length` and `substring` (script.js:410-419) count UTF-16 code units. The two agree on the page's ASCII phrases. For a phrase with a character outside the Basic Multilingual Plane, the page's period and frames differ from `Typewriter.Step`, `PhaseCycle`, `FullCycle` and `TypingAnimation`: a lone surrogate would be rendered mid-character.
- Elements are numbered by document order, and their ids and attributes are read once at setup. The DOM changing under the observers is not modelled.
