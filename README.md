# Nebula One landing page: a Dafny model of its interactive logic

The Nebula One site is a React marketing page. Most of it is markup and
animation. Five pieces of it hold real state and decisions, and this
project models and verifies exactly those:

- **The "Ver para creer" carousel** (`believe.dfy`, module `Believe`).
  - Three drivers share the active slide: programmatic navigation (arrows, dots, arrow keys), the user's own scrolling, and an autoplay frame loop.
  - The component's React state, its three refs, the autoplay start time and the viewport element form the class `Carousel`.
  - The index arithmetic is pure functions: clamping, the loop-mode end jump, `Math.round(scrollLeft / clientWidth)`, and the progress ratio.
- **The reservation form** (`reservation_patterns.dfy`, `reservation.dfy`, `reservation_form.dfy`).
  - The three regular expressions, JavaScript white space and `String.prototype.trim` are written as string predicates, with lemmas tying each to a declarative description.
  - The per-field validators, the incremental error-map update, the `validate` pass, submit normalisation, `aria-describedby`, the notes counter, the submit-disabled rule and the custom selects' open marker are functions.
  - The component's state and handlers are the class `Form`. The confirmation timeout is an explicit event, `TimerFires`.
- **The configurator** (`configurator.dfy`): the three-key configuration, `selectSingle`, the summary lookups, the price table and the device image per colour.
- **The navbar autohide hook** (`autohide.dfy`): the two-variable update rule, as a step function, a trace fold with lemmas, and the hook class.
- **The navbar** (`navbar.dfy`): the scrolled flag, the active-section choice from intersection entries, the routing decisions of link and logo clicks, and the menu flag.

`common.dfy` holds `Option`, `Min`, `Max` and `Abs`.

A browser call (`scrollTo`, `navigate`, Lenis) is modelled as a value the handler returns (`Navbar.NavAction`), or as a field it sets (`Carousel.scrollLeft`, `Carousel.lastBehavior`).

Inputs the page reads from the browser are method parameters:
- `window.scrollY`;
- intersection entries;
- frame timestamps;
- reduced-motion preference;
- the presence of Lenis;
- the viewport width.

**Looping navigation is an end jump, not reduction modulo N.** A request
below 0 goes to slide `N-1` and one above `N-1` goes to slide 0
(`src/sections/Believe/Believe.tsx:60-65`); the model follows this in
`Believe.WrapIndex`. `Believe.WrapAgreesWithModuloOnSteps` shows that the
two agree on every request the component makes (`a-1`, `a+1` and a dot's
own index `a`); `Believe.WrapIsNotModulo` shows they differ on -2 and 5.

## Model

| member | source | states |
|---|---|---|
| Believe.SlidesWithMedia | src/sections/Believe/Believe.tsx:42-47 | one entry per slide, in order, carrying that slide; pictures repeat with period three |
| Believe.ShippedSlidesHaveDistinctImages | src/data/copy.ts:132-151 | the three shipped slides get the first, second and third picture |
| Believe.ClampIndex | src/sections/Believe/Believe.tsx:66-68 | non-looping target is in `[0, N-1]`: an in-range request is kept, below 0 gives 0, above gives `N-1` |
| Believe.WrapIndex | src/sections/Believe/Believe.tsx:60-65 | looping target is in range: an in-range request is kept, below 0 gives `N-1`, above `N-1` gives 0 (end jump) |
| Believe.TargetIndex | src/sections/Believe/Believe.tsx:56-68 | whichever mode, the target is a valid index and an in-range request is unchanged |
| Believe.WrapAgreesWithModuloOnSteps | src/sections/Believe/Believe.tsx:114-119 | for `a±1` and `a` with `a` valid, the end jump equals reduction modulo `N` |
| Believe.WrapIsNotModulo | src/sections/Believe/Believe.tsx:60-65 | with three slides, requests -2 and 5 land on 2 and 0, where modulo gives 1 and 2 |
| Believe.NearestIndex | src/sections/Believe/Believe.tsx:98 | `Math.round(s / w)` is the `r` with `(2r-1)w <= 2s < (2r+1)w`, ties rounding up |
| Believe.NearestIndexUnique | src/sections/Believe/Believe.tsx:98 | the rounding band determines the index uniquely |
| Believe.NearestIndexOfSlideOffset | src/sections/Believe/Believe.tsx:70 | the offset `k * clientWidth` that `scrollToIndex` sets reads back as index `k` |
| Believe.ProgressRatio | src/sections/Believe/Believe.tsx:149-151 | progress is at most 1, non-negative for non-negative elapsed, 1 exactly from 6500 ms, and proportional below |
| Believe.Carousel.constructor | src/sections/Believe/Believe.tsx:36-40 | first slide active, progress 0, no target, not animating, no viewport yet |
| Believe.Carousel.AttachViewport | src/sections/Believe/Believe.tsx:35 | the viewport element mounts with its width and offset 0 |
| Believe.Carousel.Commit | src/sections/Believe/Believe.tsx:80-82 | index state and ref set together, progress reset; a changed index restarts the autoplay effect |
| Believe.Carousel.ScrollToIndex | src/sections/Believe/Believe.tsx:49-85 | no viewport: nothing changes; else `LandedOn` the clamped or wrapped target: index, ref and target set, offset `target * clientWidth`, behaviour the requested one or auto/smooth by preference, progress 0, animating unless reduced motion or `'auto'`, start time cleared on a changed index; the offset reads back as the index |
| Believe.Carousel.HandleScroll | src/sections/Believe/Believe.tsx:87-112 | no viewport or zero width: nothing changes; else offset and behaviour kept and `Settled` on the clamped rounded index: animating cleared, index targeted and active, progress and start time reset only when the index changed |
| Believe.Carousel.NativeScroll | src/sections/Believe/Believe.tsx:93-98 | a mounted viewport moves to `left`; with positive width the carousel is `Settled` on the clamped rounded index of `left`, with zero width nothing else changes |
| Believe.Carousel.ShowPrevious | src/sections/Believe/Believe.tsx:114-116 | the carousel lands on the previous slide modulo `N` (from 0 on `N-1`), with the whole `scrollToIndex` state: offset, target, default behaviour, animating flag, progress 0, start time |
| Believe.Carousel.ShowNext | src/sections/Believe/Believe.tsx:117-119 | the carousel lands on the next slide modulo `N` (from `N-1` on 0), with the whole `scrollToIndex` state: offset, target, default behaviour, animating flag, progress 0, start time |
| Believe.Carousel.HandleKeyDown | src/sections/Believe/Believe.tsx:121-133 | only ArrowLeft and ArrowRight prevent the default, and land on the previous or next slide with the whole new state; any other key changes nothing |
| Believe.Carousel.Tick | src/sections/Believe/Believe.tsx:135-166 | without autoplay (`AutoplayEnabled`: motion allowed and more than one slide) nothing changes; below 6500 ms only progress (the elapsed ratio) and the start time change; from 6500 ms a mounted carousel lands on the next slide with wrap and the loop restarts, an unmounted one shows full progress |
| ReservationPatterns.TrimStartFacts | src/sections/Reservation/Reservation.tsx:64 | the leading part `trim` drops is all white space and the rest starts with a non-space |
| ReservationPatterns.TrimEndFacts | src/sections/Reservation/Reservation.tsx:64 | the trailing part `trim` drops is all white space and the rest ends with a non-space |
| ReservationPatterns.TrimFacts | src/sections/Reservation/Reservation.tsx:64 | `Trim` (`String.prototype.trim`) returns a slice of the input with only white space outside it and no white space at either end |
| ReservationPatterns.TrimIdempotent | src/sections/Reservation/Reservation.tsx:192-198 | trimming a trimmed value changes nothing |
| ReservationPatterns.NameRunAccepts | src/sections/Reservation/Reservation.tsx:15 | from each automaton state, the accepted suffixes are letters and white space ending in a letter, with a space still owed from the first word |
| ReservationPatterns.NameMatchesIff | src/sections/Reservation/Reservation.tsx:15 | the name pattern (`NameMatches`) accepts exactly letter-and-space strings that start and end with a letter and contain white space, that is, two or more words |
| ReservationPatterns.EmailMatchesIff | src/sections/Reservation/Reservation.tsx:16 | the email pattern (`EmailMatches`) accepts exactly: no white space, one `@` with a non-empty local part, and a `.` in the domain that is neither its first nor its last character |
| ReservationPatterns.PhoneMatchesIff | src/sections/Reservation/Reservation.tsx:17 | the phone pattern (`PhoneMatches`) accepts exactly 8 to 18 phone characters, optionally after one leading `+` |
| Reservation.RequiredFieldsListed | src/sections/Reservation/Reservation.tsx:38 | the required list holds every field except notes and updates |
| Reservation.CreateDefaultValues | src/sections/Reservation/Reservation.tsx:105-114 | every required field fails on the defaults; notes are empty and updates off |
| Reservation.NameErrorMeaning | src/sections/Reservation/Reservation.tsx:63-72 | the name validator `NameError` gives its empty message exactly for a blank value and passes exactly when the trimmed value is two or more letter words |
| Reservation.EmailErrorMeaning | src/sections/Reservation/Reservation.tsx:73-82 | the email validator `EmailError` gives its empty message exactly for a blank value and passes exactly when the trimmed value matches the email pattern |
| Reservation.PhoneErrorMeaning | src/sections/Reservation/Reservation.tsx:83-92 | the phone validator `PhoneError` gives its empty message exactly for a blank value and passes exactly when the trimmed value matches the phone pattern |
| Reservation.RequiredSelectError | src/sections/Reservation/Reservation.tsx:93-95 | a select fails exactly when nothing is chosen, with its own message |
| Reservation.FieldErrorMessage | src/sections/Reservation/Reservation.tsx:100-103 | notes and updates never have a message; every message is non-empty; each select fails exactly when empty |
| Reservation.FieldValidIff | src/sections/Reservation/Reservation.tsx:63-92 | name, email and phone pass exactly when the trimmed value is non-empty and matches the pattern |
| Reservation.WithField | src/sections/Reservation/Reservation.tsx:132-140 | the changed field takes the text (or `checked` for updates); every other field is kept |
| Reservation.UpdatedErrors | src/sections/Reservation/Reservation.tsx:142-161 | an invalid field gets its message, a valid one loses its key, every other key and message is kept, and no empty message appears |
| Reservation.RequiredErrors | src/sections/Reservation/Reservation.tsx:167-179 | the keys are exactly the failing required fields; notes and updates never appear; messages are non-empty |
| Reservation.CollectErrors | src/sections/Reservation/Reservation.tsx:168-175 | the `forEach` loop builds a map whose keys are exactly the failing required fields, each with its message |
| Reservation.Normalize | src/sections/Reservation/Reservation.tsx:192-198 | name, email, phone and notes are trimmed; region, colour, storage and updates are copied |
| Reservation.TextErrorsIgnoreTrim | src/sections/Reservation/Reservation.tsx:63-92 | each text validator gives the same verdict on a trimmed value as on the original |
| Reservation.NormalizeKeepsMessages | src/sections/Reservation/Reservation.tsx:192-198 | normalising changes no field's verdict |
| Reservation.NormalizeKeepsValid | src/sections/Reservation/Reservation.tsx:184-200 | data recorded after a passing `validate` still passes every validator |
| Reservation.RemainingCharacters | src/sections/Reservation/Reservation.tsx:265 | the counter is in `[0, 280]`, counts down exactly while the notes are at most 280 long, and is 0 beyond |
| Reservation.SubmitEnabledIffValid | src/sections/Reservation/Reservation.tsx:266-267 | `IsSubmitDisabled` holds exactly while loading or while `validate` would report an error |
| Reservation.DescribedBy | src/sections/Reservation/Reservation.tsx:247-263 | absent exactly when there is no error and no helper; with an error it is `<id>-error`, followed by a space and the helper id for phone and notes; without an error it is the helper id alone |
| Reservation.SplitJoinIds | src/sections/Reservation/Reservation.tsx:262 | `JoinIds` (`join(' ')`) of a non-empty list of space-free ids splits back at the spaces into exactly that list |
| Reservation.NextActiveSelect | src/sections/Reservation/Reservation.tsx:504-533 | a select is marked open exactly on pointer-down or an open key, or when it already was and a neutral key is pressed; a neutral key, or a blur of another select, keeps the marker as it was |
| Reservation.SelectCloseRules | src/sections/Reservation/Reservation.tsx:514-533 | Escape and a change always close; blurring the open select closes it; blurring another, or a neutral key on another, keeps it open |
| ReservationForm.Form.constructor | src/sections/Reservation/Reservation.tsx:116-121 | default values, no errors, idle, nothing submitted, no open select, no timeout |
| ReservationForm.Form.HandleChange | src/sections/Reservation/Reservation.tsx:129-165 | values become `WithField` of the old values and errors `UpdatedErrors` of the old errors for the new values |
| ReservationForm.Form.Validate | src/sections/Reservation/Reservation.tsx:167-179 | errors become the required-field errors, and the result is true exactly when there are none |
| ReservationForm.Form.HandleSubmit | src/sections/Reservation/Reservation.tsx:181-209 | errors become the required-field errors; if any, nothing else changes; else loading, no open select, timeout pending, normalised values recorded |
| ReservationForm.Form.StartSubmission | src/sections/Reservation/Reservation.tsx:188-208 | the valid branch: errors cleared, select closed, loading, normalised values recorded, one timeout pending |
| ReservationForm.Form.TimerFires | src/sections/Reservation/Reservation.tsx:206-208 | a pending timeout moves the status to success; with none pending nothing changes |
| ReservationForm.Form.HandleReset | src/sections/Reservation/Reservation.tsx:211-221 | from any state: default values, nothing submitted, no errors, no open select, idle, timeout cleared |
| ReservationForm.Form.HandleSelectEvent | src/sections/Reservation/Reservation.tsx:514-533 | blur, pointer-down and key events set the open marker as `NextActiveSelect` says |
| ReservationForm.Form.HandleSelectChange | src/sections/Reservation/Reservation.tsx:504-507 | a select change is the field's change handler followed by closing the marker |
| ReservationForm.Form.RemainingCharactersShown | src/sections/Reservation/Reservation.tsx:265 | the shown counter is the current notes' counter, within `[0, 280]` |
| ReservationForm.Form.SubmitDisabled | src/sections/Reservation/Reservation.tsx:266-267 | the button is disabled exactly while loading or while some required field fails |
| ReservationForm.FillContact | src/sections/Reservation/Reservation.tsx:129-140 | three change events set name, email and phone and nothing else |
| ReservationForm.FillSelections | src/sections/Reservation/Reservation.tsx:504-507 | the three select change handlers (region here, colour at :575-578, storage at :645-648) set region, colour and storage, close the open select, and leave status, submitted data and timeout alone |
| ReservationForm.FillForm | src/sections/Reservation/Reservation.tsx:129-165 | one change event per field turns a fresh form's values into any given values, still idle |
| ReservationForm.StatusCycle | src/sections/Reservation/Reservation.tsx:181-221 | valid data goes idle, loading, success, idle across submit, timeout and reset |
| ReservationForm.ResetCancelsConfirmation | src/sections/Reservation/Reservation.tsx:211-214 | a reset while loading cancels the timeout: a later firing leaves the form idle with nothing submitted |
| ReservationForm.InvalidSubmitKeepsStatus | src/sections/Reservation/Reservation.tsx:184-186 | an invalid submit leaves the form idle and shows exactly the required-field errors |
| Configurator.InitialState | src/features/Configurator/Configurator.tsx:21-25 | the first storage, energy and colour option |
| Configurator.WithKey | src/features/Configurator/Configurator.tsx:42-44 | the chosen key takes the value; the other two keys are kept |
| Configurator.WithKeyLaws | src/features/Configurator/Configurator.tsx:42-44 | reselecting the current value changes nothing; the last of two selections of one key wins |
| Configurator.Surcharge | src/features/Configurator/Configurator.tsx:63-68 | a listed key costs its table entry; a missing key costs 0 |
| Configurator.TotalPrice | src/features/Configurator/Configurator.tsx:62-70 | base plus storage and energy surcharges, always between 1299 and 1939 |
| Configurator.PriceIgnoresColor | src/features/Configurator/Configurator.tsx:62-70 | choosing a colour never changes the price |
| Configurator.UnknownKeysAddNothing | src/features/Configurator/Configurator.tsx:63-68 | unknown storage or energy values add nothing to the base price |
| Configurator.OptionsArePriced | src/data/copy.ts:62-91 | every offered storage and energy value has a price entry |
| Configurator.StorageTierMonotone | src/data/copy.ts:80-91 | a storage tier further down the list never costs less |
| Configurator.EnergyTierMonotone | src/data/copy.ts:80-91 | the extended battery never costs less than the standard one |
| Configurator.InitialPrice | src/features/Configurator/Configurator.tsx:21-25 | the initial configuration costs the base price, 1299 |
| Configurator.FindChoice | src/features/Configurator/Configurator.tsx:47-53 | `find` returns nothing exactly when no option has the value, and otherwise the first option that has it |
| Configurator.FindChoiceOfOption | src/features/Configurator/Configurator.tsx:47-53 | with distinct values, looking up an option's value returns that option |
| Configurator.LabelOf | src/features/Configurator/Configurator.tsx:47-52 | `find(...)?.label` is absent exactly when no option matches, else the first match's label |
| Configurator.SummaryOf | src/features/Configurator/Configurator.tsx:46-60 | each summary entry is absent exactly when no option has the current value; a shown colour has the current value |
| Configurator.SummaryOfOffered | src/features/Configurator/Configurator.tsx:46-60 | a configuration of offered values shows each option's own label and the colour option itself |
| Configurator.AccentHex | src/features/Configurator/Configurator.tsx:181 | the preview accent is the selected colour's hex, or `#7c8cff` when no colour matches |
| Configurator.DeviceForColor | src/features/Configurator/Configurator.tsx:77 | void, ember and lunaris get their own image; every other colour falls back to aurora |
| Configurator.OfferedColorsHaveDistinctImages | src/features/Configurator/Configurator.tsx:77 | the four offered colours show four different images |
| Configurator.ConfiguratorView.constructor | src/features/Configurator/Configurator.tsx:28 | the configuration starts at the initial state |
| Configurator.ConfiguratorView.SelectSingle | src/features/Configurator/Configurator.tsx:42-44 | one key changes, the others are kept, and a colour change keeps the price |
| Configurator.ConfiguratorView.ShownPrice | src/features/Configurator/Configurator.tsx:62-70 | the shown price is the total for the current configuration, between 1299 and 1939 |
| Configurator.ConfiguratorView.ShownDevice | src/features/Configurator/Configurator.tsx:77 | the preview image belongs to the current colour, aurora when no colour option matches |
| Autohide.Initial | src/components/Navbar/useAutohide.ts:3-5 | `lastScroll` starts at 0 and the bar is shown |
| Autohide.Step | src/components/Navbar/useAutohide.ts:8-17 | `lastScroll` becomes the current position; a move within the threshold keeps `hidden`; a larger move hides exactly when it goes down and ends below 80 |
| Autohide.UpwardMoveShows | src/components/Navbar/useAutohide.ts:12-13 | a large upward move always shows the bar |
| Autohide.LargeMoveNearTopShows | src/components/Navbar/useAutohide.ts:12-13 | a large move that ends within the top 80 pixels always shows the bar |
| Autohide.RunRemembersLast | src/components/Navbar/useAutohide.ts:16 | after any events, `lastScroll` is the last position seen, whether or not `hidden` changed |
| Autohide.SmallStepsNeverToggle | src/components/Navbar/useAutohide.ts:10-14 | moves that each stay within the threshold never change `hidden`, however far they add up |
| Autohide.HidingNeedsLargeDownwardMove | src/components/Navbar/useAutohide.ts:12-13 | a shown bar becomes hidden only through some large downward move ending below 80 |
| Autohide.AutohideHook.constructor | src/components/Navbar/useAutohide.ts:3-5 | the default threshold is 8 and the hook starts in the initial state |
| Autohide.AutohideHook.WithThreshold | src/components/Navbar/useAutohide.ts:3-5 | a given threshold, with the initial state |
| Autohide.AutohideHook.OnScroll | src/components/Navbar/useAutohide.ts:8-17 | the listener moves the hook's state by exactly one `Step` |
| Navbar.NoLinkIsReserve | src/data/copy.ts:10-16 | no navigation link has the reservation id or the hero id |
| Navbar.TopmostIndex | src/components/Navbar/Navbar.tsx:72-77 | absent exactly when nothing intersects; else an intersecting entry with the smallest top, earliest among ties (the stable sort's first) |
| Navbar.NextActiveSection | src/components/Navbar/Navbar.tsx:71-92 | hero on top clears; a link's section on top is selected; otherwise near the top (below 48) clears, else nothing changes; nothing new but a link id is ever selected |
| Navbar.IntersectionKeepsKnown | src/components/Navbar/Navbar.tsx:71-92 | the observer keeps the active section among none, a link id or the reservation id, and never marks the hero |
| Navbar.TopSectionWins | src/components/Navbar/Navbar.tsx:72-87 | a link's section strictly above every other intersecting entry becomes active |
| Navbar.ScrollToSection | src/components/Navbar/Navbar.tsx:112-128 | the reservation id navigates to its route, off home to `/#id`, on home a scroll to `#id` with offset -88, instant exactly under reduced motion |
| Navbar.ScrollToTop | src/components/Navbar/Navbar.tsx:131-149 | every branch goes to the top; reduced motion jumps; otherwise Lenis when present, else a smooth window scroll |
| Navbar.NavbarView.constructor | src/components/Navbar/Navbar.tsx:29-42 | not scrolled, menu closed; the reservation route starts with its id active, any other path with none |
| Navbar.NavbarView.OnLocationChange | src/components/Navbar/Navbar.tsx:38-42 | the effect runs only on a changed pathname: arriving at `/reservar` marks the reservation active; staying on the same pathname, or any other path, leaves the section alone |
| Navbar.NavbarView.OnScrollFrame | src/components/Navbar/Navbar.tsx:49-52 | scrolled (`IsScrolledAt`) exactly when `scrollY > 24` |
| Navbar.NavbarView.OnIntersection | src/components/Navbar/Navbar.tsx:70-93 | the callback sets the active section to `NextActiveSection` of the old one |
| Navbar.NavbarView.HandleNavClick | src/components/Navbar/Navbar.tsx:151-170 | always closes the menu; the reservation id and off-home clicks mark the id and navigate; on home the section is left to the observer and the page scrolls; the action is always `scrollToSection`'s |
| Navbar.NavbarView.HandleLogoClick | src/components/Navbar/Navbar.tsx:172-180 | closes the menu, clears the active section and scrolls to the top |
| Navbar.NavbarView.ToggleMenu | src/components/Navbar/Navbar.tsx:251 | the toggle flips the menu |
| Navbar.NavbarView.CloseMenu | src/components/Navbar/Navbar.tsx:264 | the close button closes the menu |
| Navbar.NavbarView.OnKeyDown | src/components/Navbar/Navbar.tsx:193-197 | Escape closes the menu; other keys leave it |
| Navbar.NavbarView.IsCurrentLink | src/components/Navbar/Navbar.tsx:233 | while the reservation is the active section, no navigation link is current |

## Left out

- Believe.Carousel: React state updates are applied at once, in handler order. Render batching and the effect scheduler are not modelled, except that a change of `activeIndex` restarts the autoplay effect.
- Believe.Carousel: a smooth `scrollTo` sets `scrollLeft` to its destination at once. Positions the browser passes through on the way arrive only as separate `NativeScroll` events.
- Believe.Carousel: the reduced-motion preference is fixed per instance. A preference change while mounted is not modelled.
- Believe.Carousel: the model requires at least one slide. With zero slides the source computes a last index of -1; the shipped page has three.
- Believe.Carousel.Tick: frame timestamps are assumed never to run backwards. A negative elapsed time would give a negative progress in the source.
- Believe.ProgressRatio: progress is an exact rational, not a double. Pixel offsets and widths are integers, not fractional CSS pixels.
- Reservation.RemainingCharacters: counts characters (code points), where JavaScript `length` counts UTF-16 code units. A note with characters outside the Basic Multilingual Plane reads longer in the browser.
- ReservationForm.Form.HandleChange, ReservationForm.Form.HandleSelectEvent, ReservationForm.Form.HandleSelectChange: accept events in every status. While loading the page disables every control, so the browser sends none: the name, email and phone inputs (`src/sections/Reservation/Reservation.tsx:400`, `:434`, `:469`), the region select (`:512`), the colour and storage controls (`:583`, `:653`), the notes textarea (`:719`) and the updates checkbox (`:752`). In the success status the form is not rendered at all (`src/sections/Reservation/Reservation.tsx:327` shows the confirmation panel instead). The handlers themselves do not check the status, and neither does the model, so it accepts these events while loading and after success.
- Reservation: the confirmation panel's lookups of the submitted colour and storage are display only and are not modelled (`src/sections/Reservation/Reservation.tsx:223-245`).
- Reservation: the unmount cleanup that clears a pending timeout is not modelled, because unmounting ends the component's state anyway.
- ReservationPatterns: the patterns are written as predicates over characters, not as a general regular-expression engine.
- Configurator: `Intl.NumberFormat` currency formatting of the price is a locale library and is left out. The model returns the integer price.
- Configurator.Surcharge: looks up own keys only. In JavaScript a key such as `toString` would find an inherited property; the buttons never produce one.
- Configurator.DeviceForColor: looks up own keys only, falling back to aurora. In JavaScript `deviceImages[color]` with a key such as `toString` would find an inherited property (`src/features/Configurator/Configurator.tsx:77`); the colour buttons never produce one.
- Navbar.NavbarView.OnLocationChange: each route in `src/app/routes.tsx` renders its own navbar, so a real change of route mounts a new bar and the constructor applies; the method covers location changes within one mounted bar.
- Navbar: `window.scrollY` and bounding tops are integers, not fractional pixels.
- Navbar: the observer's root margin and thresholds are not modelled. Entries are inputs, as the browser delivers them.
- Navbar: the router, `smoothScrollTo` and Lenis are represented only by the action value a handler returns.
- Navbar: locking the body's `overflow` while the menu is open is a DOM style side effect and is not modelled.
- Navbar: the server-side guards (`typeof window === 'undefined'`) are not modelled. The model always runs in a browser.
- Navbar.TopmostIndex: the filter-then-sort is not modelled as a sort. Its first element is characterised directly, using the stability of `Array.prototype.sort`.
