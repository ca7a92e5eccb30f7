# Verified model of the Code Vimarsh site script

This project models, in Dafny, the rules that the site's `script.js` applies
to the page: the e-mail syntax test and the required-field checks of the join,
registration and contact forms; the theme toggle with its stored preference;
the sticky navbar threshold; the sidebar's active-section tracker; the
trailing debounce called `throttle`; and the open/close and submit-button
life cycles of the mobile navigation, the registration modal, the contact
panel and the join form.

DOM reads become parameters (scroll offsets, section boxes, data attributes,
field values, click targets). Alerts become return values. `localStorage`
becomes one `saved: Option<string>` field. Each `setTimeout` becomes an
explicit event method (`FireActivation`, `FirePanelHide`, `FireOverlayHide`,
`FinishSubmit`) or, for the debounce, a logical clock.

Modules:

- `Wrappers`: `Option`.
- `Email`: the regular expression `^[^\s@]+@[^\s@]+\.[^\s@]+$`.
  - `MatchesEmailPattern` is its language read literally (A@B.C).
  - `EmailRegexTest` is a direct test, proved to accept exactly that language.
- `Forms`: the three validations, each stated as a full if-and-only-if over the fields.
- `Theme`: the load-time choice, the icon, and the toggle.
  - The toggle has a pure form (`Toggled`) and a class (`ThemeToggle`) proved against it.
- `Navbar`: the `scrolled` threshold.
- `Sidebar`: `ActivateSidebarButton` keeps the source's nested loops over an array of buttons.
  - It is proved equal to a fold (`Scan`).
  - The fold is proved to equal "highlight the last section in view, or change nothing".
- `Throttle`: the debounce as a timer state machine (`Run`) and as a class (`Throttled`).
  - Its timer behaviour is proved equal to a per-call rule (`Survivors`): a call runs exactly when no further call comes within `wait`.
- `Panels`: one class per widget, plus the shared `Body` scroll lock.
- `Scenarios`: event sequences with the outcome each must have.

Points where the code behaves differently from what a reader might expect; the model follows the code:

- A section is in view for `offsetTop-100 < scrollY <= offsetTop-100+offsetHeight`. The range is open below and closed above, not `[top, top+height)`.
- Closing the contact panel always schedules the two hide timers, even when the panel is already closed. The class flags do not change, and the extra timers only hide again (`Scenarios.ContactClosedTwice`).
- The stored theme is not limited to two values. Any non-empty stored string `x` yields the body class `x-theme`. The icon is the moon when `x` is "dark" and the sun for every other value. Two toggles restore the page only when exactly one of `dark-theme` and `light-theme` is on the body (`Theme.ForeignStoredValue`).
- The `forEach(` call of the nav-link handler at script.js:36-40 is never closed: line 40 reads `}` where `});` is due. As written, the file is a syntax error, so the browser runs none of it. Every member of this model describes the file with that parenthesis restored, and then clicking a nav link calls `closeMobileNav` (`Panels.MobileNav.Close`).

A behaviour the model exposes: the contact panel gets its `active` class 50 ms after opening. If it is closed within those 50 ms, the pending timer still adds `active`. After the hide timers run, the panel carries `active` while hidden, and scrolling is no longer locked (`Scenarios.ContactClosedBeforeActivation`). Escape also does nothing during those first 50 ms.

## Model

| member | source | states |
|---|---|---|
| Email.EmailRegexTest | script.js:405-406 | the test accepts a string exactly when it is A + "@" + B + "." + C with A, B, C non-empty runs free of white space (the ECMAScript `\s` set) and of '@' |
| Email.PatternCharacterisation | script.js:405 | the pattern holds exactly when there is one '@', not first, every other character is neither white space nor '@', and a '.' follows the '@' with at least one character on each side |
| Email.SpecifiedExamples | script.js:528-529 | "a@b.co" matches; "foo@bar" and "foo.com" do not |
| Email.EdgeExamples | script.js:405 | a doubled '@' or a space fails; "a@.b.c" and "a@b.." pass, because '.' is in the class [^\s@] |
| Forms.CheckSubmission | script.js:399-409 | the shared rule: rejected as missing exactly when some required field is ""; otherwise rejected as invalid exactly when the form tests an address and it does not match; otherwise accepted |
| Forms.ValidateJoin | script.js:246-249 | accepted exactly when name, email and domain are non-empty; never rejected for the address's syntax |
| Forms.ValidateRegistration | script.js:399-409 | missing exactly when prn, name, email, class or branch is ""; invalid exactly when all are filled and the e-mail does not match; accepted exactly when all are filled and it matches |
| Forms.ValidateContact | script.js:522-532 | missing exactly when name, email or message is ""; invalid exactly when all are filled and the e-mail does not match; accepted otherwise |
| Forms.SpaceCountsAsFilled | script.js:522 | fields holding a single space count as filled (no trimming) |
| Forms.MissingReportedBeforeBadEmail | script.js:399-409 | an empty required field is reported even when the address is also malformed |
| Forms.JoinIgnoresMessageAndSyntax | script.js:246 | the join verdict does not depend on the message; "foo@bar" passes the join form and fails the contact form |
| Forms.EmptyDoesNotMatch | script.js:405 | the empty string never matches the pattern |
| Theme.InitialTheme | script.js:100 | the stored value when it is non-empty, otherwise 'dark'; the result is 'dark' exactly when nothing, "" or "dark" is stored |
| Theme.ThemeIcon | script.js:118-120 | the moon exactly for 'dark', the sun for every other value |
| Theme.Loaded | script.js:100-102 | at load the body gains `<theme>-theme` for the initial theme, the icon is the moon exactly when that theme is 'dark' (the sun otherwise), and storage is left as it was |
| Theme.ToggleMakesCoherent | script.js:104-116 | after any click exactly one theme class is on the body, storage holds that theme, the icon agrees, the dark class flips, and other body classes are kept |
| Theme.ToggleTwiceRestores | script.js:104-116 | when one theme is shown and the icon agrees, two clicks restore the body classes and the icon, and storage then holds the shown theme |
| Theme.LoadedCoherent | script.js:100-102 | with plain markup and a stored value of none, "", "dark" or "light", the loaded page shows one theme with the matching icon; with nothing stored it is dark |
| Theme.ForeignStoredValue | script.js:100-116 | a stored "blue" gives `blue-theme`; the first click adds `dark-theme` beside it, so two clicks do not restore the loaded classes |
| Theme.ThemeToggle.constructor | script.js:100-102 | the toggle starts in the `Loaded` state |
| Theme.ThemeToggle.Click | script.js:104-116 | a click moves the state to `Toggled` of the old state and leaves it coherent |
| Navbar.OnScroll | script.js:56-61 | after a scroll event the navbar has `scrolled` exactly when the offset exceeds 50; its other classes are unchanged |
| Navbar.ThresholdBoundary | script.js:57 | `scrolled` is absent at 50 and present at 50.5 and 51, whatever the classes before |
| Navbar.LaterScrollOverrides | script.js:56-61 | a scroll event overrides the effect of the previous one: there is no hysteresis |
| Navbar.LastScrollDecides | script.js:56-61 | after any non-empty series of scroll events, the classes are those one event at the last offset gives |
| Sidebar.InView | script.js:74-78 | a section is in view for `offsetTop-100 < scrollY <= offsetTop-100+offsetHeight`; one with no height never is |
| Sidebar.InViewBoundaries | script.js:78 | the range excludes its lower end and includes its upper end |
| Sidebar.AdjacentSectionsDisjoint | script.js:78 | two sections laid out back to back are never in view at the same offset |
| Sidebar.Highlight | script.js:79-84 | the inner loop keeps every href and sets `active` exactly on the button whose href is '#' + id |
| Sidebar.LastInView | script.js:73-78 | absent exactly when no section is in view; otherwise the id of a section in view with none in view after it |
| Sidebar.HighlightOverrides | script.js:79-84 | a later highlight completely overrides an earlier one |
| Sidebar.ScanIsLastInView | script.js:73-86 | the loop over all sections changes nothing when none is in view, and otherwise equals the highlight of the last section in view |
| Sidebar.ActivateSidebarButton | script.js:70-87 | the in-place nested loops yield the fold `Scan`; hrefs are kept; nothing changes when no section is in view; otherwise exactly the buttons linking to the last section in view are active |
| Sidebar.LaterSectionWins | script.js:78-84 | with two overlapping sections in view, the later one in document order gets the active button |
| Throttle.AdvanceTo | script.js:320-323 | when time passes, a pending timer that comes due runs the function once with its captured arguments and is cleared |
| Throttle.Reschedule | script.js:324-325 | a call replaces any pending timer with one due `wait` later carrying its own arguments |
| Throttle.RunIsSurvivors | script.js:317-327 | over any time-ordered trace, the timer machine runs the function exactly for the calls not followed by another within `wait`, in order, after the old timer if it came due first |
| Throttle.RunFromIdle | script.js:317-327 | from a fresh wrapper the runs are exactly the surviving calls |
| Throttle.BurstRunsOnce | script.js:317-327 | a burst of calls each less than `wait` apart runs once, with the last call's arguments, and only once `wait` has passed after it |
| Throttle.Throttled.constructor | script.js:317-318 | a fresh wrapper has no pending timer and no runs |
| Throttle.Throttled.Elapse | script.js:320-323 | the class follows `AdvanceTo` |
| Throttle.Throttled.Invoke | script.js:319-326 | the class first fires a due timer, then follows `Reschedule` |
| Throttle.ScrollBurst | script.js:330-333 | scroll calls at 0, 40 and 80 with wait 100 give one run, with the arguments of the call at 80 |
| Panels.TextOf | script.js:353 | textContent set from an absent attribute is empty |
| Panels.DateLine | script.js:354 | the date line is "Date: " followed by the data-date value, or by "null" when the attribute is absent |
| Panels.Body.constructor | script.js:16 | the page starts with scrolling free |
| Panels.MobileNav.constructor | script.js:5-9 | the panel starts closed, with the hamburger inactive alongside it |
| Panels.MobileNav.Open | script.js:12-17 | the panel and hamburger become active and scrolling is locked |
| Panels.MobileNav.Close | script.js:21-40 | the panel and hamburger lose `active` and scrolling is released |
| Panels.MobileNav.PressEscape | script.js:43-47 | Escape closes an open panel and leaves a closed one untouched |
| Panels.JoinForm.constructor | script.js:232 | the form starts empty with an enabled button |
| Panels.JoinForm.Edit | script.js:238-243 | typing changes only the field values |
| Panels.JoinForm.Submit | script.js:234-257 | the verdict is `ValidateJoin` of the fields; a rejected submit changes nothing; an accepted one disables the button, shows "Submitting..." and keeps the old label and the fields for the confirmation |
| Panels.JoinForm.FinishSubmit | script.js:259-264 | the confirmation carries the submitted fields; the form is reset; the button gets its old label back and is enabled |
| Panels.RegistrationModal.constructor | script.js:339-345 | the modal starts closed, with empty text lines, blank fields, an enabled button and no pending confirmation |
| Panels.RegistrationModal.OpenFor | script.js:348-358 | the modal shows the data-event text and "Date: " + data-date, becomes active and locks scrolling; the fields, the button and a pending confirmation are unchanged |
| Panels.RegistrationModal.Close | script.js:361-365 | the modal loses `active`, scrolling is released and the form is reset; the text lines, the button and a pending confirmation are unchanged |
| Panels.RegistrationModal.Click | script.js:371-375 | a click on the modal itself or its overlay has exactly the effect of closeModal; any other click changes nothing |
| Panels.RegistrationModal.PressEscape | script.js:378-382 | Escape has exactly the effect of closeModal on an open modal and leaves a closed one untouched |
| Panels.RegistrationModal.Edit | script.js:388-396 | typing changes the field values and nothing else |
| Panels.RegistrationModal.Submit | script.js:385-417 | the verdict is `ValidateRegistration`; a rejected submit changes nothing; an accepted one disables the button with "Submitting..." and holds the fields and the event and date lines shown at that moment; nothing else changes |
| Panels.RegistrationModal.FinishSubmit | script.js:419-424 | the confirmation carries the submitted values; the modal is closed as by closeModal, with its text lines kept; the button gets its old label back and is enabled |
| Panels.ContactPanel.constructor | script.js:431-435 | the panel and overlay start inactive and hidden, with blank fields, an enabled button and no timers pending |
| Panels.ContactPanel.Open | script.js:438-460 | the overlay and panel are displayed and visible, the overlay is active, scrolling is locked, and one more activation timer is pending; nothing else changes |
| Panels.ContactPanel.FireActivation | script.js:454-456 | the 50 ms timer adds `active` to the panel whatever happened since; nothing else changes |
| Panels.ContactPanel.FirePanelHide | script.js:467-469 | the 400 ms timer hides the panel and nothing else |
| Panels.ContactPanel.FireOverlayHide | script.js:473-475 | the 300 ms timer hides the overlay and nothing else |
| Panels.ContactPanel.Close | script.js:464-481 | the panel and overlay lose `active`, one hide timer of each kind is scheduled, scrolling is released and the form is reset; displays, visibility, the button and a pending confirmation are unchanged |
| Panels.ContactPanel.ClickOverlay | script.js:490-496 | a click on the overlay itself has exactly the effect of closeContactPanel; a click elsewhere changes nothing |
| Panels.ContactPanel.PressEscape | script.js:499-503 | Escape has exactly the effect of closeContactPanel while the panel carries `active`, and changes nothing otherwise |
| Panels.ContactPanel.Edit | script.js:511-519 | typing changes the field values and nothing else |
| Panels.ContactPanel.Submit | script.js:507-541 | the verdict is `ValidateContact`; a rejected submit changes nothing; an accepted one disables the button with "Sending..." and holds the fields; nothing else changes |
| Panels.ContactPanel.FinishSubmit | script.js:544-549 | the confirmation carries the submitted fields; the panel is closed as by closeContactPanel, including its two hide timers; the button gets its old label back and is enabled |
| Scenarios.RegisterThenEscape | script.js:348-382 | "Hack Day" and "2024-05-01" show as "Hack Day" and "Date: 2024-05-01"; Escape closes the modal, releases scrolling and clears the fields |
| Scenarios.RegisterWithoutAttributes | script.js:350-354 | without data attributes the name is empty and the date line is "Date: null" |
| Scenarios.JoinAsAnn | script.js:234-264 | joining as Ann shows the pending label; the confirmation carries "Ann" and "ann@x.co"; afterwards the form is empty and the button is restored |
| Scenarios.ContactWithBadAddress | script.js:522-532 | "foo@bar" is refused, and the panel, fields and button stay as they were |
| Scenarios.ContactClosedBeforeActivation | script.js:438-481 | closing within 50 ms of opening leaves the panel `active` but hidden, with scrolling free |
| Scenarios.ContactClosedTwice | script.js:464-481 | closing twice leaves every flag as one close does; the extra timers only hide again |
| Scenarios.RegisterSubmitThenEscape | script.js:361-424 | a registration submitted and then closed with Escape is still confirmed with the event and date shown at submission, and the button is restored |
| Scenarios.ContactSentThenHidden | script.js:464-549 | after an accepted contact message is confirmed, the hide timers of closeContactPanel hide the panel and the overlay |
| Scenarios.SharedScrollLock | script.js:16-24 | closing the mobile navigation releases the scroll lock while the registration modal is still open |

## Left out

- DOM lookup and event wiring (`getElementById`, `querySelectorAll`, `addEventListener`) are left out; their values are parameters.
- The presence checks of optional elements (`if (hamburger)`, `if (contactPanel)`, `if (!submitButton) return`) are left out; the model assumes every element exists.
- `console.log` and the text of the alerts are left out. Alerts are the returned verdict or confirmation payload.
- Smooth scrolling (script.js:126-138) is left out: `window.scrollTo` is a browser effect.
- Sidebar hover transforms and the ripple effects (script.js:144-180, 291-310) are left out: they are pixel geometry and CSS strings.
- The reveal-on-scroll code (`IntersectionObserver` and `handleScrollAnimation`, script.js:186-226) is left out: it is layout measurement.
- The parallax offsets (script.js:271-284) are left out: they are floating-point layout arithmetic.
- `localStorage` I/O is one abstract `saved` field, read at load and written by each click.
- Real timer delays (50, 300, 400, 1500 ms) are left out. Each pending timer is an explicit event that may fire at any point after it is scheduled, so orders the real delays exclude are also allowed.
- A single Escape key press runs the three Escape listeners in registration order. Each widget's listener is modelled on its own.
- The scroll listeners that call `activateSidebarButton` directly and through `throttle(..., 100)` (script.js:89, 330-333) are left out as wiring. The throttled function's run log stands for the calls it makes.
- Panels.JoinForm.Submit: requires the submit button to be enabled. Browsers dispatch no submit event for a form whose submit button is disabled, so the handler never runs in that state.
- Panels.RegistrationModal.Submit: requires the submit button to be enabled, for the same reason.
- Panels.ContactPanel.Submit: requires the submit button to be enabled, for the same reason.
- Throttle.Throttled.Invoke: the wrapped function's `...args` is one value of a type parameter. A call at the same instant a timer comes due is handled after that timer fires.
- Sidebar.ActivateSidebarButton: section offsets and heights are integers, as the DOM reports them. The scroll offset is a real number.
- Theme.Loaded: a stored value containing ASCII white space (such as "a b") makes `classList.add` at script.js:101 throw, which stops the script before the icon is set and any later handler is installed. The model assumes the token is accepted and returns the class list with that token.
- Throttle.RunIsSurvivors: a timer is assumed to fire exactly when it is due. A browser may run it later, and a call in that gap would cancel a run that the model has already made.
- Form reset restores every field to the empty string. Markup default values other than empty (such as a pre-selected option) are not modelled.
