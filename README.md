# Onboarding tutorial and registration form, in Dafny

This project models the two pieces of sequential logic in the front end of
the Global Working welcome flow and proves properties of them.

- **The onboarding tutorial** (`tutorial.dfy`, module `Tutorial`). This is a
  three-step overlay.
  - It shows a message and an action button over the home page.
  - It highlights the page section the current step talks about ("plans",
    then "contact") and scrolls to it.
  - At the end it calls the host's `onComplete` callback.
- Its model has the following parts:
  - The page is a sequence of elements. Each element has an optional
    `data-tutorial` marker and a set of CSS classes.
  - The component's state (`currentStep`, `isVisible`) is a `Machine`. That
    also holds whether the component is still mounted, its pending timers
    (`ShowAfterMount`, `ShowAfterSettle`, `CallOnComplete`) and the number of
    calls made to `onComplete`.
  - Timers expire through an explicit `Fire`, in any order.
  - The class `OnboardingTutorial` holds the same fields. It changes them in
    place through its handlers. It also changes the page array in place
    through the highlight effect and its cleanup loop, and records the
    scrolls it asks for. Each method is proved against the pure functions of
    the module.
- **The registration page** (`welcome.dfy`, module `Welcome`) has three
  parts:
  - The form schema's acceptance predicate.
  - The submit handler. It makes two `localStorage` writes, then navigates to
    `/inicio`. Here storage is a map and navigation a list of visited paths,
    both in a `Browser` object.
  - The catalogue of thirteen promotions and the subtitle under each option of
    the promotion picker. The subtitle is derived from the catalogue with
    three `split` calls and a destructuring.
- **`split`** (`strings.dfy`, module `Strings`) is JavaScript's
  `String.prototype.split` with a non-empty separator. The page relies on
  it, so it is modelled with its round trip through `join`.
- `wrappers.dfy` holds the `Option` type.

About the tutorial's completion contract:

- A completion callback such as `onComplete` is meant to be called once per
  lifetime of the component. Its timers are meant to die with it.
- The code clears only the mount timer (`OnboardingTutorial.tsx:21`). This
  model follows the code.
- As a result, `onComplete` can be called twice (see "## Findings").

## Model

| member | source | states |
|---|---|---|
| Strings.IndexOfSound | src/pages/Welcome.tsx:216-218 | what the separator search finds is an occurrence of the separator, at or after the start position |
| Strings.IndexOfFirst | src/pages/Welcome.tsx:216-218 | the separator search finds the first occurrence at or after the start position, and finds nothing only when there is none |
| Strings.IndexOfAt | src/pages/Welcome.tsx:216-218 | an occurrence with no earlier one after the start position is the one the search returns |
| Strings.IndexOf | src/pages/Welcome.tsx:216-218 | the separator search that `split` performs (JavaScript's `indexOf` from a position); its meaning is stated by `IndexOfSound`, `IndexOfFirst` and `IndexOfAt` |
| Strings.Join | src/pages/Welcome.tsx:216-218 | `pieces.join(sep)`, the inverse that `JoinSplit` proves `Split` against |
| Strings.Split | src/pages/Welcome.tsx:216-218 | `split` with a non-empty separator always yields at least one piece |
| Strings.JoinSplit | src/pages/Welcome.tsx:216-218 | joining the pieces of `split` with the same separator gives back the original string |
| Strings.PrefixBeforeFirstIsFree | src/pages/Welcome.tsx:216-217 | text that ends before the first separator contains no separator |
| Strings.FirstPiece | src/pages/Welcome.tsx:216-217 | `split(...)[0]` is a prefix of the string, no separator starts anywhere before its end (so it holds none, even where occurrences overlap), and it is either the whole string or directly followed by the separator |
| Strings.NoOccurrenceBefore | src/pages/Welcome.tsx:216-218 | no separator starts inside a leading part that lacks one of the separator's characters |
| Strings.SplitCons | src/pages/Welcome.tsx:216-218 | `(a + sep + b).split(sep)` is `a` followed by the pieces of `b`, when `a` lacks a character of the separator |
| Strings.SplitSingle | src/pages/Welcome.tsx:218 | a string lacking a character of the separator splits into itself alone |
| Welcome.Issues | src/pages/Welcome.tsx:26-30 | no name issue iff the name has 2 to 100 characters; no e-mail issue iff the e-mail passes the syntax check and has at most 255 characters; over 255 always reports an issue; no promotion issue iff it is non-empty |
| Welcome.Accepts | src/pages/Welcome.tsx:26-30 | the schema passes when no check reports an issue; `AcceptsIff` states when that is |
| Welcome.AcceptsIff | src/pages/Welcome.tsx:26-30 | the schema accepts a submission iff all three field conditions hold |
| Welcome.DefaultsRejected | src/pages/Welcome.tsx:39-43 | the empty default values are rejected whatever the e-mail check says: the name is too short and the promotion is missing |
| Welcome.AfterSubmit | src/pages/Welcome.tsx:48-50 | after a submission the store holds the serialised record under `globalWorkerData` and `"true"` under `showTutorial`; every other key keeps its value and no other key appears |
| Welcome.StoredRecordIdentifiesSubmission | src/pages/Welcome.tsx:48 | with an injective serialisation, equal stored records mean equal submitted values |
| Welcome.Browser.constructor | src/pages/Welcome.tsx:35-52 | a browser with the given storage and no navigation yet |
| Welcome.Browser.SetItem | src/pages/Welcome.tsx:48-50 | one store write changes that key only and does not navigate |
| Welcome.Browser.Navigate | src/pages/Welcome.tsx:52 | navigation appends the target path and leaves storage alone |
| Welcome.OnSubmit | src/pages/Welcome.tsx:46-53 | the handler leaves the store as `AfterSubmit` describes and navigates to `/inicio` exactly once |
| Welcome.CatalogueValuesDistinct | src/pages/Welcome.tsx:55-134 | the thirteen option keys are pairwise distinct |
| Welcome.ModalityOnly | src/pages/Welcome.tsx:216 | `promo.modality.split(' · ')[0]`; its meaning is stated by `ModalityOnlyIsFirstPart` |
| Welcome.StartDate | src/pages/Welcome.tsx:217 | `promo.dates.split(' — ')[0]`; its meaning is stated by `StartDateIsFirstPart` |
| Welcome.DateWords | src/pages/Welcome.tsx:218 | the words of the start date that the destructuring `[day, month, year]` reads; `CatalogueDatesHaveThreeWords` and the per-entry date lemmas give them |
| Welcome.Word | src/pages/Welcome.tsx:218-219 | a destructured element as a template literal shows it, `undefined` when the array is too short |
| Welcome.Subtitle | src/pages/Welcome.tsx:216-228 | the option's second line, modality shown, `" · "`, month and year; the per-entry subtitle lemmas give its text for every entry |
| Welcome.ModalityOnlyIsFirstPart | src/pages/Welcome.tsx:216 | the modality shown is the prefix before the first `" · "`: no `" · "` starts before its end, and it is followed by `" · "` or is the whole modality when there is none |
| Welcome.StartDateIsFirstPart | src/pages/Welcome.tsx:217 | the start date is the prefix before the first `" — "`: no `" — "` starts before its end, and it is followed by `" — "` or is the whole range when there is none |
| Welcome.ModalityOfParts | src/pages/Welcome.tsx:216 | a modality written as a part without `·`, then `" · "`, then the rest, shows that first part |
| Welcome.StartDateOfParts | src/pages/Welcome.tsx:217 | a date range written as a start without `—`, then `" — "`, then the end, has that start date |
| Welcome.WordsOfParts | src/pages/Welcome.tsx:218 | a start date written as day, month and year without spaces, joined by single spaces, splits into exactly those three words |
| Welcome.DateWordsOfParts | src/pages/Welcome.tsx:217-218 | an entry whose date range has that shape destructures to that day, month and year |
| Welcome.Promotion113Dates | src/pages/Welcome.tsx:56-61 | promotion 113's start date splits into `4`, `feb`, `2025` |
| Welcome.Promotion114Dates | src/pages/Welcome.tsx:62-67 | promotion 114's start date splits into `3`, `feb`, `2025` |
| Welcome.Promotion115Dates | src/pages/Welcome.tsx:68-73 | promotion 115's start date splits into `25`, `mar`, `2025` |
| Welcome.Promotion116Dates | src/pages/Welcome.tsx:74-79 | promotion 116's start date splits into `17`, `mar`, `2025` |
| Welcome.Promotion117Dates | src/pages/Welcome.tsx:80-85 | promotion 117's start date splits into `22`, `abr`, `2025` |
| Welcome.Promotion118Dates | src/pages/Welcome.tsx:86-91 | promotion 118's start date splits into `16`, `jun`, `2025` |
| Welcome.Promotion119Dates | src/pages/Welcome.tsx:92-97 | promotion 119's start date splits into `9`, `jun`, `2025` |
| Welcome.Promotion120SemiDates | src/pages/Welcome.tsx:98-103 | the semi-presential promotion 120's start date splits into `15`, `sep`, `2025` |
| Welcome.Promotion120OnlineDates | src/pages/Welcome.tsx:104-109 | the online promotion 120's start date splits into `15`, `sep`, `2025` |
| Welcome.Promotion121SemiDates | src/pages/Welcome.tsx:110-115 | the semi-presential promotion 121's start date splits into `15`, `sep`, `2025` |
| Welcome.Promotion121OnlineDates | src/pages/Welcome.tsx:116-121 | the online promotion 121's start date splits into `15`, `sep`, `2025` |
| Welcome.Promotion122Dates | src/pages/Welcome.tsx:122-127 | promotion 122's start date splits into `15`, `sep`, `2025` |
| Welcome.Promotion123Dates | src/pages/Welcome.tsx:128-133 | promotion 123's start date splits into `7`, `oct`, `2025` |
| Welcome.CatalogueDatesHaveThreeWords | src/pages/Welcome.tsx:55-134 | every one of the thirteen catalogue entries has a start date of exactly three words, so the destructuring binds day, month and year and no subtitle shows `undefined` |
| Welcome.Promotion113Subtitle | src/pages/Welcome.tsx:215-228 | promotion 113 is listed as `Online · feb 2025` |
| Welcome.Promotion114Subtitle | src/pages/Welcome.tsx:215-228 | promotion 114 is listed as `Online · feb 2025` |
| Welcome.Promotion115Subtitle | src/pages/Welcome.tsx:215-228 | promotion 115 is listed as `Online · mar 2025` |
| Welcome.Promotion116Subtitle | src/pages/Welcome.tsx:215-228 | promotion 116 is listed as `Online · mar 2025` |
| Welcome.Promotion117Subtitle | src/pages/Welcome.tsx:215-228 | promotion 117 is listed as `Semipresencial · abr 2025` |
| Welcome.Promotion118Subtitle | src/pages/Welcome.tsx:215-228 | promotion 118 is listed as `Online · jun 2025` |
| Welcome.Promotion119Subtitle | src/pages/Welcome.tsx:215-228 | promotion 119 is listed as `Online · jun 2025` |
| Welcome.Promotion120SemiSubtitle | src/pages/Welcome.tsx:215-228 | the semi-presential promotion 120 is listed as `Semipresencial · sep 2025` |
| Welcome.Promotion120OnlineSubtitle | src/pages/Welcome.tsx:215-228 | the online promotion 120 is listed as `Online · sep 2025` |
| Welcome.Promotion121SemiSubtitle | src/pages/Welcome.tsx:215-228 | the semi-presential promotion 121 is listed as `Semipresencial · sep 2025` |
| Welcome.Promotion121OnlineSubtitle | src/pages/Welcome.tsx:215-228 | the online promotion 121 is listed as `Online · sep 2025` |
| Welcome.Promotion122Subtitle | src/pages/Welcome.tsx:215-228 | promotion 122, whose modality is `Online · FR · ESP · EU`, is listed as `Online · sep 2025` |
| Welcome.Promotion123Subtitle | src/pages/Welcome.tsx:215-228 | promotion 123 is listed as `Presencial · oct 2025` |
| Tutorial.QuerySelector | src/components/OnboardingTutorial.tsx:36 | the query returns the first element, in document order, with the given marker, and nothing only when no element has it |
| Tutorial.QuerySelectorSeesOnlyMarkers | src/components/OnboardingTutorial.tsx:36-41 | the query's answer depends only on the markers, so changing classes never moves an anchor |
| Tutorial.RemoveHighlights | src/components/OnboardingTutorial.tsx:26-31 | every marked element loses both highlight classes and keeps every other class; unmarked elements and all markers are unchanged |
| Tutorial.RemoveHighlightsIdempotent | src/components/OnboardingTutorial.tsx:33-50 | running the cleanup twice leaves the page as running it once |
| Tutorial.RemoveHighlightsClears | src/components/OnboardingTutorial.tsx:26-31 | after the cleanup no marked element carries either highlight class |
| Tutorial.Mark | src/components/OnboardingTutorial.tsx:36-45 | the first element with the marker gains the added classes, every other element keeps its classes, and every marker and the page's length are kept; with no such element nothing changes |
| Tutorial.Effect | src/components/OnboardingTutorial.tsx:33-48 | the highlight effect for a step, cleanup then the step's anchor; `HighlightExclusive` states its outcome |
| Tutorial.HighlightExclusive | src/components/OnboardingTutorial.tsx:24-51 | after the effect for a step, a marked element carries the highlight iff it is the step's anchor: the first `plans` element at step 1, the first `contact` element at step 2, none at step 3. It carries the contact emphasis iff it is that anchor at step 2. Markers, other classes and unmarked elements are unchanged |
| Tutorial.MissingAnchorOnlyCleans | src/components/OnboardingTutorial.tsx:35-45 | when the step's anchor is missing, the effect is the cleanup alone |
| Tutorial.CleanupThenEffect | src/components/OnboardingTutorial.tsx:50 | the previous step's cleanup followed by the new effect leaves the page as the new effect alone |
| Tutorial.ScrollTo | src/components/OnboardingTutorial.tsx:53-65 | a scroll is requested iff the page has an element with the marker, and it targets the first such element in document order, the one the effect highlights |
| Tutorial.NextScrolls | src/components/OnboardingTutorial.tsx:71-85 | the scrolls `handleNext` asks for: the contact section from step 1, the top from step 2, none from step 3 |
| Tutorial.Initial | src/components/OnboardingTutorial.tsx:12-22 | the state just after mounting; `InitialRendersNothing` states it |
| Tutorial.Next | src/components/OnboardingTutorial.tsx:71-85 | `handleNext` on the state; `NextAdvances` and `RunStepMonotone` state its effect |
| Tutorial.Complete | src/components/OnboardingTutorial.tsx:87-96 | `handleComplete` and `handleSkip` on the state; `CompleteSchedulesOneCallback` states its effect |
| Tutorial.Fire | src/components/OnboardingTutorial.tsx:17-20 | a timer expiring: the mount and settle timers (17-20, 79-81) show a mounted overlay, the exit timer (89-91) calls the host even after unmounting; `MountTimerShows`, `SettleTimerShows` and `ExitTimerCalls` state each case for every state |
| Tutorial.Unmounted | src/components/OnboardingTutorial.tsx:21 | unmounting on the state; `UnmountCancelsOnlyMountTimer` states its effect |
| Tutorial.Render | src/components/OnboardingTutorial.tsx:110-144 | the overlay is drawn iff the component is mounted and visible, and then both its message and its button label are defined and non-empty for every step |
| Tutorial.InitialRendersNothing | src/components/OnboardingTutorial.tsx:12-22 | the component starts at step 1, hidden, rendering nothing, with the mount timer pending |
| Tutorial.MountTimerShows | src/components/OnboardingTutorial.tsx:17-20 | the mount timer makes the overlay visible and leaves the step, the callback count and the other timers unchanged |
| Tutorial.SettleTimerShows | src/components/OnboardingTutorial.tsx:79-81 | the settle timer makes the overlay visible whenever the component is still mounted, even after a dismissal, and keeps the step, the callback count and the other timers |
| Tutorial.ExitTimerCalls | src/components/OnboardingTutorial.tsx:89-91 | the exit timer calls `onComplete` once whether or not the component is still mounted, and changes nothing else |
| Tutorial.UnmountCancelsOnlyMountTimer | src/components/OnboardingTutorial.tsx:21 | unmounting removes the mount timer and no other; the settle and exit timers stay pending |
| Tutorial.NextAdvances | src/components/OnboardingTutorial.tsx:71-85 | the action button moves step 1 to 2 and 2 to 3 without changing visibility or starting a callback; at step 3 it runs `handleComplete` |
| Tutorial.CompleteSchedulesOneCallback | src/components/OnboardingTutorial.tsx:87-96 | completion and skip, from any step, hide the overlay, keep the step, and schedule exactly one more callback without calling it yet |
| Tutorial.RemoveAt | src/components/OnboardingTutorial.tsx:17-20 | an expired timer leaves the pending timers with exactly that one entry fewer |
| Tutorial.Without | src/components/OnboardingTutorial.tsx:21 | clearing a kind of timer removes all of that kind and keeps every other timer |
| Tutorial.Apply | src/components/OnboardingTutorial.tsx:71-96 | one event: a button click while the overlay is rendered, a timer expiring, or unmounting; clicks do nothing while it is hidden |
| Tutorial.Run | src/components/OnboardingTutorial.tsx:71-96 | a sequence of events in turn; `RunStepMonotone`, `CompletionCanRepeat` and `CompletionAtMostOnce` are stated over it |
| Tutorial.ApplyStep | src/components/OnboardingTutorial.tsx:71-85 | no event moves the step back or forward by more than one, and none takes back a callback |
| Tutorial.RunStepMonotone | src/components/OnboardingTutorial.tsx:71-85 | along any run the step never decreases and grows by at most one per event, so step 1 never leads straight to step 3 |
| Tutorial.RunAppend | src/components/OnboardingTutorial.tsx:71-96 | a run of two event lists in turn is the run of their concatenation |
| Tutorial.ReachFinalStep | src/components/OnboardingTutorial.tsx:71-81 | the mount timer and two clicks reach step 3 on screen with the settle timer still pending |
| Tutorial.DismissThenShownAgain | src/components/OnboardingTutorial.tsx:79-96 | a dismissal before the settle timer fires is undone by it, and the final button then starts a second exit timer |
| Tutorial.FirstCallback | src/components/OnboardingTutorial.tsx:89-91 | the first exit timer calls the host once |
| Tutorial.SecondCallbackAfterUnmount | src/components/OnboardingTutorial.tsx:89-91 | after the host unmounts the component, the second exit timer still calls it |
| Tutorial.CompletionCanRepeat | src/components/OnboardingTutorial.tsx:79-91 | as written, the run `DoubleCompletionRun` calls `onComplete` twice |
| Tutorial.CompleteCancelling | src/components/OnboardingTutorial.tsx:87-92 | corrected completion: as `handleComplete`, and the pending show timers are cleared |
| Tutorial.AtMostOnce | src/components/OnboardingTutorial.tsx:87-92 | the corrected variant's invariant: at most one callback made or pending, and once one has started the overlay is hidden with no show timer pending |
| Tutorial.FireKeepsAtMostOnce | src/components/OnboardingTutorial.tsx:17-20 | with completion clearing the show timers, a timer expiring keeps at most one callback started, and the overlay stays hidden once one has started |
| Tutorial.CompleteCancellingKeepsAtMostOnce | src/components/OnboardingTutorial.tsx:87-92 | corrected completion, from a rendered overlay, starts the only callback and leaves no show timer pending |
| Tutorial.UnmountKeepsAtMostOnce | src/components/OnboardingTutorial.tsx:21 | unmounting keeps the at-most-once invariant |
| Tutorial.NextKeepsAtMostOnce | src/components/OnboardingTutorial.tsx:71-81 | advancing below step 3 keeps the at-most-once invariant |
| Tutorial.ApplyKeepsAtMostOnce | src/components/OnboardingTutorial.tsx:71-96 | every event keeps the at-most-once invariant in the corrected variant |
| Tutorial.CompletionAtMostOnce | src/components/OnboardingTutorial.tsx:87-92 | in the corrected variant no run from an invariant state calls `onComplete` more than once |
| Tutorial.InitialAtMostOnce | src/components/OnboardingTutorial.tsx:12-22 | a freshly mounted component satisfies the at-most-once invariant |
| Tutorial.AwaitingMount | src/components/OnboardingTutorial.tsx:12-22 | while the mount timer is pending the component is mounted, hidden and at step 1, with no other show timer |
| Tutorial.ApplyKeepsAwaitingMount | src/components/OnboardingTutorial.tsx:12-22 | no event, in either variant, breaks `AwaitingMount`: nothing can be clicked before the mount timer fires |
| Tutorial.MountTimerFiresAtStepOne | src/components/OnboardingTutorial.tsx:12-20 | along any run from a state awaiting mount, the mount timer fires only at step 1 on a hidden, mounted component, and shows it at step 1 |
| Tutorial.InitialAwaitingMount | src/components/OnboardingTutorial.tsx:12-22 | the freshly mounted component, with its one mount timer, satisfies `AwaitingMount` |
| Tutorial.OnboardingTutorial.constructor | src/components/OnboardingTutorial.tsx:12-22 | mounting gives step 1, hidden, the mount timer pending, no scrolls, and the page after the step-1 highlight effect |
| Tutorial.OnboardingTutorial.RemoveHighlightsInPlace | src/components/OnboardingTutorial.tsx:26-31 | the in-place loop over the page leaves it as `RemoveHighlights` describes |
| Tutorial.OnboardingTutorial.MarkInPlace | src/components/OnboardingTutorial.tsx:36-45 | the first element with the marker gains the classes in place; no change when there is none |
| Tutorial.OnboardingTutorial.HighlightStep | src/components/OnboardingTutorial.tsx:33-48 | the effect body leaves the page as `Effect` describes for the step |
| Tutorial.OnboardingTutorial.HandleComplete | src/components/OnboardingTutorial.tsx:87-92 | the state becomes `Complete` of the old state; no scroll |
| Tutorial.OnboardingTutorial.HandleSkip | src/components/OnboardingTutorial.tsx:94-96 | skipping is completion |
| Tutorial.OnboardingTutorial.HandleNext | src/components/OnboardingTutorial.tsx:71-85 | the state becomes `Next` of the old state. The contact section (from step 1) or the top (from step 2) is scrolled to. On a step change the page is re-highlighted for the new step |
| Tutorial.OnboardingTutorial.FireTimer | src/components/OnboardingTutorial.tsx:17-20 | the state becomes `Fire` of the old state; the mount timer also scrolls to the plans section when there is one |
| Tutorial.OnboardingTutorial.Unmount | src/components/OnboardingTutorial.tsx:21-50 | unmounting runs the cleanup on the page and clears the mount timer only |

## Left out

- JSX markup, Tailwind classes, icons, images and animations are presentation only.
- `src/components/ProgramServicesList.tsx` is not part of this model. It is a static list of copy.
- The e-mail syntax check belongs to the validation library. It is the parameter `isEmail` of `Welcome.Issues`.
- `JSON.stringify` is the parameter `stringify` of `Welcome.OnSubmit`. Its injectivity is a hypothesis of `Welcome.StoredRecordIdentifiesSubmission`, not a modelled fact.
- The form library's wiring (`handleSubmit`, error messages) is not modelled. `Welcome.OnSubmit` is the handler that runs once the schema accepts.
- Welcome.OnSubmit: `localStorage.setItem` can throw (a full quota, or storage blocked by the browser). The second write and the navigation then never run. The model's `Browser.SetItem` always succeeds, so this error path is not modelled.
- Welcome.Issues: string lengths are counted in Unicode scalar values, while JavaScript counts UTF-16 code units. The two differ for names or addresses with characters outside the Basic Multilingual Plane.
- Welcome.CatalogueDatesHaveThreeWords: names the thirteen entries one by one instead of quantifying over the `Promotions` sequence, which lists the same thirteen constants.
- Timer durations (500, 800 and 300 ms) are not modelled. Any pending timer may fire next, so the model allows orders that real time rules out. The double call in "## Findings" is also possible with the real delays.
- Scrolling is recorded as requested scrolls (`IntoView` of an element, `ToTop`). Smooth behaviour and the `block: "center"` alignment are browser effects.
- React's batching is not modelled. Each handler's state updates take effect together. The highlight effect, and the cleanup of the previous step, run right after a handler that changes the step.
- Tutorial.OnboardingTutorial.HandleNext and Tutorial.OnboardingTutorial.HandleSkip require the overlay to be rendered. Their buttons and the backdrop exist only then.
- The host's reaction to `onComplete` (clearing the tutorial flag and unmounting the component) is the separate `Leave` event. Routing is a recorded path.

## Findings

| source | as written | input that shows it | evidently intended | confidence | as-written member | corrected member |
|---|---|---|---|---|---|---|
| src/components/OnboardingTutorial.tsx:79-91 | the 800 ms settle timer started by step 2's button is never cleared: not by `handleComplete` and not on unmount. The 300 ms exit timer is not cleared on unmount either | reach step 3 and close the overlay 500 to 800 ms later. At 800 ms the settle timer shows the overlay again; click "Entendido" before the host has unmounted the component. Both exit timers call `onComplete`, the second after unmounting | `onComplete` is called once per lifetime of the component | not executed | Tutorial.CompletionCanRepeat | Tutorial.CompletionAtMostOnce |

In the corrected variant (`Variant.ShowsCancelled`), completion clears the
pending show timers (`Tutorial.CompleteCancelling`). The proved invariant
`Tutorial.AtMostOnce` then holds on every run: at most one callback is made
or pending, and once one has started the overlay stays hidden. The class
`OnboardingTutorial` models the component as written.
