/**
 * The onboarding tutorial overlay: a three-step sequencer that shows a
 * message and a button over the page, highlights the page section the
 * current step talks about, and reports completion to its host through a
 * callback.
 *
 * The page is a sequence of elements, each with an optional `data-tutorial`
 * marker and a set of class names.  Timers are pending actions that an
 * explicit `Fire` runs, in any order; the host's `onComplete` callback is a
 * counter of calls.
 */
module Tutorial {
  import opened Wrappers

  // ---------------------------------------------------------------------
  // Page model
  // ---------------------------------------------------------------------

  /** A tutorial step; the source's `TutorialStep` is the union `1 | 2 | 3`. */
  type Step = s: int | 1 <= s <= 3 witness 1

  /** An element of the page: its `data-tutorial` value, if it has one, and its class list. */
  datatype Element = Element(marker: Option<string>, classes: set<string>)

  const Highlight := "tutorial-highlight"
  const HighlightContact := "tutorial-highlight-contact"
  const PlansMarker := "plans"
  const ContactMarker := "contact"

  /** A scroll the tutorial asks the browser for: an element into view, or the top of the window. */
  datatype Scroll = IntoView(index: nat) | ToTop

  /** `document.querySelector('[data-tutorial="marker"]')`: the first element, in document order, with that marker. */
  function QuerySelector(page: seq<Element>, marker: string): (r: Option<nat>)
    ensures r.Some? ==> r.value < |page| && page[r.value].marker == Some(marker)
    ensures r.Some? ==> forall j :: 0 <= j < r.value ==> page[j].marker != Some(marker)
    ensures r.None? ==> forall j :: 0 <= j < |page| ==> page[j].marker != Some(marker)
  {
    if |page| == 0 then None
    else if page[0].marker == Some(marker) then Some(0)
    else match QuerySelector(page[1..], marker)
      case None => None
      case Some(i) => Some(i + 1)
  }

  /** Two pages whose elements carry the same markers answer every query alike. */
  lemma QuerySelectorSeesOnlyMarkers(p: seq<Element>, q: seq<Element>, marker: string)
    requires |p| == |q|
    requires forall i :: 0 <= i < |p| ==> p[i].marker == q[i].marker
    ensures QuerySelector(p, marker) == QuerySelector(q, marker)
  {
    var a, b := QuerySelector(p, marker), QuerySelector(q, marker);
    if a.Some? && b.Some? {
      assert !(a.value < b.value) && !(b.value < a.value);
    }
  }

  /** One element after the cleanup: both highlight classes gone if it has a marker, untouched otherwise. */
  function Unhighlighted(e: Element): Element {
    if e.marker.Some? then e.(classes := e.classes - {Highlight, HighlightContact}) else e
  }

  /**
   * The `removeHighlights` cleanup: every element with a `data-tutorial`
   * marker loses both highlight classes; no other class changes, and
   * elements without a marker are left alone.
   */
  function RemoveHighlights(page: seq<Element>): (r: seq<Element>)
    ensures |r| == |page|
    ensures forall i :: 0 <= i < |page| ==> r[i].marker == page[i].marker
    ensures forall i :: 0 <= i < |page| && page[i].marker.None? ==> r[i] == page[i]
    ensures forall i :: 0 <= i < |page| && page[i].marker.Some? ==>
      r[i].classes == page[i].classes - {Highlight, HighlightContact}
  {
    seq(|page|, i requires 0 <= i < |page| => Unhighlighted(page[i]))
  }

  /** Running the cleanup twice is the same as running it once. */
  lemma RemoveHighlightsIdempotent(page: seq<Element>)
    ensures RemoveHighlights(RemoveHighlights(page)) == RemoveHighlights(page)
  {
    var once := RemoveHighlights(page);
    var twice := RemoveHighlights(once);
    forall i | 0 <= i < |once| ensures twice[i] == once[i] {
      if once[i].marker.Some? {
        assert twice[i].classes == once[i].classes;
      }
    }
  }

  /** After the cleanup no marked element carries either highlight class. */
  lemma RemoveHighlightsClears(page: seq<Element>)
    ensures var r := RemoveHighlights(page);
      forall i :: 0 <= i < |r| && r[i].marker.Some? ==>
        Highlight !in r[i].classes && HighlightContact !in r[i].classes
  {
  }

  /** Add `added` to the classes of the first element with `marker`; no change when there is none. */
  function Mark(page: seq<Element>, marker: string, added: set<string>): (r: seq<Element>)
    ensures |r| == |page|
    ensures forall i :: 0 <= i < |page| ==> r[i].marker == page[i].marker
    ensures forall i :: 0 <= i < |page| ==>
      r[i].classes == if QuerySelector(page, marker) == Some(i) then page[i].classes + added else page[i].classes
  {
    match QuerySelector(page, marker)
    case None => page
    case Some(i) => page[i := page[i].(classes := page[i].classes + added)]
  }

  /** The marker of the section a step points at; step 3 points at none. */
  function AnchorMarker(step: Step): Option<string> {
    if step == 1 then Some(PlansMarker)
    else if step == 2 then Some(ContactMarker)
    else None
  }

  /** The index of the element a step highlights, if the step has an anchor and the page has it. */
  function Anchor(page: seq<Element>, step: Step): Option<nat> {
    match AnchorMarker(step)
    case None => None
    case Some(marker) => QuerySelector(page, marker)
  }

  /**
   * The highlight effect for a step: clean up, then mark the first `plans`
   * element for step 1, the first `contact` element (with the contact
   * emphasis as well) for step 2, and for step 3 clean up once more.
   */
  function Effect(page: seq<Element>, step: Step): seq<Element> {
    var clean := RemoveHighlights(page);
    if step == 1 then Mark(clean, PlansMarker, {Highlight})
    else if step == 2 then Mark(clean, ContactMarker, {Highlight, HighlightContact})
    else RemoveHighlights(clean)
  }

  /**
   * After the effect for a step, among the marked elements exactly the
   * step's anchor carries the highlight, and it carries the contact
   * emphasis exactly when the step is 2.  Markers, all other classes and
   * every element without a marker are as before.
   */
  lemma {:induction false} HighlightExclusive(page: seq<Element>, step: Step)
    ensures var r := Effect(page, step);
      && |r| == |page|
      && (forall i :: 0 <= i < |page| ==> r[i].marker == page[i].marker)
      && (forall i :: 0 <= i < |page| && page[i].marker.None? ==> r[i] == page[i])
      && (forall i :: 0 <= i < |page| && page[i].marker.Some? ==>
            (Highlight in r[i].classes <==> Anchor(page, step) == Some(i)))
      && (forall i :: 0 <= i < |page| && page[i].marker.Some? ==>
            (HighlightContact in r[i].classes <==> step == 2 && Anchor(page, step) == Some(i)))
      && (forall i :: 0 <= i < |page| ==>
            r[i].classes - {Highlight, HighlightContact} == page[i].classes - {Highlight, HighlightContact})
  {
    var clean := RemoveHighlights(page);
    match AnchorMarker(step)
    case None =>
    case Some(marker) =>
      QuerySelectorSeesOnlyMarkers(clean, page, marker);
  }

  /** With the step's anchor missing from the page, the effect is the cleanup alone. */
  lemma MissingAnchorOnlyCleans(page: seq<Element>, step: Step)
    requires Anchor(page, step).None?
    ensures Effect(page, step) == RemoveHighlights(page)
  {
    RemoveHighlightsIdempotent(page);
    match AnchorMarker(step)
    case None =>
    case Some(marker) =>
      QuerySelectorSeesOnlyMarkers(RemoveHighlights(page), page, marker);
  }

  /**
   * On a step change the previous effect's cleanup runs before the new
   * effect; since the new effect starts with the same cleanup, the page
   * ends as if only the new effect had run.
   */
  lemma CleanupThenEffect(page: seq<Element>, step: Step)
    ensures Effect(RemoveHighlights(page), step) == Effect(page, step)
  {
    RemoveHighlightsIdempotent(page);
  }

  /** `scrollIntoView` on the first element with `marker`; nothing when the page has none. */
  function ScrollTo(page: seq<Element>, marker: string): (r: seq<Scroll>)
    ensures |r| <= 1
    ensures r == [] <==> QuerySelector(page, marker).None?
    ensures forall k :: 0 <= k < |r| ==> r[k].IntoView? && r[k].index < |page| && page[r[k].index].marker == Some(marker)
    ensures forall k :: 0 <= k < |r| ==> forall j :: 0 <= j < r[k].index ==> page[j].marker != Some(marker)
  {
    match QuerySelector(page, marker)
    case None => []
    case Some(i) => [IntoView(i)]
  }

  /** The scrolls `handleNext` asks for: the contact section from step 1, the top of the window from step 2. */
  function NextScrolls(page: seq<Element>, step: Step): seq<Scroll> {
    if step == 1 then ScrollTo(page, ContactMarker)
    else if step == 2 then [ToTop]
    else []
  }

  // ---------------------------------------------------------------------
  // Sequencer state machine
  // ---------------------------------------------------------------------

  /** The timers the component starts: the mount delay, the settle delay after the last scroll, and the exit delay before the callback. */
  datatype Timer = ShowAfterMount | ShowAfterSettle | CallOnComplete

  /**
   * The component's state (`currentStep`, `isVisible`), whether it is still
   * mounted, its pending timers in scheduling order, and how many times the
   * host's `onComplete` has been called.
   */
  datatype Machine = Machine(step: Step, visible: bool, mounted: bool, pending: seq<Timer>, completions: nat)

  /** How many timers of a kind are pending. */
  function Pending(m: Machine, t: Timer): nat {
    multiset(m.pending)[t]
  }

  /** Just mounted: step 1, hidden, the mount timer running, no callback yet. */
  function Initial(): Machine {
    Machine(1, false, true, [ShowAfterMount], 0)
  }

  /** The overlay is on screen, so its buttons can be clicked. */
  predicate Rendered(m: Machine) {
    m.mounted && m.visible
  }

  /** `handleComplete`: hide the overlay and start the exit timer for the callback. */
  function Complete(m: Machine): Machine {
    m.(visible := false, pending := m.pending + [CallOnComplete])
  }

  /** `handleNext`: 1 to 2; 2 to 3 with the settle timer; at 3, completion. */
  function Next(m: Machine): Machine {
    if m.step == 1 then m.(step := 2)
    else if m.step == 2 then m.(step := 3, pending := m.pending + [ShowAfterSettle])
    else Complete(m)
  }

  /** The timer list with the entry at `i` taken out. */
  function RemoveAt(ts: seq<Timer>, i: nat): (r: seq<Timer>)
    requires i < |ts|
    ensures multiset(r) + multiset{ts[i]} == multiset(ts)
  {
    assert ts == ts[..i] + [ts[i]] + ts[i + 1..];
    ts[..i] + ts[i + 1..]
  }

  /** The timer list with every entry of kind `t` cleared. */
  function Without(ts: seq<Timer>, t: Timer): (r: seq<Timer>)
    ensures multiset(r)[t] == 0
    ensures forall u :: u != t ==> multiset(r)[u] == multiset(ts)[u]
  {
    if |ts| == 0 then []
    else
      assert ts == [ts[0]] + ts[1..];
      if ts[0] == t then Without(ts[1..], t) else [ts[0]] + Without(ts[1..], t)
  }

  /**
   * Pending timer `i` expires.  A show timer makes the overlay visible (on
   * an unmounted component the state update is lost); the exit timer calls
   * the host's callback whether or not the component is still mounted.
   */
  function Fire(m: Machine, i: nat): Machine
    requires i < |m.pending|
  {
    var rest := RemoveAt(m.pending, i);
    match m.pending[i]
    case CallOnComplete => m.(pending := rest, completions := m.completions + 1)
    case _ => m.(pending := rest, visible := m.visible || m.mounted)
  }

  /** Unmounting: the mount effect's cleanup clears the mount timer; no other timer is cleared. */
  function Unmounted(m: Machine): Machine {
    m.(mounted := false, pending := Without(m.pending, ShowAfterMount))
  }

  /** What is on screen: `null` while hidden, otherwise the step's message and button label. */
  datatype Overlay = Overlay(message: string, button: string)

  const Messages: map<Step, string> := map[
    1 := "Estos son nuestros planes para ofrecerte lo que mejor se adapte a ti",
    2 := "Si tienes dudas en cualquier momento puedes hablar con Amanda",
    3 := "Te dejo en la parte inicial de nuestra página. ¡Que disfrutes tu experiencia!"
  ]

  const ButtonLabels: map<Step, string> := map[
    1 := "Continuar",
    2 := "Comenzar la experiencia",
    3 := "Entendido"
  ]

  /** The render gate: an overlay exactly when mounted and visible, with the current step's text. */
  function Render(m: Machine): (r: Option<Overlay>)
    ensures r.Some? <==> Rendered(m)
    ensures r.Some? ==> r.value.message != "" && r.value.button != ""
  {
    if Rendered(m) then Some(Overlay(Messages[m.step], ButtonLabels[m.step])) else None
  }

  /** The component starts at step 1, hidden, so it renders nothing until the mount timer fires. */
  lemma InitialRendersNothing()
    ensures Initial().step == 1 && !Initial().visible
    ensures Render(Initial()) == None
    ensures Pending(Initial(), ShowAfterMount) == 1
  {
  }

  /** The mount timer shows the overlay and leaves the step, the other timers and the callback count as they were. */
  lemma MountTimerShows(m: Machine, i: nat)
    requires i < |m.pending| && m.pending[i] == ShowAfterMount && m.mounted
    ensures var r := Fire(m, i);
      && r.visible && r.step == m.step && r.completions == m.completions
      && Pending(r, ShowAfterMount) == Pending(m, ShowAfterMount) - 1
      && Pending(r, ShowAfterSettle) == Pending(m, ShowAfterSettle)
      && Pending(r, CallOnComplete) == Pending(m, CallOnComplete)
  {
  }

  /**
   * The settle timer shows the overlay again if the component is still
   * mounted, whatever happened since it was started, and leaves the step,
   * the callback count and the other timers as they were.
   */
  lemma SettleTimerShows(m: Machine, i: nat)
    requires i < |m.pending| && m.pending[i] == ShowAfterSettle
    ensures var r := Fire(m, i);
      && r.visible == (m.visible || m.mounted)
      && r.step == m.step && r.mounted == m.mounted && r.completions == m.completions
      && Pending(r, ShowAfterSettle) == Pending(m, ShowAfterSettle) - 1
      && Pending(r, ShowAfterMount) == Pending(m, ShowAfterMount)
      && Pending(r, CallOnComplete) == Pending(m, CallOnComplete)
  {
  }

  /**
   * The exit timer calls the host's `onComplete` once, and it does so even
   * after the component has been unmounted; nothing else changes.
   */
  lemma ExitTimerCalls(m: Machine, i: nat)
    requires i < |m.pending| && m.pending[i] == CallOnComplete
    ensures var r := Fire(m, i);
      && r.completions == m.completions + 1
      && r.step == m.step && r.visible == m.visible && r.mounted == m.mounted
      && Pending(r, CallOnComplete) == Pending(m, CallOnComplete) - 1
      && Pending(r, ShowAfterMount) == Pending(m, ShowAfterMount)
      && Pending(r, ShowAfterSettle) == Pending(m, ShowAfterSettle)
  {
  }

  /** Unmounting cancels the mount timer and no other: the settle and exit timers stay pending. */
  lemma UnmountCancelsOnlyMountTimer(m: Machine)
    ensures var r := Unmounted(m);
      && !r.mounted && Render(r) == None
      && Pending(r, ShowAfterMount) == 0
      && Pending(r, ShowAfterSettle) == Pending(m, ShowAfterSettle)
      && Pending(r, CallOnComplete) == Pending(m, CallOnComplete)
      && r.step == m.step && r.completions == m.completions
  {
  }

  /** `handleNext` advances one step below 3, never jumping, and at step 3 starts completion instead. */
  lemma NextAdvances(m: Machine)
    ensures m.step < 3 ==> Next(m).step == m.step + 1 && Next(m).visible == m.visible
    ensures m.step < 3 ==> Pending(Next(m), CallOnComplete) == Pending(m, CallOnComplete)
    ensures m.step == 3 ==> Next(m) == Complete(m)
  {
  }

  /**
   * `handleSkip` (and `handleComplete`) from any step hides the overlay,
   * keeps the step, and schedules exactly one more callback without calling
   * it yet.
   */
  lemma CompleteSchedulesOneCallback(m: Machine)
    ensures var r := Complete(m);
      && !r.visible && r.step == m.step && r.completions == m.completions
      && Pending(r, CallOnComplete) == Pending(m, CallOnComplete) + 1
      && Pending(r, ShowAfterSettle) == Pending(m, ShowAfterSettle)
      && Pending(r, ShowAfterMount) == Pending(m, ShowAfterMount)
      && Render(r) == None
  {
  }

  // ---------------------------------------------------------------------
  // Runs of the sequencer
  // ---------------------------------------------------------------------

  /** What can happen: a click on the action button, a click on the close button or backdrop, a timer expiring, the host unmounting the component. */
  datatype Event = Advance | Dismiss | Elapse(timer: nat) | Leave

  /**
   * Completion as the source writes it, or with the correction that clears
   * the pending show timers when completion starts.
   */
  datatype Variant = AsWritten | ShowsCancelled

  /** Completion in the corrected variant: as `Complete`, and no show timer stays pending. */
  function CompleteCancelling(m: Machine): Machine {
    var cleared := Without(Without(m.pending, ShowAfterMount), ShowAfterSettle);
    m.(visible := false, pending := cleared + [CallOnComplete])
  }

  /** One event; the buttons exist only while the overlay is rendered, and a click elsewhere changes nothing. */
  function Apply(v: Variant, m: Machine, e: Event): Machine {
    var complete := if v == AsWritten then Complete(m) else CompleteCancelling(m);
    match e
    case Advance => if !Rendered(m) then m else if m.step == 3 then complete else Next(m)
    case Dismiss => if Rendered(m) then complete else m
    case Elapse(i) => if i < |m.pending| then Fire(m, i) else m
    case Leave => if m.mounted then Unmounted(m) else m
  }

  /** A run of events from a state. */
  function Run(v: Variant, m: Machine, es: seq<Event>): Machine
    decreases |es|
  {
    if |es| == 0 then m else Run(v, Apply(v, m, es[0]), es[1..])
  }

  /** One event moves the step forward by at most one and never back. */
  lemma ApplyStep(v: Variant, m: Machine, e: Event)
    ensures m.step <= Apply(v, m, e).step <= m.step + 1
    ensures m.completions <= Apply(v, m, e).completions
  {
  }

  /** Along any run the step never decreases, and it grows by at most one per event, so step 1 never leads straight to step 3. */
  lemma {:induction false} RunStepMonotone(v: Variant, m: Machine, es: seq<Event>)
    ensures m.step <= Run(v, m, es).step <= m.step + |es|
    ensures m.completions <= Run(v, m, es).completions
    decreases |es|
  {
    if |es| > 0 {
      ApplyStep(v, m, es[0]);
      RunStepMonotone(v, Apply(v, m, es[0]), es[1..]);
    }
  }

  /**
   * The source can call `onComplete` twice.  Step 2 to 3 starts the settle
   * timer; a dismissal before it expires starts the exit timer; the settle
   * timer then shows the overlay again at step 3, and its "Entendido"
   * button starts a second exit timer, which unmounting does not clear.
   */
  const DoubleCompletionRun: seq<Event> := [
    Elapse(0), Advance, Advance, Dismiss, Elapse(0), Advance, Elapse(0), Leave, Elapse(0)
  ]

  /** Running `a` then `b` is running `a + b`. */
  lemma {:induction false} RunAppend(v: Variant, m: Machine, a: seq<Event>, b: seq<Event>)
    ensures Run(v, m, a + b) == Run(v, Run(v, m, a), b)
    decreases |a|
  {
    if |a| > 0 {
      assert (a + b)[0] == a[0];
      assert (a + b)[1..] == a[1..] + b;
      RunAppend(v, Apply(v, m, a[0]), a[1..], b);
    } else {
      assert a + b == b;
    }
  }

  /** The mount timer and two clicks reach step 3, on screen, with the settle timer still pending. */
  lemma ReachFinalStep()
    ensures Run(AsWritten, Initial(), [Elapse(0), Advance, Advance])
      == Machine(3, true, true, [ShowAfterSettle], 0)
  {
  }

  /** A dismissal, then the settle timer shows the overlay again, and its button starts a second exit timer. */
  lemma DismissThenShownAgain()
    ensures Run(AsWritten, Machine(3, true, true, [ShowAfterSettle], 0), [Dismiss, Elapse(0), Advance])
      == Machine(3, false, true, [CallOnComplete, CallOnComplete], 0)
  {
  }

  /** The first exit timer calls the host. */
  lemma FirstCallback()
    ensures Run(AsWritten, Machine(3, false, true, [CallOnComplete, CallOnComplete], 0), [Elapse(0)])
      == Machine(3, false, true, [CallOnComplete], 1)
  {
  }

  /** The host unmounts the component; the second exit timer still calls it. */
  lemma SecondCallbackAfterUnmount()
    ensures Run(AsWritten, Machine(3, false, true, [CallOnComplete], 1), [Leave, Elapse(0)])
      == Machine(3, false, false, [], 2)
  {
  }

  /** As written, `DoubleCompletionRun` calls the host's `onComplete` twice. */
  lemma CompletionCanRepeat()
    ensures Run(AsWritten, Initial(), DoubleCompletionRun).completions == 2
  {
    var reach: seq<Event> := [Elapse(0), Advance, Advance];
    var reshow: seq<Event> := [Dismiss, Elapse(0), Advance];
    var first: seq<Event> := [Elapse(0)];
    var second: seq<Event> := [Leave, Elapse(0)];
    assert DoubleCompletionRun == reach + (reshow + (first + second));
    RunAppend(AsWritten, Initial(), reach, reshow + (first + second));
    ReachFinalStep();
    RunAppend(AsWritten, Machine(3, true, true, [ShowAfterSettle], 0), reshow, first + second);
    DismissThenShownAgain();
    RunAppend(AsWritten, Machine(3, false, true, [CallOnComplete, CallOnComplete], 0), first, second);
    FirstCallback();
    SecondCallbackAfterUnmount();
  }

  /** Callbacks made or on their way. */
  function Callbacks(m: Machine): nat {
    m.completions + Pending(m, CallOnComplete)
  }

  /** The corrected variant's invariant: at most one callback, and once it is started the overlay is hidden for good. */
  predicate AtMostOnce(m: Machine) {
    && Callbacks(m) <= 1
    && (Callbacks(m) == 1 ==>
          !m.visible && Pending(m, ShowAfterMount) == 0 && Pending(m, ShowAfterSettle) == 0)
  }

  /** A timer expiring moves an exit timer into the count of calls, or shows the overlay when no callback has started. */
  lemma FireKeepsAtMostOnce(m: Machine, i: nat)
    requires AtMostOnce(m) && i < |m.pending|
    ensures AtMostOnce(Fire(m, i))
  {
    var r := Fire(m, i);
    assert multiset(m.pending) == multiset(r.pending) + multiset{m.pending[i]};
    assert Callbacks(r) == Callbacks(m);
  }

  /** The corrected completion starts the only callback, from a state with none started. */
  lemma CompleteCancellingKeepsAtMostOnce(m: Machine)
    requires AtMostOnce(m) && Rendered(m)
    ensures AtMostOnce(CompleteCancelling(m))
  {
    var r := CompleteCancelling(m);
    var cleared := Without(Without(m.pending, ShowAfterMount), ShowAfterSettle);
    assert multiset(r.pending) == multiset(cleared) + multiset{CallOnComplete};
    assert Callbacks(r) == Callbacks(m) + 1;
  }

  /** Unmounting clears only timers that cannot start a callback. */
  lemma UnmountKeepsAtMostOnce(m: Machine)
    requires AtMostOnce(m)
    ensures AtMostOnce(Unmounted(m))
  {
    assert Callbacks(Unmounted(m)) == Callbacks(m);
  }

  /** Below step 3 the action button starts no callback; the settle timer it may start needs the overlay on screen. */
  lemma NextKeepsAtMostOnce(m: Machine)
    requires AtMostOnce(m) && Rendered(m) && m.step < 3
    ensures AtMostOnce(Next(m))
  {
    assert Callbacks(Next(m)) == Callbacks(m);
  }

  /** Every event keeps the corrected variant's invariant. */
  lemma ApplyKeepsAtMostOnce(m: Machine, e: Event)
    requires AtMostOnce(m)
    ensures AtMostOnce(Apply(ShowsCancelled, m, e))
  {
    match e
    case Elapse(i) =>
      if i < |m.pending| {
        FireKeepsAtMostOnce(m, i);
      }
    case Leave =>
      if m.mounted {
        UnmountKeepsAtMostOnce(m);
      }
    case Advance =>
      if Rendered(m) && m.step == 3 {
        CompleteCancellingKeepsAtMostOnce(m);
      } else if Rendered(m) {
        NextKeepsAtMostOnce(m);
      }
    case Dismiss =>
      if Rendered(m) {
        CompleteCancellingKeepsAtMostOnce(m);
      }
  }

  /** With the show timers cleared on completion, no run calls `onComplete` more than once. */
  lemma {:induction false} CompletionAtMostOnce(m: Machine, es: seq<Event>)
    requires AtMostOnce(m)
    ensures AtMostOnce(Run(ShowsCancelled, m, es))
    ensures Run(ShowsCancelled, m, es).completions <= 1
    decreases |es|
  {
    if |es| > 0 {
      ApplyKeepsAtMostOnce(m, es[0]);
      CompletionAtMostOnce(Apply(ShowsCancelled, m, es[0]), es[1..]);
    }
  }

  /** A freshly mounted component satisfies the invariant, so every run from it calls back at most once. */
  lemma InitialAtMostOnce()
    ensures AtMostOnce(Initial())
  {
  }

  /**
   * While the mount timer is pending, the component is mounted, hidden and
   * at step 1, with that timer the only show timer: nothing can be clicked
   * before it fires.
   */
  predicate AwaitingMount(m: Machine) {
    Pending(m, ShowAfterMount) > 0 ==>
      && Pending(m, ShowAfterMount) == 1 && Pending(m, ShowAfterSettle) == 0
      && m.step == 1 && !m.visible && m.mounted
  }

  /** Every event, in either variant, keeps `AwaitingMount`. */
  lemma ApplyKeepsAwaitingMount(v: Variant, m: Machine, e: Event)
    requires AwaitingMount(m)
    ensures AwaitingMount(Apply(v, m, e))
  {
  }

  /**
   * In every run from the freshly mounted component, the mount timer, when
   * it fires, fires at step 1 on a hidden, mounted component and shows it at
   * step 1.
   */
  lemma {:induction false} MountTimerFiresAtStepOne(v: Variant, m: Machine, es: seq<Event>)
    requires AwaitingMount(m)
    ensures AwaitingMount(Run(v, m, es))
    ensures var r := Run(v, m, es);
      forall i :: 0 <= i < |r.pending| && r.pending[i] == ShowAfterMount ==>
        r.step == 1 && !r.visible && r.mounted && Fire(r, i).step == 1 && Fire(r, i).visible
    decreases |es|
  {
    if |es| > 0 {
      ApplyKeepsAwaitingMount(v, m, es[0]);
      MountTimerFiresAtStepOne(v, Apply(v, m, es[0]), es[1..]);
    } else {
      forall i | 0 <= i < |m.pending| && m.pending[i] == ShowAfterMount
        ensures Pending(m, ShowAfterMount) > 0
      {
        assert m.pending[i] in multiset(m.pending);
      }
    }
  }

  /** The freshly mounted component is awaiting its mount timer. */
  lemma InitialAwaitingMount()
    ensures AwaitingMount(Initial())
    ensures Pending(Initial(), ShowAfterMount) == 1
  {
  }

  // ---------------------------------------------------------------------
  // The component, as the source runs it
  // ---------------------------------------------------------------------

  /**
   * The mounted component.  Its state fields follow `Machine`, `doc` is the
   * page it highlights in place, and `scrolls` records the scrolls it has
   * asked for.
   */
  class OnboardingTutorial {
    var currentStep: Step
    var isVisible: bool
    var mounted: bool
    var pending: seq<Timer>
    var completions: nat
    var scrolls: seq<Scroll>
    const doc: array<Element>

    ghost function Model(): Machine
      reads this
    {
      Machine(currentStep, isVisible, mounted, pending, completions)
    }

    /** Mounting: the initial state, the mount timer, and the highlight effect for step 1. */
    constructor(page: array<Element>)
      modifies page
      ensures doc == page
      ensures Model() == Initial()
      ensures scrolls == []
      ensures doc[..] == Effect(old(page[..]), 1)
    {
      currentStep := 1;
      isVisible := false;
      mounted := true;
      pending := [ShowAfterMount];
      completions := 0;
      scrolls := [];
      doc := page;
      new;
      HighlightStep(1);
    }

    /** The cleanup loop over every marked element, in place. */
    method RemoveHighlightsInPlace()
      modifies doc
      ensures doc[..] == RemoveHighlights(old(doc[..]))
    {
      var i := 0;
      while i < doc.Length
        invariant 0 <= i <= doc.Length
        invariant forall j :: 0 <= j < i ==> doc[j] == Unhighlighted(old(doc[j]))
        invariant forall j :: i <= j < doc.Length ==> doc[j] == old(doc[j])
      {
        if doc[i].marker.Some? {
          doc[i] := doc[i].(classes := doc[i].classes - {Highlight, HighlightContact});
        }
        i := i + 1;
      }
    }

    /** Add classes to the first element with `marker`, if any. */
    method MarkInPlace(marker: string, added: set<string>)
      modifies doc
      ensures doc[..] == Mark(old(doc[..]), marker, added)
    {
      match QuerySelector(doc[..], marker)
      case None =>
      case Some(i) =>
        doc[i] := doc[i].(classes := doc[i].classes + added);
    }

    /** The highlight effect body for `step`. */
    method HighlightStep(step: Step)
      modifies doc
      ensures doc[..] == Effect(old(doc[..]), step)
    {
      RemoveHighlightsInPlace();
      if step == 1 {
        MarkInPlace(PlansMarker, {Highlight});
      } else if step == 2 {
        MarkInPlace(ContactMarker, {Highlight, HighlightContact});
      } else {
        RemoveHighlightsInPlace();
      }
    }

    /** `handleComplete`. */
    method HandleComplete()
      modifies this
      ensures Model() == Complete(old(Model()))
      ensures scrolls == old(scrolls)
    {
      isVisible := false;
      pending := pending + [CallOnComplete];
    }

    /** `handleSkip`, behind the close button and the backdrop. */
    method HandleSkip()
      requires Rendered(Model())
      modifies this
      ensures Model() == Complete(old(Model()))
      ensures scrolls == old(scrolls)
    {
      HandleComplete();
    }

    /**
     * `handleNext`, behind the action button.  A step change re-runs the
     * highlight effect after the previous one's cleanup.
     */
    method HandleNext()
      requires Rendered(Model())
      modifies this, doc
      ensures Model() == Next(old(Model()))
      ensures scrolls == old(scrolls) + NextScrolls(old(doc[..]), old(currentStep))
      ensures doc[..] == if old(currentStep) == 3 then old(doc[..]) else Effect(old(doc[..]), Next(old(Model())).step)
    {
      if currentStep == 1 {
        currentStep := 2;
        scrolls := scrolls + ScrollTo(doc[..], ContactMarker);
        ghost var before := doc[..];
        RemoveHighlightsInPlace();
        HighlightStep(2);
        CleanupThenEffect(before, 2);
      } else if currentStep == 2 {
        currentStep := 3;
        scrolls := scrolls + [ToTop];
        pending := pending + [ShowAfterSettle];
        ghost var before := doc[..];
        RemoveHighlightsInPlace();
        HighlightStep(3);
        CleanupThenEffect(before, 3);
      } else {
        HandleComplete();
      }
    }

    /** Pending timer `i` expires; the mount timer also scrolls the plans section into view. */
    method FireTimer(i: nat)
      requires i < |pending|
      modifies this
      ensures Model() == Fire(old(Model()), i)
      ensures scrolls == old(scrolls) + if old(pending[i]) == ShowAfterMount && old(mounted) then ScrollTo(doc[..], PlansMarker) else []
    {
      var t := pending[i];
      pending := RemoveAt(pending, i);
      match t
      case CallOnComplete =>
        completions := completions + 1;
      case ShowAfterSettle =>
        isVisible := isVisible || mounted;
      case ShowAfterMount =>
        isVisible := isVisible || mounted;
        if mounted {
          scrolls := scrolls + ScrollTo(doc[..], PlansMarker);
        }
    }

    /** The host removes the component: the step effect's cleanup runs and the mount timer is cleared. */
    method Unmount()
      requires mounted
      modifies this, doc
      ensures Model() == Unmounted(old(Model()))
      ensures scrolls == old(scrolls)
      ensures doc[..] == RemoveHighlights(old(doc[..]))
    {
      mounted := false;
      pending := Without(pending, ShowAfterMount);
      RemoveHighlightsInPlace();
    }
  }
}
