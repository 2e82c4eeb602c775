/** The InitialResponseScreen component: two cells, the narrative and the
    continue flag, advanced by two timers. The first timer is armed on
    mount; the second is armed by the effect that watches the narrative,
    once the narrative is set. Unmounting clears whichever timer is armed. */
module Pending {
  import opened Types

  /** The narrative the first timer delivers. */
  const Narrative: string :=
    "Initial analysis indicates significant environmental patterns in your selected region. "
      + "We've detected notable variations in key ecological indicators over the specified timeframe. "
      + "Our comprehensive analysis is processing additional parameters to provide you with detailed insights."

  /** JavaScript truthiness of a `string | null` cell: null and the empty
      string are falsy. */
  predicate Truthy(s: Option<string>)
  {
    s.Some? && s.value != []
  }

  /** The component's cells, plus which of its two timers is armed and
      whether it is still mounted. */
  datatype PendingState = PendingState(
    initialResult: Option<string>,
    showContinue: bool,
    resultTimer: bool,
    continueTimer: bool,
    mounted: bool)

  /** On mount: nothing shown yet, the first timer armed. */
  const Mounted: PendingState := PendingState(None, false, true, false, true)

  /** The first timer, the second timer, and unmounting. */
  datatype Event = ResultTimer | ContinueTimer | Unmount

  /** Timers fire only while armed; only a mounted component unmounts. */
  predicate CanOccur(s: PendingState, e: Event)
  {
    match e
    case ResultTimer => s.resultTimer
    case ContinueTimer => s.continueTimer
    case Unmount => s.mounted
  }

  /** The effect of one event. When the first timer sets a truthy
      narrative, the effect on [initialResult] re-runs and arms the second
      timer. Nothing hides the button, removes the narrative, re-arms the
      first timer or remounts the component. */
  function Step(s: PendingState, e: Event): (t: PendingState)
    requires CanOccur(s, e)
    ensures s.showContinue ==> t.showContinue
    ensures s.initialResult.Some? ==> t.initialResult.Some?
    ensures t.resultTimer ==> s.resultTimer
    ensures t.mounted ==> s.mounted
    ensures t.showContinue && !s.showContinue ==> s.continueTimer
  {
    match e
    case ResultTimer =>
      s.(initialResult := Some(Narrative), resultTimer := false, continueTimer := Truthy(Some(Narrative)))
    case ContinueTimer => s.(showContinue := true, continueTimer := false)
    case Unmount => s.(resultTimer := false, continueTimer := false, mounted := false)
  }

  predicate Admissible(s: PendingState, es: seq<Event>)
    decreases |es|
  {
    es == [] || (CanOccur(s, es[0]) && Admissible(Step(s, es[0]), es[1..]))
  }

  function Run(s: PendingState, es: seq<Event>): PendingState
    requires Admissible(s, es)
    decreases |es|
  {
    if es == [] then s else Run(Step(s, es[0]), es[1..])
  }

  /** The invariant: the continue flag and the second timer both need the
      narrative; the first timer is armed only while there is none and
      before anything else has happened; nothing is armed once unmounted;
      and a narrative, once there, is the delivered one. */
  predicate Inv(s: PendingState)
  {
    && (s.showContinue ==> s.initialResult.Some?)
    && (s.continueTimer ==> s.initialResult.Some?)
    && (s.resultTimer ==> s.initialResult.None? && !s.showContinue && !s.continueTimer)
    && (!s.mounted ==> !s.resultTimer && !s.continueTimer)
    && (s.initialResult.Some? ==> s.initialResult.value == Narrative)
  }

  /** The narrative is non-empty, so setting it arms the second timer. */
  lemma NarrativeIsTruthy()
    ensures Truthy(Some(Narrative))
  {
  }

  /** The invariant holds after every admissible sequence of events; in
      particular the continue button never shows without the narrative. */
  lemma {:induction false} InvAlways(s: PendingState, es: seq<Event>)
    requires Inv(s) && Admissible(s, es)
    ensures Inv(Run(s, es))
    ensures Run(s, es).showContinue ==> Run(s, es).initialResult == Some(Narrative)
    decreases |es|
  {
    if es != [] {
      InvAlways(Step(s, es[0]), es[1..]);
    }
  }

  /** Once set, the narrative never changes again. */
  lemma {:induction false} NarrativeStaysSet(s: PendingState, es: seq<Event>)
    requires Inv(s) && s.initialResult.Some? && Admissible(s, es)
    ensures Run(s, es).initialResult == s.initialResult
    decreases |es|
  {
    if es != [] {
      NarrativeStaysSet(Step(s, es[0]), es[1..]);
    }
  }

  /** After unmounting no event can occur: the only admissible sequence of
      events is the empty one, so no cell changes again. */
  lemma AfterUnmountNothingHappens(s: PendingState, es: seq<Event>)
    requires Inv(s) && !s.mounted && Admissible(s, es)
    ensures es == []
  {
  }

  /** The narrative panel: a spinner while the cell is falsy, else the text. */
  datatype ResultPanel = Spinner | NarrativePanel(text: string)

  /** What the result area shows: under the invariant, the spinner exactly
      while the narrative is null, otherwise the narrative. */
  function Panel(s: PendingState): (r: ResultPanel)
    requires Inv(s)
    ensures r.Spinner? <==> s.initialResult.None?
    ensures r.NarrativePanel? ==> Some(r.text) == s.initialResult
  {
    if !Truthy(s.initialResult) then Spinner else NarrativePanel(s.initialResult.value)
  }

  /** The two timers in order: first the narrative, then the continue
      button. */
  lemma MountedThenBothTimers()
    ensures Admissible(Mounted, [ResultTimer, ContinueTimer])
    ensures Run(Mounted, [ResultTimer]).initialResult == Some(Narrative)
    ensures !Run(Mounted, [ResultTimer]).showContinue
    ensures Run(Mounted, [ResultTimer, ContinueTimer]).showContinue
  {
    var s1 := Step(Mounted, ResultTimer);
    var s2 := Step(s1, ContinueTimer);
    assert [ResultTimer, ContinueTimer][1..] == [ContinueTimer];
    assert [ResultTimer][1..] == [];
    assert [ContinueTimer][1..] == [];
    assert Admissible(s2, []);
    assert Admissible(s1, [ContinueTimer]);
    assert Run(s1, []) == s1;
    assert Run(s2, []) == s2;
    assert Run(s1, [ContinueTimer]) == s2;
  }

  /** The component. Its props are the query (shown, never changed) and the
      onContinue callback; it has no access to the analysis data, so the
      continue button depends on its own timers alone. */
  class InitialResponseScreen {
    const queryData: QueryData
    var initialResult: Option<string>
    var showContinue: bool
    ghost var resultTimer: bool
    ghost var continueTimer: bool
    ghost var mounted: bool

    ghost function State(): PendingState
      reads this
    {
      PendingState(initialResult, showContinue, resultTimer, continueTimer, mounted)
    }

    ghost predicate Valid()
      reads this
    {
      Inv(State())
    }

    /** Mount: both cells empty and the first timer armed. */
    constructor (queryData: QueryData)
      ensures this.queryData == queryData
      ensures State() == Mounted && Valid()
    {
      this.queryData := queryData;
      initialResult := None;
      showContinue := false;
      resultTimer := true;
      continueTimer := false;
      mounted := true;
    }

    /** The first timer's callback: the narrative is set and, the cell now
      being truthy, the second timer is armed. */
    method ResultTimerFires()
      requires Valid() && resultTimer
      modifies this
      ensures Valid()
      ensures initialResult == Some(Narrative) && showContinue == old(showContinue)
      ensures !resultTimer && continueTimer && mounted == old(mounted)
      ensures State() == Step(old(State()), ResultTimer)
    {
      initialResult := Some(Narrative);
      resultTimer := false;
      continueTimer := Truthy(initialResult);
    }

    /** The second timer's callback: the continue button appears. */
    method ContinueTimerFires()
      requires Valid() && continueTimer
      modifies this
      ensures Valid()
      ensures showContinue && initialResult == old(initialResult) && initialResult.Some?
      ensures !continueTimer && resultTimer == old(resultTimer) && mounted == old(mounted)
      ensures State() == Step(old(State()), ContinueTimer)
    {
      showContinue := true;
      continueTimer := false;
    }

    /** Unmounting: the effects' cleanups clear both timers; the cells stay
      as they were. */
    method Unmount()
      requires Valid() && mounted
      modifies this
      ensures Valid()
      ensures initialResult == old(initialResult) && showContinue == old(showContinue)
      ensures !resultTimer && !continueTimer && !mounted
      ensures State() == Step(old(State()), Event.Unmount)
    {
      resultTimer := false;
      continueTimer := false;
      mounted := false;
    }

    /** A click on the continue button: onContinue is called exactly when
      the button is there, and the button is there only once the narrative
      has arrived. */
    method ClickContinue() returns (continueCalled: bool)
      requires Valid()
      ensures continueCalled == showContinue
      ensures continueCalled ==> initialResult == Some(Narrative)
    {
      continueCalled := showContinue;
    }
  }
}
