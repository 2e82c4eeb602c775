/** The App component: the three-screen workflow controller. Its state is
    the screen identifier and two nullable payloads; its handlers are the
    query submission, the delayed arrival of the analysis, and the continue
    and back actions of the two later screens. */
module Workflow {
  import opened Types

  /** The screen identifiers 'query' | 'initial' | 'analysis'. */
  datatype Screen = Query | Initial | Analysis

  const SampleSeries: seq<ChartPoint> :=
    [ChartPoint("Jan", 400), ChartPoint("Feb", 300), ChartPoint("Mar", 600), ChartPoint("Apr", 800)]

  /** The analysis the submit handler's timer delivers; the same fixed
      payload on every submission. */
  const SampleAnalysis: AnalysisData := AnalysisData(
    SampleSeries,
    "Our analysis shows significant variations in environmental parameters over the past months. "
      + "The data indicates a positive trend in sustainability metrics, with notable improvements "
      + "in air quality and biodiversity indicators.",
    [ "Implement water conservation measures during peak usage hours",
      "Consider expanding green spaces to improve air quality",
      "Monitor and reduce carbon emissions through alternative energy sources" ])

  /** The delivered analysis: the series Jan 400, Feb 300, Mar 600, Apr 800
      in that order, a non-empty summary and exactly three suggestions. */
  lemma SampleAnalysisShape()
    ensures Labels(SampleAnalysis.chart) == ["Jan", "Feb", "Mar", "Apr"]
    ensures Values(SampleAnalysis.chart) == [400, 300, 600, 800]
    ensures SampleAnalysis.summary != []
    ensures |SampleAnalysis.suggestions| == 3
  {
  }

  /** App's state: its three useState cells, plus the number of analysis
      timers that submissions have armed and that have not fired yet. */
  datatype AppState = AppState(
    screen: Screen,
    queryData: Option<QueryData>,
    analysisData: Option<AnalysisData>,
    armed: nat)

  /** The initial state: the query screen, no query, no analysis, no timer. */
  const Start: AppState := AppState(Query, None, None, 0)

  /** The things that can happen to App: a submission from the query screen,
      the firing of one armed analysis timer, and the continue and back
      callbacks of the two later screens. */
  datatype Event = Submit(data: QueryData) | AnalysisArrives | Continue | Back

  /** An event can occur in s: an analysis timer fires only if one is armed. */
  predicate CanOccur(s: AppState, e: Event)
  {
    e.AnalysisArrives? ==> s.armed > 0
  }

  /** The effect of one handler on App's state. No handler moves to 'query';
      only a submission writes the query cell, and only the timer writes the
      analysis cell, always with the delivered analysis. */
  function Step(s: AppState, e: Event): (t: AppState)
    requires CanOccur(s, e)
    ensures t.screen == Query ==> s.screen == Query
    ensures !e.Submit? ==> t.queryData == s.queryData
    ensures !e.AnalysisArrives? ==> t.analysisData == s.analysisData
    ensures t.analysisData == s.analysisData || t.analysisData == Some(SampleAnalysis)
  {
    match e
    case Submit(d) => s.(screen := Initial, queryData := Some(d), armed := s.armed + 1)
    case AnalysisArrives => s.(analysisData := Some(SampleAnalysis), armed := s.armed - 1)
    case Continue => s.(screen := Analysis)
    case Back => s.(screen := Initial)
  }

  /** Each event of es can occur when its turn comes. */
  predicate Admissible(s: AppState, es: seq<Event>)
    decreases |es|
  {
    es == [] || (CanOccur(s, es[0]) && Admissible(Step(s, es[0]), es[1..]))
  }

  /** The state after the events es, in order. */
  function Run(s: AppState, es: seq<Event>): AppState
    requires Admissible(s, es)
    decreases |es|
  {
    if es == [] then s else Run(Step(s, es[0]), es[1..])
  }

  // ---- rendering ------------------------------------------------------------

  /** The three conditions under which App renders each screen. */
  predicate ShowsQuery(s: AppState) { s.screen == Query }
  predicate ShowsInitial(s: AppState) { s.screen == Initial && s.queryData.Some? }
  predicate ShowsAnalysis(s: AppState) { s.screen == Analysis && s.queryData.Some? && s.analysisData.Some? }

  /** A rendered screen with the props App passes it. */
  datatype View =
    | QueryScreenView
    | InitialScreenView(queryData: QueryData)
    | AnalysisScreenView(queryData: QueryData, analysisData: AnalysisData)

  /** The children App renders, in the order of its three conditions: at
      most one, and a rendered analysis screen carries App's own query and
      analysis data. */
  function Views(s: AppState): (r: seq<View>)
    ensures |r| <= 1
    ensures r == [] <==> !ShowsQuery(s) && !ShowsInitial(s) && !ShowsAnalysis(s)
    ensures forall v :: v in r && v.AnalysisScreenView? ==>
              s.queryData == Some(v.queryData) && s.analysisData == Some(v.analysisData)
    ensures forall v :: v in r && v.InitialScreenView? ==> s.queryData == Some(v.queryData)
  {
    (if ShowsQuery(s) then [QueryScreenView] else [])
      + (if ShowsInitial(s) then [InitialScreenView(s.queryData.value)] else [])
      + (if ShowsAnalysis(s) then [AnalysisScreenView(s.queryData.value, s.analysisData.value)] else [])
  }

  /** Which events the rendered screens can raise: only the query screen
      calls onSubmit, only the initial screen calls onContinue and only the
      analysis screen calls onBack; timers fire whenever they are armed. */
  predicate Raisable(s: AppState, e: Event)
    ensures Raisable(s, e) ==> CanOccur(s, e)
    ensures Raisable(s, e) && e.Submit? ==> s.screen == Query
    ensures Raisable(s, e) && (e.Continue? || e.Back?) ==> s.queryData.Some?
  {
    match e
    case Submit(_) => ShowsQuery(s)
    case AnalysisArrives => s.armed > 0
    case Continue => ShowsInitial(s)
    case Back => ShowsAnalysis(s)
  }

  /** Every event of es is raisable when its turn comes. */
  predicate Interactive(s: AppState, es: seq<Event>)
    decreases |es|
  {
    es == [] || (Raisable(s, es[0]) && Interactive(Step(s, es[0]), es[1..]))
  }

  // ---- properties -------------------------------------------------------------

  /** What every reachable state satisfies: leaving the query screen implies
      a query was stored; a timer or an analysis implies a submission; the
      analysis is always the delivered one; and the query screen means
      nothing has happened yet. */
  predicate Inv(s: AppState)
  {
    && (s.screen == Query ==> s == Start)
    && (s.screen != Query ==> s.queryData.Some?)
    && (s.armed > 0 || s.analysisData.Some? ==> s.queryData.Some?)
    && (s.analysisData.Some? ==> s.analysisData.value == SampleAnalysis)
  }

  lemma {:induction false} InteractiveIsAdmissible(s: AppState, es: seq<Event>)
    requires Interactive(s, es)
    ensures Admissible(s, es)
    decreases |es|
  {
    if es != [] {
      InteractiveIsAdmissible(Step(s, es[0]), es[1..]);
    }
  }

  /** The invariant holds after every sequence of events the screens can
      raise. (It needs the screens: an onContinue raised on the query
      screen would leave 'query' with no query stored.) */
  lemma {:induction false} InvAlways(s: AppState, es: seq<Event>)
    requires Inv(s) && Interactive(s, es)
    ensures Admissible(s, es) && Inv(Run(s, es))
    decreases |es|
  {
    InteractiveIsAdmissible(s, es);
    if es != [] {
      InvAlways(Step(s, es[0]), es[1..]);
    }
  }

  /** Off the query screen the invariant survives every event that can
      occur, the screens' assignment of events aside: a leaving query screen
      that still calls onSubmit during its exit animation stores the new
      query and arms one more timer, and the invariant holds throughout. */
  lemma {:induction false} InvOffQuery(s: AppState, es: seq<Event>)
    requires Inv(s) && s.screen != Query && Admissible(s, es)
    ensures Inv(Run(s, es)) && Run(s, es).screen != Query
    decreases |es|
  {
    if es != [] {
      InvOffQuery(Step(s, es[0]), es[1..]);
    }
  }

  /** In every state the screens can lead to, a screen other than 'query'
      has its query data. */
  lemma ReachableHasQuery(es: seq<Event>)
    requires Interactive(Start, es)
    ensures Admissible(Start, es)
    ensures Run(Start, es).screen != Query ==> Run(Start, es).queryData.Some?
    ensures Run(Start, es).analysisData.Some? ==> Run(Start, es).analysisData == Some(SampleAnalysis)
  {
    InvAlways(Start, es);
  }

  /** setCurrentScreen is only ever called with 'initial' or 'analysis', so
      once the workflow has left the query screen it never comes back. */
  lemma {:induction false} NeverReturnsToQuery(s: AppState, es: seq<Event>)
    requires s.screen != Query && Admissible(s, es)
    ensures Run(s, es).screen != Query
    decreases |es|
  {
    if es != [] {
      NeverReturnsToQuery(Step(s, es[0]), es[1..]);
    }
  }

  /** Once the query screen is left, the UI raises no further submission. */
  lemma {:induction false} NoSubmitAfterQuery(s: AppState, es: seq<Event>)
    requires s.screen != Query && Interactive(s, es)
    ensures forall i :: 0 <= i < |es| ==> !es[i].Submit?
    decreases |es|
  {
    if es != [] {
      NoSubmitAfterQuery(Step(s, es[0]), es[1..]);
      assert forall i :: 1 <= i < |es| ==> es[i] == es[1..][i - 1];
    }
  }

  /** Driven by its screens, App moves from 'query' to 'initial' exactly
      once: there is at most one submission, and it is the first event. */
  lemma {:induction false} AtMostOneSubmit(es: seq<Event>)
    requires Interactive(Start, es)
    ensures forall i :: 0 < i < |es| ==> !es[i].Submit?
    ensures es != [] ==> es[0].Submit?
  {
    if es != [] {
      NoSubmitAfterQuery(Step(Start, es[0]), es[1..]);
      assert forall i :: 1 <= i < |es| ==> es[i] == es[1..][i - 1];
    }
  }

  /** Back keeps both payloads, and back followed by continue returns to
      exactly the analysis state it left, with the same analysis data. */
  lemma BackThenContinue(s: AppState)
    requires ShowsAnalysis(s)
    ensures Step(s, Back).queryData == s.queryData && Step(s, Back).analysisData == s.analysisData
    ensures Raisable(Step(s, Back), Continue)
    ensures Step(Step(s, Back), Continue) == s
    ensures Views(Step(Step(s, Back), Continue)) == [AnalysisScreenView(s.queryData.value, s.analysisData.value)]
  {
  }

  /** Continue is not gated on the analysis: continuing before the
      analysis timer has fired renders no screen at all, and the analysis
      screen appears by itself once the timer fires. */
  lemma EarlyContinueRendersNothing(d: QueryData)
    ensures Interactive(Start, [Submit(d), Continue, AnalysisArrives])
    ensures Admissible(Start, [Submit(d), Continue]) && Admissible(Start, [Submit(d), Continue, AnalysisArrives])
    ensures Views(Run(Start, [Submit(d), Continue])) == []
    ensures Views(Run(Start, [Submit(d), Continue, AnalysisArrives])) == [AnalysisScreenView(d, SampleAnalysis)]
  {
    var s1 := Step(Start, Submit(d));
    var s2 := Step(s1, Continue);
    var s3 := Step(s2, AnalysisArrives);
    assert s2 == AppState(Analysis, Some(d), None, 1);
    assert s3 == AppState(Analysis, Some(d), Some(SampleAnalysis), 0);
    assert [Submit(d), Continue, AnalysisArrives][1..] == [Continue, AnalysisArrives];
    assert [Continue, AnalysisArrives][1..] == [AnalysisArrives];
    assert [AnalysisArrives][1..] == [];
    assert [Submit(d), Continue][1..] == [Continue];
    assert [Continue][1..] == [];
    assert Interactive(s3, []);
    assert Interactive(s2, [AnalysisArrives]);
    assert Interactive(s1, [Continue, AnalysisArrives]);
    assert Admissible(s1, [Continue]);
    assert Admissible(s1, [Continue, AnalysisArrives]);
    assert Run(s2, []) == s2;
    assert Run(s1, [Continue]) == s2;
    assert Run(s3, []) == s3;
    assert Run(s2, [AnalysisArrives]) == s3;
    assert Run(s1, [Continue, AnalysisArrives]) == s3;
  }

  // ---- the component ----------------------------------------------------------

  /** App: its useState cells are the fields; `armed` tracks the analysis
      timers set by submissions that have not fired yet. */
  class App {
    var currentScreen: Screen
    var queryData: Option<QueryData>
    var analysisData: Option<AnalysisData>
    ghost var armed: nat

    ghost function State(): AppState
      reads this
    {
      AppState(currentScreen, queryData, analysisData, armed)
    }

    /** useState('query'), useState(null), useState(null). */
    constructor ()
      ensures State() == Start
      ensures Inv(State())
    {
      currentScreen := Query;
      queryData := None;
      analysisData := None;
      armed := 0;
    }

    /** handleQuerySubmit: store the query, show the initial screen and arm
      the analysis timer; the analysis cell is left as it was. */
    method HandleQuerySubmit(data: QueryData)
      modifies this
      ensures queryData == Some(data) && currentScreen == Initial
      ensures analysisData == old(analysisData) && armed == old(armed) + 1
      ensures State() == Step(old(State()), Submit(data))
    {
      queryData := Some(data);
      currentScreen := Initial;
      armed := armed + 1;
    }

    /** The analysis timer's callback: sets the analysis; the screen does
      not change. */
    method AnalysisTimerFires()
      requires armed > 0
      modifies this
      ensures analysisData == Some(SampleAnalysis)
      ensures currentScreen == old(currentScreen) && queryData == old(queryData)
      ensures armed == old(armed) - 1
      ensures State() == Step(old(State()), AnalysisArrives)
    {
      analysisData := Some(SampleAnalysis);
      armed := armed - 1;
    }

    /** The onContinue callback: switches to 'analysis' whether or not the
      analysis has arrived. */
    method OnContinue()
      modifies this
      ensures currentScreen == Analysis
      ensures queryData == old(queryData) && analysisData == old(analysisData) && armed == old(armed)
      ensures State() == Step(old(State()), Continue)
    {
      currentScreen := Analysis;
    }

    /** The onBack callback: switches to 'initial' and discards nothing. */
    method OnBack()
      modifies this
      ensures currentScreen == Initial
      ensures queryData == old(queryData) && analysisData == old(analysisData) && armed == old(armed)
      ensures State() == Step(old(State()), Back)
    {
      currentScreen := Initial;
    }
  }
}
