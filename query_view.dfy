/** The QueryView component, an alternative query screen that App does not
    use. Its submit sets a loading flag and arms a first timer; that timer
    sets an initial result and arms a second one, which calls onShowAnalysis.
    Both callbacks close over the query and the location of the render in
    which the submit happened, so they are modelled as snapshots carried by
    the armed timers. */
module AltQuery {
  import opened Types
  import opened Strings
  import QueryEntry

  /** This view's own hint tags, in display order. */
  const Hints: seq<string> := [
    "Rainfall trend in past month",
    "NDVI analysis",
    "Air quality index",
    "Temperature variations",
    "Soil moisture levels"
  ]

  const Series: seq<ChartPoint> :=
    [ChartPoint("Jan", 400), ChartPoint("Feb", 300), ChartPoint("Mar", 600), ChartPoint("Apr", 800)]

  const Suggestions: seq<string> := ["Implement water conservation", "Monitor air quality", "Plant more trees"]

  /** The query and location a submission's callbacks see. */
  datatype Captured = Captured(query: string, location: Option<Location>)

  /** The initial result; its timestamp is not modelled. */
  datatype InitialSummary = InitialSummary(summary: string)

  /** The argument of onShowAnalysis. */
  datatype ShowAnalysis = ShowAnalysis(
    query: string,
    location: Option<Location>,
    chart: seq<ChartPoint>,
    summary: string,
    suggestions: seq<string>)

  /** This view's gate: only the trimmed query is checked, so exactly the
      queries that are not white space only pass. */
  predicate Accepts(query: string)
    ensures Accepts(query) <==> !AllWhitespace(query)
  {
    TrimEmptyIffAllWhitespace(query);
    Trim(query) != []
  }

  /** The gate is weaker than the query screen's: whatever that screen
      accepts this view accepts, and this view also goes ahead without a
      location. */
  lemma GateIsWeaker(query: string, location: Option<Location>)
    ensures QueryEntry.Accepts(query, location) ==> Accepts(query)
    ensures Accepts(query) && location.None? ==> !QueryEntry.Accepts(query, location)
  {
  }

  class QueryView {
    var location: Option<Location>
    var isMapOpen: bool
    var query: string
    var isLoading: bool
    var initialResult: Option<InitialSummary>
    /** First timers armed by submissions, in the order they fire. */
    var resultTimers: seq<Captured>
    /** Second timers armed by first timers, in the order they fire. */
    var analysisTimers: seq<Captured>
    /** A geolocation request was issued on mount and has not answered yet. */
    ghost var geoPending: bool

    /** The initial result is set before any second timer exists, so
      onShowAnalysis is never called without it; the loading flag is set
      by the first submission and stays set. */
    ghost predicate Valid()
      reads this
    {
      && (|analysisTimers| > 0 ==> initialResult.Some?)
      && (|resultTimers| > 0 || |analysisTimers| > 0 || initialResult.Some? ==> isLoading)
    }

    /** Mounting: every cell empty, no timer armed. */
    constructor (hasGeolocation: bool)
      ensures Valid()
      ensures location == None && !isMapOpen && query == [] && !isLoading && initialResult == None
      ensures resultTimers == [] && analysisTimers == [] && geoPending == hasGeolocation
    {
      location := None;
      isMapOpen := false;
      query := [];
      isLoading := false;
      initialResult := None;
      resultTimers := [];
      analysisTimers := [];
      geoPending := hasGeolocation;
    }

    /** The success callback: the sensed pair becomes the location. */
    method PositionSucceeded(lat: real, lng: real)
      requires Valid() && geoPending
      modifies this
      ensures Valid()
      ensures location == Some(Location(lat, lng)) && !geoPending
      ensures isMapOpen == old(isMapOpen) && query == old(query) && isLoading == old(isLoading)
      ensures initialResult == old(initialResult)
      ensures resultTimers == old(resultTimers) && analysisTimers == old(analysisTimers)
    {
      location := Some(Location(lat, lng));
      geoPending := false;
    }

    /** The error callback only logs: there is no fallback, so the location
      stays as it was (null, as no pick can set it). */
    method PositionFailed()
      requires Valid() && geoPending
      modifies this
      ensures Valid()
      ensures location == old(location) && !geoPending
      ensures isMapOpen == old(isMapOpen) && query == old(query) && isLoading == old(isLoading)
      ensures initialResult == old(initialResult)
      ensures resultTimers == old(resultTimers) && analysisTimers == old(analysisTimers)
    {
      geoPending := false;
    }

    /** handleSubmit: a blank query changes nothing; otherwise loading is
      set and a first timer is armed with the current, untrimmed query and
      the current location, which may be null. */
    method HandleSubmit()
      requires Valid()
      modifies this
      ensures Valid()
      ensures AllWhitespace(old(query)) ==> isLoading == old(isLoading) && resultTimers == old(resultTimers)
      ensures !AllWhitespace(old(query)) ==>
                isLoading && resultTimers == old(resultTimers) + [Captured(old(query), old(location))]
      ensures location == old(location) && isMapOpen == old(isMapOpen) && query == old(query)
      ensures initialResult == old(initialResult) && analysisTimers == old(analysisTimers)
      ensures geoPending == old(geoPending)
    {
      var blank := IsBlank(query);
      if !blank {
        isLoading := true;
        resultTimers := resultTimers + [Captured(query, location)];
      }
    }

    /** The first timer: the initial result is set and the second timer is
      armed with the same snapshot. */
    method ResultTimerFires()
      requires Valid() && |resultTimers| > 0
      modifies this
      ensures Valid()
      ensures initialResult == Some(InitialSummary("Initial analysis of environmental data..."))
      ensures resultTimers == old(resultTimers[1..])
      ensures analysisTimers == old(analysisTimers) + [old(resultTimers[0])]
      ensures location == old(location) && isMapOpen == old(isMapOpen) && query == old(query)
      ensures isLoading == old(isLoading) && geoPending == old(geoPending)
    {
      initialResult := Some(InitialSummary("Initial analysis of environmental data..."));
      analysisTimers := analysisTimers + [resultTimers[0]];
      resultTimers := resultTimers[1..];
    }

    /** The second timer: onShowAnalysis is called with the snapshot's query
      and location and the fixed analysis; by then the initial result is
      set. Nothing resets the loading flag. */
    method AnalysisTimerFires() returns (shown: ShowAnalysis)
      requires Valid() && |analysisTimers| > 0
      modifies this
      ensures Valid()
      ensures old(initialResult).Some? && isLoading
      ensures shown.query == old(analysisTimers[0]).query && shown.location == old(analysisTimers[0]).location
      ensures shown.chart == Series && |shown.suggestions| == 3 && shown.summary != []
      ensures analysisTimers == old(analysisTimers[1..]) && resultTimers == old(resultTimers)
      ensures location == old(location) && isMapOpen == old(isMapOpen) && query == old(query)
      ensures initialResult == old(initialResult) && geoPending == old(geoPending)
    {
      var c := analysisTimers[0];
      shown := ShowAnalysis(c.query, c.location, Series, "Detailed environmental analysis...", Suggestions);
      analysisTimers := analysisTimers[1..];
    }

    /** The input's onChange: the typed text becomes the query. */
    method SetQuery(text: string)
      requires Valid()
      modifies this
      ensures Valid()
      ensures query == text
      ensures location == old(location) && isMapOpen == old(isMapOpen) && isLoading == old(isLoading)
      ensures initialResult == old(initialResult) && geoPending == old(geoPending)
      ensures resultTimers == old(resultTimers) && analysisTimers == old(analysisTimers)
    {
      query := text;
    }

    /** A click on the i-th hint badge: the query becomes that hint. */
    method SelectHint(i: nat)
      requires Valid() && i < |Hints|
      modifies this
      ensures Valid()
      ensures query == Hints[i]
      ensures location == old(location) && isMapOpen == old(isMapOpen) && isLoading == old(isLoading)
      ensures initialResult == old(initialResult) && geoPending == old(geoPending)
      ensures resultTimers == old(resultTimers) && analysisTimers == old(analysisTimers)
    {
      query := Hints[i];
    }

    /** "Change Location" and the modal's onClose toggle the map. The map's
      picker reports no click, so nothing else touches the location. */
    method SetMapOpen(open: bool)
      requires Valid()
      modifies this
      ensures Valid()
      ensures isMapOpen == open
      ensures location == old(location) && query == old(query) && isLoading == old(isLoading)
      ensures initialResult == old(initialResult) && geoPending == old(geoPending)
      ensures resultTimers == old(resultTimers) && analysisTimers == old(analysisTimers)
    {
      isMapOpen := open;
    }
  }

  /** A submission without a location goes through, the position arriving
      afterwards does not reach the callbacks, and onShowAnalysis receives
      the query untrimmed and a null location, after the initial result. */
  method SubmitWithoutLocation() returns (shown: ShowAnalysis, loading: bool, hadInitial: bool)
    ensures shown.query == "  Rainfall  " && shown.location == None
    ensures shown.chart == Series && |shown.suggestions| == 3
    ensures loading && hadInitial
  {
    var view := new QueryView(true);
    view.SetQuery("  Rainfall  ");
    assert !IsWhitespace(view.query[2]);
    view.HandleSubmit();
    view.PositionSucceeded(51.5, -0.1);
    view.ResultTimerFires();
    hadInitial := view.initialResult.Some?;
    shown := view.AnalysisTimerFires();
    loading := view.isLoading;
  }

  /** A blank query starts nothing: no loading, no timer. */
  method BlankSubmitDoesNothing() returns (loading: bool, armed: nat)
    ensures !loading && armed == 0
  {
    var view := new QueryView(false);
    view.SetQuery(" \t ");
    view.HandleSubmit();
    loading := view.isLoading;
    armed := |view.resultTimers|;
  }
}
