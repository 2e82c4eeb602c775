/** The QueryScreen component: the query text, the location and the map
    modal's visibility, the submission gate, and the location sources (the
    geolocation callbacks and a pick on the map). */
module QueryEntry {
  import opened Types
  import opened Strings

  /** The five hint tags, in display order. */
  const Hints: seq<string> := [
    "Rainfall trend in past month",
    "NDVI analysis for vegetation",
    "Air quality index trends",
    "Temperature variations",
    "Soil moisture levels"
  ]

  /** The location set when geolocation reports an error. */
  const Fallback: Location := Location(51.505, -0.09)

  /** handleSubmit's gate: it goes on only when the trimmed query is a
      non-empty (truthy) string and a location is set. So it rejects a query
      exactly when it is empty or white space only, and otherwise exactly
      when there is no location. */
  predicate Accepts(query: string, location: Option<Location>)
    ensures Accepts(query, location) <==> !AllWhitespace(query) && location.Some?
  {
    TrimEmptyIffAllWhitespace(query);
    Trim(query) != [] && location.Some?
  }

  class QueryScreen {
    var location: Option<Location>
    var isMapOpen: bool
    var query: string
    /** A geolocation request was issued on mount and has not answered yet. */
    ghost var geoPending: bool

    /** Mounting: no location, map closed, empty query; the effect asks for
      the position only where a geolocation API exists. */
    constructor (hasGeolocation: bool)
      ensures location == None && !isMapOpen && query == []
      ensures geoPending == hasGeolocation
    {
      location := None;
      isMapOpen := false;
      query := [];
      geoPending := hasGeolocation;
    }

    /** The success callback: the sensed pair becomes the location. */
    method PositionSucceeded(lat: real, lng: real)
      requires geoPending
      modifies this
      ensures location == Some(Location(lat, lng)) && !geoPending
      ensures isMapOpen == old(isMapOpen) && query == old(query)
    {
      location := Some(Location(lat, lng));
      geoPending := false;
    }

    /** The error callback: the fallback becomes the location. */
    method PositionFailed()
      requires geoPending
      modifies this
      ensures location == Some(Fallback) && !geoPending
      ensures isMapOpen == old(isMapOpen) && query == old(query)
    {
      location := Some(Fallback);
      geoPending := false;
    }

    /** handleSubmit: the QueryData it passes to onSubmit, or None when it
      returns without calling it. It changes none of the screen's cells. */
    method HandleSubmit() returns (submitted: Option<QueryData>)
      ensures submitted.Some? <==> !AllWhitespace(query) && location.Some?
      ensures submitted.Some? ==> submitted.value.query == Trim(query) && submitted.value.location == location.value
      ensures submitted.Some? ==> submitted.value.query != [] && IsTrimmed(submitted.value.query)
    {
      TrimEmptyIffAllWhitespace(query);
      if Trim(query) == [] || location.None? {
        submitted := None;
      } else {
        submitted := Some(QueryData(Trim(query), location.value));
      }
    }

    /** The input's onChange: the typed text becomes the query. */
    method SetQuery(text: string)
      modifies this
      ensures query == text
      ensures location == old(location) && isMapOpen == old(isMapOpen) && geoPending == old(geoPending)
    {
      query := text;
    }

    /** A click on the i-th hint tag: the query becomes exactly that hint. */
    method SelectHint(i: nat)
      requires i < |Hints|
      modifies this
      ensures query == Hints[i] && query in Hints
      ensures location == old(location) && isMapOpen == old(isMapOpen) && geoPending == old(geoPending)
    {
      query := Hints[i];
    }

    /** "Change Location": opens the map. */
    method OpenMap()
      modifies this
      ensures isMapOpen
      ensures location == old(location) && query == old(query) && geoPending == old(geoPending)
    {
      isMapOpen := true;
    }

    /** "Close": closes the map. */
    method CloseMap()
      modifies this
      ensures !isMapOpen
      ensures location == old(location) && query == old(query) && geoPending == old(geoPending)
    {
      isMapOpen := false;
    }

    /** A click on the map: the picked pair replaces the location and the
      map closes; the query is untouched. */
    method PickLocation(lat: real, lng: real)
      modifies this
      ensures location == Some(Location(lat, lng)) && !isMapOpen
      ensures query == old(query) && geoPending == old(geoPending)
    {
      location := Some(Location(lat, lng));
      isMapOpen := false;
    }
  }

  /** A whitespace-only query is never submitted, whatever the location. */
  lemma BlankQueryNeverSubmits(query: string, location: Option<Location>)
    requires AllWhitespace(query)
    ensures !Accepts(query, location)
  {
    TrimEmptyIffAllWhitespace(query);
  }

  /** Without a location nothing is submitted, whatever the query. */
  lemma NoLocationNeverSubmits(query: string)
    ensures !Accepts(query, None)
  {
  }

  /** Sensing fails, the user clicks the first hint and submits: the
      submission goes ahead with the hint and the fallback location. */
  method SensingFailureUsesFallback() returns (submitted: Option<QueryData>)
    ensures submitted == Some(QueryData("Rainfall trend in past month", Fallback))
  {
    var screen := new QueryScreen(true);
    screen.PositionFailed();
    screen.SelectHint(0);
    TrimOfTrimmed(Hints[0]);
    submitted := screen.HandleSubmit();
  }
}
