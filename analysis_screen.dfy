/** The AnalysisScreen component: one cell, the active tab, which decides
    which tab button is highlighted and which of the three content panels
    renders. */
module Analysis {
  import opened Types

  /** The tab identifiers 'charts' | 'summary' | 'suggestions'. */
  datatype Tab = Charts | Summary | Suggestions

  /** One entry of the tab bar: its identifier and its caption. */
  datatype TabButton = TabButton(id: Tab, caption: string)

  /** The tab bar, in display order. */
  const TabBar: seq<TabButton> :=
    [TabButton(Charts, "Charts"), TabButton(Summary, "Summary"), TabButton(Suggestions, "Suggestions")]

  /** The tab a fresh screen starts on. */
  const DefaultTab: Tab := Charts

  /** The position of a tab in the bar. */
  function TabIndex(t: Tab): (i: nat)
    ensures i < |TabBar| && TabBar[i].id == t
    ensures forall j :: 0 <= j < |TabBar| && TabBar[j].id == t ==> j == i
  {
    match t
    case Charts => 0
    case Summary => 1
    case Suggestions => 2
  }

  /** The bar lists charts, summary and suggestions in that order, each
      tab exactly once. */
  lemma TabBarOrder()
    ensures |TabBar| == 3
    ensures TabBar[0].id == Charts && TabBar[1].id == Summary && TabBar[2].id == Suggestions
    ensures forall i, j :: 0 <= i < j < |TabBar| ==> TabBar[i].id != TabBar[j].id
  {
  }

  /** Whether each button of the bar is highlighted: the one whose id is
      the active tab. */
  function Highlights(active: Tab): (r: seq<bool>)
    ensures |r| == |TabBar|
    ensures forall i :: 0 <= i < |r| ==> (r[i] <==> i == TabIndex(active))
  {
    seq(|TabBar|, i requires 0 <= i < |TabBar| => TabBar[i].id == active)
  }

  /** The number of true entries of bs. */
  function CountTrue(bs: seq<bool>): nat
  {
    if bs == [] then 0 else (if bs[0] then 1 else 0) + CountTrue(bs[1..])
  }

  /** Exactly one tab button is highlighted. */
  lemma {:induction false} ExactlyOneHighlighted(active: Tab)
    ensures CountTrue(Highlights(active)) == 1
  {
    var h := Highlights(active);
    assert h[1..][1..][1..] == [];
    assert CountTrue(h[1..][1..]) == if h[2] then 1 else 0;
    assert CountTrue(h[1..]) == (if h[1] then 1 else 0) + (if h[2] then 1 else 0);
  }

  /** A suggestion with the number shown beside it. */
  datatype NumberedSuggestion = NumberedSuggestion(number: nat, text: string)

  /** items numbered consecutively from first, in their given order. */
  function Numbered(items: seq<string>, first: nat): (r: seq<NumberedSuggestion>)
    ensures |r| == |items|
    ensures forall i :: 0 <= i < |items| ==> r[i] == NumberedSuggestion(first + i, items[i])
    decreases |items|
  {
    if items == [] then [] else [NumberedSuggestion(first, items[0])] + Numbered(items[1..], first + 1)
  }

  /** A rendered content panel. */
  datatype Panel =
    | ChartPanel(series: seq<ChartPoint>)
    | SummaryPanel(text: string)
    | SuggestionsPanel(items: seq<NumberedSuggestion>)

  /** The tab a panel belongs to. */
  function PanelTab(p: Panel): Tab
  {
    match p
    case ChartPanel(_) => Charts
    case SummaryPanel(_) => Summary
    case SuggestionsPanel(_) => Suggestions
  }

  /** The content area: the three conditions on the active tab. Exactly one
      panel renders, the active tab's, showing the analysis' own series,
      its summary, or its suggestions in order numbered 1 to n. */
  function Panels(active: Tab, a: AnalysisData): (r: seq<Panel>)
    ensures |r| == 1 && PanelTab(r[0]) == active
    ensures r[0].ChartPanel? ==> r[0].series == a.chart
    ensures r[0].SummaryPanel? ==> r[0].text == a.summary
    ensures r[0].SuggestionsPanel? ==>
              && |r[0].items| == |a.suggestions|
              && forall i :: 0 <= i < |a.suggestions| ==>
                   r[0].items[i] == NumberedSuggestion(i + 1, a.suggestions[i])
  {
    (if active == Charts then [ChartPanel(a.chart)] else [])
      + (if active == Summary then [SummaryPanel(a.summary)] else [])
      + (if active == Suggestions then [SuggestionsPanel(Numbered(a.suggestions, 1))] else [])
  }

  class AnalysisScreen {
    const queryData: QueryData
    const analysisData: AnalysisData
    var activeTab: Tab

    /** Every mount starts on the charts tab. */
    constructor (queryData: QueryData, analysisData: AnalysisData)
      ensures this.queryData == queryData && this.analysisData == analysisData
      ensures activeTab == DefaultTab
    {
      this.queryData := queryData;
      this.analysisData := analysisData;
      activeTab := DefaultTab;
    }

    /** A click on a tab button: that tab becomes active, whatever was
      active before, so selecting a tab twice is selecting it once. */
    method SetActiveTab(t: Tab)
      modifies this
      ensures activeTab == t
    {
      activeTab := t;
    }
  }

  /** Whatever tab was active before, selecting a tab twice leaves the
      screen as selecting it once, and both show the same panel. */
  method SelectTwiceIsOnce(q: QueryData, a: AnalysisData, prior: Tab, t: Tab)
    returns (once: Tab, twice: Tab)
    ensures once == twice == t
    ensures Panels(once, a) == Panels(twice, a)
  {
    var s1 := new AnalysisScreen(q, a);
    s1.SetActiveTab(prior);
    s1.SetActiveTab(t);
    once := s1.activeTab;
    var s2 := new AnalysisScreen(q, a);
    s2.SetActiveTab(prior);
    s2.SetActiveTab(t);
    s2.SetActiveTab(t);
    twice := s2.activeTab;
  }
}
