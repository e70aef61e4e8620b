/** The dashboard's selection state: up to five country selectors, the AI
    toggle and the year range; the request it sends for the non-empty
    selectors; and the client-side year filter that re-indexes each series of
    a received chart to the filtered axis. */
module DashboardState {
  import opened ChartTypes

  /** The most country selectors the dashboard shows. */
  const MaxSlots: nat := 5

  /** The range end the AI toggle sets. */
  const AiYearEnd: int := 2023

  /** The initial range, before the year directory arrives. */
  const InitialYearStart: int := 1923
  const InitialYearEnd: int := 2023

  /** A country selector: None is the empty choice '', Some(id) a country. */
  type Slot = Option<int>

  /** The ids of the non-empty selectors, in selector order. */
  function SelectedIds(slots: seq<Slot>): seq<int>
  {
    if slots == [] then []
    else
      var last := slots[|slots| - 1];
      SelectedIds(slots[..|slots| - 1]) + (if last.Some? then [last.value] else [])
  }

  /** The sent ids are the non-empty selections, in selector order and with
      repeats kept, as JavaScript's `filter` keeps them. */
  lemma {:induction false} SelectedIdsMeaning(slots: seq<Slot>)
    ensures var ids := SelectedIds(slots);
      && |ids| <= |slots|
      && (forall id :: id in ids <==> Some(id) in slots)
      && (ids == [] <==> forall k :: 0 <= k < |slots| ==> slots[k] == None)
      && Map(ids, (id: int) => Some(id)) == Filter(slots, (s: Slot) => s.Some?)
  {
    if slots != [] {
      var init := slots[..|slots| - 1];
      var last := slots[|slots| - 1];
      SelectedIdsMeaning(init);
      assert slots == init + [last];
      var pre := SelectedIds(init);
      var tail: seq<int> := if last.Some? then [last.value] else [];
      assert Map(pre + tail, (id: int) => Some(id)) == Map(pre, (id: int) => Some(id)) + Map(tail, (id: int) => Some(id));
      if SelectedIds(slots) == [] {
        forall k | 0 <= k < |slots|
          ensures slots[k] == None
        {
          if k < |slots| - 1 {
            assert init[k] == slots[k];
          }
        }
      }
    }
  }

  /** `Math.max(...yearList)` */
  function MaxYear(ys: seq<int>): (m: int)
    requires ys != []
    ensures m in ys && forall y :: y in ys ==> y <= m
  {
    if |ys| == 1 then ys[0]
    else
      var rest := MaxYear(ys[1..]);
      assert ys == [ys[0]] + ys[1..];
      if ys[0] >= rest then ys[0] else rest
  }

  /** `Math.min(...yearList)` */
  function MinYear(ys: seq<int>): (m: int)
    requires ys != []
    ensures m in ys && forall y :: y in ys ==> m <= y
  {
    if |ys| == 1 then ys[0]
    else
      var rest := MinYear(ys[1..]);
      assert ys == [ys[0]] + ys[1..];
      if ys[0] <= rest then ys[0] else rest
  }

  /** `chartData.years.filter(year => year >= yearStart && year <= yearEnd)` */
  function ShownYears(years: seq<int>, yearStart: int, yearEnd: int): seq<int>
  {
    Filter(years, (y: int) => yearStart <= y <= yearEnd)
  }

  /** JavaScript's `indexOf`: the first position, or -1. */
  function JsIndexOf(s: seq<int>, x: int): int
  {
    if x in s then IndexOf(s, x) else -1
  }

  /** `yearIndices.map(index => series.data[index])`; an index outside the data
      reads `undefined`, shown as a gap. */
  function Reindexed(data: seq<Cell>, years: seq<int>, shown: seq<int>): seq<Cell>
  {
    seq(|shown|, k requires 0 <= k < |shown| =>
      var j := JsIndexOf(years, shown[k]);
      if 0 <= j < |data| then data[j] else Null)
  }

  /** The axis and series the chart draws: everything in AI mode, the
      filtered axis with re-indexed series otherwise. */
  function ChartView(chart: ChartData, ai: bool, yearStart: int, yearEnd: int): (seq<int>, seq<Series>)
  {
    if ai then (chart.years, chart.series)
    else
      var shown := ShownYears(chart.years, yearStart, yearEnd);
      (shown, Map(chart.series, (s: Series) => Series(s.name, Reindexed(s.data, chart.years, shown))))
  }

  /** In normal mode the axis keeps exactly the in-range years, in their
      order; each series keeps its name and, when it was aligned to a strictly
      ascending axis, shows at each shown year the value it had for that year.
      In AI mode nothing is filtered. */
  lemma ViewMeaning(chart: ChartData, ai: bool, yearStart: int, yearEnd: int)
    ensures var v := ChartView(chart, ai, yearStart, yearEnd);
      && (ai ==> v == (chart.years, chart.series))
      && (!ai ==>
        && IsSubsequence(v.0, chart.years)
        && (forall y :: y in v.0 <==> y in chart.years && yearStart <= y <= yearEnd)
        && |v.1| == |chart.series|
        && (forall i :: 0 <= i < |v.1| ==>
              v.1[i].name == chart.series[i].name && |v.1[i].data| == |v.0|)
        && (StrictlyAscending(chart.years) ==>
              forall i, k, j ::
                (0 <= i < |v.1| && 0 <= k < |v.0| && 0 <= j < |chart.years| &&
                 |chart.series[i].data| == |chart.years| && chart.years[j] == v.0[k]) ==>
                  v.1[i].data[k] == chart.series[i].data[j]))
  {
    if !ai {
      var shown := ShownYears(chart.years, yearStart, yearEnd);
      FilterIsSubsequence(chart.years, (y: int) => yearStart <= y <= yearEnd);
      forall y
        ensures y in shown <==> y in chart.years && yearStart <= y <= yearEnd
      {
        FilterMember(chart.years, (x: int) => yearStart <= x <= yearEnd, y);
      }
      if StrictlyAscending(chart.years) {
        forall i, k, j | 0 <= i < |chart.series| && 0 <= k < |shown| && 0 <= j < |chart.years| &&
                         |chart.series[i].data| == |chart.years| && chart.years[j] == shown[k]
          ensures Reindexed(chart.series[i].data, chart.years, shown)[k] == chart.series[i].data[j]
        {
          assert chart.years[j] in chart.years;
          var first := IndexOf(chart.years, shown[k]);
          assert first == j;
        }
      }
    }
  }

  /** The dashboard component's state cells that the chart depends on. */
  class Dashboard {
    var selectedCountries: seq<Slot>
    var yearStart: int
    var yearEnd: int
    var aiPrediction: bool
    var showDensity: bool
    /** The year directory, as plain years. */
    var years: seq<int>
    var chartData: Option<ChartData>

    /** Between one and five selectors. */
    ghost predicate Valid()
      reads this
    {
      1 <= |selectedCountries| <= MaxSlots
    }

    /** The initial `useState` values. */
    constructor ()
      ensures Valid()
      ensures selectedCountries == [None]
      ensures yearStart == InitialYearStart && yearEnd == InitialYearEnd
      ensures !aiPrediction && !showDensity
      ensures years == [] && chartData == None
    {
      selectedCountries := [None];
      yearStart, yearEnd := InitialYearStart, InitialYearEnd;
      aiPrediction, showDensity := false, false;
      years := [];
      chartData := None;
    }

    /** The year directory arriving: it sets the range to its first and last year. */
    method LoadYears(yearList: seq<int>)
      requires yearList != []
      modifies this`years, this`yearStart, this`yearEnd
      ensures years == yearList
      ensures yearStart == MinYear(yearList) && yearEnd == MaxYear(yearList)
    {
      years := yearList;
      yearStart := MinYear(yearList);
      yearEnd := MaxYear(yearList);
    }

    /** One more empty selector, unless there are five already or AI mode is on. */
    method AddCountry()
      requires Valid()
      modifies this`selectedCountries
      ensures Valid()
      ensures selectedCountries ==
        if |old(selectedCountries)| < MaxSlots && !aiPrediction then old(selectedCountries) + [None]
        else old(selectedCountries)
    {
      if |selectedCountries| < MaxSlots && !aiPrediction {
        selectedCountries := selectedCountries + [None];
      }
    }

    /** Drop the last selector, unless it is the only one. */
    method RemoveCountry()
      requires Valid()
      modifies this`selectedCountries
      ensures Valid()
      ensures selectedCountries ==
        if |old(selectedCountries)| > 1 then old(selectedCountries)[..|old(selectedCountries)| - 1]
        else old(selectedCountries)
    {
      if |selectedCountries| > 1 {
        var newCountries := selectedCountries;
        newCountries := newCountries[..|newCountries| - 1];
        selectedCountries := newCountries;
      }
    }

    /** Set one selector; the others and the number of selectors stay. */
    method UpdateCountry(index: nat, value: Slot)
      requires Valid()
      requires index < |selectedCountries|
      modifies this`selectedCountries
      ensures Valid()
      ensures |selectedCountries| == |old(selectedCountries)|
      ensures selectedCountries[index] == value
      ensures forall k :: 0 <= k < |selectedCountries| && k != index ==>
        selectedCountries[k] == old(selectedCountries)[k]
    {
      var newCountries := selectedCountries;
      newCountries := newCountries[index := value];
      selectedCountries := newCountries;
    }

    /** Flip AI mode: turning it on sets the range end to 2023, turning it off
        puts back the last year of the directory (when the directory is known). */
    method ToggleAiPrediction()
      requires Valid()
      modifies this`aiPrediction, this`yearEnd
      ensures Valid()
      ensures aiPrediction == !old(aiPrediction)
      ensures aiPrediction ==> yearEnd == AiYearEnd
      ensures !aiPrediction && years != [] ==> yearEnd == MaxYear(years)
      ensures !aiPrediction && years == [] ==> yearEnd == old(yearEnd)
    {
      var newAiPrediction := !aiPrediction;
      aiPrediction := newAiPrediction;
      if newAiPrediction {
        yearEnd := AiYearEnd;
      } else if |years| > 0 {
        yearEnd := MaxYear(years);
      }
    }

    /** The first half of `generateChart`: with no non-empty selector the chart
        is cleared and nothing is sent; otherwise the request carries the
        non-empty ids, in selector order, and the current settings. */
    method RequestChart() returns (request: Option<ChartRequest>)
      modifies this`chartData
      ensures SelectedIds(selectedCountries) == [] ==> request == None && chartData == None
      ensures SelectedIds(selectedCountries) != [] ==>
        chartData == old(chartData) &&
        request == Some(ChartRequest(SelectedIds(selectedCountries), yearStart, yearEnd, aiPrediction, showDensity))
      ensures request.Some? ==> request.value.countryIds != []
    {
      var validCountryIds := SelectedIds(selectedCountries);
      if validCountryIds == [] {
        chartData := None;
        return None;
      }
      request := Some(ChartRequest(validCountryIds, yearStart, yearEnd, aiPrediction, showDensity));
    }

    /** The second half of `generateChart`: the reply replaces the chart, an
        error clears it. */
    method ReceiveChart(response: Result<ChartData, Error>)
      modifies this`chartData
      ensures chartData == if response.Ok? then Some(response.value) else None
    {
      if response.Ok? {
        chartData := Some(response.value);
      } else {
        chartData := None;
      }
    }

    /** What `getChartOptions` draws: nothing without a chart, else its view. */
    function ChartOptions(): (view: Option<(seq<int>, seq<Series>)>)
      reads this
      ensures view.None? <==> chartData.None?
      ensures view.Some? ==> view.value == ChartView(chartData.value, aiPrediction, yearStart, yearEnd)
    {
      if chartData.None? then None else Some(ChartView(chartData.value, aiPrediction, yearStart, yearEnd))
    }
  }
}
