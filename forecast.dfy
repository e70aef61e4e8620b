/** Forecast mode of the chart endpoint for one country: its non-null
    observations in year order, training data from 1990 on, the forecasting
    model as an opaque predictor, and the merge of observed and predicted
    values over the union of their years, observation first. */
module Forecast {
  import opened ChartTypes
  import opened YearAxis

  /** A (year, value) pair: an observation or a prediction. */
  datatype Point = Point(year: int, value: real)

  /** The forecasting model, fitted on the training points and asked for its
      predictions (over the fitted years and the horizon after them); None
      when fitting or predicting raises. */
  type Predictor = seq<Point> -> Option<seq<Point>>

  /** The first year the model is trained on. */
  const TrainingCutoff: int := 1990

  /** Appended to the country's name in the single series of forecast mode. */
  const Qualifier: string := " (osservato + previsto)"

  function DigitChar(d: int): char
    requires 0 <= d < 10
  {
    "0123456789"[d]
  }

  /** Decimal digits of a natural number. */
  function NatToString(n: nat): string
    decreases n
  {
    if n < 10 then [DigitChar(n)] else NatToString(n / 10) + [DigitChar(n % 10)]
  }

  /** Python's `str` of an integer. */
  function IntToString(n: int): string
  {
    if n < 0 then "-" + NatToString(-n) else NatToString(n)
  }

  /** The country's name, or "Paese <id>" when the country table has no such id. */
  function CountryName(names: map<int, string>, id: int): string
  {
    if id in names then names[id] else "Paese " + IntToString(id)
  }

  predicate YearOrdered(s: seq<Record>)
  {
    forall i, j :: 0 <= i < j < |s| ==> s[i].year <= s[j].year
  }

  /** `e` placed after every element of `s` whose year is not later than its own. */
  function InsertByYear(e: Record, s: seq<Record>): (r: seq<Record>)
    requires YearOrdered(s)
    ensures YearOrdered(r)
    ensures multiset(r) == multiset(s) + multiset{e}
  {
    if s == [] then [e]
    else if e.year < s[0].year then [e] + s
    else
      var rest := InsertByYear(e, s[1..]);
      assert s == [s[0]] + s[1..];
      forall x | x in rest
        ensures s[0].year <= x.year
      {
        assert x in multiset(rest);
        if x != e {
          assert x in multiset(s[1..]);
          var k :| 0 <= k < |s[1..]| && s[1..][k] == x;
          assert s[k + 1] == x;
        }
      }
      PrependOrdered(s[0], rest);
      [s[0]] + rest
  }

  /** Putting a record no later than any of `t` in front keeps year order. */
  lemma PrependOrdered(h: Record, t: seq<Record>)
    requires YearOrdered(t)
    requires forall x :: x in t ==> h.year <= x.year
    ensures YearOrdered([h] + t)
  {
  }

  /** The query's `order_by(Year.year)`, stable on records of the same year. */
  function ByYear(s: seq<Record>): (r: seq<Record>)
    ensures YearOrdered(r)
    ensures multiset(r) == multiset(s)
  {
    if s == [] then []
    else
      assert s == s[..|s| - 1] + [s[|s| - 1]];
      InsertByYear(s[|s| - 1], ByYear(s[..|s| - 1]))
  }

  /** `[{"ds": year, "y": co2} for e in emissions if e.co2 is not None]` */
  function Observations(s: seq<Record>): seq<Point>
  {
    if s == [] then []
    else
      var last := s[|s| - 1];
      Observations(s[..|s| - 1]) + (if last.co2.Some? then [Point(last.year, last.co2.value)] else [])
  }

  /** The country's observed history: its non-null records, in year order. */
  function History(store: seq<Record>, id: int): seq<Point>
  {
    Observations(ByYear(Filter(store, (e: Record) => e.countryId == id)))
  }

  /** `df_full[df_full['ds'].dt.year >= 1990]` */
  function Training(history: seq<Point>): seq<Point>
  {
    Filter(history, (p: Point) => p.year >= TrainingCutoff)
  }

  function Years(ps: seq<Point>): seq<int>
  {
    Map(ps, (p: Point) => p.year)
  }

  function Values(ps: seq<Point>): seq<real>
  {
    Map(ps, (p: Point) => p.value)
  }

  /** The value shown for one year of the merged axis: the first observation
      of that year, else the first prediction of that year, else None. */
  function Pick(hy: seq<int>, hv: seq<real>, fy: seq<int>, fv: seq<real>, y: int): Cell
    requires |hy| == |hv| && |fy| == |fv|
  {
    if y in hy then Num(hv[IndexOf(hy, y)])
    else if y in fy then Num(fv[IndexOf(fy, y)])
    else Null
  }

  /** What forecast mode returns for one country. */
  function Outcome(store: seq<Record>, names: map<int, string>, id: int, predictor: Predictor)
    : Result<ChartData, Error>
  {
    var name := CountryName(names, id);
    var history := History(store, id);
    if history == [] then Err(NoHistory(name))
    else
      match predictor(Training(history))
      case None => Err(ForecastFailed)
      case Some(forecast) => Ok(Merged(name, history, forecast))
  }

  /** The payload built from the history and the forecast: the sorted union
      of their years and one qualified series picking a value per year. */
  function Merged(name: string, history: seq<Point>, forecast: seq<Point>): ChartData
  {
    var hy, hv, fy, fv := Years(history), Values(history), Years(forecast), Values(forecast);
    var axis := SortedUnique(hy + fy);
    var data := seq(|axis|, k requires 0 <= k < |axis| => Pick(hy, hv, fy, fv, axis[k]));
    ChartData([name], axis, [Series(name + Qualifier, data)])
  }

  // ---------------------------------------------------------------------------
  // The imperative code, proved against the functions above.

  /** The loops that split points into a year list and a value list. */
  method Unzip(ps: seq<Point>) returns (years: seq<int>, values: seq<real>)
    ensures years == Years(ps) && values == Values(ps)
  {
    years, values := [], [];
    for i := 0 to |ps|
      invariant years == Years(ps[..i]) && values == Values(ps[..i])
    {
      years := years + [ps[i].year];
      values := values + [ps[i].value];
    }
    assert ps[..|ps|] == ps;
  }

  /** The loop over the merged axis that picks observation over prediction. */
  method Merge(hy: seq<int>, hv: seq<real>, fy: seq<int>, fv: seq<real>, axis: seq<int>)
    returns (combined: seq<Cell>)
    requires |hy| == |hv| && |fy| == |fv|
    ensures |combined| == |axis|
    ensures forall k :: 0 <= k < |axis| ==> combined[k] == Pick(hy, hv, fy, fv, axis[k])
  {
    combined := [];
    for k := 0 to |axis|
      invariant |combined| == k
      invariant forall j :: 0 <= j < k ==> combined[j] == Pick(hy, hv, fy, fv, axis[j])
    {
      var year := axis[k];
      if year in hy {
        var idx := IndexOf(hy, year);
        combined := combined + [Num(hv[idx])];
      } else if year in fy {
        var idx := IndexOf(fy, year);
        combined := combined + [Num(fv[idx])];
      } else {
        combined := combined + [Null];
      }
    }
  }

  /** Forecast mode end to end (the queries are the filter and sort in `History`). */
  method PredictSingleCountry(store: seq<Record>, names: map<int, string>, id: int, predictor: Predictor)
    returns (out: Result<ChartData, Error>)
    ensures out == Outcome(store, names, id, predictor)
  {
    var name := CountryName(names, id);
    var data := History(store, id);
    if data == [] {
      return Err(NoHistory(name));
    }
    var train := Training(data);
    var forecast := predictor(train);
    if forecast.None? {
      return Err(ForecastFailed);
    }
    var historicalYears, historicalValues := Unzip(data);
    var forecastYears, forecastValues := Unzip(forecast.value);
    var allYears := SortedUnique(historicalYears + forecastYears);
    var combined := Merge(historicalYears, historicalValues, forecastYears, forecastValues, allYears);
    assert combined == seq(|allYears|, k requires 0 <= k < |allYears| =>
      Pick(historicalYears, historicalValues, forecastYears, forecastValues, allYears[k]));
    out := Ok(ChartData([name], allYears, [Series(name + Qualifier, combined)]));
  }

  // ---------------------------------------------------------------------------
  // What the outcome means.

  lemma {:induction false} ObservationsMember(s: seq<Record>, p: Point)
    ensures p in Observations(s) <==> exists e :: e in s && e.co2 == Some(p.value) && e.year == p.year
  {
    if s != [] {
      var init := s[..|s| - 1];
      ObservationsMember(init, p);
      assert s == init + [s[|s| - 1]];
      if e :| e in init && e.co2 == Some(p.value) && e.year == p.year {
        assert e in s;
      }
    }
  }

  lemma {:induction false} ObservationsOrdered(s: seq<Record>)
    requires YearOrdered(s)
    ensures forall i, j :: 0 <= i < j < |Observations(s)| ==> Observations(s)[i].year <= Observations(s)[j].year
  {
    if s != [] {
      var init := s[..|s| - 1];
      ObservationsOrdered(init);
      var o := Observations(init);
      forall p | p in o
        ensures p.year <= s[|s| - 1].year
      {
        ObservationsMember(init, p);
      }
      forall i | 0 <= i < |o|
        ensures o[i].year <= s[|s| - 1].year
      {
        assert o[i] in o;
      }
    }
  }

  /** The history is the country's non-null records, in year order. */
  lemma HistoryMeaning(store: seq<Record>, id: int)
    ensures var h := History(store, id);
      && (forall i, j :: 0 <= i < j < |h| ==> h[i].year <= h[j].year)
      && (forall p :: p in h <==>
            exists e :: e in store && e.countryId == id && e.year == p.year && e.co2 == Some(p.value))
  {
    var own := Filter(store, (e: Record) => e.countryId == id);
    var sorted := ByYear(own);
    ObservationsOrdered(sorted);
    forall p
      ensures p in History(store, id) <==>
        exists e :: e in store && e.countryId == id && e.year == p.year && e.co2 == Some(p.value)
    {
      ObservationsMember(sorted, p);
      if e :| e in sorted && e.co2 == Some(p.value) && e.year == p.year {
        assert e in multiset(sorted);
        FilterMember(store, (x: Record) => x.countryId == id, e);
      }
      if e :| e in store && e.countryId == id && e.year == p.year && e.co2 == Some(p.value) {
        FilterMember(store, (x: Record) => x.countryId == id, e);
        assert e in multiset(own);
        assert e in sorted;
      }
    }
  }

  /** An empty history is an error naming the country, and only a failed fit
      fails otherwise. */
  lemma OutcomeErrors(store: seq<Record>, names: map<int, string>, id: int, predictor: Predictor)
    ensures var out := Outcome(store, names, id, predictor);
      && (out == Err(NoHistory(CountryName(names, id))) <==>
            forall e :: e in store && e.countryId == id ==> e.co2.None?)
      && (out == Err(ForecastFailed) <==>
            History(store, id) != [] && predictor(Training(History(store, id))).None?)
      && (out.Err? ==> out == Err(NoHistory(CountryName(names, id))) || out == Err(ForecastFailed))
  {
    var h := History(store, id);
    HistoryMeaning(store, id);
    if h != [] {
      assert h[0] in h;
    }
    if e :| e in store && e.countryId == id && e.co2.Some? {
      assert Point(e.year, e.co2.value) in h;
    }
  }

  /** The model is trained on exactly the history from 1990 on, in order. */
  lemma TrainingMeaning(history: seq<Point>)
    ensures var t := Training(history);
      && IsSubsequence(t, history)
      && (forall p :: p in t <==> p in history && p.year >= TrainingCutoff)
      && (forall i :: 0 <= i < |t| ==> t[i].year >= 1990)
  {
    FilterIsSubsequence(history, (p: Point) => p.year >= TrainingCutoff);
    forall p
      ensures p in Training(history) <==> p in history && p.year >= TrainingCutoff
    {
      FilterMember(history, (q: Point) => q.year >= TrainingCutoff, p);
    }
  }

  lemma YearsMember(ps: seq<Point>, y: int)
    ensures y in Years(ps) <==> exists p :: p in ps && p.year == y
  {
    MapMember(ps, (p: Point) => p.year, y);
  }

  /** A year observed at position j and at no earlier position shows that observation. */
  lemma PickObserved(h: seq<Point>, f: seq<Point>, j: int)
    requires 0 <= j < |h|
    requires forall j' :: 0 <= j' < j ==> h[j'].year != h[j].year
    ensures Pick(Years(h), Values(h), Years(f), Values(f), h[j].year) == Num(h[j].value)
  {
    var hy := Years(h);
    assert hy[j] == h[j].year;
    var i := IndexOf(hy, h[j].year);
    assert hy[i] == h[i].year;
  }

  /** An unobserved year predicted first at position j shows that prediction. */
  lemma PickPredicted(h: seq<Point>, f: seq<Point>, j: int)
    requires 0 <= j < |f|
    requires forall j' :: 0 <= j' < j ==> f[j'].year != f[j].year
    requires forall p :: p in h ==> p.year != f[j].year
    ensures Pick(Years(h), Values(h), Years(f), Values(f), f[j].year) == Num(f[j].value)
  {
    YearsMember(h, f[j].year);
    var fy := Years(f);
    assert fy[j] == f[j].year;
    var i := IndexOf(fy, f[j].year);
    assert fy[i] == f[i].year;
  }

  /** The merged payload: the axis is the sorted union of observed and
      predicted years; the one series has the qualified name and one value per
      axis year, never None; a year with an observation shows its first
      observation, even when it is also predicted; any other year shows its
      first prediction. */
  lemma MergedMeaning(name: string, h: seq<Point>, f: seq<Point>)
    ensures var c := Merged(name, h, f);
      && c.countries == [name]
      && |c.series| == 1 && c.series[0].name == name + Qualifier
      && StrictlyAscending(c.years)
      && (forall y :: y in c.years <==> (exists p :: p in h && p.year == y) || (exists q :: q in f && q.year == y))
      && |c.series[0].data| == |c.years|
      && (forall k :: 0 <= k < |c.years| ==> c.series[0].data[k] != Null)
      && (forall k, j ::
            (0 <= k < |c.years| && 0 <= j < |h| && h[j].year == c.years[k] &&
             (forall j' :: 0 <= j' < j ==> h[j'].year != c.years[k])) ==>
              c.series[0].data[k] == Num(h[j].value))
      && (forall k, j ::
            (0 <= k < |c.years| && 0 <= j < |f| && f[j].year == c.years[k] &&
             (forall j' :: 0 <= j' < j ==> f[j'].year != c.years[k]) &&
             (forall p :: p in h ==> p.year != c.years[k])) ==>
              c.series[0].data[k] == Num(f[j].value))
  {
    var c := Merged(name, h, f);
    var hy, hv, fy, fv := Years(h), Values(h), Years(f), Values(f);
    assert c.years == SortedUnique(hy + fy);
    assert forall k :: 0 <= k < |c.years| ==> c.series[0].data[k] == Pick(hy, hv, fy, fv, c.years[k]);
    forall y
      ensures y in c.years <==> (exists p :: p in h && p.year == y) || (exists q :: q in f && q.year == y)
    {
      YearsMember(h, y);
      YearsMember(f, y);
    }
    forall k | 0 <= k < |c.years|
      ensures c.series[0].data[k] != Null
    {
      assert c.years[k] in c.years;
    }
    forall k, j | 0 <= k < |c.years| && 0 <= j < |h| && h[j].year == c.years[k] &&
                  (forall j' :: 0 <= j' < j ==> h[j'].year != c.years[k])
      ensures c.series[0].data[k] == Num(h[j].value)
    {
      PickObserved(h, f, j);
    }
    forall k, j | 0 <= k < |c.years| && 0 <= j < |f| && f[j].year == c.years[k] &&
                  (forall j' :: 0 <= j' < j ==> f[j'].year != c.years[k]) &&
                  (forall p :: p in h ==> p.year != c.years[k])
      ensures c.series[0].data[k] == Num(f[j].value)
    {
      PickPredicted(h, f, j);
    }
  }

  /** The forecast-mode payload: a successful outcome is the merged payload
      of the country's history and the model's forecast, with the properties
      of `MergedMeaning` for the country's name. */
  lemma MergeMeaning(store: seq<Record>, names: map<int, string>, id: int, predictor: Predictor)
    requires Outcome(store, names, id, predictor).Ok?
    ensures var c := Outcome(store, names, id, predictor).value;
            var h := History(store, id);
            var f := predictor(Training(h));
      && f.Some?
      && c.countries == [CountryName(names, id)]
      && |c.series| == 1 && c.series[0].name == CountryName(names, id) + Qualifier
      && StrictlyAscending(c.years)
      && (forall y :: y in c.years <==> (exists p :: p in h && p.year == y) || (exists q :: q in f.value && q.year == y))
      && |c.series[0].data| == |c.years|
      && (forall k :: 0 <= k < |c.years| ==> c.series[0].data[k] != Null)
      && (forall k, j ::
            (0 <= k < |c.years| && 0 <= j < |h| && h[j].year == c.years[k] &&
             (forall j' :: 0 <= j' < j ==> h[j'].year != c.years[k])) ==>
              c.series[0].data[k] == Num(h[j].value))
      && (forall k, j ::
            (0 <= k < |c.years| && 0 <= j < |f.value| && f.value[j].year == c.years[k] &&
             (forall j' :: 0 <= j' < j ==> f.value[j'].year != c.years[k]) &&
             (forall p :: p in h ==> p.year != c.years[k])) ==>
              c.series[0].data[k] == Num(f.value[j].value))
  {
    var h := History(store, id);
    MergedMeaning(CountryName(names, id), h, predictor(Training(h)).value);
  }
}
