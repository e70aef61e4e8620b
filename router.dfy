/** The chart endpoint's request gate: reject an empty selection, reject a
    forecast for several countries, take the forecast path for one country when
    the range ends in 2023, and build a comparison chart otherwise. */
module ChartRouter {
  import opened ChartTypes
  import Comparison
  import Forecast

  /** The range end on which an AI request is answered with a forecast. */
  const ForecastYearEnd: int := 2023

  /** The reply to a request: the gate, then one of the two paths. */
  function Respond(req: ChartRequest, store: seq<Record>, names: map<int, string>, predictor: Forecast.Predictor)
    : Result<ChartData, Error>
  {
    if req.countryIds == [] then Err(NoCountries)
    else if req.ai && |req.countryIds| > 1 then Err(MultiCountryForecast)
    else if req.ai && |req.countryIds| == 1 && req.yearEnd == ForecastYearEnd then
      Forecast.Outcome(store, names, req.countryIds[0], predictor)
    else Comparison.Outcome(store, req.countryIds, req.yearStart, req.yearEnd, req.showDensity)
  }

  /** The endpoint. The two rejections do not depend on the store: they come
      before any data access. An AI request for one country whose range does
      not end in 2023 is answered in comparison mode. */
  method GenerateChart(req: ChartRequest, store: seq<Record>, names: map<int, string>, predictor: Forecast.Predictor)
    returns (out: Result<ChartData, Error>)
    ensures out == Respond(req, store, names, predictor)
    ensures req.countryIds == [] ==> out == Err(NoCountries) && Detail(out.error) == "Seleziona almeno un paese"
    ensures req.ai && |req.countryIds| > 1 ==> out == Err(MultiCountryForecast)
    ensures req.ai && |req.countryIds| == 1 && req.yearEnd == ForecastYearEnd ==>
      out == Forecast.Outcome(store, names, req.countryIds[0], predictor)
    ensures req.countryIds != [] && (!req.ai || (|req.countryIds| == 1 && req.yearEnd != ForecastYearEnd)) ==>
      out == Comparison.Outcome(store, req.countryIds, req.yearStart, req.yearEnd, req.showDensity)
  {
    if req.countryIds == [] {
      return Err(NoCountries);
    }
    if req.ai && |req.countryIds| > 1 {
      return Err(MultiCountryForecast);
    }
    if req.ai && |req.countryIds| == 1 && req.yearEnd == ForecastYearEnd {
      out := Forecast.PredictSingleCountry(store, names, req.countryIds[0], predictor);
      return;
    }
    out := Comparison.BuildComparison(store, req.countryIds, req.yearStart, req.yearEnd, req.showDensity);
  }

  /** Every chart the endpoint returns has a strictly ascending year axis, one
      name per series, and every series as long as the axis. */
  lemma ResponseAligned(req: ChartRequest, store: seq<Record>, names: map<int, string>, predictor: Forecast.Predictor)
    requires Respond(req, store, names, predictor).Ok?
    ensures var c := Respond(req, store, names, predictor).value;
      && StrictlyAscending(c.years)
      && |c.countries| == |c.series|
      && forall i :: 0 <= i < |c.series| ==> |c.series[i].data| == |c.years|
  {
    if req.ai && |req.countryIds| == 1 && req.yearEnd == ForecastYearEnd {
      Forecast.MergeMeaning(store, names, req.countryIds[0], predictor);
    } else {
      Comparison.AxisMeaning(store, req.countryIds, req.yearStart, req.yearEnd, req.showDensity);
      Comparison.SeriesFollowRequest(store, req.countryIds, req.yearStart, req.yearEnd, req.showDensity);
    }
  }
}
