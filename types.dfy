/** Shared vocabulary of the CO2 chart pipeline: the records the chart query
    returns, the cells and series of a chart payload, the request, the error
    outcomes, and the small sequence functions (filter, map, first index) that
    the server code and the dashboard both use. */
module ChartTypes {

  datatype Option<T> = None | Some(value: T)

  datatype Result<T, E> = Ok(value: T) | Err(error: E)

  /** One position of a chart series. `Null` is Python's None (no record for
      that year); `Num` is a finite number; `NotFinite` is the NaN or infinity
      that pandas produces for a missing co2 value or for a division by a
      missing or zero surface area. */
  datatype Cell = Null | Num(v: real) | NotFinite

  /** One emission row joined with its country and its year. */
  datatype Record = Record(
    countryId: int,
    countryName: string,
    year: int,
    co2: Option<real>,
    surfaceKm2: Option<int>)

  /** A chart series: its display name and its values, aligned to the year axis. */
  datatype Series = Series(name: string, data: seq<Cell>)

  /** The chart payload: display names, the shared year axis, one series per name. */
  datatype ChartData = ChartData(countries: seq<string>, years: seq<int>, series: seq<Series>)

  /** The body of a chart request. */
  datatype ChartRequest = ChartRequest(
    countryIds: seq<int>,
    yearStart: int,
    yearEnd: int,
    ai: bool,
    showDensity: bool)

  /** The ways a chart request fails. */
  datatype Error =
    | NoCountries                // no country selected
    | MultiCountryForecast       // a forecast asked for more than one country
    | EmptyFetch                 // the query returned no row, so the frame has no 'year' column
    | NoDataInRange              // no record falls in the requested year range
    | NoHistory(country: string) // the country has no non-null observation to forecast from
    | ForecastFailed             // the forecasting model raised

  /** The detail text each error carries (the model's own message for a failed
      fit is not modelled). */
  function Detail(e: Error): string
  {
    match e
    case NoCountries => "Seleziona almeno un paese"
    case MultiCountryForecast =>
      "Le previsioni AI sono disponibili solo per un singolo paese. Seleziona solo un paese per le previsioni AI."
    case EmptyFetch => "'year'"
    case NoDataInRange => "Nessun dato disponibile per i criteri selezionati"
    case NoHistory(country) => "Nessun dato disponibile per " + country + "."
    case ForecastFailed => ""
  }

  predicate StrictlyAscending(s: seq<int>)
  {
    forall i, j :: 0 <= i < j < |s| ==> s[i] < s[j]
  }

  /** The elements of `s` that satisfy `p`, in their order in `s`. */
  function Filter<T>(s: seq<T>, p: T -> bool): (r: seq<T>)
    ensures |r| <= |s|
    ensures forall i :: 0 <= i < |r| ==> p(r[i])
  {
    if s == [] then []
    else Filter(s[..|s| - 1], p) + (if p(s[|s| - 1]) then [s[|s| - 1]] else [])
  }

  lemma {:induction false} FilterMember<T>(s: seq<T>, p: T -> bool, x: T)
    ensures x in Filter(s, p) <==> x in s && p(x)
  {
    if s != [] {
      FilterMember(s[..|s| - 1], p, x);
      assert s == s[..|s| - 1] + [s[|s| - 1]];
    }
  }

  /** A sequence is empty exactly when nothing is in it. */
  lemma EmptyIffNoElements<T>(s: seq<T>)
    ensures s == [] <==> forall x :: x !in s
  {
    if s != [] {
      var x := s[0];
      assert x in s;
    }
  }

  /** `f` applied to every element of `s`. */
  function Map<T, U>(s: seq<T>, f: T -> U): seq<U>
  {
    seq(|s|, i requires 0 <= i < |s| => f(s[i]))
  }

  lemma MapMember<T, U>(s: seq<T>, f: T -> U, y: U)
    ensures y in Map(s, f) <==> exists x :: x in s && y == f(x)
  {
    if y in Map(s, f) {
      var i :| 0 <= i < |s| && Map(s, f)[i] == y;
      assert s[i] in s;
    }
    forall x | x in s && y == f(x)
      ensures y in Map(s, f)
    {
      var i :| 0 <= i < |s| && s[i] == x;
      assert Map(s, f)[i] == f(x);
    }
  }

  /** The first position of `x` in `s` (Python's list.index, JavaScript's
      indexOf for an element that is present). */
  function IndexOf<T(==)>(s: seq<T>, x: T): (i: nat)
    requires x in s
    ensures i < |s| && s[i] == x
    ensures forall j :: 0 <= j < i ==> s[j] != x
  {
    if s[0] == x then 0 else 1 + IndexOf(s[1..], x)
  }

  /** `a` is `b` with some elements left out and the rest kept in order
      (greedily matched from the end). */
  predicate IsSubsequence<T(==)>(a: seq<T>, b: seq<T>)
  {
    if a == [] then true
    else if b == [] then false
    else if a[|a| - 1] == b[|b| - 1] then IsSubsequence(a[..|a| - 1], b[..|b| - 1])
    else IsSubsequence(a, b[..|b| - 1])
  }

  lemma {:induction false} FilterIsSubsequence<T>(s: seq<T>, p: T -> bool)
    ensures IsSubsequence(Filter(s, p), s)
  {
    if s != [] {
      var init, last := s[..|s| - 1], s[|s| - 1];
      var f := Filter(init, p);
      FilterIsSubsequence(init, p);
      if p(last) {
        assert Filter(s, p) == f + [last];
        assert (f + [last])[..|f|] == f;
      } else {
        assert Filter(s, p) == f;
        if f != [] {
          assert p(f[|f| - 1]);
        }
      }
    }
  }
}
