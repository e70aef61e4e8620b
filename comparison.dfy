/** Comparison mode of the chart endpoint: the fetched records become a frame,
    the frame is cut to the requested years, optionally divided by surface
    area, and turned into one series per requested country over the shared
    year axis, with None for the years a country has no record for. */
module Comparison {
  import opened ChartTypes
  import opened YearAxis

  /** One row of the pandas frame: the record's fields, with co2 as pandas
      holds it. */
  datatype Row = Row(countryId: int, countryName: string, year: int, co2: Cell, surfaceKm2: Option<int>)

  /** A null co2 becomes NaN once it is in a float column. */
  function FrameCell(co2: Option<real>): Cell
  {
    if co2.Some? then Num(co2.value) else NotFinite
  }

  function ToRow(e: Record): Row
  {
    Row(e.countryId, e.countryName, e.year, FrameCell(e.co2), e.surfaceKm2)
  }

  /** `co2 / surface_km2` on one row: a missing area is NaN and a zero area
      gives an infinity or NaN, both NotFinite; NaN stays NaN. */
  function PerArea(c: Cell, area: Option<int>): Cell
  {
    if c.Num? && area.Some? && area.value != 0 then Num(c.v / area.value as real)
    else if c.Num? then NotFinite
    else c
  }

  function Densified(r: Row): Row
  {
    r.(co2 := PerArea(r.co2, r.surfaceKm2))
  }

  /** The row a record of the store becomes in the final frame. */
  function RowOf(e: Record, density: bool): Row
  {
    if density then Densified(ToRow(e)) else ToRow(e)
  }

  /** The value one record contributes to the chart. */
  function CellOf(e: Record, density: bool): (c: Cell)
    ensures c != Null
    ensures e.co2.None? ==> c == NotFinite
    ensures e.co2.Some? && !density ==> c == Num(e.co2.value)
    ensures e.co2.Some? && density && e.surfaceKm2.Some? && e.surfaceKm2.value != 0 ==>
              c == Num(e.co2.value / e.surfaceKm2.value as real)
    ensures e.co2.Some? && density && (e.surfaceKm2.None? || e.surfaceKm2.value == 0) ==> c == NotFinite
  {
    RowOf(e, density).co2
  }

  /** The query's filter: the emissions of the requested countries, in store order. */
  function Fetch(store: seq<Record>, ids: seq<int>): seq<Record>
  {
    Filter(store, (e: Record) => e.countryId in ids)
  }

  /** `df[(df['year'] >= year_start) & (df['year'] <= year_end)]` */
  function InRange(rows: seq<Row>, yearStart: int, yearEnd: int): seq<Row>
  {
    Filter(rows, (r: Row) => yearStart <= r.year <= yearEnd)
  }

  function Normalize(rows: seq<Row>, density: bool): seq<Row>
  {
    if density then Map(rows, Densified) else rows
  }

  /** `df[df['country_id'] == cid]` */
  function RowsOf(rows: seq<Row>, id: int): seq<Row>
  {
    Filter(rows, (r: Row) => r.countryId == id)
  }

  function YearsOf(rows: seq<Row>): seq<int>
  {
    Map(rows, (r: Row) => r.year)
  }

  /** `dict(zip(country_df['year'], country_df['co2']))`: a later row for the
      same year overwrites an earlier one. */
  function ToDict(rows: seq<Row>): map<int, Cell>
  {
    if rows == [] then map[]
    else ToDict(rows[..|rows| - 1])[rows[|rows| - 1].year := rows[|rows| - 1].co2]
  }

  /** `data_dict.get(year, None)` */
  function Get(d: map<int, Cell>, y: int): Cell
  {
    if y in d then d[y] else Null
  }

  /** The values of one country over the axis. */
  function AlignedData(d: map<int, Cell>, axis: seq<int>): seq<Cell>
  {
    seq(|axis|, k requires 0 <= k < |axis| => Get(d, axis[k]))
  }

  /** The countries' names and series as the loop over `country_ids` appends
      them: an id without rows adds nothing, a repeated id adds its series again. */
  function Assemble(df: seq<Row>, ids: seq<int>, axis: seq<int>): (seq<string>, seq<Series>)
  {
    if ids == [] then ([], [])
    else
      var done := Assemble(df, ids[..|ids| - 1], axis);
      var own := RowsOf(df, ids[|ids| - 1]);
      if own == [] then done
      else (done.0 + [own[0].countryName], done.1 + [Series(own[0].countryName, AlignedData(ToDict(own), axis))])
  }

  /** The frame after the year filter and the optional density division. */
  function Frame(store: seq<Record>, ids: seq<int>, yearStart: int, yearEnd: int, density: bool): seq<Row>
  {
    Normalize(InRange(Map(Fetch(store, ids), ToRow), yearStart, yearEnd), density)
  }

  /** What comparison mode returns for a request. */
  function Outcome(store: seq<Record>, ids: seq<int>, yearStart: int, yearEnd: int, density: bool)
    : Result<ChartData, Error>
  {
    if Fetch(store, ids) == [] then Err(EmptyFetch)
    else if InRange(Map(Fetch(store, ids), ToRow), yearStart, yearEnd) == [] then Err(NoDataInRange)
    else
      var df := Frame(store, ids, yearStart, yearEnd, density);
      var axis := SortedUnique(YearsOf(df));
      var named := Assemble(df, ids, axis);
      Ok(ChartData(named.0, axis, named.1))
  }

  // ---------------------------------------------------------------------------
  // The imperative code: the loops of the endpoint, each proved against the
  // functions above.

  /** The loop that turns the query's emissions into frame rows. */
  method CollectRows(emissions: seq<Record>) returns (data: seq<Row>)
    ensures data == Map(emissions, ToRow)
  {
    data := [];
    var i := 0;
    while i < |emissions|
      invariant 0 <= i <= |emissions|
      invariant data == Map(emissions[..i], ToRow)
    {
      data := data + [ToRow(emissions[i])];
      i := i + 1;
    }
    assert emissions[..i] == emissions;
  }

  /** The loop over the axis that looks each year up in the country's dict. */
  method AlignValues(d: map<int, Cell>, axis: seq<int>) returns (values: seq<Cell>)
    ensures |values| == |axis|
    ensures forall k :: 0 <= k < |axis| ==> values[k] == Get(d, axis[k])
  {
    values := [];
    for k := 0 to |axis|
      invariant |values| == k
      invariant forall j :: 0 <= j < k ==> values[j] == Get(d, axis[j])
    {
      values := values + [Get(d, axis[k])];
    }
  }

  /** The loop over the requested ids that appends names and series. */
  method AssembleSeries(df: seq<Row>, ids: seq<int>, axis: seq<int>)
    returns (countries: seq<string>, series: seq<Series>)
    ensures (countries, series) == Assemble(df, ids, axis)
  {
    countries, series := [], [];
    var i := 0;
    while i < |ids|
      invariant 0 <= i <= |ids|
      invariant (countries, series) == Assemble(df, ids[..i], axis)
    {
      assert ids[..i + 1][..i] == ids[..i];
      var own := RowsOf(df, ids[i]);
      if own != [] {
        var name := own[0].countryName;
        countries := countries + [name];
        var values := AlignValues(ToDict(own), axis);
        assert values == AlignedData(ToDict(own), axis);
        series := series + [Series(name, values)];
      }
      i := i + 1;
    }
    assert ids[..i] == ids;
  }

  /** Comparison mode end to end (the query itself is the filter `Fetch`). */
  method BuildComparison(store: seq<Record>, ids: seq<int>, yearStart: int, yearEnd: int, density: bool)
    returns (out: Result<ChartData, Error>)
    ensures out == Outcome(store, ids, yearStart, yearEnd, density)
  {
    var emissions := Fetch(store, ids);
    var data := CollectRows(emissions);
    if data == [] {
      return Err(EmptyFetch);
    }
    var df := InRange(data, yearStart, yearEnd);
    if df == [] {
      return Err(NoDataInRange);
    }
    if density {
      df := Map(df, Densified);
    }
    var years := SortedUnique(YearsOf(df));
    var countries, series := AssembleSeries(df, ids, years);
    out := Ok(ChartData(countries, years, series));
  }

  // ---------------------------------------------------------------------------
  // What the outcome means, stated on the store and the request.

  /** The country has a record in the requested range. */
  predicate HasRecordIn(store: seq<Record>, id: int, yearStart: int, yearEnd: int)
  {
    exists e :: e in store && e.countryId == id && yearStart <= e.year <= yearEnd
  }

  /** The requested ids that get a series, in request order. */
  function Charted(store: seq<Record>, ids: seq<int>, yearStart: int, yearEnd: int): seq<int>
  {
    Filter(ids, (id: int) => HasRecordIn(store, id, yearStart, yearEnd))
  }

  /** The store holds at most one emission per (country, year). */
  predicate OnePerCountryYear(store: seq<Record>)
  {
    forall i, j :: 0 <= i < j < |store| && store[i].countryId == store[j].countryId ==>
      store[i].year != store[j].year
  }

  /** The in-range rows, before density, are the rows of the in-range
      records of the requested countries. */
  lemma InRangeMember(store: seq<Record>, ids: seq<int>, yearStart: int, yearEnd: int, r: Row)
    ensures r in InRange(Map(Fetch(store, ids), ToRow), yearStart, yearEnd) <==>
      exists e :: e in store && e.countryId in ids && yearStart <= e.year <= yearEnd && r == ToRow(e)
  {
    var fetched := Fetch(store, ids);
    var rows := Map(fetched, ToRow);
    FilterMember(rows, (x: Row) => yearStart <= x.year <= yearEnd, r);
    MapMember(fetched, ToRow, r);
    if e :| e in fetched && r == ToRow(e) {
      FilterMember(store, (x: Record) => x.countryId in ids, e);
    }
    forall e | e in store && e.countryId in ids && r == ToRow(e)
      ensures e in fetched
    {
      FilterMember(store, (x: Record) => x.countryId in ids, e);
    }
  }

  lemma FrameMember(store: seq<Record>, ids: seq<int>, yearStart: int, yearEnd: int, density: bool, row: Row)
    ensures row in Frame(store, ids, yearStart, yearEnd, density) <==>
      exists e :: e in store && e.countryId in ids && yearStart <= e.year <= yearEnd && row == RowOf(e, density)
  {
    var inRange := InRange(Map(Fetch(store, ids), ToRow), yearStart, yearEnd);
    if density {
      MapMember(inRange, Densified, row);
      if r :| r in inRange && row == Densified(r) {
        InRangeMember(store, ids, yearStart, yearEnd, r);
      }
      if e :| e in store && e.countryId in ids && yearStart <= e.year <= yearEnd && row == RowOf(e, density) {
        InRangeMember(store, ids, yearStart, yearEnd, ToRow(e));
      }
    } else {
      InRangeMember(store, ids, yearStart, yearEnd, row);
    }
  }

  /** No row of the frame holds Python's None. */
  lemma FrameHasNoNull(store: seq<Record>, ids: seq<int>, yearStart: int, yearEnd: int, density: bool, row: Row)
    requires row in Frame(store, ids, yearStart, yearEnd, density)
    ensures row.co2 != Null
  {
    FrameMember(store, ids, yearStart, yearEnd, density, row);
    var e :| e in store && e.countryId in ids && yearStart <= e.year <= yearEnd && row == RowOf(e, density);
    assert row.co2 == CellOf(e, density);
  }

  lemma {:induction false} ToDictKeys(rows: seq<Row>, y: int)
    ensures y in ToDict(rows) <==> exists r :: r in rows && r.year == y
  {
    if rows != [] {
      var init := rows[..|rows| - 1];
      ToDictKeys(init, y);
      assert rows == init + [rows[|rows| - 1]];
      if r :| r in init && r.year == y {
        assert r in rows;
      }
    }
  }

  /** The dict holds, for a year, the value of some row of that year. */
  lemma {:induction false} ToDictValue(rows: seq<Row>, y: int)
    requires y in ToDict(rows)
    ensures exists r :: r in rows && r.year == y && r.co2 == ToDict(rows)[y]
  {
    var init, last := rows[..|rows| - 1], rows[|rows| - 1];
    assert rows == init + [last];
    if last.year != y {
      ToDictValue(init, y);
      var r :| r in init && r.year == y && r.co2 == ToDict(init)[y];
      assert r in rows;
    } else {
      assert last in rows;
    }
  }

  /** The dict holds, for a year, the value of the LAST row of that year. */
  lemma {:induction false} ToDictKeepsLast(rows: seq<Row>, i: int)
    requires 0 <= i < |rows|
    requires forall j :: i < j < |rows| ==> rows[j].year != rows[i].year
    ensures rows[i].year in ToDict(rows) && ToDict(rows)[rows[i].year] == rows[i].co2
  {
    var init := rows[..|rows| - 1];
    if i < |rows| - 1 {
      ToDictKeepsLast(init, i);
    }
  }

  lemma {:induction false} AssembleIsCharted(df: seq<Row>, ids: seq<int>, axis: seq<int>)
    ensures var named := Assemble(df, ids, axis);
            var inc := Filter(ids, (id: int) => RowsOf(df, id) != []);
            |named.0| == |named.1| == |inc| &&
            forall i :: 0 <= i < |inc| ==>
              RowsOf(df, inc[i]) != [] &&
              named.0[i] == named.1[i].name == RowsOf(df, inc[i])[0].countryName &&
              named.1[i].data == AlignedData(ToDict(RowsOf(df, inc[i])), axis)
  {
    if ids != [] {
      AssembleIsCharted(df, ids[..|ids| - 1], axis);
    }
  }

  /** The two ways comparison mode fails, and when. */
  lemma OutcomeErrors(store: seq<Record>, ids: seq<int>, yearStart: int, yearEnd: int, density: bool)
    ensures var out := Outcome(store, ids, yearStart, yearEnd, density);
      && (out == Err(EmptyFetch) <==> forall e :: e in store ==> e.countryId !in ids)
      && (out == Err(NoDataInRange) <==>
            (exists e :: e in store && e.countryId in ids) &&
            forall e :: e in store && e.countryId in ids ==> !(yearStart <= e.year <= yearEnd))
      && (out.Err? ==> out == Err(EmptyFetch) || out == Err(NoDataInRange))
  {
    var fetched := Fetch(store, ids);
    var inRange := InRange(Map(fetched, ToRow), yearStart, yearEnd);
    forall e | e in store || e in fetched
      ensures e in fetched <==> e in store && e.countryId in ids
    {
      FilterMember(store, (x: Record) => x.countryId in ids, e);
    }
    EmptyIffNoElements(fetched);
    EmptyIffNoElements(inRange);
    forall e | e in store && e.countryId in ids && yearStart <= e.year <= yearEnd
      ensures ToRow(e) in inRange
    {
      FrameMember(store, ids, yearStart, yearEnd, false, ToRow(e));
    }
    forall r | r in inRange
      ensures exists e :: e in store && e.countryId in ids && yearStart <= e.year <= yearEnd
    {
      FrameMember(store, ids, yearStart, yearEnd, false, r);
    }
  }

  /** The year axis: strictly ascending, inside the requested range, and
      exactly the years of the in-range records of the requested countries. */
  lemma AxisMeaning(store: seq<Record>, ids: seq<int>, yearStart: int, yearEnd: int, density: bool)
    requires Outcome(store, ids, yearStart, yearEnd, density).Ok?
    ensures var years := Outcome(store, ids, yearStart, yearEnd, density).value.years;
      && StrictlyAscending(years)
      && (forall k :: 0 <= k < |years| ==> yearStart <= years[k] <= yearEnd)
      && (forall y :: y in years <==>
            exists e :: e in store && e.countryId in ids && yearStart <= e.year <= yearEnd && e.year == y)
  {
    var df := Frame(store, ids, yearStart, yearEnd, density);
    var years := SortedUnique(YearsOf(df));
    forall y
      ensures y in years <==>
        exists e :: e in store && e.countryId in ids && yearStart <= e.year <= yearEnd && e.year == y
    {
      MapMember(df, (r: Row) => r.year, y);
      if r :| r in df && y == r.year {
        FrameMember(store, ids, yearStart, yearEnd, density, r);
      }
      if e :| e in store && e.countryId in ids && yearStart <= e.year <= yearEnd && e.year == y {
        FrameMember(store, ids, yearStart, yearEnd, density, RowOf(e, density));
      }
    }
    forall k | 0 <= k < |years|
      ensures yearStart <= years[k] <= yearEnd
    {
      assert years[k] in years;
    }
  }

  /** The rows of one requested country in the final frame are exactly its
      in-range records. */
  lemma RowsOfMember(store: seq<Record>, ids: seq<int>, yearStart: int, yearEnd: int, density: bool,
                     id: int, row: Row)
    requires id in ids
    ensures row in RowsOf(Frame(store, ids, yearStart, yearEnd, density), id) <==>
      exists e :: e in store && e.countryId == id && yearStart <= e.year <= yearEnd && row == RowOf(e, density)
  {
    var df := Frame(store, ids, yearStart, yearEnd, density);
    FilterMember(df, (r: Row) => r.countryId == id, row);
    FrameMember(store, ids, yearStart, yearEnd, density, row);
  }

  /** Which ids get a series: those with an in-range record, in request order. */
  lemma SeriesFollowRequest(store: seq<Record>, ids: seq<int>, yearStart: int, yearEnd: int, density: bool)
    requires Outcome(store, ids, yearStart, yearEnd, density).Ok?
    ensures var c := Outcome(store, ids, yearStart, yearEnd, density).value;
            var inc := Charted(store, ids, yearStart, yearEnd);
      && |c.countries| == |c.series| == |inc|
      && IsSubsequence(inc, ids)
      && (forall id :: id in inc <==> id in ids && HasRecordIn(store, id, yearStart, yearEnd))
      && (forall i :: 0 <= i < |inc| ==> c.series[i].name == c.countries[i] && |c.series[i].data| == |c.years|)
  {
    var c := Outcome(store, ids, yearStart, yearEnd, density).value;
    var df := Frame(store, ids, yearStart, yearEnd, density);
    var axis := SortedUnique(YearsOf(df));
    assert c == ChartData(Assemble(df, ids, axis).0, axis, Assemble(df, ids, axis).1);
    ChartedIsAssembled(store, ids, yearStart, yearEnd, density);
    AssembleIsCharted(df, ids, axis);
    FilterIsSubsequence(ids, (id: int) => HasRecordIn(store, id, yearStart, yearEnd));
    forall id
      ensures id in Charted(store, ids, yearStart, yearEnd) <==> id in ids && HasRecordIn(store, id, yearStart, yearEnd)
    {
      FilterMember(ids, (x: int) => HasRecordIn(store, x, yearStart, yearEnd), id);
    }
  }

  /** Filtering the ids on "has rows in the frame" is filtering them on "has
      an in-range record in the store". */
  lemma ChartedIsAssembled(store: seq<Record>, ids: seq<int>, yearStart: int, yearEnd: int, density: bool)
    ensures var df := Frame(store, ids, yearStart, yearEnd, density);
      Filter(ids, (id: int) => RowsOf(df, id) != []) == Charted(store, ids, yearStart, yearEnd)
  {
    var df := Frame(store, ids, yearStart, yearEnd, density);
    ChartedOnPrefix(store, ids, |ids|, yearStart, yearEnd, density);
    assert ids[..|ids|] == ids;
  }

  lemma {:induction false} ChartedOnPrefix(store: seq<Record>, ids: seq<int>, n: nat, yearStart: int, yearEnd: int,
                                           density: bool)
    requires n <= |ids|
    ensures var df := Frame(store, ids, yearStart, yearEnd, density);
      Filter(ids[..n], (id: int) => RowsOf(df, id) != []) == Filter(ids[..n], (id: int) => HasRecordIn(store, id, yearStart, yearEnd))
  {
    if n > 0 {
      var df := Frame(store, ids, yearStart, yearEnd, density);
      ChartedOnPrefix(store, ids, n - 1, yearStart, yearEnd, density);
      assert ids[..n][..n - 1] == ids[..n - 1];
      var id := ids[n - 1];
      assert id in ids;
      HasRowsIff(store, ids, yearStart, yearEnd, density, id);
    }
  }

  lemma HasRowsIff(store: seq<Record>, ids: seq<int>, yearStart: int, yearEnd: int, density: bool, id: int)
    requires id in ids
    ensures RowsOf(Frame(store, ids, yearStart, yearEnd, density), id) != [] <==> HasRecordIn(store, id, yearStart, yearEnd)
  {
    var own := RowsOf(Frame(store, ids, yearStart, yearEnd, density), id);
    if own != [] {
      RowsOfMember(store, ids, yearStart, yearEnd, density, id, own[0]);
    }
    if HasRecordIn(store, id, yearStart, yearEnd) {
      var e :| e in store && e.countryId == id && yearStart <= e.year <= yearEnd;
      RowsOfMember(store, ids, yearStart, yearEnd, density, id, RowOf(e, density));
    }
  }

  /** The cell a requested country shows for an in-range year: None when it
      has no record for that year, otherwise the value of one of its records
      for that year, and of every such record when there is one per country
      and year. */
  lemma CountryCell(store: seq<Record>, ids: seq<int>, yearStart: int, yearEnd: int, density: bool,
                    id: int, y: int)
    requires id in ids && yearStart <= y <= yearEnd
    ensures var cell := Get(ToDict(RowsOf(Frame(store, ids, yearStart, yearEnd, density), id)), y);
      && (cell == Null <==> !exists e :: e in store && e.countryId == id && e.year == y)
      && (cell != Null ==> exists e :: e in store && e.countryId == id && e.year == y && cell == CellOf(e, density))
      && (OnePerCountryYear(store) ==>
            forall e :: e in store && e.countryId == id && e.year == y ==> cell == CellOf(e, density))
  {
    var own := RowsOf(Frame(store, ids, yearStart, yearEnd, density), id);
    var d := ToDict(own);
    ToDictKeys(own, y);
    if y in d {
      ToDictValue(own, y);
      var r :| r in own && r.year == y && r.co2 == d[y];
      RowsOfMember(store, ids, yearStart, yearEnd, density, id, r);
      var e :| e in store && e.countryId == id && yearStart <= e.year <= yearEnd && r == RowOf(e, density);
      assert Get(d, y) == CellOf(e, density);
      if OnePerCountryYear(store) {
        forall e' | e' in store && e'.countryId == id && e'.year == y
          ensures Get(d, y) == CellOf(e', density)
        {
          var a :| 0 <= a < |store| && store[a] == e;
          var b :| 0 <= b < |store| && store[b] == e';
          assert a == b;
        }
      }
    } else {
      forall e | e in store && e.countryId == id && e.year == y
        ensures false
      {
        RowsOfMember(store, ids, yearStart, yearEnd, density, id, RowOf(e, density));
      }
    }
  }

  /** What each cell of each series holds: None when the country has no
      record for that year, otherwise the value of one of its records for that
      year (divided by its surface area with density), which under the
      one-emission-per-country-and-year invariant is THE record; and the
      series' name is one of the country's in-range records' names. */
  lemma CellMeaning(store: seq<Record>, ids: seq<int>, yearStart: int, yearEnd: int, density: bool,
                    i: int, k: int)
    requires Outcome(store, ids, yearStart, yearEnd, density).Ok?
    requires 0 <= i < |Charted(store, ids, yearStart, yearEnd)|
    requires 0 <= k < |Outcome(store, ids, yearStart, yearEnd, density).value.years|
    ensures var c := Outcome(store, ids, yearStart, yearEnd, density).value;
            var id := Charted(store, ids, yearStart, yearEnd)[i];
            var y := c.years[k];
      && i < |c.countries| && i < |c.series| && k < |c.series[i].data|
      && (c.series[i].data[k] == Null <==> !exists e :: e in store && e.countryId == id && e.year == y)
      && (c.series[i].data[k] != Null ==>
            exists e :: e in store && e.countryId == id && e.year == y && c.series[i].data[k] == CellOf(e, density))
      && (exists e :: e in store && e.countryId == id && yearStart <= e.year <= yearEnd && c.countries[i] == e.countryName)
      && (OnePerCountryYear(store) ==>
            forall e :: e in store && e.countryId == id && e.year == y ==> c.series[i].data[k] == CellOf(e, density))
  {
    var c := Outcome(store, ids, yearStart, yearEnd, density).value;
    var df := Frame(store, ids, yearStart, yearEnd, density);
    var inc := Charted(store, ids, yearStart, yearEnd);
    var id := inc[i];
    SeriesFollowRequest(store, ids, yearStart, yearEnd, density);
    ChartedIsAssembled(store, ids, yearStart, yearEnd, density);
    AssembleIsCharted(df, ids, c.years);
    AxisMeaning(store, ids, yearStart, yearEnd, density);
    assert id in inc;
    var own := RowsOf(df, id);
    assert c.series[i].data[k] == Get(ToDict(own), c.years[k]);
    assert c.countries[i] == own[0].countryName;
    RowsOfMember(store, ids, yearStart, yearEnd, density, id, own[0]);
    CountryCell(store, ids, yearStart, yearEnd, density, id, c.years[k]);
  }
}
