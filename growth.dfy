/** The derived columns of `calculate_growth`: per-unit totals, booking growth
    and customer growth, computed with floating-point division semantics and
    then cleaned of infinities and NaN. */
module Growth {
  import opened Tables

  /** A float column value: a finite number or one of the non-finite results
      of dividing by zero. Finite values are modelled as exact reals. */
  datatype Float = Num(r: real) | PosInf | NegInf | NaN

  /** Division of two integer columns as the dataframe library does it:
      a zero divisor gives +inf, -inf or NaN depending on the dividend. */
  function Divide(num: int, den: int): (f: Float)
    ensures den != 0 ==> f.Num? && f.r * den as real == num as real
    ensures den == 0 && num > 0 ==> f == PosInf
    ensures den == 0 && num < 0 ==> f == NegInf
    ensures den == 0 && num == 0 ==> f == NaN
  {
    if den != 0 then Num(num as real / den as real)
    else if num > 0 then PosInf
    else if num < 0 then NegInf
    else NaN
  }

  /** Multiplying a column by 100: infinities and NaN stay what they are. */
  function Times100(f: Float): Float
  {
    match f
    case Num(r) => Num(r * 100.0)
    case _ => f
  }

  /** Replacing +inf and -inf by 0, then filling NaN with 0. */
  function Clean(f: Float): real
  {
    match f
    case Num(r) => r
    case PosInf => 0.0
    case NegInf => 0.0
    case NaN => 0.0
  }

  /** The raw growth column before cleaning: (after - before) / before * 100. */
  function RawGrowth(before: int, after: int): Float
  {
    Times100(Divide(after - before, before))
  }

  /** The growth in percent between two counts, 0 when the earlier count is 0.
      This is the reference the cleaned column is proved equal to. */
  function GrowthPct(before: int, after: int): (g: real)
    ensures before == 0 ==> g == 0.0
    ensures before != 0 ==> g * before as real == (after - before) as real * 100.0
  {
    if before == 0 then 0.0 else (after - before) as real / before as real * 100.0
  }

  /** A zero earlier count makes the raw growth non-finite (inf or NaN), and
      cleaning turns every raw growth into the reference growth. */
  lemma CleanedGrowth(before: int, after: int)
    ensures before == 0 <==> !RawGrowth(before, after).Num?
    ensures Clean(RawGrowth(before, after)) == GrowthPct(before, after)
  {
  }

  /** `{year}_{unit}_TOTAL`: the unit's N and Y sub-counts added. */
  function UnitTotal(c: Counts, year: Year, unit: Unit): (t: int)
    ensures t == Col(c, SubCount(year, unit, N)) + Col(c, SubCount(year, unit, Y))
  {
    var s := SplitOf(InYear(c, year), unit);
    s.n + s.y
  }

  /** The three derived columns of one unit, cleaned. */
  datatype UnitMetrics = UnitMetrics(total2019: int, total2024: int, bookingGrowth: real)

  /** The three derived columns of one unit while the growth is still a float. */
  datatype RawUnitMetrics = RawUnitMetrics(total2019: int, total2024: int, bookingGrowth: Float)

  /** All columns of an aggregated row after `calculate_growth`: its summed
      counts, `CUSTOMER_GROWTH` and the per-unit columns. */
  datatype Metrics = Metrics(counts: Counts, customerGrowth: real, units: map<Unit, UnitMetrics>)

  /** An aggregated row: the group key and its summed counts. */
  datatype Agg = Agg(key: Key, counts: Counts)

  /** An aggregated row with its derived columns. */
  datatype Grown = Grown(key: Key, metrics: Metrics)

  /** A row of the frame while the derived columns are being added. */
  datatype Pending = Pending(key: Key, counts: Counts, customerGrowth: Float, units: map<Unit, RawUnitMetrics>)

  /** What the derived columns of a row with counts `c` must hold. */
  ghost predicate GrowthColumns(c: Counts, m: Metrics)
  {
    && m.counts == c
    && m.customerGrowth == GrowthPct(Col(c, CustNo(Y2019)), Col(c, CustNo(Y2024)))
    && (forall u :: u in m.units)
    && (forall u :: u in m.units ==>
          && m.units[u].total2019 == Col(c, SubCount(Y2019, u, N)) + Col(c, SubCount(Y2019, u, Y))
          && m.units[u].total2024 == Col(c, SubCount(Y2024, u, N)) + Col(c, SubCount(Y2024, u, Y))
          && m.units[u].bookingGrowth == GrowthPct(m.units[u].total2019, m.units[u].total2024))
  }

  function RawUnit(c: Counts, unit: Unit): RawUnitMetrics
  {
    var t19 := UnitTotal(c, Y2019, unit);
    var t24 := UnitTotal(c, Y2024, unit);
    RawUnitMetrics(t19, t24, RawGrowth(t19, t24))
  }

  /** The replace-and-fill step applied to one row. */
  function CleanRow(p: Pending): Grown
  {
    Grown(p.key, Metrics(p.counts, Clean(p.customerGrowth),
      map u | u in p.units :: UnitMetrics(p.units[u].total2019, p.units[u].total2024, Clean(p.units[u].bookingGrowth))))
  }

  /** `calculate_growth`: adds `CUSTOMER_GROWTH`, then for each business unit
      in turn its two TOTAL columns and its BOOKING_GROWTH column, and finally
      replaces every infinity and NaN by 0. */
  method CalculateGrowth(df: seq<Agg>) returns (out: seq<Grown>)
    ensures |out| == |df|
    ensures forall i :: 0 <= i < |df| ==> out[i].key == df[i].key && GrowthColumns(df[i].counts, out[i].metrics)
  {
    var frame := seq(|df|, i requires 0 <= i < |df| =>
      Pending(df[i].key, df[i].counts, RawGrowth(Col(df[i].counts, CustNo(Y2019)), Col(df[i].counts, CustNo(Y2024))), map[]));
    for k := 0 to |BusinessUnits|
      invariant |frame| == |df|
      invariant forall i :: 0 <= i < |frame| ==>
        && frame[i].key == df[i].key
        && frame[i].counts == df[i].counts
        && frame[i].customerGrowth == RawGrowth(Col(df[i].counts, CustNo(Y2019)), Col(df[i].counts, CustNo(Y2024)))
        && frame[i].units.Keys == (set j | 0 <= j < k :: BusinessUnits[j])
        && forall u :: u in frame[i].units ==> frame[i].units[u] == RawUnit(df[i].counts, u)
    {
      var unit := BusinessUnits[k];
      frame := seq(|frame|, i requires 0 <= i < |frame| =>
        frame[i].(units := frame[i].units[unit := RawUnit(frame[i].counts, unit)]));
    }
    out := seq(|frame|, i requires 0 <= i < |frame| => CleanRow(frame[i]));
    forall i | 0 <= i < |df|
      ensures out[i].key == df[i].key && GrowthColumns(df[i].counts, out[i].metrics)
    {
      var c := df[i].counts;
      CleanedGrowth(Col(c, CustNo(Y2019)), Col(c, CustNo(Y2024)));
      forall u ensures u in frame[i].units {
        assert u == BusinessUnits[0] || u == BusinessUnits[1] || u == BusinessUnits[2]
            || u == BusinessUnits[3] || u == BusinessUnits[4];
      }
      forall u | u in out[i].metrics.units
        ensures out[i].metrics.units[u].bookingGrowth == GrowthPct(out[i].metrics.units[u].total2019, out[i].metrics.units[u].total2024)
      {
        CleanedGrowth(UnitTotal(c, Y2019, u), UnitTotal(c, Y2024, u));
      }
    }
  }
}
