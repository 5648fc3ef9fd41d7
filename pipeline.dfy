/** `preparing_data`: the three level tables, each the raw rows grouped and
    summed at that level, given their derived columns and left-merged onto
    the level's upper-cased boundary table. */
module Pipeline {
  import opened Options
  import opened Tables
  import opened Growth
  import opened Aggregate
  import opened Merge

  /** What a level's final table holds: one row per boundary row, in order,
      with that row's key and polygon; metrics exactly when some raw row has
      that key, and then the derived columns of the summed raw rows. */
  ghost predicate LevelTable(level: Level, raw: seq<RawRow>, shapes: seq<Shape>, out: seq<Joined>)
  {
    && |out| == |shapes|
    && forall i :: 0 <= i < |out| ==>
         && out[i].key == shapes[i].key
         && out[i].geometry == shapes[i].geometry
         && (out[i].metrics.Some? <==> Occurs(level, raw, shapes[i].key))
         && (out[i].metrics.Some? ==> GrowthColumns(SumWhere(level, raw, shapes[i].key), out[i].metrics.value))
  }

  /** One level of the pipeline: group and sum, add the derived columns,
      left-merge onto the boundary table. */
  method PrepareLevel(level: Level, raw: seq<RawRow>, shapes: seq<Shape>) returns (out: seq<Joined>)
    ensures LevelTable(level, raw, shapes, out)
  {
    var grouped := GroupSum(level, raw);
    var grown := CalculateGrowth(grouped);
    assert UniqueKeys(grown) by {
      forall a, b | 0 <= a < b < |grown| ensures grown[a].key != grown[b].key {
        assert grown[a].key == grouped[a].key && grown[b].key == grouped[b].key;
      }
    }
    out := MergeLeft(shapes, grown);
    MergeLeftOneToOne(shapes, grown);
    forall i | 0 <= i < |out|
      ensures out[i].metrics.Some? <==> Occurs(level, raw, shapes[i].key)
      ensures out[i].metrics.Some? ==> GrowthColumns(SumWhere(level, raw, shapes[i].key), out[i].metrics.value)
    {
      var k := shapes[i].key;
      assert JoinsTo(shapes[i], grown, out[i]);
      if Occurs(level, raw, k) {
        assert HasKey(grouped, k);
        var j :| 0 <= j < |grouped| && grouped[j].key == k;
        assert grown[j].key == k;
        assert out[i].metrics == Some(grown[j].metrics);
      } else {
        forall j | 0 <= j < |grown| ensures grown[j].key != k {
          assert grown[j].key == grouped[j].key;
        }
      }
    }
  }

  /** `preparing_data`: the province, city and district tables, built from
      the same raw rows and the boundary tables with their names upper-cased. */
  method PreparingData(raw: seq<RawRow>, shpProv: seq<Shape>, shpKab: seq<Shape>, shpKec: seq<Shape>)
    returns (dfProv: seq<Joined>, dfKab: seq<Joined>, dfKec: seq<Joined>)
    ensures LevelTable(Province, raw, UpperShapes(shpProv), dfProv)
    ensures LevelTable(Kabupaten, raw, UpperShapes(shpKab), dfKab)
    ensures LevelTable(Kecamatan, raw, UpperShapes(shpKec), dfKec)
  {
    var prov := UpperShapes(shpProv);
    var kab := UpperShapes(shpKab);
    var kec := UpperShapes(shpKec);
    dfProv := PrepareLevel(Province, raw, prov);
    dfKab := PrepareLevel(Kabupaten, raw, kab);
    dfKec := PrepareLevel(Kecamatan, raw, kec);
  }

  /** In a final table, every TOTAL column is the sum over the area's raw rows
      of the unit's N column plus the sum of its Y column, and the customer
      growth is the growth between the area's summed customer counts. */
  lemma TotalsAreColumnSums(level: Level, raw: seq<RawRow>, shapes: seq<Shape>, out: seq<Joined>, i: int, u: Unit)
    requires LevelTable(level, raw, shapes, out)
    requires 0 <= i < |out| && out[i].metrics.Some?
    ensures u in out[i].metrics.value.units
    ensures out[i].metrics.value.units[u].total2019 ==
      ColumnSum(level, raw, shapes[i].key, SubCount(Y2019, u, N)) + ColumnSum(level, raw, shapes[i].key, SubCount(Y2019, u, Y))
    ensures out[i].metrics.value.units[u].total2024 ==
      ColumnSum(level, raw, shapes[i].key, SubCount(Y2024, u, N)) + ColumnSum(level, raw, shapes[i].key, SubCount(Y2024, u, Y))
    ensures out[i].metrics.value.customerGrowth ==
      GrowthPct(ColumnSum(level, raw, shapes[i].key, CustNo(Y2019)), ColumnSum(level, raw, shapes[i].key, CustNo(Y2024)))
  {
    var k := shapes[i].key;
    SumWhereByColumn(level, raw, k, SubCount(Y2019, u, N));
    SumWhereByColumn(level, raw, k, SubCount(Y2019, u, Y));
    SumWhereByColumn(level, raw, k, SubCount(Y2024, u, N));
    SumWhereByColumn(level, raw, k, SubCount(Y2024, u, Y));
    SumWhereByColumn(level, raw, k, CustNo(Y2019));
    SumWhereByColumn(level, raw, k, CustNo(Y2024));
  }

  /** Only the boundary names are upper-cased: a raw row whose name at a level
      holds a lower-case letter matches no row of that level's final table,
      so its counts reach no area. */
  lemma LowerCaseRawNamesMatchNothing(level: Level, raw: seq<RawRow>, shapes: seq<Shape>, out: seq<Joined>, j: int)
    requires LevelTable(level, raw, UpperShapes(shapes), out)
    requires 0 <= j < |raw| && HasLower(raw[j].wadmpr)
    ensures forall i :: 0 <= i < |out| ==> out[i].key != KeyOf(level, raw[j])
  {
  }

  /** An area that has a single raw row, among any rows of other areas, gets
      that row's counts, and its customer growth is the growth between that
      row's two customer counts. */
  lemma SingleRowArea(level: Level, raw: seq<RawRow>, j: int, shapes: seq<Shape>, out: seq<Joined>, i: int)
    requires LevelTable(level, raw, shapes, out)
    requires 0 <= j < |raw|
    requires forall m :: 0 <= m < |raw| && m != j ==> KeyOf(level, raw[m]) != KeyOf(level, raw[j])
    requires 0 <= i < |out| && shapes[i].key == KeyOf(level, raw[j])
    ensures out[i].metrics.Some? && out[i].metrics.value.counts == raw[j].counts
    ensures out[i].metrics.value.customerGrowth ==
      GrowthPct(Col(raw[j].counts, CustNo(Y2019)), Col(raw[j].counts, CustNo(Y2024)))
  {
    assert Occurs(level, raw, KeyOf(level, raw[j]));
    SumWhereOne(level, raw, j);
  }

  /** A province with 100 customers in 2019 and 150 in 2024 grows by 50 percent;
      one with 0 customers in 2019 and 20 in 2024 shows a growth of 0. */
  lemma ProvinceGrowthExamples(row: RawRow, shapes: seq<Shape>, out: seq<Joined>, i: int)
    requires LevelTable(Province, [row], shapes, out)
    requires 0 <= i < |out| && shapes[i].key == ProvKey(row.wadmpr)
    ensures Col(row.counts, CustNo(Y2019)) == 100 && Col(row.counts, CustNo(Y2024)) == 150 ==>
      out[i].metrics.Some? && out[i].metrics.value.customerGrowth == 50.0
    ensures Col(row.counts, CustNo(Y2019)) == 0 && Col(row.counts, CustNo(Y2024)) == 20 ==>
      out[i].metrics.Some? && out[i].metrics.value.customerGrowth == 0.0
  {
    SingleRowArea(Province, [row], 0, shapes, out, i);
  }
}
