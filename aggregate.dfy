/** The group-by-and-sum step: one aggregated row per distinct name key of a
    level, holding the column-wise sum of the raw rows with that key. */
module Aggregate {
  import opened Tables
  import opened Growth

  /** Reference definition: the counts of the raw rows whose key at `level` is
      `k`, added column by column in row order. */
  function SumWhere(level: Level, rows: seq<RawRow>, k: Key): Counts
  {
    if rows == [] then Zero()
    else
      var before := SumWhere(level, rows[..|rows| - 1], k);
      if KeyOf(level, rows[|rows| - 1]) == k then Add(before, rows[|rows| - 1].counts) else before
  }

  /** The sum of one column over the raw rows whose key at `level` is `k`. */
  function ColumnSum(level: Level, rows: seq<RawRow>, k: Key, col: Column): int
  {
    if rows == [] then 0
    else
      var before := ColumnSum(level, rows[..|rows| - 1], k, col);
      if KeyOf(level, rows[|rows| - 1]) == k then before + Col(rows[|rows| - 1].counts, col) else before
  }

  /** Every column of the summed counts is the sum of that column. */
  lemma {:induction false} SumWhereByColumn(level: Level, rows: seq<RawRow>, k: Key, col: Column)
    ensures Col(SumWhere(level, rows, k), col) == ColumnSum(level, rows, k, col)
  {
    if rows != [] {
      SumWhereByColumn(level, rows[..|rows| - 1], k, col);
    }
  }

  /** Rows none of which has key `k` sum to zero. */
  lemma {:induction false} SumWhereAbsent(level: Level, rows: seq<RawRow>, k: Key)
    requires forall j :: 0 <= j < |rows| ==> KeyOf(level, rows[j]) != k
    ensures SumWhere(level, rows, k) == Zero()
  {
    if rows != [] {
      SumWhereAbsent(level, rows[..|rows| - 1], k);
    }
  }

  /** The rows of an area that has a single raw row sum to that row's counts. */
  lemma {:induction false} SumWhereOne(level: Level, rows: seq<RawRow>, j: int)
    requires 0 <= j < |rows|
    requires forall m :: 0 <= m < |rows| && m != j ==> KeyOf(level, rows[m]) != KeyOf(level, rows[j])
    ensures SumWhere(level, rows, KeyOf(level, rows[j])) == rows[j].counts
  {
    var prefix := rows[..|rows| - 1];
    if j == |rows| - 1 {
      forall m | 0 <= m < |prefix| ensures KeyOf(level, prefix[m]) != KeyOf(level, rows[j]) {
        assert prefix[m] == rows[m];
      }
      SumWhereAbsent(level, prefix, KeyOf(level, rows[j]));
      AddZero(rows[j].counts);
    } else {
      assert prefix[j] == rows[j];
      forall m | 0 <= m < |prefix| && m != j ensures KeyOf(level, prefix[m]) != KeyOf(level, prefix[j]) {
        assert prefix[m] == rows[m];
      }
      SumWhereOne(level, prefix, j);
    }
  }

  predicate HasKey(groups: seq<Agg>, k: Key)
  {
    exists i :: 0 <= i < |groups| && groups[i].key == k
  }

  ghost predicate DistinctKeys(groups: seq<Agg>)
  {
    forall i, j :: 0 <= i < j < |groups| ==> groups[i].key != groups[j].key
  }

  /** Some raw row has key `k` at `level`. */
  predicate Occurs(level: Level, rows: seq<RawRow>, k: Key)
  {
    exists j :: 0 <= j < |rows| && KeyOf(level, rows[j]) == k
  }

  /** The position of the group with key `k`, or -1 when there is none. */
  function FindKey(groups: seq<Agg>, k: Key): (i: int)
    ensures -1 <= i < |groups|
    ensures i >= 0 ==> groups[i].key == k
    ensures i < 0 <==> !HasKey(groups, k)
  {
    if groups == [] then -1
    else if groups[|groups| - 1].key == k then |groups| - 1
    else
      var i := FindKey(groups[..|groups| - 1], k);
      assert HasKey(groups, k) ==> HasKey(groups[..|groups| - 1], k) by {
        if HasKey(groups, k) {
          var j :| 0 <= j < |groups| && groups[j].key == k;
          assert groups[..|groups| - 1][j].key == k;
        }
      }
      i
  }

  /** Adds one row's counts to the group with key `k`, or opens a new group
      for `k` at the end when there is none yet. */
  function AddTo(groups: seq<Agg>, k: Key, c: Counts): (r: seq<Agg>)
    requires DistinctKeys(groups)
    ensures DistinctKeys(r)
    ensures HasKey(groups, k) ==> |r| == |groups|
    ensures !HasKey(groups, k) ==> |r| == |groups| + 1 && r[|groups|] == Agg(k, c)
    ensures forall i :: 0 <= i < |groups| ==> r[i].key == groups[i].key
    ensures forall i :: 0 <= i < |groups| && groups[i].key != k ==> r[i].counts == groups[i].counts
    ensures forall i :: 0 <= i < |groups| && groups[i].key == k ==> r[i].counts == Add(groups[i].counts, c)
  {
    var i := FindKey(groups, k);
    if i < 0 then groups + [Agg(k, c)]
    else groups[i := groups[i].(counts := Add(groups[i].counts, c))]
  }

  /** The keys present after `AddTo` are the old ones and `k`. */
  lemma AddToKeys(groups: seq<Agg>, k: Key, c: Counts)
    requires DistinctKeys(groups)
    ensures forall key :: HasKey(AddTo(groups, k, c), key) <==> HasKey(groups, key) || key == k
  {
  }

  /** The keys occurring in rows are those of all but the last row, and the last row's. */
  lemma OccursSnoc(level: Level, rows: seq<RawRow>)
    requires rows != []
    ensures forall key :: Occurs(level, rows, key) <==>
      Occurs(level, rows[..|rows| - 1], key) || key == KeyOf(level, rows[|rows| - 1])
  {
  }

  /** `groupby(keys)[agg_columns].sum()`: exactly one row per distinct key of
      the raw rows, each holding the column-wise sum of the rows with its key. */
  function GroupSum(level: Level, rows: seq<RawRow>): (r: seq<Agg>)
    ensures DistinctKeys(r)
    ensures forall k :: HasKey(r, k) <==> Occurs(level, rows, k)
    ensures forall i :: 0 <= i < |r| ==> r[i].counts == SumWhere(level, rows, r[i].key)
  {
    if rows == [] then []
    else
      var prefix := rows[..|rows| - 1];
      var last := rows[|rows| - 1];
      var k := KeyOf(level, last);
      var groups := GroupSum(level, prefix);
      AddToKeys(groups, k, last.counts);
      OccursSnoc(level, rows);
      if !HasKey(groups, k) then
        SumWhereAbsent(level, prefix, k);
        AddZero(last.counts);
        AddTo(groups, k, last.counts)
      else AddTo(groups, k, last.counts)
  }

  /** Adding counts is associative and commutative. */
  lemma AddAssociative(a: Counts, b: Counts, c: Counts)
    ensures Add(Add(a, b), c) == Add(a, Add(b, c))
  {
  }

  lemma AddCommutative(a: Counts, b: Counts)
    ensures Add(a, b) == Add(b, a)
  {
  }

  /** A district key lies in the city `kk` of province `pr`. */
  predicate InCityOf(k: Key, kk: string, pr: string)
  {
    k.KecKey? && k.wadmkk == kk && k.wadmpr == pr
  }

  /** The counts of the district groups of one city, added in group order. */
  function CityTotal(groups: seq<Agg>, kk: string, pr: string): Counts
  {
    if groups == [] then Zero()
    else
      var before := CityTotal(groups[..|groups| - 1], kk, pr);
      var g := groups[|groups| - 1];
      if InCityOf(g.key, kk, pr) then Add(before, g.counts) else before
  }

  /** Adding counts to one group adds them to its city's total. */
  lemma {:induction false} CityTotalUpdate(groups: seq<Agg>, i: int, c: Counts, kk: string, pr: string)
    requires 0 <= i < |groups|
    ensures CityTotal(groups[i := groups[i].(counts := Add(groups[i].counts, c))], kk, pr) ==
      if InCityOf(groups[i].key, kk, pr) then Add(CityTotal(groups, kk, pr), c) else CityTotal(groups, kk, pr)
  {
    var updated := groups[i := groups[i].(counts := Add(groups[i].counts, c))];
    var n := |groups|;
    var before := CityTotal(groups[..n - 1], kk, pr);
    assert updated[..n - 1] == if i == n - 1 then groups[..n - 1]
      else groups[..n - 1][i := groups[i].(counts := Add(groups[i].counts, c))];
    if i == n - 1 {
      AddAssociative(before, groups[i].counts, c);
    } else {
      CityTotalUpdate(groups[..n - 1], i, c, kk, pr);
      var last := groups[n - 1].counts;
      AddAssociative(before, c, last);
      AddAssociative(before, last, c);
      AddCommutative(c, last);
    }
  }

  /** Opening a new group adds its counts to its city's total. */
  lemma CityTotalAppend(groups: seq<Agg>, g: Agg, kk: string, pr: string)
    ensures CityTotal(groups + [g], kk, pr) ==
      if InCityOf(g.key, kk, pr) then Add(CityTotal(groups, kk, pr), g.counts) else CityTotal(groups, kk, pr)
  {
  }

  /** The city and district tables are aggregated from the same raw rows, so
      a city's summed counts equal the sum of its districts' summed counts. */
  lemma {:induction false} DistrictsRollUpToCity(rows: seq<RawRow>, kk: string, pr: string)
    ensures CityTotal(GroupSum(Kecamatan, rows), kk, pr) == SumWhere(Kabupaten, rows, KabKey(kk, pr))
  {
    if rows != [] {
      var prefix := rows[..|rows| - 1];
      var last := rows[|rows| - 1];
      var k := KeyOf(Kecamatan, last);
      var groups := GroupSum(Kecamatan, prefix);
      DistrictsRollUpToCity(prefix, kk, pr);
      assert InCityOf(k, kk, pr) <==> KeyOf(Kabupaten, last) == KabKey(kk, pr);
      var i := FindKey(groups, k);
      if i < 0 {
        CityTotalAppend(groups, Agg(k, last.counts), kk, pr);
      } else {
        CityTotalUpdate(groups, i, last.counts, kk, pr);
      }
    }
  }
}
