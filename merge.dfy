/** The left merge of the aggregated rows onto a boundary table: every
    boundary row is kept, in order, and carries the metrics of the aggregated
    rows with an equal key, or missing metrics when there is none. */
module Merge {
  import opened Options
  import opened Tables
  import opened Growth

  /** A row of a level's final table: name key, polygon and, when the raw
      data had the area, its metrics. */
  datatype Joined = Joined(key: Key, geometry: Geometry, metrics: Option<Metrics>)

  /** The metrics of the aggregated rows whose key is `k`, in their order. */
  function Matches(right: seq<Grown>, k: Key): (ms: seq<Metrics>)
    ensures |ms| <= |right|
    ensures forall j :: 0 <= j < |right| && right[j].key == k ==> right[j].metrics in ms
    ensures ms == [] <==> forall j :: 0 <= j < |right| ==> right[j].key != k
    ensures forall m :: m in ms ==> exists j :: 0 <= j < |right| && right[j].key == k && right[j].metrics == m
  {
    if right == [] then []
    else
      var rest := Matches(right[1..], k);
      assert forall j :: 1 <= j < |right| ==> right[j] == right[1..][j - 1];
      if right[0].key == k then [right[0].metrics] + rest else rest
  }

  /** Distinct keys on the right give at most one match, and the matching row's metrics. */
  lemma {:induction false} MatchesUnique(right: seq<Grown>, k: Key, j: int)
    requires UniqueKeys(right)
    requires 0 <= j < |right| && right[j].key == k
    ensures Matches(right, k) == [right[j].metrics]
  {
    if j == 0 {
      forall b | 0 <= b < |right[1..]| ensures right[1..][b].key != k {
        assert right[1..][b] == right[b + 1];
      }
    } else {
      MatchesUnique(right[1..], k, j - 1);
    }
  }

  /** The output rows contributed by one boundary row. */
  function RowsFor(l: Shape, right: seq<Grown>): seq<Joined>
  {
    var ms := Matches(right, l.key);
    if ms == [] then [Joined(l.key, l.geometry, None)]
    else seq(|ms|, i requires 0 <= i < |ms| => Joined(l.key, l.geometry, Some(ms[i])))
  }

  /** `pd.merge(left, right, on=keys, how="left")`: for each boundary row in
      order, one row per aggregated row with an equal key, or a single row
      with missing metrics. Aggregated rows whose key no boundary row has
      contribute nothing. */
  function MergeLeft(left: seq<Shape>, right: seq<Grown>): (r: seq<Joined>)
    ensures |r| >= |left|
    ensures forall x :: x in r ==> Shape(x.key, x.geometry) in left
    ensures forall x :: x in r && x.metrics.Some? ==>
      exists j :: 0 <= j < |right| && right[j].key == x.key && right[j].metrics == x.metrics.value
  {
    if left == [] then []
    else
      var here := RowsFor(left[0], right);
      var rest := MergeLeft(left[1..], right);
      assert forall x :: x in rest ==> Shape(x.key, x.geometry) in left by {
        forall x | x in rest ensures Shape(x.key, x.geometry) in left {
          assert Shape(x.key, x.geometry) in left[1..];
        }
      }
      assert forall x :: x in here && x.metrics.Some? ==>
        exists j :: 0 <= j < |right| && right[j].key == x.key && right[j].metrics == x.metrics.value by {
        var ms := Matches(right, left[0].key);
        forall x | x in here && x.metrics.Some?
          ensures exists j :: 0 <= j < |right| && right[j].key == x.key && right[j].metrics == x.metrics.value
        {
          var i :| 0 <= i < |here| && here[i] == x;
          assert x.metrics.value == ms[i] && ms[i] in ms;
        }
      }
      here + rest
  }

  /** Every boundary row appears in the merge with its key and polygon. */
  lemma {:induction false} MergeLeftCovers(left: seq<Shape>, right: seq<Grown>)
    ensures forall i :: 0 <= i < |left| ==>
      exists x :: x in MergeLeft(left, right) && x.key == left[i].key && x.geometry == left[i].geometry
  {
    if left != [] {
      MergeLeftCovers(left[1..], right);
      var here := RowsFor(left[0], right);
      var rest := MergeLeft(left[1..], right);
      var r := MergeLeft(left, right);
      assert r == here + rest;
      forall i | 0 <= i < |left|
        ensures exists x :: x in r && x.key == left[i].key && x.geometry == left[i].geometry
      {
        if i == 0 {
          assert here[0] in r;
        } else {
          assert left[i] == left[1..][i - 1];
          var x :| x in rest && x.key == left[1..][i - 1].key && x.geometry == left[1..][i - 1].geometry;
          assert x in r;
        }
      }
    }
  }

  /** A merged row has missing metrics only when no aggregated row has its key. */
  lemma {:induction false} MergeLeftMissingOnlyUnmatched(left: seq<Shape>, right: seq<Grown>)
    ensures forall x :: x in MergeLeft(left, right) && x.metrics.None? ==>
      forall j :: 0 <= j < |right| ==> right[j].key != x.key
  {
    if left != [] {
      MergeLeftMissingOnlyUnmatched(left[1..], right);
      var here := RowsFor(left[0], right);
      var rest := MergeLeft(left[1..], right);
      assert MergeLeft(left, right) == here + rest;
      forall x | x in here && x.metrics.None?
        ensures forall j :: 0 <= j < |right| ==> right[j].key != x.key
      {
        assert Matches(right, left[0].key) == [];
      }
    }
  }

  ghost predicate UniqueKeys(right: seq<Grown>)
  {
    forall a, b :: 0 <= a < b < |right| ==> right[a].key != right[b].key
  }

  /** Output row `x` is boundary row `l` joined with the aggregated rows:
      same key and polygon, the metrics of the aggregated row with that key,
      and missing metrics exactly when no aggregated row has that key. */
  ghost predicate JoinsTo(l: Shape, right: seq<Grown>, x: Joined)
  {
    && x.key == l.key
    && x.geometry == l.geometry
    && (x.metrics.None? <==> forall j :: 0 <= j < |right| ==> right[j].key != l.key)
    && (forall j :: 0 <= j < |right| && right[j].key == l.key ==> x.metrics == Some(right[j].metrics))
  }

  lemma RowsForOne(l: Shape, right: seq<Grown>)
    requires UniqueKeys(right)
    ensures |RowsFor(l, right)| == 1 && JoinsTo(l, right, RowsFor(l, right)[0])
  {
    if j :| 0 <= j < |right| && right[j].key == l.key {
      MatchesUnique(right, l.key, j);
    }
  }

  /** With distinct keys on the right, as a group-by produces them, the left
      merge has exactly the boundary rows, in their order, each joined with
      the aggregated row of equal key or with missing metrics. */
  lemma {:induction false} MergeLeftOneToOne(left: seq<Shape>, right: seq<Grown>)
    requires UniqueKeys(right)
    ensures |MergeLeft(left, right)| == |left|
    ensures forall i :: 0 <= i < |left| ==> JoinsTo(left[i], right, MergeLeft(left, right)[i])
  {
    if left != [] {
      MergeLeftOneToOne(left[1..], right);
      RowsForOne(left[0], right);
      var r := MergeLeft(left, right);
      var rest := MergeLeft(left[1..], right);
      assert r == RowsFor(left[0], right) + rest;
      forall i | 1 <= i < |left|
        ensures JoinsTo(left[i], right, r[i])
      {
        assert r[i] == rest[i - 1] && left[i] == left[1..][i - 1];
      }
    }
  }
}
