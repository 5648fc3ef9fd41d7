/** What `display_map` derives from the selection: the rows whose polygons
    give the map's extent, and the city and district rows drawn on top of the
    province layer. */
module Display {
  import opened Options
  import opened Tables
  import opened Merge
  import opened Session

  /** A selection field used as a condition: set and not the empty string. */
  predicate Truthy(s: Option<string>)
  {
    s.Some? && s.value != ""
  }

  /** The rows of `rows` that `keep` accepts, in their order (a boolean mask). */
  function Where(rows: seq<Joined>, keep: Joined -> bool): (r: seq<Joined>)
    ensures |r| <= |rows|
  {
    if rows == [] then []
    else
      var rest := Where(rows[..|rows| - 1], keep);
      var last := rows[|rows| - 1];
      if keep(last) then rest + [last] else rest
  }

  /** Each accepted row occurs as often in the result as in `rows`, each
      rejected row not at all. */
  lemma {:induction false} WhereCount(rows: seq<Joined>, keep: Joined -> bool)
    ensures forall x :: multiset(Where(rows, keep))[x] == if keep(x) then multiset(rows)[x] else 0
  {
    if rows != [] {
      var prefix := rows[..|rows| - 1];
      var last := rows[|rows| - 1];
      WhereCount(prefix, keep);
      assert rows == prefix + [last];
      assert multiset(rows) == multiset(prefix) + multiset{last};
    }
  }

  /** Masking distributes over concatenation, so the kept rows stay in
      their original order. */
  lemma {:induction false} WhereAppend(a: seq<Joined>, b: seq<Joined>, keep: Joined -> bool)
    ensures Where(a + b, keep) == Where(a, keep) + Where(b, keep)
  {
    if b == [] {
      assert a + b == a;
    } else {
      var b' := b[..|b| - 1];
      var last := b[|b| - 1];
      WhereAppend(a, b', keep);
      assert (a + b)[..|a + b| - 1] == a + b';
      assert (a + b)[|a + b| - 1] == last;
      if keep(last) {
        calc {
          Where(a + b, keep);
          Where(a + b', keep) + [last];
          Where(a, keep) + Where(b', keep) + [last];
          Where(a, keep) + (Where(b', keep) + [last]);
          Where(a, keep) + Where(b, keep);
        }
      } else {
        calc {
          Where(a + b, keep);
          Where(a + b', keep);
          Where(a, keep) + Where(b', keep);
          Where(a, keep) + Where(b, keep);
        }
      }
    }
  }

  /** `df["WADMPR"] == province`: a row lies in the selected province. */
  predicate InProvince(row: Joined, province: Option<string>)
  {
    Some(row.key.wadmpr) == province
  }

  /** `(df["WADMKK"] == city) & (df["WADMPR"] == province)`. */
  predicate InCity(row: Joined, city: Option<string>, province: Option<string>)
  {
    (row.key.KabKey? || row.key.KecKey?) && Some(row.key.wadmkk) == city && InProvince(row, province)
  }

  /** Where the map is centred and zoomed: on the bounds of some rows, or on
      the bounds of all provinces at the start zoom. */
  datatype Extent = StartExtent | CityBounds(rows: seq<Joined>) | ProvinceBounds(rows: seq<Joined>)

  /** The extent branch of `display_map`: a selected city wins over a selected
      province, which wins over the start view. */
  function ChooseExtent(sel: Selection, dfProv: seq<Joined>, dfKab: seq<Joined>): (e: Extent)
    ensures Truthy(sel.city) ==> (e.CityBounds? &&
      forall x :: multiset(e.rows)[x] == if InCity(x, sel.city, sel.province) then multiset(dfKab)[x] else 0)
    ensures !Truthy(sel.city) && Truthy(sel.province) ==> (e.ProvinceBounds? &&
      forall x :: multiset(e.rows)[x] == if InProvince(x, sel.province) then multiset(dfProv)[x] else 0)
    ensures !Truthy(sel.city) && !Truthy(sel.province) ==> e == StartExtent
  {
    var inCity := row => InCity(row, sel.city, sel.province);
    var inProvince := row => InProvince(row, sel.province);
    WhereCount(dfKab, inCity);
    WhereCount(dfProv, inProvince);
    if Truthy(sel.city) then CityBounds(Where(dfKab, inCity))
    else if Truthy(sel.province) then ProvinceBounds(Where(dfProv, inProvince))
    else StartExtent
  }

  /** The city and district rows drawn over the province layer. */
  datatype Layers = Layers(cities: seq<Joined>, districts: seq<Joined>)

  /** The layer branch of `display_map`: cities of the selected province, and,
      when a city is selected too, the districts of that city in that province. */
  function ShownLayers(sel: Selection, dfKab: seq<Joined>, dfKec: seq<Joined>): (l: Layers)
    ensures !Truthy(sel.province) ==> l.cities == [] && l.districts == []
    ensures Truthy(sel.province) ==>
      forall x :: multiset(l.cities)[x] == if InProvince(x, sel.province) then multiset(dfKab)[x] else 0
    ensures Truthy(sel.province) && Truthy(sel.city) ==>
      forall x :: multiset(l.districts)[x] == if InCity(x, sel.city, sel.province) then multiset(dfKec)[x] else 0
    ensures !Truthy(sel.city) ==> l.districts == []
  {
    var inProvince := row => InProvince(row, sel.province);
    var inCity := row => InCity(row, sel.city, sel.province);
    WhereCount(dfKab, inProvince);
    WhereCount(dfKec, inCity);
    if !Truthy(sel.province) then Layers([], [])
    else
      var cities := Where(dfKab, inProvince);
      if Truthy(sel.city) then Layers(cities, Where(dfKec, inCity))
      else Layers(cities, [])
  }

  /** When both a province and a city are selected, the rows giving the
      extent are among the city rows drawn, and they and every district
      drawn lie in the selected city of the selected province. */
  lemma ExtentAmongShownCities(sel: Selection, dfProv: seq<Joined>, dfKab: seq<Joined>, dfKec: seq<Joined>)
    requires Truthy(sel.province) && Truthy(sel.city)
    ensures forall x :: x in ChooseExtent(sel, dfProv, dfKab).rows ==>
      x in ShownLayers(sel, dfKab, dfKec).cities && InCity(x, sel.city, sel.province)
    ensures forall y :: y in ShownLayers(sel, dfKab, dfKec).districts ==> InCity(y, sel.city, sel.province)
  {
    var e := ChooseExtent(sel, dfProv, dfKab);
    var l := ShownLayers(sel, dfKab, dfKec);
    forall x | x in e.rows ensures x in l.cities && InCity(x, sel.city, sel.province) {
      assert multiset(e.rows)[x] > 0;
    }
    forall y | y in l.districts ensures InCity(y, sel.city, sel.province) {
      assert multiset(l.districts)[y] > 0;
    }
  }
}
