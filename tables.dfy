/** The tables of the aggregation pipeline: raw customer rows, their count
    columns, the name keys of the three administrative levels and the
    boundary shapes the results are joined onto. */
module Tables {

  datatype Year = Y2019 | Y2024

  /** The business units whose bookings are split into an N and a Y sub-count. */
  datatype Unit = NMC | REFI | MPF | MMU | OTHERS

  datatype Category = N | Y

  /** The units in the order in which the growth computation visits them. */
  const BusinessUnits: seq<Unit> := [NMC, REFI, MPF, MMU, OTHERS]

  /** The two sub-counts of one unit in one year: `{year}_{unit}_N` and `{year}_{unit}_Y`. */
  datatype Split = Split(n: int, y: int)

  /** The count columns of one year: `{year}_CUST_NO` and the ten sub-counts. */
  datatype YearCounts = YearCounts(custNo: int, nmc: Split, refi: Split, mpf: Split, mmu: Split, others: Split)

  /** Every numeric column of a raw row, i.e. every column after the three names. */
  datatype Counts = Counts(y2019: YearCounts, y2024: YearCounts)

  /** The name of one numeric column. */
  datatype Column = CustNo(year: Year) | SubCount(year: Year, unit: Unit, category: Category)

  function InYear(c: Counts, year: Year): YearCounts
  {
    match year
    case Y2019 => c.y2019
    case Y2024 => c.y2024
  }

  function SplitOf(yc: YearCounts, unit: Unit): Split
  {
    match unit
    case NMC => yc.nmc
    case REFI => yc.refi
    case MPF => yc.mpf
    case MMU => yc.mmu
    case OTHERS => yc.others
  }

  /** The value of column `col` in the counts `c`. */
  function Col(c: Counts, col: Column): int
  {
    match col
    case CustNo(year) => InYear(c, year).custNo
    case SubCount(year, unit, category) =>
      var s := SplitOf(InYear(c, year), unit);
      if category == N then s.n else s.y
  }

  function AddSplit(a: Split, b: Split): Split
  {
    Split(a.n + b.n, a.y + b.y)
  }

  function AddYear(a: YearCounts, b: YearCounts): YearCounts
  {
    YearCounts(a.custNo + b.custNo, AddSplit(a.nmc, b.nmc), AddSplit(a.refi, b.refi),
               AddSplit(a.mpf, b.mpf), AddSplit(a.mmu, b.mmu), AddSplit(a.others, b.others))
  }

  /** The counts in which every column is 0: the sum of no rows. */
  function Zero(): (z: Counts)
    ensures forall col :: Col(z, col) == 0
  {
    var s := Split(0, 0);
    var yc := YearCounts(0, s, s, s, s, s);
    Counts(yc, yc)
  }

  /** Column-wise sum of two rows' counts. */
  function Add(a: Counts, b: Counts): (r: Counts)
    ensures forall col :: Col(r, col) == Col(a, col) + Col(b, col)
  {
    Counts(AddYear(a.y2019, b.y2019), AddYear(a.y2024, b.y2024))
  }

  /** Adding the empty sum changes nothing. */
  lemma AddZero(c: Counts)
    ensures Add(Zero(), c) == c
  {
  }

  /** Name keys identifying an area at each level. City names are only unique
      within a province, district names only within a city, so the keys carry
      the enclosing names too. Every key has a province name `wadmpr`. */
  datatype Key =
    | ProvKey(wadmpr: string)
    | KabKey(wadmkk: string, wadmpr: string)
    | KecKey(wadmkc: string, wadmkk: string, wadmpr: string)

  /** Province, city (kabupaten) and district (kecamatan). */
  datatype Level = Province | Kabupaten | Kecamatan

  /** One row of the raw customer table: district, city and province names
      (`WADMKC`, `WADMKK`, `WADMPR`) followed by the count columns. */
  datatype RawRow = RawRow(wadmkc: string, wadmkk: string, wadmpr: string, counts: Counts)

  /** The group-by key of a raw row at a level. */
  function KeyOf(level: Level, row: RawRow): Key
  {
    match level
    case Province => ProvKey(row.wadmpr)
    case Kabupaten => KabKey(row.wadmkk, row.wadmpr)
    case Kecamatan => KecKey(row.wadmkc, row.wadmkk, row.wadmpr)
  }

  /** A boundary polygon, kept opaque: only its identity travels through the pipeline. */
  datatype Geometry = Geometry(shapeId: nat)

  /** One row of a boundary table: the area's name key and its polygon. */
  datatype Shape = Shape(key: Key, geometry: Geometry)

  predicate IsLower(c: char)
  {
    'a' <= c <= 'z'
  }

  /** Upper-cases the ASCII letters of `s` and leaves every other character alone. */
  function Upper(s: string): (u: string)
    ensures |u| == |s|
    ensures forall i :: 0 <= i < |s| && !IsLower(s[i]) ==> u[i] == s[i]
    ensures forall i :: 0 <= i < |s| && IsLower(s[i]) ==> u[i] as int == s[i] as int - 32 && 'A' <= u[i] <= 'Z'
    ensures forall i :: 0 <= i < |u| ==> !IsLower(u[i])
  {
    seq(|s|, i requires 0 <= i < |s| => if IsLower(s[i]) then (s[i] as int - 32) as char else s[i])
  }

  predicate HasLower(s: string)
  {
    exists i :: 0 <= i < |s| && IsLower(s[i])
  }

  /** Upper-cases every name in a key. */
  function UpperKey(k: Key): (u: Key)
    ensures u.wadmpr == Upper(k.wadmpr)
    ensures !HasLower(u.wadmpr)
    ensures u.ProvKey? == k.ProvKey? && u.KabKey? == k.KabKey? && u.KecKey? == k.KecKey?
    ensures (u.KabKey? || u.KecKey?) ==> u.wadmkk == Upper(k.wadmkk) && !HasLower(u.wadmkk)
    ensures u.KecKey? ==> u.wadmkc == Upper(k.wadmkc) && !HasLower(u.wadmkc)
  {
    match k
    case ProvKey(p) => ProvKey(Upper(p))
    case KabKey(kk, p) => KabKey(Upper(kk), Upper(p))
    case KecKey(kc, kk, p) => KecKey(Upper(kc), Upper(kk), Upper(p))
  }

  /** The boundary table with its name columns upper-cased. */
  function UpperShapes(shapes: seq<Shape>): (r: seq<Shape>)
    ensures |r| == |shapes|
    ensures forall i :: 0 <= i < |r| ==> r[i].geometry == shapes[i].geometry
    ensures forall i :: 0 <= i < |r| ==>
      r[i].key.ProvKey? == shapes[i].key.ProvKey? && r[i].key.KabKey? == shapes[i].key.KabKey?
    ensures forall i :: 0 <= i < |r| ==> r[i].key.wadmpr == Upper(shapes[i].key.wadmpr) && !HasLower(r[i].key.wadmpr)
    ensures forall i :: 0 <= i < |r| && !shapes[i].key.ProvKey? ==>
      r[i].key.wadmkk == Upper(shapes[i].key.wadmkk) && !HasLower(r[i].key.wadmkk)
    ensures forall i :: 0 <= i < |r| && shapes[i].key.KecKey? ==>
      r[i].key.wadmkc == Upper(shapes[i].key.wadmkc) && !HasLower(r[i].key.wadmkc)
  {
    seq(|shapes|, i requires 0 <= i < |shapes| => Shape(UpperKey(shapes[i].key), shapes[i].geometry))
  }
}
