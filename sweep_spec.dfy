/**
 * The sensitivity sweep of the RRTM page as values: the grids, the parameters and results of
 * each grid point, the order of the records, and the loop states the sweep passes through.
 */
module SweepSpec {
  import opened Wrappers
  import opened Dicts
  import opened Strings
  import opened DivBased
  import opened RrtmModel
  import opened RrtmParams

  // ---------------------------------------------------------------------------
  // Grids

  /** Point `i` of np.linspace(lo, hi, n): evenly spaced, the last point exactly `hi`. */
  function LinspacePoint(lo: real, hi: real, n: nat, i: nat): real
    requires i < n
  {
    if n == 1 then lo
    else if i == n - 1 then hi
    else lo + (i as real) * ((hi - lo) / ((n - 1) as real))
  }

  /** np.linspace(lo, hi, n); a negative count raises ValueError. */
  function Linspace(lo: real, hi: real, n: int): (r: Result<seq<real>>)
    ensures r.Ok? <==> n >= 0
    ensures r.Err? ==> r.error == ValueError
    ensures r.Ok? ==> |r.value| == n
    ensures r.Ok? && n >= 1 ==> r.value[0] == lo
    ensures r.Ok? && n >= 2 ==> r.value[n - 1] == hi
  {
    if n < 0 then Err(ValueError)
    else Ok(seq(n, i requires 0 <= i < n => LinspacePoint(lo, hi, n, i)))
  }

  /** Consecutive grid points are one step (hi - lo) / (n - 1) apart, the last one included. */
  lemma LinspaceEvenlySpaced(lo: real, hi: real, n: int, i: nat)
    requires n >= 2 && i + 1 < n
    ensures Linspace(lo, hi, n).value[i + 1] - Linspace(lo, hi, n).value[i] == (hi - lo) / ((n - 1) as real)
  {
    var step := (hi - lo) / ((n - 1) as real);
    if i + 1 == n - 1 {
      assert ((n - 1) as real) * step == hi - lo;
      assert (i as real) == ((n - 1) as real) - 1.0;
      assert (i as real) * step == ((n - 1) as real) * step - step;
    }
  }

  // ---------------------------------------------------------------------------
  // The parameters of one grid point

  /** Whether the sweep is modelled as the page is written, or with its two defects corrected. */
  datatype Convention = AsWritten | Corrected

  /** A ppm value as the model wants it: a volume mixing ratio. */
  function PpmToVmr(ppm: real): real {
    ppm / 1000000.0
  }

  /**
   * The value the sweep stores for parameter `param` at grid value `v`: as written, a
   * parameter whose id contains "concentration" is converted from ppm here already.
   */
  function Scale(param: string, v: real, convention: Convention): real {
    if convention == AsWritten && Contains(param, Concentration) then PpmToVmr(v) else v
  }

  /** rrtm_params after the two overlay assignments of one grid point; parameter 2 is written last. */
  function Overlay(base: map<string, Json>, param1: string, param2: string, v1: real, v2: real,
                   convention: Convention): (params: map<string, Json>)
    ensures params.Keys == base.Keys + {param1, param2}
    ensures params[param2] == Num(Scale(param2, v2, convention))
    ensures param1 != param2 ==> params[param1] == Num(Scale(param1, v1, convention))
    ensures forall k :: k in base && k != param1 && k != param2 ==> params[k] == base[k]
  {
    base[param1 := Num(Scale(param1, v1, convention))][param2 := Num(Scale(param2, v2, convention))]
  }

  /** rrtm_params[key] used as a number: KeyError when missing, TypeError when not a number. */
  function NumberAt(params: map<string, Json>, key: string): (r: Result<real>)
    ensures r.Ok? <==> key in params && params[key].Num?
    ensures r.Ok? ==> r.value == params[key].x
  {
    if key !in params then Err(KeyError)
    else if params[key].Obj? then Err(TypeError)
    else Ok(params[key].x)
  }

  /** absorber_vmr.copy() with CO2 and CH4 set from the parameters' ppm values. */
  function AbsorbersOf(params: map<string, Json>): (r: Result<Absorbers>)
    ensures r.Ok? <==> NumberAt(params, Co2Id).Ok? && NumberAt(params, Ch4Id).Ok?
    ensures r.Ok? ==> r.value.Keys == AbsorberTemplate.Keys
    ensures r.Ok? ==> r.value["CO2"] == PpmToVmr(params[Co2Id].x) && r.value["CH4"] == PpmToVmr(params[Ch4Id].x)
    ensures r.Ok? ==> forall g :: g in AbsorberTemplate && g != "CO2" && g != "CH4" ==> r.value[g] == 0.0
  {
    match NumberAt(params, Co2Id)
    case Err(e) => Err(e)
    case Ok(co2) =>
      match NumberAt(params, Ch4Id)
      case Err(e) => Err(e)
      case Ok(ch4) => Ok(AbsorberTemplate["CO2" := PpmToVmr(co2)]["CH4" := PpmToVmr(ch4)])
  }

  /** The four lookups of one grid point succeed on the overlaid parameters. */
  predicate LookupsOk(params: map<string, Json>) {
    NumberAt(params, Co2Id).Ok? && NumberAt(params, Ch4Id).Ok? &&
    NumberAt(params, SurfaceTemperatureId).Ok? && NumberAt(params, RelHumidityId).Ok?
  }

  /** Whether the lookups succeed does not depend on the grid values written by the overlay. */
  lemma LookupsOkAtEveryPoint(base: map<string, Json>, param1: string, param2: string,
                              a1: real, a2: real, b1: real, b2: real, convention: Convention)
    ensures LookupsOk(Overlay(base, param1, param2, a1, a2, convention)) ==
            LookupsOk(Overlay(base, param1, param2, b1, b2, convention))
  {
  }

  /** The stratospheric temperature the sweep passes to calc_olr. */
  const SweepTstrat: real := 190.0

  /** What one grid point yields, before it is stored in a record. */
  datatype PointValues = PointValues(v1: real, v2: real, olr: real, asr: real, netFlux: real, eqTemp: real)

  /** The everything-but-the-loop of a sweep. */
  datatype Sweep = Sweep(param1: string, param2: string, values1: seq<real>, values2: seq<real>,
                         base: map<string, Json>, flux: FluxModel, rootScalar: RootFinder,
                         convention: Convention)

  /** The flux run and the equilibrium search at one set of parameters. */
  function Evaluate(params: map<string, Json>, v1: real, v2: real, flux: FluxModel, rootScalar: RootFinder): (p: PointValues)
    requires LookupsOk(params)
  {
    var ab := AbsorbersOf(params).value;
    var rh := params[RelHumidityId].x;
    var rad := flux(params[SurfaceTemperatureId].x, ab, rh, SweepTstrat);
    PointValues(v1, v2, rad.olr, rad.asr, rad.olr - rad.asr,
                FindEquilibriumSurfaceTemperature(ab, DefaultEquilibriumTstrat, rh, flux, rootScalar))
  }

  /** The parameters at grid point (i, j). */
  function ParamsAt(s: Sweep, i: nat, j: nat): map<string, Json>
    requires i < |s.values1| && j < |s.values2|
  {
    Overlay(s.base, s.param1, s.param2, s.values1[i], s.values2[j], s.convention)
  }

  /**
   * The grid can be evaluated: it is empty, or the four lookups succeed at its first point
   * (and so, by LookupsAtOrigin, at every point).
   */
  predicate Evaluable(s: Sweep) {
    |s.values1| == 0 || |s.values2| == 0 ||
    LookupsOk(Overlay(s.base, s.param1, s.param2, 0.0, 0.0, s.convention))
  }

  /** Whether the lookups succeed at one grid point is whether the grid is evaluable. */
  lemma LookupsAtOrigin(s: Sweep, i: nat, j: nat)
    requires i < |s.values1| && j < |s.values2|
    ensures LookupsOk(ParamsAt(s, i, j)) == Evaluable(s)
  {
    LookupsOkAtEveryPoint(s.base, s.param1, s.param2, s.values1[i], s.values2[j], 0.0, 0.0, s.convention);
  }

  /** The values of grid point (i, j). */
  function PointAt(s: Sweep, i: nat, j: nat): (p: PointValues)
    requires i < |s.values1| && j < |s.values2| && LookupsOk(ParamsAt(s, i, j))
    ensures p.v1 == s.values1[i] && p.v2 == s.values2[j] && p.netFlux == p.olr - p.asr
  {
    Evaluate(ParamsAt(s, i, j), s.values1[i], s.values2[j], s.flux, s.rootScalar)
  }

  /** The points of row `i` for its first `j` columns. */
  function RowPrefix(s: Sweep, i: nat, j: nat): (row: seq<PointValues>)
    requires i < |s.values1| && j <= |s.values2| && Evaluable(s)
    ensures |row| == j
  {
    if j == 0 then [] else LookupsAtOrigin(s, i, j - 1); RowPrefix(s, i, j - 1) + [PointAt(s, i, j - 1)]
  }

  /** Element `b` of a row is grid point (i, b). */
  lemma {:induction false} RowPrefixAt(s: Sweep, i: nat, j: nat, b: nat)
    requires i < |s.values1| && j <= |s.values2| && Evaluable(s) && b < j
    ensures LookupsOk(ParamsAt(s, i, b))
    ensures RowPrefix(s, i, j)[b] == PointAt(s, i, b)
  {
    if b < j - 1 {
      RowPrefixAt(s, i, j - 1, b);
      RowPrefixKeeps(s, i, j, b);
    } else {
      LookupsAtOrigin(s, i, b);
    }
  }

  /** Extending a row keeps its earlier columns. */
  lemma RowPrefixKeeps(s: Sweep, i: nat, j: nat, b: nat)
    requires i < |s.values1| && 0 < j <= |s.values2| && Evaluable(s) && b < j - 1
    ensures RowPrefix(s, i, j)[b] == RowPrefix(s, i, j - 1)[b]
  {
  }

  /** The rows of the grid, one per value of parameter 1. */
  function GridRows(s: Sweep): (rows: seq<seq<PointValues>>)
    requires Evaluable(s)
    ensures |rows| == |s.values1|
    ensures forall a :: 0 <= a < |rows| ==> rows[a] == RowPrefix(s, a, |s.values2|)
  {
    seq(|s.values1|, a requires 0 <= a < |s.values1| => RowPrefix(s, a, |s.values2|))
  }

  /** The points of the first `i` rows, row after row. */
  function GridPrefix(s: Sweep, i: nat): seq<PointValues>
    requires i <= |s.values1| && Evaluable(s)
  {
    if i == 0 then [] else GridPrefix(s, i - 1) + RowPrefix(s, i - 1, |s.values2|)
  }

  /** The first `i` rows are the first `i` grid rows laid end to end. */
  lemma {:induction false} GridPrefixFlattens(s: Sweep, i: nat)
    requires i <= |s.values1| && Evaluable(s)
    ensures GridPrefix(s, i) == Flatten(GridRows(s)[..i])
  {
    if i > 0 {
      GridPrefixFlattens(s, i - 1);
      FlattenSnoc(GridRows(s), i - 1);
    }
  }

  /** The rows laid end to end. */
  function Flatten<P>(rows: seq<seq<P>>): seq<P> {
    if rows == [] then [] else Flatten(rows[..|rows| - 1]) + rows[|rows| - 1]
  }

  /** Row-major positions: row a, column b of rows n2 wide comes before row a + 1. */
  lemma RowMajor(a: nat, b: nat, n2: nat, i: nat)
    requires a < i && b < n2
    ensures a * n2 + b < i * n2
  {
    assert (a + 1) * n2 == a * n2 + n2;
    assert (a + 1) * n2 <= i * n2;
  }

  /** Position a * n2 + b of an n1-by-n2 grid laid out row after row lies within the grid. */
  lemma RowMajorBounds(a: nat, b: nat, n1: nat, n2: nat)
    requires a < n1 && b < n2
    ensures 0 <= a * n2 + b < n1 * n2
  {
    RowMajor(a, b, n2, n1);
  }

  /** Element a * n2 + b of rows n2 wide laid end to end is element b of row a. */
  lemma {:induction false} FlattenIndex<P>(rows: seq<seq<P>>, n2: nat, a: nat, b: nat)
    requires forall r :: 0 <= r < |rows| ==> |rows[r]| == n2
    requires a < |rows| && b < n2
    ensures |Flatten(rows)| == |rows| * n2
    ensures a * n2 + b < |Flatten(rows)| && Flatten(rows)[a * n2 + b] == rows[a][b]
  {
    var i := |rows|;
    var prev := rows[..i - 1];
    var last := rows[i - 1];
    FlattenLength(rows, n2);
    FlattenLength(prev, n2);
    RowMajor(a, b, n2, i);
    var idx := a * n2 + b;
    if a < i - 1 {
      FlattenIndex(prev, n2, a, b);
      assert prev[a] == rows[a];
      assert (Flatten(prev) + last)[idx] == Flatten(prev)[idx];
    } else {
      assert idx == |Flatten(prev)| + b;
      assert (Flatten(prev) + last)[idx] == last[b];
    }
  }

  /** Rows n2 wide laid end to end have |rows| * n2 elements. */
  lemma {:induction false} FlattenLength<P>(rows: seq<seq<P>>, n2: nat)
    requires forall r :: 0 <= r < |rows| ==> |rows[r]| == n2
    ensures |Flatten(rows)| == |rows| * n2
  {
    if rows != [] {
      FlattenLength(rows[..|rows| - 1], n2);
      assert |rows| * n2 == (|rows| - 1) * n2 + n2;
    }
  }

  /** Record a * n2 + b of the sweep is grid point (a, b): parameter 1 outer, parameter 2 inner. */
  lemma SweepOrder(s: Sweep, a: nat, b: nat)
    requires Evaluable(s) && a < |s.values1| && b < |s.values2|
    ensures |Flatten(GridRows(s))| == |s.values1| * |s.values2|
    ensures a * |s.values2| + b < |s.values1| * |s.values2|
    ensures LookupsOk(ParamsAt(s, a, b))
    ensures Flatten(GridRows(s))[a * |s.values2| + b] == PointAt(s, a, b)
  {
    FlattenIndex(GridRows(s), |s.values2|, a, b);
    RowPrefixAt(s, a, |s.values2|, b);
  }

  // ---------------------------------------------------------------------------
  // The records of a sweep

  /** One entry of a dataset: the dict appended for one grid point. */
  datatype SensitivityPoint = SensitivityPoint(
    param1Value: real, param2Value: real, param1Label: string, param2Label: string,
    options: OrderedDict<string, Json>, olr: real, asr: real, netFlux: real, eqTemp: real)

  /** The numbers a record holds. */
  function ValuesOf(p: SensitivityPoint): PointValues {
    PointValues(p.param1Value, p.param2Value, p.olr, p.asr, p.netFlux, p.eqTemp)
  }

  function AllValues(ps: seq<SensitivityPoint>): (vs: seq<PointValues>)
    ensures |vs| == |ps| && forall k :: 0 <= k < |ps| ==> vs[k] == ValuesOf(ps[k])
  {
    if ps == [] then [] else AllValues(ps[..|ps| - 1]) + [ValuesOf(ps[|ps| - 1])]
  }

  /** The sensitivity store: datasets by name, in insertion order. */
  type Datasets = OrderedDict<string, seq<SensitivityPoint>>

  /** Every option entry is an object with a "value". */
  predicate HasValues(entries: map<string, Json>) {
    forall k :: k in entries ==> entries[k].Obj? && "value" in entries[k].fields
  }

  /** {param: val["value"] for param, val in options.items()} */
  function ValuesMap(entries: map<string, Json>): (m: map<string, Json>)
    requires HasValues(entries)
    ensures m.Keys == entries.Keys
    ensures forall k :: k in entries ==> m[k] == entries[k].fields["value"]
  {
    map k | k in entries :: entries[k].fields["value"]
  }

  /** The array position grid point (i, j) is written to: Z[j, i] as written, Z[i, j] corrected. */
  function ZIndex(convention: Convention, i: nat, j: nat): (nat, nat) {
    if convention == AsWritten then (j, i) else (i, j)
  }

  predicate ZIndexOk(convention: Convention, i: nat, j: nat, n1: nat, n2: nat) {
    ZIndex(convention, i, j).0 < n1 && ZIndex(convention, i, j).1 < n2
  }

  /** The parameter dict agrees with the sweep's starting values except at the swept keys. */
  ghost predicate AgreesOutside(cur: map<string, Json>, s: Sweep) {
    (forall k :: k != s.param1 && k != s.param2 ==> (k in cur <==> k in s.base)) &&
    forall k :: k in cur && k != s.param1 && k != s.param2 ==> cur[k] == s.base[k]
  }

  /** Overwriting the swept keys of such a dict gives the grid point's parameters. */
  lemma OverlayOnto(cur: map<string, Json>, s: Sweep, i: nat, j: nat)
    requires AgreesOutside(cur, s) && i < |s.values1| && j < |s.values2|
    ensures cur[s.param1 := Num(Scale(s.param1, s.values1[i], s.convention))]
               [s.param2 := Num(Scale(s.param2, s.values2[j], s.convention))] == ParamsAt(s, i, j)
  {
  }

  /** `cur` holds the swept values of grid point (i, j) under the two swept keys. */
  ghost predicate HoldsPoint(cur: map<string, Json>, s: Sweep, i: nat, j: nat)
    requires i < |s.values1| && j < |s.values2|
  {
    s.param1 in cur && s.param2 in cur &&
    cur[s.param2] == Num(Scale(s.param2, s.values2[j], s.convention)) &&
    (s.param1 != s.param2 ==> cur[s.param1] == Num(Scale(s.param1, s.values1[i], s.convention)))
  }

  /** A dict that agrees with the base elsewhere and holds a point's swept values is that point's parameters. */
  lemma PointParams(cur: map<string, Json>, s: Sweep, i: nat, j: nat)
    requires i < |s.values1| && j < |s.values2| && AgreesOutside(cur, s) && HoldsPoint(cur, s, i, j)
    ensures cur == ParamsAt(s, i, j)
  {
    var p := ParamsAt(s, i, j);
    assert cur.Keys == p.Keys;
    forall k | k in cur
      ensures cur[k] == p[k]
    {
    }
  }

  /** Laying out one more row appends that row. */
  lemma FlattenSnoc<P>(rows: seq<seq<P>>, i: nat)
    requires i < |rows|
    ensures Flatten(rows[..i + 1]) == Flatten(rows[..i]) + rows[i]
  {
    assert rows[..i + 1][..i] == rows[..i];
  }

  /**
   * Whether run_sensitivity completes: both counts are non-negative, every option holds a
   * "value", and on a non-empty grid the four lookups succeed and every array write is in
   * bounds, which as written needs a square grid.
   */
  predicate SweepSucceeds(param1: string, param2: string, n1: int, n2: int, options: map<string, Json>,
                          convention: Convention)
  {
    n1 >= 0 && n2 >= 0 && HasValues(options) &&
    (n1 == 0 || n2 == 0 ||
     (LookupsOk(Overlay(ValuesMap(options), param1, param2, 0.0, 0.0, convention)) &&
      (convention == Corrected || n1 == n2)))
  }

  /** The sweep run_sensitivity performs for its arguments. */
  function SweepOf(param1: string, param2: string, min1: real, max1: real, min2: real, max2: real,
                   n1: int, n2: int, options: map<string, Json>, flux: FluxModel, rootScalar: RootFinder,
                   convention: Convention): (s: Sweep)
    requires n1 >= 0 && n2 >= 0 && HasValues(options)
    ensures |s.values1| == n1 && |s.values2| == n2
  {
    Sweep(param1, param2, Linspace(min1, max1, n1).value, Linspace(min2, max2, n2).value,
          ValuesMap(options), flux, rootScalar, convention)
  }

  /** The records so far all share `params` and carry the two parameter names. */
  ghost predicate SharesParams(records: seq<SensitivityPoint>, params: OrderedDict<string, Json>, s: Sweep) {
    forall k :: 0 <= k < |records| ==>
      records[k].options == params && records[k].param1Label == s.param1 && records[k].param2Label == s.param2
  }

  /** One more record extends the row being swept. */
  lemma RowStep(s: Sweep, i: nat, j: nat, row: seq<SensitivityPoint>, p: SensitivityPoint)
    requires Evaluable(s) && i < |s.values1| && j < |s.values2| && LookupsOk(ParamsAt(s, i, j))
    requires AllValues(row) == RowPrefix(s, i, j)
    requires ValuesOf(p) == PointAt(s, i, j)
    ensures AllValues(row + [p]) == RowPrefix(s, i, j + 1)
  {
    assert (row + [p])[..|row|] == row;
  }

  /** The numbers of two record lists laid end to end. */
  lemma AllValuesAppend(xs: seq<SensitivityPoint>, ys: seq<SensitivityPoint>)
    ensures AllValues(xs + ys) == AllValues(xs) + AllValues(ys)
  {
    var whole, parts := AllValues(xs + ys), AllValues(xs) + AllValues(ys);
    forall k | 0 <= k < |whole| ensures whole[k] == parts[k] {
      if k < |xs| {
        assert (xs + ys)[k] == xs[k];
      } else {
        assert (xs + ys)[k] == ys[k - |xs|];
      }
    }
  }

  /** One more complete row extends the grid swept so far. */
  lemma GridStep(s: Sweep, i: nat, records: seq<SensitivityPoint>, row: seq<SensitivityPoint>)
    requires Evaluable(s) && i < |s.values1|
    requires AllValues(records) == GridPrefix(s, i)
    requires AllValues(row) == RowPrefix(s, i, |s.values2|)
    ensures AllValues(records + row) == GridPrefix(s, i + 1)
  {
    AllValuesAppend(records, row);
  }

  /** A grid point's parameters agree with the starting values away from the swept keys. */
  lemma ParamsAtAgrees(s: Sweep, i: nat, j: nat)
    requires i < |s.values1| && j < |s.values2|
    ensures AgreesOutside(ParamsAt(s, i, j), s)
  {
  }

  lemma SharesParamsAppend(xs: seq<SensitivityPoint>, ys: seq<SensitivityPoint>, params: OrderedDict<string, Json>, s: Sweep)
    requires SharesParams(xs, params, s) && SharesParams(ys, params, s)
    ensures SharesParams(xs + ys, params, s)
  {
  }

  lemma SharesParamsSnoc(records: seq<SensitivityPoint>, p: SensitivityPoint, params: OrderedDict<string, Json>, s: Sweep)
    requires SharesParams(records, params, s)
    requires p.options == params && p.param1Label == s.param1 && p.param2Label == s.param2
    ensures SharesParams(records + [p], params, s)
  {
  }

  /** Whether the grid loops complete: the grid is evaluable and every array write is in bounds. */
  predicate GridSucceeds(s: Sweep) {
    Evaluable(s) &&
    (|s.values1| == 0 || |s.values2| == 0 || s.convention == Corrected || |s.values1| == |s.values2|)
  }

  /** A grid point that fails makes the whole sweep fail. */
  lemma PointFailure(s: Sweep, i: nat, j: nat)
    requires i < |s.values1| && j < |s.values2|
    requires !(LookupsOk(ParamsAt(s, i, j)) && ZIndexOk(s.convention, i, j, |s.values1|, |s.values2|))
    ensures !GridSucceeds(s)
  {
    LookupsAtOrigin(s, i, j);
  }

  /** The records are the grid's points in row-major order. */
  ghost predicate RecordsOfGrid(s: Sweep, recs: seq<SensitivityPoint>) {
    Evaluable(s) && AllValues(recs) == Flatten(GridRows(s))
  }

  /** Every record shares the first record's parameter dict and carries the two parameter names. */
  ghost predicate SharedAndLabelled(recs: seq<SensitivityPoint>, param1: string, param2: string) {
    forall k :: 0 <= k < |recs| ==>
      recs[k].options == recs[0].options && recs[k].param1Label == param1 && recs[k].param2Label == param2
  }

  /** The state of the inner loop of run_sensitivity after columns 0 .. j - 1 of row `i`. */
  ghost predicate RowSoFar(s: Sweep, i: nat, j: nat, row: seq<SensitivityPoint>,
                           params: OrderedDict<string, Json>, cur: map<string, Json>)
    requires i < |s.values1| && j <= |s.values2|
  {
    |row| == j && AgreesOutside(cur, s) && SharesParams(row, params, s) &&
    (j > 0 ==> Evaluable(s) && HoldsPoint(cur, s, i, j - 1) && AllValues(row) == RowPrefix(s, i, j)) &&
    (s.convention == AsWritten && j > 0 ==> j <= |s.values1| && i < |s.values2|)
  }

  /** A grid point that succeeds extends the row. */
  lemma RowSoFarStep(s: Sweep, i: nat, j: nat, row: seq<SensitivityPoint>,
                     params: OrderedDict<string, Json>, cur: map<string, Json>, p: SensitivityPoint)
    requires i < |s.values1| && j < |s.values2| && RowSoFar(s, i, j, row, params, cur)
    requires LookupsOk(ParamsAt(s, i, j)) && ZIndexOk(s.convention, i, j, |s.values1|, |s.values2|)
    requires ValuesOf(p) == PointAt(s, i, j)
    requires p.options == params && p.param1Label == s.param1 && p.param2Label == s.param2
    ensures RowSoFar(s, i, j + 1, row + [p], params, ParamsAt(s, i, j))
  {
    LookupsAtOrigin(s, i, j);
    RowStep(s, i, j, row, p);
    ParamsAtAgrees(s, i, j);
    SharesParamsSnoc(row, p, params, s);
  }

  /** The state of the outer loop of run_sensitivity after rows 0 .. i - 1. */
  ghost predicate GridSoFar(s: Sweep, i: nat, records: seq<SensitivityPoint>,
                            params: OrderedDict<string, Json>, cur: map<string, Json>)
    requires i <= |s.values1|
  {
    var n1, n2 := |s.values1|, |s.values2|;
    AgreesOutside(cur, s) && SharesParams(records, params, s) &&
    (i == 0 ==> records == []) &&
    (i > 0 ==> Evaluable(s) && AllValues(records) == GridPrefix(s, i)) &&
    (i > 0 && n2 > 0 ==> HoldsPoint(cur, s, i - 1, n2 - 1) && records != []) &&
    (s.convention == AsWritten && i > 0 && n2 > 0 ==> n2 <= n1 && i <= n2)
  }

  /** A complete row extends the grid. */
  lemma GridSoFarStep(s: Sweep, i: nat, records: seq<SensitivityPoint>, row: seq<SensitivityPoint>,
                      params: OrderedDict<string, Json>, cur: map<string, Json>, cur': map<string, Json>)
    requires i < |s.values1| && GridSoFar(s, i, records, params, cur)
    requires RowSoFar(s, i, |s.values2|, row, params, cur')
    ensures GridSoFar(s, i + 1, records + row, params, cur')
  {
    if Evaluable(s) {
      GridStep(s, i, records, row);
    }
    SharesParamsAppend(records, row, params, s);
  }

  /** After the last row, the records are the whole grid and the grid succeeded. */
  lemma GridDone(s: Sweep, records: seq<SensitivityPoint>, params: OrderedDict<string, Json>, cur: map<string, Json>)
    requires GridSoFar(s, |s.values1|, records, params, cur)
    ensures GridSucceeds(s) && RecordsOfGrid(s, records)
  {
    var n1 := |s.values1|;
    if n1 > 0 {
      var rows := GridRows(s);
      GridPrefixFlattens(s, n1);
      assert rows[..n1] == rows;
    }
  }
}
