/**
 * The RRTM page's callbacks: the sensitivity sweep and the session stores around it, and the
 * single-column run behind the indicator cards. The older variant of the page has the same
 * sweep, delete, table and figure callbacks; its own save and graph callbacks are in
 * LegacyRrtmPage.
 */
module RrtmPage {
  import opened Wrappers
  import opened Dicts
  import opened Strings
  import opened DivBased
  import opened RrtmModel
  import opened RrtmParams
  import opened SweepSpec
  import Layout

  // ---------------------------------------------------------------------------
  // run_sensitivity

  /**
   * The comprehension that starts rrtm_params: a fresh dict holding each option's "value";
   * a number where an object is expected raises TypeError, a missing "value" KeyError.
   */
  method ParamValues(options: StoreData) returns (r: Result<OrderedDict<string, Json>>)
    requires options.Valid()
    ensures r.Ok? <==> HasValues(options.entries)
    ensures r.Err? ==> r.error == TypeError || r.error == KeyError
    ensures r.Ok? ==> fresh(r.value) && r.value.Valid() && r.value.keys == options.keys
    ensures r.Ok? ==> r.value.entries == ValuesMap(options.entries)
  {
    var params := new OrderedDict<string, Json>();
    for i := 0 to |options.keys|
      invariant fresh(params) && params.Valid() && params.keys == options.keys[..i]
      invariant forall k :: 0 <= k < i ==> options.entries[options.keys[k]].Obj? && "value" in options.entries[options.keys[k]].fields
      invariant forall k :: k in params.entries ==> params.entries[k] == options.entries[k].fields["value"]
    {
      var key := options.keys[i];
      var val := options.entries[key];
      if val.Num? {
        return Err(TypeError);
      }
      if "value" !in val.fields {
        return Err(KeyError);
      }
      assert key !in options.keys[..i];
      params.Put(key, val.fields["value"]);
      TakeSnoc(options.keys, i);
    }
    assert options.keys[..|options.keys|] == options.keys;
    r := Ok(params);
  }

  /** The two assignments that write grid point (i, j)'s values into rrtm_params. */
  method OverlayPoint(params: OrderedDict<string, Json>, param1: string, param2: string, v1: real, v2: real,
                      convention: Convention, ghost s: Sweep, i: nat, j: nat)
    requires s.param1 == param1 && s.param2 == param2 && s.convention == convention
    requires i < |s.values1| && j < |s.values2| && s.values1[i] == v1 && s.values2[j] == v2
    requires params.Valid() && AgreesOutside(params.entries, s)
    modifies params
    ensures params.Valid() && params.entries == ParamsAt(s, i, j)
  {
    OverlayOnto(params.entries, s, i, j);
    params.Put(param1, Num(Scale(param1, v1, convention)));
    params.Put(param2, Num(Scale(param2, v2, convention)));
  }

  /** The lookups, the calc_olr call and the equilibrium search of one grid point. */
  method EvaluateAt(entries: map<string, Json>, v1: real, v2: real, flux: FluxModel, rootScalar: RootFinder)
    returns (r: Result<PointValues>)
    ensures r.Ok? <==> LookupsOk(entries)
    ensures r.Err? ==> r.error in {KeyError, TypeError}
    ensures r.Ok? ==> r.value == Evaluate(entries, v1, v2, flux, rootScalar)
  {
    var absorbers := AbsorbersOf(entries);
    if absorbers.Err? {
      return Err(absorbers.error);
    }
    var sst := NumberAt(entries, SurfaceTemperatureId);
    if sst.Err? {
      return Err(sst.error);
    }
    var rh := NumberAt(entries, RelHumidityId);
    if rh.Err? {
      return Err(rh.error);
    }
    var rad := flux(sst.value, absorbers.value, rh.value, SweepTstrat);
    var eqTemp := FindEquilibriumSurfaceTemperature(absorbers.value, DefaultEquilibriumTstrat, rh.value,
                                                    flux, rootScalar);
    r := Ok(PointValues(v1, v2, rad.olr, rad.asr, rad.olr - rad.asr, eqTemp));
  }

  /** Z1 .. Z4 are four distinct arrays (four np.zeros calls). */
  ghost predicate Separate(z1: array2<real>, z2: array2<real>, z3: array2<real>, z4: array2<real>) {
    z1 != z2 && z1 != z3 && z1 != z4 && z2 != z3 && z2 != z4 && z3 != z4
  }

  /**
   * Z1[.., ..] = olr, Z2 = asr, Z3 = olr - asr, Z4 = the equilibrium temperature, at one cell;
   * every other cell of the four arrays keeps its value.
   */
  method StoreZ(z1: array2<real>, z2: array2<real>, z3: array2<real>, z4: array2<real>,
                zi: nat, zj: nat, pv: PointValues)
    requires z1.Length0 == z2.Length0 == z3.Length0 == z4.Length0
    requires Separate(z1, z2, z3, z4)
    requires z1.Length1 == z2.Length1 == z3.Length1 == z4.Length1
    requires zi < z1.Length0 && zj < z1.Length1
    modifies z1, z2, z3, z4
    ensures z1[zi, zj] == pv.olr && z2[zi, zj] == pv.asr && z3[zi, zj] == pv.netFlux && z4[zi, zj] == pv.eqTemp
    ensures forall a, b :: 0 <= a < z1.Length0 && 0 <= b < z1.Length1 && (a != zi || b != zj) ==> z1[a, b] == old(z1[a, b])
    ensures forall a, b :: 0 <= a < z2.Length0 && 0 <= b < z2.Length1 && (a != zi || b != zj) ==> z2[a, b] == old(z2[a, b])
    ensures forall a, b :: 0 <= a < z3.Length0 && 0 <= b < z3.Length1 && (a != zi || b != zj) ==> z3[a, b] == old(z3[a, b])
    ensures forall a, b :: 0 <= a < z4.Length0 && 0 <= b < z4.Length1 && (a != zi || b != zj) ==> z4[a, b] == old(z4[a, b])
  {
    z4[zi, zj] := pv.eqTemp;
    z3[zi, zj] := pv.netFlux;
    z2[zi, zj] := pv.asr;
    z1[zi, zj] := pv.olr;
  }

  /**
   * The body of the inner loop of run_sensitivity at grid point (i, j): overlay the swept
   * values onto `params`, build the absorbers, run the flux model at Tstrat 190 K, write
   * the four arrays and the equilibrium search, and return the record.
   */
  method SweepPoint(params: OrderedDict<string, Json>, param1: string, param2: string, v1: real, v2: real,
                    flux: FluxModel, rootScalar: RootFinder, convention: Convention,
                    ghost s: Sweep, i: nat, j: nat,
                    z1: array2<real>, z2: array2<real>, z3: array2<real>, z4: array2<real>)
    returns (r: Result<SensitivityPoint>)
    requires s.param1 == param1 && s.param2 == param2 && s.convention == convention
    requires s.flux == flux && s.rootScalar == rootScalar
    requires i < |s.values1| && j < |s.values2| && s.values1[i] == v1 && s.values2[j] == v2
    requires params.Valid() && AgreesOutside(params.entries, s)
    requires z1.Length0 == z2.Length0 == z3.Length0 == z4.Length0
    requires Separate(z1, z2, z3, z4)
    requires z1.Length1 == z2.Length1 == z3.Length1 == z4.Length1
    modifies params, z1, z2, z3, z4
    ensures params.Valid() && params.entries == ParamsAt(s, i, j)
    ensures r.Ok? <==> LookupsOk(ParamsAt(s, i, j)) && ZIndexOk(convention, i, j, z1.Length0, z1.Length1)
    ensures r.Err? ==> r.error in {KeyError, TypeError, IndexError}
    ensures r.Ok? ==> ValuesOf(r.value) == PointAt(s, i, j)
    ensures r.Ok? ==> r.value.options == params && r.value.param1Label == param1 && r.value.param2Label == param2
  {
    OverlayPoint(params, param1, param2, v1, v2, convention, s, i, j);
    var point := EvaluateAt(params.entries, v1, v2, flux, rootScalar);
    if point.Err? {
      return Err(point.error);
    }
    var zi := ZIndex(convention, i, j).0;
    var zj := ZIndex(convention, i, j).1;
    if !(zi < z1.Length0 && zj < z1.Length1) {
      return Err(IndexError);
    }
    StoreZ(z1, z2, z3, z4, zi, zj, point.value);
    r := Ok(SensitivityPoint(v1, v2, param1, param2, params, z1[zi, zj], z2[zi, zj], z3[zi, zj], z4[zi, zj]));
  }

  /** One pass of the inner loop of run_sensitivity: grid point (i, j), appended to the row. */
  method ExtendRow(params: OrderedDict<string, Json>, param1: string, param2: string, v1: real, v2: real,
                   flux: FluxModel, rootScalar: RootFinder, convention: Convention,
                   ghost s: Sweep, i: nat, j: nat, row: seq<SensitivityPoint>,
                   z1: array2<real>, z2: array2<real>, z3: array2<real>, z4: array2<real>)
    returns (r: Result<seq<SensitivityPoint>>)
    requires s.param1 == param1 && s.param2 == param2 && s.convention == convention
    requires s.flux == flux && s.rootScalar == rootScalar
    requires i < |s.values1| && j < |s.values2| && s.values1[i] == v1 && s.values2[j] == v2
    requires params.Valid() && RowSoFar(s, i, j, row, params, params.entries)
    requires z1.Length0 == z2.Length0 == z3.Length0 == z4.Length0 == |s.values1|
    requires Separate(z1, z2, z3, z4)
    requires z1.Length1 == z2.Length1 == z3.Length1 == z4.Length1 == |s.values2|
    modifies params, z1, z2, z3, z4
    ensures params.Valid()
    ensures r.Err? ==> r.error in {KeyError, TypeError, IndexError} && !GridSucceeds(s)
    ensures r.Ok? ==> RowSoFar(s, i, j + 1, r.value, params, params.entries)
  {
    ghost var before := params.entries;
    var point := SweepPoint(params, param1, param2, v1, v2, flux, rootScalar, convention, s, i, j, z1, z2, z3, z4);
    if point.Err? {
      PointFailure(s, i, j);
      return Err(point.error);
    }
    RowSoFarStep(s, i, j, row, params, before, point.value);
    r := Ok(row + [point.value]);
  }

  /** The inner loop of run_sensitivity: the records of row `i` of the grid. */
  method SweepRow(params: OrderedDict<string, Json>, param1: string, param2: string, v1: real,
                  values2: seq<real>, flux: FluxModel, rootScalar: RootFinder, convention: Convention,
                  ghost s: Sweep, i: nat, z1: array2<real>, z2: array2<real>, z3: array2<real>, z4: array2<real>)
    returns (r: Result<seq<SensitivityPoint>>)
    requires s.param1 == param1 && s.param2 == param2 && s.convention == convention
    requires s.flux == flux && s.rootScalar == rootScalar && s.values2 == values2
    requires i < |s.values1| && s.values1[i] == v1
    requires params.Valid() && AgreesOutside(params.entries, s)
    requires z1.Length0 == z2.Length0 == z3.Length0 == z4.Length0 == |s.values1|
    requires Separate(z1, z2, z3, z4)
    requires z1.Length1 == z2.Length1 == z3.Length1 == z4.Length1 == |values2|
    modifies params, z1, z2, z3, z4
    ensures params.Valid()
    ensures r.Err? ==> r.error in {KeyError, TypeError, IndexError} && !GridSucceeds(s)
    ensures r.Ok? ==> RowSoFar(s, i, |values2|, r.value, params, params.entries)
  {
    var row := [];
    for j := 0 to |values2|
      invariant params.Valid() && RowSoFar(s, i, j, row, params, params.entries)
    {
      var next := ExtendRow(params, param1, param2, v1, values2[j], flux, rootScalar, convention,
                            s, i, j, row, z1, z2, z3, z4);
      if next.Err? {
        return Err(next.error);
      }
      row := next.value;
    }
    r := Ok(row);
  }

  /** One pass of the outer loop of run_sensitivity: row `i` of the grid, appended to the records. */
  method ExtendGrid(params: OrderedDict<string, Json>, param1: string, param2: string, v1: real,
                    values2: seq<real>, flux: FluxModel, rootScalar: RootFinder, convention: Convention,
                    ghost s: Sweep, i: nat, records: seq<SensitivityPoint>,
                    z1: array2<real>, z2: array2<real>, z3: array2<real>, z4: array2<real>)
    returns (r: Result<seq<SensitivityPoint>>)
    requires s.param1 == param1 && s.param2 == param2 && s.convention == convention
    requires s.flux == flux && s.rootScalar == rootScalar && s.values2 == values2
    requires i < |s.values1| && s.values1[i] == v1
    requires params.Valid() && GridSoFar(s, i, records, params, params.entries)
    requires z1.Length0 == z2.Length0 == z3.Length0 == z4.Length0 == |s.values1|
    requires Separate(z1, z2, z3, z4)
    requires z1.Length1 == z2.Length1 == z3.Length1 == z4.Length1 == |values2|
    modifies params, z1, z2, z3, z4
    ensures params.Valid()
    ensures r.Err? ==> r.error in {KeyError, TypeError, IndexError} && !GridSucceeds(s)
    ensures r.Ok? ==> GridSoFar(s, i + 1, r.value, params, params.entries)
  {
    ghost var before := params.entries;
    var row := SweepRow(params, param1, param2, v1, values2, flux, rootScalar, convention,
                        s, i, z1, z2, z3, z4);
    if row.Err? {
      return Err(row.error);
    }
    GridSoFarStep(s, i, records, row.value, params, before, params.entries);
    r := Ok(records + row.value);
  }

  /** The outer loop of run_sensitivity: every row of the grid in turn. */
  method SweepGrid(params: OrderedDict<string, Json>, param1: string, param2: string, values1: seq<real>,
                   values2: seq<real>, flux: FluxModel, rootScalar: RootFinder, convention: Convention,
                   ghost s: Sweep, z1: array2<real>, z2: array2<real>, z3: array2<real>, z4: array2<real>)
    returns (r: Result<seq<SensitivityPoint>>)
    requires s.param1 == param1 && s.param2 == param2 && s.convention == convention
    requires s.flux == flux && s.rootScalar == rootScalar && s.values1 == values1 && s.values2 == values2
    requires params.Valid() && params.entries == s.base
    requires z1.Length0 == z2.Length0 == z3.Length0 == z4.Length0 == |values1|
    requires Separate(z1, z2, z3, z4)
    requires z1.Length1 == z2.Length1 == z3.Length1 == z4.Length1 == |values2|
    modifies params, z1, z2, z3, z4
    ensures params.Valid()
    ensures r.Err? ==> r.error in {KeyError, TypeError, IndexError} && !GridSucceeds(s)
    ensures r.Ok? ==> GridSoFar(s, |values1|, r.value, params, params.entries)
  {
    var records: seq<SensitivityPoint> := [];
    for i := 0 to |values1|
      invariant params.Valid() && GridSoFar(s, i, records, params, params.entries)
    {
      var next := ExtendGrid(params, param1, param2, values1[i], values2, flux, rootScalar, convention,
                             s, i, records, z1, z2, z3, z4);
      if next.Err? {
        return Err(next.error);
      }
      records := next.value;
    }
    r := Ok(records);
  }

  /**
   * The computing part of run_sensitivity: sweeps parameter 1 (outer) and parameter 2 (inner)
   * over their grids and returns one record per grid point. The records hold, in row-major
   * order, exactly the grid's points; they all share one fresh parameter dict, which ends up
   * holding the last point's parameters (by PointParams, exactly ParamsAt of the last point).
   */
  method SweepRecords(param1: string, param2: string, min1: real, max1: real, min2: real, max2: real,
                      n1: int, n2: int, options: StoreData, flux: FluxModel, rootScalar: RootFinder,
                      convention: Convention)
    returns (r: Result<seq<SensitivityPoint>>)
    requires options.Valid()
    ensures r.Ok? <==> SweepSucceeds(param1, param2, n1, n2, options.entries, convention)
    ensures r.Err? ==> r.error in {ValueError, KeyError, TypeError, IndexError}
    ensures r.Ok? ==>
      RecordsOfGrid(SweepOf(param1, param2, min1, max1, min2, max2, n1, n2, options.entries, flux, rootScalar, convention),
                    r.value) &&
      SharedAndLabelled(r.value, param1, param2)
    ensures r.Ok? && n1 > 0 && n2 > 0 ==>
      var s := SweepOf(param1, param2, min1, max1, min2, max2, n1, n2, options.entries, flux, rootScalar, convention);
      |r.value| > 0 && fresh(r.value[0].options) &&
      AgreesOutside(r.value[0].options.entries, s) && HoldsPoint(r.value[0].options.entries, s, n1 - 1, n2 - 1)
  {
    var values1 := Linspace(min1, max1, n1);
    if values1.Err? {
      return Err(ValueError);
    }
    var values2 := Linspace(min2, max2, n2);
    if values2.Err? {
      return Err(ValueError);
    }
    var z1 := new real[n1, n2];
    var z2 := new real[n1, n2];
    var z3 := new real[n1, n2];
    var z4 := new real[n1, n2];
    var pv := ParamValues(options);
    if pv.Err? {
      return Err(pv.error);
    }
    var params := pv.value;
    ghost var s := Sweep(param1, param2, values1.value, values2.value, params.entries, flux, rootScalar, convention);
    assert s == SweepOf(param1, param2, min1, max1, min2, max2, n1, n2, options.entries, flux, rootScalar, convention);
    r := SweepGrid(params, param1, param2, values1.value, values2.value, flux, rootScalar, convention,
                   s, z1, z2, z3, z4);
    if r.Ok? {
      GridDone(s, r.value, params, params.entries);
    }
  }

  /**
   * run_sensitivity: runs the sweep and stores its records under `datasetName`, a new name
   * going last. When the sweep fails, the store is untouched.
   */
  method RunSweep(param1: string, param2: string, min1: real, max1: real, min2: real, max2: real,
                  n1: int, n2: int, options: StoreData, datasetName: string, current: Datasets,
                  flux: FluxModel, rootScalar: RootFinder, convention: Convention)
    returns (r: Result<Datasets>)
    requires options.Valid() && current.Valid()
    modifies current
    ensures current.Valid()
    ensures r.Ok? <==> SweepSucceeds(param1, param2, n1, n2, options.entries, convention)
    ensures r.Err? ==> r.error in {ValueError, KeyError, TypeError, IndexError}
    ensures r.Err? ==> current.keys == old(current.keys) && current.entries == old(current.entries)
    ensures r.Ok? ==> r.value == current && datasetName in current.entries
    ensures r.Ok? ==> current.keys == if datasetName in old(current.keys) then old(current.keys)
                                      else old(current.keys) + [datasetName]
    ensures r.Ok? ==> current.entries == old(current.entries)[datasetName := current.entries[datasetName]]
    ensures r.Ok? ==>
      RecordsOfGrid(SweepOf(param1, param2, min1, max1, min2, max2, n1, n2, options.entries, flux, rootScalar, convention),
                    current.entries[datasetName]) &&
      SharedAndLabelled(current.entries[datasetName], param1, param2)
  {
    var records := SweepRecords(param1, param2, min1, max1, min2, max2, n1, n2, options, flux, rootScalar, convention);
    if records.Err? {
      return Err(records.error);
    }
    current.Put(datasetName, records.value);
    r := Ok(current);
  }
}
