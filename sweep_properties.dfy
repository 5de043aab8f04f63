/**
 * What the records of a sensitivity sweep say about the grid, and the two defects of the
 * sweep as the page writes it: the transposed array index and the double ppm conversion.
 */
module SweepProperties {
  import opened Wrappers
  import opened Strings
  import opened DivBased
  import opened RrtmModel
  import opened RrtmParams
  import opened SweepSpec

  // ---------------------------------------------------------------------------
  // The records, one by one

  /** A sweep over an n1-by-n2 grid yields n1 * n2 records. */
  lemma RecordCount(s: Sweep, recs: seq<SensitivityPoint>)
    requires RecordsOfGrid(s, recs)
    ensures |recs| == |s.values1| * |s.values2|
  {
    FlattenLength(GridRows(s), |s.values2|);
  }

  /**
   * Record a * n2 + b is grid point (a, b): parameter 1 is the outer loop. (SweepOrder gives
   * its results: PointAt(s, a, b).) Its net flux is its OLR minus its ASR.
   */
  lemma RecordAt(s: Sweep, recs: seq<SensitivityPoint>, a: nat, b: nat)
    requires RecordsOfGrid(s, recs) && a < |s.values1| && b < |s.values2|
    ensures 0 <= a * |s.values2| + b < |recs|
    ensures var k := a * |s.values2| + b;
      recs[k].param1Value == s.values1[a] && recs[k].param2Value == s.values2[b] &&
      recs[k].netFlux == recs[k].olr - recs[k].asr
  {
    RowMajorBounds(a, b, |s.values1|, |s.values2|);
    var k: nat := a * |s.values2| + b;
    SweepOrder(s, a, b);
    ValuesAt(recs, Flatten(GridRows(s)), k);
  }

  /** Records whose numbers are `vs` hold vs[k] at position k. */
  lemma ValuesAt(recs: seq<SensitivityPoint>, vs: seq<PointValues>, k: nat)
    requires AllValues(recs) == vs && k < |vs|
    ensures k < |recs| && ValuesOf(recs[k]) == vs[k]
  {
  }

  // ---------------------------------------------------------------------------
  // Z[j, i] in arrays of shape (n1, n2)

  /**
   * As written, every write Z[j, i] of the grid is in bounds exactly when the grid is square
   * (or empty); written Z[i, j], every write is in bounds on any grid.
   */
  lemma ZIndexInBounds(n1: nat, n2: nat)
    ensures (forall i: nat, j: nat :: i < n1 && j < n2 ==> ZIndexOk(AsWritten, i, j, n1, n2)) <==>
            (n1 == n2 || n1 == 0 || n2 == 0)
    ensures forall i: nat, j: nat :: i < n1 && j < n2 ==> ZIndexOk(Corrected, i, j, n1, n2)
  {
    if n1 < n2 && n1 > 0 {
      assert !ZIndexOk(AsWritten, 0, n1, n1, n2);
    } else if n2 < n1 && n2 > 0 {
      assert !ZIndexOk(AsWritten, n2, 0, n1, n2);
    }
  }

  // ---------------------------------------------------------------------------
  // The ppm conversion of swept concentrations

  /** The absorber a gas parameter feeds: CO2 for the CO2 selector, CH4 for the CH4 one. */
  predicate GasOf(id: string, gas: string) {
    (id == Co2Id && gas == "CO2") || (id == Ch4Id && gas == "CH4")
  }

  /**
   * As written, a gas swept as parameter 1 is divided by 1e6 when it is stored and again when
   * the absorbers are built: the model sees v / 1e12 instead of v / 1e6.
   */
  lemma SweptConcentrationDividedTwice(s: Sweep, i: nat, j: nat, gas: string)
    requires s.convention == AsWritten && GasOf(s.param1, gas) && s.param2 != s.param1
    requires i < |s.values1| && j < |s.values2| && LookupsOk(ParamsAt(s, i, j))
    ensures AbsorbersOf(ParamsAt(s, i, j)).value[gas] == s.values1[i] / 1000000000000.0
    ensures AbsorbersOf(ParamsAt(s, i, j)).value[gas] != PpmToVmr(s.values1[i]) || s.values1[i] == 0.0
  {
    Co2IdIsConcentration();
    Ch4IdIsConcentration();
    SelectorIdsDistinct();
    assert ParamsAt(s, i, j)[s.param1] == Num(PpmToVmr(s.values1[i]));
  }

  /** Corrected, a gas swept as parameter 1 is converted once, as for an unswept one. */
  lemma SweptConcentrationDividedOnce(s: Sweep, i: nat, j: nat, gas: string)
    requires s.convention == Corrected && GasOf(s.param1, gas) && s.param2 != s.param1
    requires i < |s.values1| && j < |s.values2| && LookupsOk(ParamsAt(s, i, j))
    ensures AbsorbersOf(ParamsAt(s, i, j)).value[gas] == PpmToVmr(s.values1[i])
  {
    SelectorIdsDistinct();
    assert ParamsAt(s, i, j)[s.param1] == Num(s.values1[i]);
  }

  /**
   * As written, a gas swept as parameter 2 is divided twice as well; parameter 2 is written
   * last, so this holds even when parameter 1 names the same gas.
   */
  lemma SweptParam2DividedTwice(s: Sweep, i: nat, j: nat, gas: string)
    requires s.convention == AsWritten && GasOf(s.param2, gas)
    requires i < |s.values1| && j < |s.values2| && LookupsOk(ParamsAt(s, i, j))
    ensures AbsorbersOf(ParamsAt(s, i, j)).value[gas] == s.values2[j] / 1000000000000.0
    ensures AbsorbersOf(ParamsAt(s, i, j)).value[gas] != PpmToVmr(s.values2[j]) || s.values2[j] == 0.0
  {
    Co2IdIsConcentration();
    Ch4IdIsConcentration();
    SelectorIdsDistinct();
    assert ParamsAt(s, i, j)[s.param2] == Num(PpmToVmr(s.values2[j]));
  }

  /** Corrected, a gas swept as parameter 2 is converted from ppm once. */
  lemma SweptParam2DividedOnce(s: Sweep, i: nat, j: nat, gas: string)
    requires s.convention == Corrected && GasOf(s.param2, gas)
    requires i < |s.values1| && j < |s.values2| && LookupsOk(ParamsAt(s, i, j))
    ensures AbsorbersOf(ParamsAt(s, i, j)).value[gas] == PpmToVmr(s.values2[j])
  {
    SelectorIdsDistinct();
    assert ParamsAt(s, i, j)[s.param2] == Num(s.values2[j]);
  }

  /** A concentration that is not swept reaches the absorbers divided by 1e6 once. */
  lemma UnsweptConcentrationDividedOnce(s: Sweep, i: nat, j: nat, gas: string, id: string)
    requires GasOf(id, gas) && s.param1 != id && s.param2 != id
    requires i < |s.values1| && j < |s.values2| && LookupsOk(ParamsAt(s, i, j))
    ensures id in s.base && s.base[id].Num?
    ensures AbsorbersOf(ParamsAt(s, i, j)).value[gas] == PpmToVmr(s.base[id].x)
  {
    SelectorIdsDistinct();
    assert ParamsAt(s, i, j)[id] == s.base[id];
  }

  // ---------------------------------------------------------------------------
  // The same parameter twice, and what the equilibrium search reads

  /**
   * When both selectors name the same parameter, the parameter-2 value is the one the model
   * sees: every point of a column has the same parameters whatever parameter 1's value.
   */
  lemma SameParameterTwice(s: Sweep, i: nat, i2: nat, j: nat)
    requires s.param1 == s.param2
    requires i < |s.values1| && i2 < |s.values1| && j < |s.values2|
    ensures ParamsAt(s, i, j)[s.param1] == Num(Scale(s.param2, s.values2[j], s.convention))
    ensures ParamsAt(s, i, j) == ParamsAt(s, i2, j)
  {
    var p := ParamsAt(s, i, j);
    var q := ParamsAt(s, i2, j);
    assert p.Keys == q.Keys;
    forall k | k in p
      ensures p[k] == q[k]
    {
    }
  }

  /**
   * The equilibrium temperature of a grid point does not depend on the surface temperature:
   * find_equilibrium_surface_temperature is given the absorbers and the humidity only.
   */
  lemma EqTempIgnoresSurfaceTemperature(params: map<string, Json>, t: real, v1: real, v2: real,
                                        flux: FluxModel, rootScalar: RootFinder)
    requires LookupsOk(params)
    ensures LookupsOk(params[SurfaceTemperatureId := Num(t)])
    ensures Evaluate(params[SurfaceTemperatureId := Num(t)], v1, v2, flux, rootScalar).eqTemp ==
            Evaluate(params, v1, v2, flux, rootScalar).eqTemp
  {
    SelectorIdsDistinct();
    var q := params[SurfaceTemperatureId := Num(t)];
    assert q[Co2Id] == params[Co2Id] && q[Ch4Id] == params[Ch4Id] && q[RelHumidityId] == params[RelHumidityId];
    assert AbsorbersOf(q) == AbsorbersOf(params);
  }
}
