/**
 * The RRTM column model around the radiation code: option validation, the gas template,
 * the idealized temperature profile and the equilibrium search. The radiation scheme, the
 * moist-adiabat integration and the root finder are external and enter as parameters.
 */
module RrtmModel {
  import opened Wrappers

  /** Volume mixing ratios by gas name. */
  type Absorbers = map<string, real>

  /** The gases of the absorber_vmr template, in its order. */
  const GasNames: seq<string> := ["CO2", "CH4", "N2O", "O2", "CFC11", "CFC12", "CFC22", "CCL4", "O3"]

  /** The module-level absorber_vmr template: every gas at 0.0. */
  const AbsorberTemplate: Absorbers :=
    map["CO2" := 0.0, "CH4" := 0.0, "N2O" := 0.0, "O2" := 0.0, "CFC11" := 0.0,
        "CFC12" := 0.0, "CFC22" := 0.0, "CCL4" := 0.0, "O3" := 0.0]

  /** The template holds exactly the nine named gases, all at zero. */
  lemma AbsorberTemplateNineZeroGases()
    ensures |GasNames| == 9
    ensures forall g :: g in AbsorberTemplate <==> g in GasNames
    ensures forall g :: g in AbsorberTemplate ==> AbsorberTemplate[g] == 0.0
  {
  }

  // ---------------------------------------------------------------------------
  // RRTMModelOptions

  /** A field value handed to RRTMModelOptions: a number or a table of numbers. */
  datatype FieldValue = Number(x: real) | Table(entries: map<string, real>)

  datatype ModelOptions = ModelOptions(
    relHumidity: real,
    stratTemperature: real,
    minSpecHumid: real,
    surfTemperature: real,
    absorberVmr: Absorbers)

  const DefaultRelHumidity: real := 0.8
  const DefaultStratTemperature: real := 195.0
  const DefaultMinSpecHumid: real := 0.000005
  const DefaultSurfTemperature: real := 280.0

  const FieldNames: set<string> :=
    {"rel_humidity", "strat_temperature", "min_spec_humid", "surf_temperature", "absorver_vmr"}

  /** The number given for `name`, or its default; None when the field holds a table. */
  function NumberField(fields: map<string, FieldValue>, name: string, default: real): Option<real> {
    if name !in fields then Some(default)
    else if fields[name].Number? then Some(fields[name].x) else None
  }

  /** The range check of a constrained field: ge=lo, le=hi. */
  predicate InRange(x: real, lo: real, hi: real) {
    lo <= x <= hi
  }

  /**
   * RRTMModelOptions(**fields): unknown fields are forbidden, rel_humidity must lie in
   * [0, 1], surf_temperature in [200, 320]; every absent field takes its default.
   */
  function MakeOptions(fields: map<string, FieldValue>): (r: Result<ModelOptions>)
    ensures r.Ok? <==>
      fields.Keys <= FieldNames &&
      NumberField(fields, "rel_humidity", DefaultRelHumidity).Some? &&
      NumberField(fields, "strat_temperature", DefaultStratTemperature).Some? &&
      NumberField(fields, "min_spec_humid", DefaultMinSpecHumid).Some? &&
      NumberField(fields, "surf_temperature", DefaultSurfTemperature).Some? &&
      ("absorver_vmr" in fields ==> fields["absorver_vmr"].Table?) &&
      InRange(NumberField(fields, "rel_humidity", DefaultRelHumidity).value, 0.0, 1.0) &&
      InRange(NumberField(fields, "surf_temperature", DefaultSurfTemperature).value, 200.0, 320.0)
    ensures r.Err? ==> r.error == ValueError
    ensures r.Ok? ==> 0.0 <= r.value.relHumidity <= 1.0 && 200.0 <= r.value.surfTemperature <= 320.0
    ensures r.Ok? ==> (r.value.relHumidity == if "rel_humidity" in fields then fields["rel_humidity"].x else DefaultRelHumidity)
    ensures r.Ok? ==> (r.value.surfTemperature == if "surf_temperature" in fields then fields["surf_temperature"].x else DefaultSurfTemperature)
    ensures r.Ok? ==> (r.value.stratTemperature == if "strat_temperature" in fields then fields["strat_temperature"].x else DefaultStratTemperature)
    ensures r.Ok? ==> (r.value.minSpecHumid == if "min_spec_humid" in fields then fields["min_spec_humid"].x else DefaultMinSpecHumid)
    ensures r.Ok? ==> (r.value.absorberVmr == if "absorver_vmr" in fields then fields["absorver_vmr"].entries else AbsorberTemplate)
  {
    if !(fields.Keys <= FieldNames) then Err(ValueError)
    else
      var rh := NumberField(fields, "rel_humidity", DefaultRelHumidity);
      var ts := NumberField(fields, "strat_temperature", DefaultStratTemperature);
      var q := NumberField(fields, "min_spec_humid", DefaultMinSpecHumid);
      var sst := NumberField(fields, "surf_temperature", DefaultSurfTemperature);
      if rh.None? || ts.None? || q.None? || sst.None? then Err(ValueError)
      else if "absorver_vmr" in fields && fields["absorver_vmr"].Number? then Err(ValueError)
      else if !InRange(rh.value, 0.0, 1.0) || !InRange(sst.value, 200.0, 320.0) then Err(ValueError)
      else
        var vmr := if "absorver_vmr" in fields then fields["absorver_vmr"].entries else AbsorberTemplate;
        Ok(ModelOptions(rh.value, ts.value, q.value, sst.value, vmr))
  }

  /** With no fields given, every default is accepted. */
  lemma DefaultOptionsAccepted()
    ensures MakeOptions(map[]) == Ok(ModelOptions(DefaultRelHumidity, DefaultStratTemperature,
                                                  DefaultMinSpecHumid, DefaultSurfTemperature, AbsorberTemplate))
  {
  }

  /** A field outside the declared five is rejected, whatever the others hold. */
  lemma UnknownFieldRejected(fields: map<string, FieldValue>, name: string)
    requires name in fields && name !in FieldNames
    ensures MakeOptions(fields) == Err(ValueError)
  {
  }

  // ---------------------------------------------------------------------------
  // The idealized column

  /** odeint(pseudoadiabat, SST, levels): the moist-adiabat temperatures at the given levels. */
  type Integrator = (real, seq<real>) -> seq<real>

  /** An integrator returns one temperature per level. */
  ghost predicate OnePerLevel(odeint: Integrator) {
    forall sst, levels :: |odeint(sst, levels)| == |levels|
  }

  function Reversed<T>(s: seq<T>): (r: seq<T>)
    ensures |r| == |s| && forall k :: 0 <= k < |s| ==> r[k] == s[|s| - 1 - k]
  {
    if s == [] then [] else Reversed(s[1..]) + [s[0]]
  }

  function Max(a: real, b: real): real {
    if a >= b then a else b
  }

  /** The post-processing of the solver output: floored at Tstrat, then back in level order. */
  function ClampedReversed(sol: seq<real>, tstrat: real): (out: seq<real>)
    ensures |out| == |sol|
    ensures forall k :: 0 <= k < |out| ==> out[k] >= tstrat
    ensures forall k :: 0 <= k < |out| ==> out[k] == Max(sol[|sol| - 1 - k], tstrat)
  {
    seq(|sol|, k requires 0 <= k < |sol| => Max(sol[|sol| - 1 - k], tstrat))
  }

  /** The idealized profile on `levels`: the adiabat integrated over the reversed levels, post-processed. */
  function IdealizedProfile(sst: real, levels: seq<real>, tstrat: real, odeint: Integrator): (out: seq<real>)
    requires OnePerLevel(odeint)
    ensures |out| == |levels|
  {
    ClampedReversed(odeint(sst, Reversed(levels)), tstrat)
  }

  /** The Tstrat default of generate_idealized_temp_profile. */
  const DefaultProfileTstrat: real := 190.0

  /**
   * generate_idealized_temp_profile: integrates the adiabat over the reversed levels,
   * overwrites every temperature below Tstrat with Tstrat in place, and returns the
   * result in the original level order.
   */
  method GenerateIdealizedTempProfile(sst: real, levels: seq<real>, tstrat: real, odeint: Integrator)
    returns (out: seq<real>)
    requires OnePerLevel(odeint)
    ensures |out| == |levels|
    ensures out == ClampedReversed(odeint(sst, Reversed(levels)), tstrat)
  {
    var solution := odeint(sst, Reversed(levels));
    var temp := new real[|solution|](k requires 0 <= k < |solution| => solution[k]);
    var i := 0;
    while i < temp.Length
      invariant i <= temp.Length
      invariant forall k :: 0 <= k < i ==> temp[k] == Max(solution[k], tstrat)
      invariant forall k :: i <= k < temp.Length ==> temp[k] == solution[k]
    {
      if temp[i] < tstrat {
        temp[i] := tstrat;
      }
      i := i + 1;
    }
    out := Reversed(temp[..]);
  }

  /** A temperature already at or above Tstrat passes through unchanged; nothing ends below Tstrat. */
  lemma ClampKeepsWarmLevels(sol: seq<real>, tstrat: real, k: nat)
    requires k < |sol|
    ensures sol[|sol| - 1 - k] >= tstrat ==> ClampedReversed(sol, tstrat)[k] == sol[|sol| - 1 - k]
    ensures sol[|sol| - 1 - k] < tstrat ==> ClampedReversed(sol, tstrat)[k] == tstrat
  {
  }

  /** climlab.column_state(num_lev): pressure levels for a column of `num_lev` layers. */
  type LevelGrid = nat -> seq<real>

  ghost predicate LevelsPerLayer(levelsOf: LevelGrid) {
    forall n :: |levelsOf(n)| == n
  }

  /** The column state: the surface temperature and the atmospheric temperatures. */
  class ColumnState {
    const levels: seq<real>
    const ts: array<real>
    const tatm: array<real>

    ghost predicate Valid()
      reads this
    {
      ts.Length == 1 && tatm.Length == |levels| && ts != tatm
    }

    /** A single-column state over `levels`; climlab's initial temperatures are overwritten by every caller here. */
    constructor (levels: seq<real>)
      ensures Valid() && this.levels == levels && fresh(ts) && fresh(tatm)
    {
      this.levels := levels;
      ts := new real[1];
      tatm := new real[|levels|];
    }
  }

  const DefaultNumLev: nat := 100
  const DefaultColumnTstrat: real := 195.0

  /** make_idealized_column: Ts is set to SST, Tatm to the idealized profile on the column's levels. */
  method MakeIdealizedColumn(sst: real, numLev: nat, tstrat: real, levelsOf: LevelGrid, odeint: Integrator)
    returns (state: ColumnState)
    requires LevelsPerLayer(levelsOf) && OnePerLevel(odeint)
    ensures fresh(state) && state.Valid() && fresh(state.ts) && fresh(state.tatm)
    ensures state.levels == levelsOf(numLev) && state.tatm.Length == numLev
    ensures state.ts[..] == [sst]
    ensures state.tatm[..] == IdealizedProfile(sst, levelsOf(numLev), tstrat, odeint)
  {
    state := new ColumnState(levelsOf(numLev));
    state.ts[0] := sst;
    var profile := GenerateIdealizedTempProfile(sst, state.levels, tstrat, odeint);
    var i := 0;
    while i < state.tatm.Length
      invariant i <= state.tatm.Length
      invariant state.ts[..] == [sst]
      invariant forall k :: 0 <= k < i ==> state.tatm[k] == profile[k]
    {
      state.tatm[i] := profile[i];
      i := i + 1;
    }
    assert state.tatm[..] == profile;
  }

  // ---------------------------------------------------------------------------
  // Fluxes and the equilibrium search

  /** The top-of-atmosphere values of one radiation run: rad.OLR[0] and rad.ASR[0]. */
  datatype Radiation = Radiation(olr: real, asr: real)

  /** calc_olr(SST, absorber_vmr, RH=..., Tstrat=...), seen through its radiation output. */
  type FluxModel = (real, Absorbers, real, real) -> Radiation

  /** scipy.optimize.root_scalar(f, x0=..., bracket=[lo, hi]).root */
  type RootFinder = (real -> real, real, real, real) -> real

  /** A root finder whose answer lies in the bracket it is given. */
  ghost predicate StaysInBracket(rootScalar: RootFinder) {
    forall f, x0, lo, hi :: lo <= hi ==> lo <= rootScalar(f, x0, lo, hi) <= hi
  }

  const DefaultEquilibriumTstrat: real := 195.0
  const DefaultEquilibriumRelHumidity: real := 0.8
  const InitialGuess: real := 275.0
  const BracketLow: real := 250.0
  const BracketHigh: real := 300.0

  /** The objective of the equilibrium search: absorbed shortwave minus outgoing longwave. */
  function Objective(flux: FluxModel, absorbers: Absorbers, rh: real, tstrat: real): (obj: real -> real)
    ensures forall sst :: obj(sst) + flux(sst, absorbers, rh, tstrat).olr == flux(sst, absorbers, rh, tstrat).asr
  {
    sst => flux(sst, absorbers, rh, tstrat).asr - flux(sst, absorbers, rh, tstrat).olr
  }

  /**
   * find_equilibrium_surface_temperature: the root finder applied to the objective from 275 K
   * within [250, 300] K; with a root finder that respects its bracket, the answer lies in it.
   */
  function FindEquilibriumSurfaceTemperature(absorbers: Absorbers, tstrat: real, rh: real,
                                             flux: FluxModel, rootScalar: RootFinder): (tEq: real)
    ensures StaysInBracket(rootScalar) ==> BracketLow <= tEq <= BracketHigh
  {
    rootScalar(Objective(flux, absorbers, rh, tstrat), InitialGuess, BracketLow, BracketHigh)
  }
}
