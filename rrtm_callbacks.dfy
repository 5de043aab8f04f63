/**
 * The RRTM page's callbacks around the sweep: the datasets list and its delete buttons, the
 * saved points, the points table, the contour figures, the single-column run behind the
 * indicator cards and the equilibrium button.
 */
module RrtmCallbacks {
  import opened Wrappers
  import opened Dicts
  import opened DivBased
  import opened RrtmModel
  import opened RrtmParams
  import opened SweepSpec
  import opened SweepProperties
  import Layout

  /** dash.no_update, or a new value for the output. */
  datatype Update<+T> = NoUpdate | Updated(value: T)

  // ---------------------------------------------------------------------------
  // update_sensitivity_datasets_list and delete_item

  /** One row of the datasets list: its delete button's index and the dataset's name. */
  datatype DatasetRow = DatasetRow(buttonIndex: nat, name: string)

  /** A row per dataset name, in store order, the button of row i carrying index i. */
  function DatasetsList(names: seq<string>): (rows: seq<DatasetRow>)
    ensures |rows| == |names|
    ensures forall i :: 0 <= i < |rows| ==> rows[i].buttonIndex == i && rows[i].name == names[i]
  {
    seq(|names|, i requires 0 <= i < |names| => DatasetRow(i, names[i]))
  }

  /** The "index" of each delete button's id, in the order Dash lists the buttons. */
  function ButtonIndices(rows: seq<DatasetRow>): seq<nat> {
    seq(|rows|, i requires 0 <= i < |rows| => rows[i].buttonIndex)
  }

  /** np.any(n_clicks), a missing count (None) taken as 0. */
  predicate AnyClicked(nClicks: seq<nat>) {
    exists i :: 0 <= i < |nClicks| && nClicks[i] > 0
  }

  /** [id["index"] for i, id in enumerate(ids) if n_clicks[i]], when n_clicks is long enough. */
  function ClickedIndices(nClicks: seq<nat>, ids: seq<nat>): (r: seq<nat>)
    requires |ids| <= |nClicks|
    ensures |r| > 0 <==> exists i :: 0 <= i < |ids| && nClicks[i] > 0
    ensures forall x :: x in r ==> x in ids
  {
    if ids == [] then []
    else
      var rest := ClickedIndices(nClicks[1..], ids[1..]);
      assert forall i :: 1 <= i < |ids| ==> nClicks[1..][i - 1] == nClicks[i];
      if nClicks[0] > 0 then [ids[0]] + rest else rest
  }

  /**
   * The dataset position delete_item removes: triggered_idx[0]. None when the comprehension
   * raises (an id without a count) or finds no clicked button.
   */
  function DeletedPosition(nClicks: seq<nat>, ids: seq<nat>): Option<nat> {
    if |ids| > |nClicks| then None
    else
      var clicked := ClickedIndices(nClicks, ids);
      if |clicked| == 0 then None else Some(clicked[0])
  }

  /** When several counts are non-zero, the first button in list order decides. */
  lemma {:induction false} FirstClickDecides(nClicks: seq<nat>, ids: seq<nat>, m: nat)
    requires |ids| <= |nClicks| && m < |ids| && nClicks[m] > 0
    requires forall i :: 0 <= i < m ==> nClicks[i] == 0
    ensures DeletedPosition(nClicks, ids) == Some(ids[m])
  {
    if m > 0 {
      FirstClickDecides(nClicks[1..], ids[1..], m - 1);
      assert ClickedIndices(nClicks, ids) == ClickedIndices(nClicks[1..], ids[1..]);
    }
  }

  /** Clicking only the button of row i of the datasets list selects dataset position i. */
  lemma ClickedRowIsDeleted(names: seq<string>, nClicks: seq<nat>, i: nat)
    requires |nClicks| == |names| && i < |names|
    requires forall k :: 0 <= k < |nClicks| ==> (nClicks[k] > 0 <==> k == i)
    ensures AnyClicked(nClicks)
    ensures DeletedPosition(nClicks, ButtonIndices(DatasetsList(names))) == Some(i)
  {
    assert nClicks[i] > 0;
    FirstClickDecides(nClicks, ButtonIndices(DatasetsList(names)), i);
  }

  /**
   * delete_item: no_update when no button has a count; otherwise it deletes, in place, the
   * dataset at the selected insertion position and returns the same store. IndexError when
   * an id has no count, the clicked button lies past the ids, or the position is past the end.
   */
  method DeleteItem(points: Datasets, nClicks: seq<nat>, ids: seq<nat>) returns (r: Result<Update<Datasets>>)
    requires points.Valid()
    modifies points
    ensures points.Valid()
    ensures !AnyClicked(nClicks) ==> r == Ok(NoUpdate)
    ensures r.Ok? <==> !AnyClicked(nClicks) ||
                       (DeletedPosition(nClicks, ids).Some? && DeletedPosition(nClicks, ids).value < |old(points.keys)|)
    ensures r.Err? ==> r.error == IndexError
    ensures r.Err? || r == Ok(NoUpdate) ==> points.keys == old(points.keys) && points.entries == old(points.entries)
    ensures r.Ok? && AnyClicked(nClicks) ==>
      var n := DeletedPosition(nClicks, ids).value;
      r.value == Updated(points) &&
      points.keys == old(points.keys)[..n] + old(points.keys)[n + 1..] &&
      points.entries == old(points.entries) - {old(points.keys)[n]}
  {
    if !AnyClicked(nClicks) {
      return Ok(NoUpdate);
    }
    if |ids| > |nClicks| {
      return Err(IndexError);
    }
    var triggered := ClickedIndices(nClicks, ids);
    if |triggered| == 0 {
      return Err(IndexError);
    }
    var deleted := points.DeleteAt(triggered[0]);
    if deleted.Err? {
      return Err(IndexError);
    }
    r := Ok(Updated(points));
  }

  // ---------------------------------------------------------------------------
  // save_point

  /** The point-name-keyed dictionary of saved option stores. */
  type SavedPoints = OrderedDict<string, StoreData>

  /** What the saved-points store holds: nothing, a list (its initial data) or a dictionary. */
  datatype SavedStore = NoData | ListData(items: seq<StoreData>) | DictData(dict: SavedPoints)

  /**
   * save_point: `None` becomes `{}`, then `saved_points[point_name] = rrtm_options`. A list
   * cannot be indexed by a name: TypeError.
   */
  method SavePoint(pointName: string, rrtmOptions: StoreData, saved: SavedStore) returns (r: Result<SavedPoints>)
    requires saved.DictData? ==> saved.dict.Valid()
    modifies if saved.DictData? then {saved.dict} else {}
    ensures r.Err? <==> saved.ListData?
    ensures r.Err? ==> r.error == TypeError
    ensures saved.NoData? ==>
      fresh(r.value) && r.value.Valid() && r.value.keys == [pointName] && r.value.entries == map[pointName := rrtmOptions]
    ensures saved.DictData? ==>
      r == Ok(saved.dict) && saved.dict.Valid() &&
      saved.dict.entries == old(saved.dict.entries)[pointName := rrtmOptions] &&
      saved.dict.keys == if pointName in old(saved.dict.keys) then old(saved.dict.keys)
                         else old(saved.dict.keys) + [pointName]
  {
    var dict: SavedPoints;
    match saved {
      case ListData(_) =>
        return Err(TypeError);
      case NoData =>
        dict := new OrderedDict();
      case DictData(d) =>
        dict := d;
    }
    dict.Put(pointName, rrtmOptions);
    r := Ok(dict);
  }

  /**
   * The first save into a fresh saved-points store: as written the store starts as `[]`, and
   * the save fails; corrected it starts as `{}`, and the store then holds exactly that point.
   */
  method SaveIntoInitialStore(convention: Convention, pointName: string, rrtmOptions: StoreData)
    returns (r: Result<SavedPoints>)
    ensures r.Ok? <==> convention == Corrected
    ensures r.Err? ==> r.error == TypeError
    ensures r.Ok? ==> r.value.Valid() && r.value.keys == [pointName] && r.value.entries == map[pointName := rrtmOptions]
  {
    var store: SavedStore;
    if convention == AsWritten {
      store := ListData([]);
    } else {
      var empty := new OrderedDict();
      store := DictData(empty);
    }
    r := SavePoint(pointName, rrtmOptions, store);
  }

  // ---------------------------------------------------------------------------
  // update_sensitivity_points_table

  /** One row of the points table. */
  datatype TableRow = TableRow(param1Label: string, param2Label: string, param1Value: real, param2Value: real,
                               olr: real, asr: real, netFlux: real, eqTemp: real)

  function RowOf(p: SensitivityPoint): TableRow {
    TableRow(p.param1Label, p.param2Label, p.param1Value, p.param2Value, p.olr, p.asr, p.netFlux, p.eqTemp)
  }

  /**
   * update_sensitivity_points_table: a row per record of the last dataset in insertion
   * order, in record order; IndexError on an empty store.
   */
  method PointsTable(points: Datasets) returns (r: Result<seq<TableRow>>)
    requires points.Valid()
    ensures r.Ok? <==> |points.keys| > 0
    ensures r.Err? ==> r.error == IndexError
    ensures r.Ok? ==>
      var last := points.entries[points.keys[|points.keys| - 1]];
      |r.value| == |last| && forall k :: 0 <= k < |last| ==> r.value[k] == RowOf(last[k])
  {
    var last := points.LastValue();
    if last.Err? {
      return Err(IndexError);
    }
    var data := [];
    for k := 0 to |last.value|
      invariant |data| == k && forall m :: 0 <= m < k ==> data[m] == RowOf(last.value[m])
    {
      data := data + [RowOf(last.value[k])];
    }
    r := Ok(data);
  }

  /**
   * After `current[name] = recs` the last dataset in insertion order is `recs`, unless `name`
   * was already stored at another position: then the table and figures keep showing the
   * dataset that was last before.
   */
  lemma LastAfterStore(keys: seq<string>, entries: map<string, seq<SensitivityPoint>>, name: string,
                       recs: seq<SensitivityPoint>)
    requires Distinct(keys) && forall k :: k in entries <==> k in keys
    ensures var keys' := if name in keys then keys else keys + [name];
      var last := keys'[|keys'| - 1];
      (name !in keys || keys[|keys| - 1] == name ==> entries[name := recs][last] == recs) &&
      (name in keys && keys[|keys| - 1] != name ==> last == keys[|keys| - 1] && entries[name := recs][last] == entries[last])
  {
  }

  // ---------------------------------------------------------------------------
  // create_sensitivity_figures

  /** The four quantities plotted, in figure order. */
  datatype Quantity = OlrQ | AsrQ | NetFluxQ | EqTempQ

  const FigureQuantities: seq<Quantity> := [OlrQ, AsrQ, NetFluxQ, EqTempQ]

  function QuantityOf(p: SensitivityPoint, q: Quantity): real {
    match q
    case OlrQ => p.olr
    case AsrQ => p.asr
    case NetFluxQ => p.netFlux
    case EqTempQ => p.eqTemp
  }

  function QuantityName(q: Quantity): string {
    match q
    case OlrQ => "OLR"
    case AsrQ => "ASR"
    case NetFluxQ => "Net Flux"
    case EqTempQ => "Equilibrium Surface Temperature"
  }

  /** A contour figure: x, y and z lists, title and axis titles. */
  datatype Contour = Contour(x: seq<real>, y: seq<real>, z: seq<real>, title: string, xTitle: string, yTitle: string)

  /** The figure of one quantity over a dataset; the axis titles come from its first record. */
  function ContourOf(ps: seq<SensitivityPoint>, q: Quantity): (c: Contour)
    requires |ps| > 0
    ensures |c.x| == |c.y| == |c.z| == |ps|
    ensures forall k :: 0 <= k < |ps| ==>
      c.x[k] == ps[k].param1Value && c.y[k] == ps[k].param2Value && c.z[k] == QuantityOf(ps[k], q)
    ensures c.title == QuantityName(q) + " Sensitivity Analysis"
    ensures c.xTitle == ps[0].param1Label && c.yTitle == ps[0].param2Label
  {
    Contour(seq(|ps|, k requires 0 <= k < |ps| => ps[k].param1Value),
            seq(|ps|, k requires 0 <= k < |ps| => ps[k].param2Value),
            seq(|ps|, k requires 0 <= k < |ps| => QuantityOf(ps[k], q)),
            QuantityName(q) + " Sensitivity Analysis", ps[0].param1Label, ps[0].param2Label)
  }

  /** The four figures of a dataset. */
  function Figures(ps: seq<SensitivityPoint>): seq<Contour>
    requires |ps| > 0
  {
    seq(4, f requires 0 <= f < 4 => ContourOf(ps, FigureQuantities[f]))
  }

  /**
   * create_sensitivity_figures: no_update on an empty store; otherwise the four figures of
   * the last dataset, which must hold a record (its first record names the axes).
   */
  function SensitivityFigures(points: Datasets): (r: Result<Update<seq<Contour>>>)
    requires points.Valid()
    reads points
    ensures r == Ok(NoUpdate) <==> |points.keys| == 0
    ensures r.Err? <==> |points.keys| > 0 && |points.entries[points.keys[|points.keys| - 1]]| == 0
    ensures r.Err? ==> r.error == IndexError
    ensures r.Ok? && r.value.Updated? ==>
      var last := points.entries[points.keys[|points.keys| - 1]];
      |last| > 0 && r.value.value == Figures(last)
  {
    if |points.keys| == 0 then Ok(NoUpdate)
    else
      var last := points.LastValue().value;
      if |last| == 0 then Err(IndexError) else Ok(Updated(Figures(last)))
  }

  /**
   * On the records of a sweep, entry a * n2 + b of every figure is grid point (a, b), and
   * the net-flux figure is the OLR figure minus the ASR figure.
   */
  lemma FiguresOfGrid(s: Sweep, recs: seq<SensitivityPoint>, a: nat, b: nat)
    requires RecordsOfGrid(s, recs) && a < |s.values1| && b < |s.values2|
    ensures 0 <= a * |s.values2| + b < |recs|
    ensures var k := a * |s.values2| + b; var figs := Figures(recs);
      |figs| == 4 &&
      (forall f :: 0 <= f < 4 ==> figs[f].x[k] == s.values1[a] && figs[f].y[k] == s.values2[b]) &&
      figs[2].z[k] == figs[0].z[k] - figs[1].z[k]
  {
    RecordAt(s, recs, a, b);
  }

  // ---------------------------------------------------------------------------
  // update_rrtm_graph and eq_temperature_callback

  /** rrtm_options[id]["value"] used as a number. */
  function OptionNumber(options: map<string, Json>, id: string): (r: Result<real>)
    ensures r.Ok? <==> id in options && EntryValue(options[id]).Some?
    ensures r.Ok? ==> EntryValue(options[id]) == Some(r.value)
    ensures r.Err? ==> (r.error == KeyError <==> id !in options || (options[id].Obj? && "value" !in options[id].fields))
    ensures r.Err? ==> r.error in {KeyError, TypeError}
  {
    if id !in options then Err(KeyError)
    else if options[id].Num? then Err(TypeError)
    else if "value" !in options[id].fields then Err(KeyError)
    else if options[id].fields["value"].Obj? then Err(TypeError)
    else Ok(options[id].fields["value"].x)
  }

  /** A value a selector wrote into the options store is the value the callbacks read. */
  lemma SelectorValueReachesGraph(options: map<string, Json>, id: string, value: real, min: real, max: real)
    requires UpsertEntry(options, id, value, min, max).Ok?
    ensures OptionNumber(UpsertEntry(options, id, value, min, max).value, id) == Ok(value)
  {
  }

  /** absorber_vmr.copy() with CO2 and CH4 set from the stored ppm values. */
  function GraphAbsorbers(options: map<string, Json>): (r: Result<Absorbers>)
    ensures r.Ok? <==> OptionNumber(options, Co2Id).Ok? && OptionNumber(options, Ch4Id).Ok?
    ensures r.Ok? ==> r.value.Keys == AbsorberTemplate.Keys
    ensures r.Ok? ==> r.value["CO2"] == PpmToVmr(OptionNumber(options, Co2Id).value) &&
                      r.value["CH4"] == PpmToVmr(OptionNumber(options, Ch4Id).value)
    ensures r.Ok? ==> forall g :: g in AbsorberTemplate && g != "CO2" && g != "CH4" ==> r.value[g] == 0.0
  {
    match OptionNumber(options, Co2Id)
    case Err(e) => Err(e)
    case Ok(co2) =>
      match OptionNumber(options, Ch4Id)
      case Err(e) => Err(e)
      case Ok(ch4) => Ok(AbsorberTemplate["CO2" := PpmToVmr(co2)]["CH4" := PpmToVmr(ch4)])
  }

  /** calc_olr's default stratospheric temperature, which update_rrtm_graph leaves in place. */
  const CalcOlrDefaultTstrat: real := 195.0

  /** The single-column run the graphs are drawn from: its inputs and its radiation. */
  datatype ColumnRun = ColumnRun(sst: real, absorbers: Absorbers, rh: real, rad: Radiation)

  /** The stored options' column run: the four lookups, then calc_olr at Tstrat 195 K. */
  function ColumnRunOf(options: map<string, Json>, flux: FluxModel): (r: Result<ColumnRun>)
    ensures r.Ok? <==> GraphAbsorbers(options).Ok? && OptionNumber(options, SurfaceTemperatureId).Ok? &&
                       OptionNumber(options, RelHumidityId).Ok?
    ensures r.Err? ==> r.error in {KeyError, TypeError}
    ensures r.Ok? ==> r.value.absorbers == GraphAbsorbers(options).value &&
                      r.value.sst == OptionNumber(options, SurfaceTemperatureId).value &&
                      r.value.rh == OptionNumber(options, RelHumidityId).value &&
                      r.value.rad == flux(r.value.sst, r.value.absorbers, r.value.rh, CalcOlrDefaultTstrat)
  {
    match GraphAbsorbers(options)
    case Err(e) => Err(e)
    case Ok(absorbers) =>
      match OptionNumber(options, SurfaceTemperatureId)
      case Err(e) => Err(e)
      case Ok(sst) =>
        match OptionNumber(options, RelHumidityId)
        case Err(e) => Err(e)
        case Ok(rh) => Ok(ColumnRun(sst, absorbers, rh, flux(sst, absorbers, rh, CalcOlrDefaultTstrat)))
  }

  /** The three indicator outputs ind1, ind2, ind3 of the page, and the run behind the figures. */
  datatype GraphView = GraphView(run: ColumnRun, ind1: Layout.IndicatorCard, ind2: Layout.IndicatorCard,
                                 ind3: Layout.IndicatorCard)

  const WattsPerSquareMetre := "W/m²"
  const TopOfAtmosphere := "At the top of the atmosphere"
  const BalanceHover := "Net flux at the top of the atmosphere. \nPositive values indicate a net gain of energy, negative values indicate a net loss of energy."

  /** The radiation balance the page shows: OLR - ASR as written, ASR - OLR corrected. */
  function Balance(rad: Radiation, convention: Convention): real {
    if convention == AsWritten then rad.olr - rad.asr else rad.asr - rad.olr
  }

  /**
   * update_rrtm_graph: the cards are built as (-ASR, OLR, balance) but returned in the order
   * ind3, ind1, ind2, so output ind1 shows the balance, ind2 the incoming shortwave and
   * ind3 the outgoing longwave.
   */
  function UpdateRrtmGraph(options: map<string, Json>, flux: FluxModel, convention: Convention): (r: Result<GraphView>)
    ensures r.Ok? <==> ColumnRunOf(options, flux).Ok?
    ensures r.Err? ==> r.error in {KeyError, TypeError}
    ensures r.Ok? ==> r.value.run == ColumnRunOf(options, flux).value
    ensures r.Ok? ==> r.value.ind1.title == "Radiation Balance" &&
                      Layout.ReadBack(r.value.ind1) == Balance(r.value.run.rad, convention)
    ensures r.Ok? ==> r.value.ind2.title == "Incoming shortwave Radiation" &&
                      Layout.ReadBack(r.value.ind2) == -r.value.run.rad.asr
    ensures r.Ok? ==> r.value.ind3.title == "Outgoing Longwave Radiation" &&
                      Layout.ReadBack(r.value.ind3) == r.value.run.rad.olr
  {
    match ColumnRunOf(options, flux)
    case Err(e) => Err(e)
    case Ok(run) =>
      var shortwave := Layout.MakeIndicatorCard(-run.rad.asr, "Incoming shortwave Radiation", WattsPerSquareMetre,
                                                Some(TopOfAtmosphere));
      var longwave := Layout.MakeIndicatorCard(run.rad.olr, "Outgoing Longwave Radiation", WattsPerSquareMetre,
                                               Some(TopOfAtmosphere));
      var balance := Layout.MakeIndicatorCard(Balance(run.rad, convention), "Radiation Balance", WattsPerSquareMetre,
                                              Some(BalanceHover));
      Layout.IndicatorCardReadBack(-run.rad.asr, "Incoming shortwave Radiation", WattsPerSquareMetre, Some(TopOfAtmosphere));
      Layout.IndicatorCardReadBack(run.rad.olr, "Outgoing Longwave Radiation", WattsPerSquareMetre, Some(TopOfAtmosphere));
      Layout.IndicatorCardReadBack(Balance(run.rad, convention), "Radiation Balance", WattsPerSquareMetre, Some(BalanceHover));
      Ok(GraphView(run, balance, shortwave, longwave))
  }

  /** The column takes in more energy than it emits. */
  predicate GainsEnergy(rad: Radiation) {
    rad.asr > rad.olr
  }

  /**
   * The balance card's hover text reads a positive (green, up) balance as a net gain. As
   * written the card is green exactly when the column loses energy; corrected, exactly when
   * it gains energy. The corrected balance is the equilibrium objective at the column's SST.
   */
  lemma BalanceCardSign(options: map<string, Json>, flux: FluxModel)
    requires ColumnRunOf(options, flux).Ok?
    ensures var rad := ColumnRunOf(options, flux).value.rad;
      UpdateRrtmGraph(options, flux, AsWritten).value.ind1.color == "green" <==> rad.olr > rad.asr
    ensures var rad := ColumnRunOf(options, flux).value.rad;
      UpdateRrtmGraph(options, flux, Corrected).value.ind1.color == "green" <==> GainsEnergy(rad)
    ensures var run := ColumnRunOf(options, flux).value;
      Balance(run.rad, Corrected) == Objective(flux, run.absorbers, run.rh, DefaultEquilibriumTstrat)(run.sst)
  {
    var run := ColumnRunOf(options, flux).value;
    assert Objective(flux, run.absorbers, run.rh, DefaultEquilibriumTstrat)(run.sst) + run.rad.olr == run.rad.asr;
  }

  /**
   * eq_temperature_callback: the equilibrium surface temperature for the stored CO2, CH4 and
   * humidity; the stored surface temperature is not read.
   */
  function EqTemperatureCallback(options: map<string, Json>, flux: FluxModel, rootScalar: RootFinder): (r: Result<real>)
    ensures r.Ok? <==> GraphAbsorbers(options).Ok? && OptionNumber(options, RelHumidityId).Ok?
    ensures r.Err? ==> r.error in {KeyError, TypeError}
    ensures r.Ok? ==> r.value == FindEquilibriumSurfaceTemperature(GraphAbsorbers(options).value, DefaultEquilibriumTstrat,
                                                                   OptionNumber(options, RelHumidityId).value, flux, rootScalar)
  {
    match GraphAbsorbers(options)
    case Err(e) => Err(e)
    case Ok(absorbers) =>
      match OptionNumber(options, RelHumidityId)
      case Err(e) => Err(e)
      case Ok(rh) => Ok(FindEquilibriumSurfaceTemperature(absorbers, DefaultEquilibriumTstrat, rh, flux, rootScalar))
  }

  /**
   * The button's answer does not depend on the stored surface temperature, and with a root
   * finder that respects its bracket it lies in [250, 300] K.
   */
  lemma EqTemperatureIndependentOfSst(options: map<string, Json>, entry: Json, flux: FluxModel, rootScalar: RootFinder)
    ensures EqTemperatureCallback(options[SurfaceTemperatureId := entry], flux, rootScalar) ==
            EqTemperatureCallback(options, flux, rootScalar)
    ensures StaysInBracket(rootScalar) && EqTemperatureCallback(options, flux, rootScalar).Ok? ==>
            BracketLow <= EqTemperatureCallback(options, flux, rootScalar).value <= BracketHigh
  {
    SelectorIdsDistinct();
    var o := options[SurfaceTemperatureId := entry];
    assert OptionNumber(o, Co2Id) == OptionNumber(options, Co2Id);
    assert OptionNumber(o, Ch4Id) == OptionNumber(options, Ch4Id);
    assert OptionNumber(o, RelHumidityId) == OptionNumber(options, RelHumidityId);
  }

  /**
   * When the search finds a true root, writing the button's answer into the surface
   * temperature makes the corrected balance card read zero (blue, sideways).
   */
  lemma EquilibriumZeroesBalance(options: map<string, Json>, flux: FluxModel, rootScalar: RootFinder, min: real, max: real)
    requires EqTemperatureCallback(options, flux, rootScalar).Ok?
    requires var tEq := EqTemperatureCallback(options, flux, rootScalar).value;
      Objective(flux, GraphAbsorbers(options).value, OptionNumber(options, RelHumidityId).value,
                DefaultEquilibriumTstrat)(tEq) == 0.0
    requires UpsertEntry(options, SurfaceTemperatureId, EqTemperatureCallback(options, flux, rootScalar).value, min, max).Ok?
    ensures var o := UpsertEntry(options, SurfaceTemperatureId, EqTemperatureCallback(options, flux, rootScalar).value, min, max).value;
      UpdateRrtmGraph(o, flux, Corrected).Ok? &&
      Layout.ReadBack(UpdateRrtmGraph(o, flux, Corrected).value.ind1) == 0.0 &&
      UpdateRrtmGraph(o, flux, Corrected).value.ind1.color == "blue"
  {
    var tEq := EqTemperatureCallback(options, flux, rootScalar).value;
    var o := UpsertEntry(options, SurfaceTemperatureId, tEq, min, max).value;
    SelectorIdsDistinct();
    assert OptionNumber(o, Co2Id) == OptionNumber(options, Co2Id);
    assert OptionNumber(o, Ch4Id) == OptionNumber(options, Ch4Id);
    assert OptionNumber(o, RelHumidityId) == OptionNumber(options, RelHumidityId);
    assert OptionNumber(o, SurfaceTemperatureId) == Ok(tEq);
    var run := ColumnRunOf(o, flux).value;
    assert run.sst == tEq && run.absorbers == GraphAbsorbers(options).value;
    assert Objective(flux, run.absorbers, run.rh, DefaultEquilibriumTstrat)(run.sst) + run.rad.olr == run.rad.asr;
  }
}
