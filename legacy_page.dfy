/**
 * The older RRTM page. Its sweep, delete, table and figure callbacks are those of the
 * current page (RrtmPage, RrtmCallbacks); it differs in save_point, which appends to a list,
 * and in update_rrtm_graph, which draws three delta indicators and routes them differently.
 */
module LegacyRrtmPage {
  import opened Wrappers
  import opened DivBased
  import opened RrtmModel
  import opened SweepSpec
  import opened RrtmCallbacks
  import Layout

  // ---------------------------------------------------------------------------
  // save_point

  /** The saved-points store of the old page: a list of option stores. */
  class PointList {
    var items: seq<StoreData>

    /** `[]` */
    constructor ()
      ensures items == []
    {
      items := [];
    }

    /** `list.append(x)` */
    method Append(x: StoreData)
      modifies this
      ensures items == old(items) + [x]
    {
      items := items + [x];
    }
  }

  /**
   * save_point: `None` becomes `[]`, and the options snapshot is appended as the new last
   * element; earlier entries stay as they were.
   */
  method SavePoint(rrtmOptions: StoreData, saved: Option<PointList>) returns (r: PointList)
    modifies if saved.Some? then {saved.value} else {}
    ensures saved.None? ==> fresh(r) && r.items == [rrtmOptions]
    ensures saved.Some? ==> r == saved.value && r.items == old(saved.value.items) + [rrtmOptions]
    ensures saved.Some? ==> |r.items| == |old(saved.value.items)| + 1 &&
                            r.items[..|old(saved.value.items)|] == old(saved.value.items)
  {
    if saved.None? {
      r := new PointList();
    } else {
      r := saved.value;
    }
    r.Append(rrtmOptions);
  }

  // ---------------------------------------------------------------------------
  // update_rrtm_graph

  /** A go.Indicator in "delta" mode: its title, its value and the reference the delta is taken from. */
  datatype Indicator = Indicator(title: string, value: real, reference: real)

  /** The three indicator figures rrtm_graph_ind1 .. ind3, and the run behind the two graphs. */
  datatype LegacyView = LegacyView(run: ColumnRun, ind1: Indicator, ind2: Indicator, ind3: Indicator)

  /**
   * update_rrtm_graph of the old page: figures fig3 (OLR), fig4 (-ASR) and fig5 (OLR - ASR)
   * are returned as fig4, fig3, fig5.
   */
  function UpdateRrtmGraph(options: map<string, Json>, flux: FluxModel): (r: Result<LegacyView>)
    ensures r.Ok? <==> ColumnRunOf(options, flux).Ok?
    ensures r.Err? ==> r.error in {KeyError, TypeError}
    ensures r.Ok? ==> r.value.run == ColumnRunOf(options, flux).value
    ensures r.Ok? ==> r.value.ind1.title == "Incoming Shortwave Radiation (W/m²)" && r.value.ind1.value == -r.value.run.rad.asr
    ensures r.Ok? ==> r.value.ind2.title == "Outgoing Longwave Radiation (W/m²)" && r.value.ind2.value == r.value.run.rad.olr
    ensures r.Ok? ==> r.value.ind3.title == "Radiation Balance (W/m²)" && r.value.ind3.value + r.value.run.rad.asr == r.value.run.rad.olr
    ensures r.Ok? ==> r.value.ind1.reference == r.value.ind2.reference == r.value.ind3.reference == 0.0
  {
    match ColumnRunOf(options, flux)
    case Err(e) => Err(e)
    case Ok(run) =>
      var fig3 := Indicator("Outgoing Longwave Radiation (W/m²)", run.rad.olr, 0.0);
      var fig4 := Indicator("Incoming Shortwave Radiation (W/m²)", -run.rad.asr, 0.0);
      var fig5 := Indicator("Radiation Balance (W/m²)", run.rad.olr - run.rad.asr, 0.0);
      Ok(LegacyView(run, fig4, fig3, fig5))
  }

  /**
   * Both pages show the same three numbers for the same options, in different slots: the
   * old page's ind1, ind2, ind3 are the current page's ind2, ind3, ind1.
   */
  lemma SameNumbersOtherSlots(options: map<string, Json>, flux: FluxModel)
    ensures UpdateRrtmGraph(options, flux).Ok? <==> RrtmCallbacks.UpdateRrtmGraph(options, flux, AsWritten).Ok?
    ensures UpdateRrtmGraph(options, flux).Ok? ==>
      var legacy := UpdateRrtmGraph(options, flux).value;
      var current := RrtmCallbacks.UpdateRrtmGraph(options, flux, AsWritten).value;
      legacy.ind1.value == Layout.ReadBack(current.ind2) &&
      legacy.ind2.value == Layout.ReadBack(current.ind3) &&
      legacy.ind3.value == Layout.ReadBack(current.ind1)
  {
  }
}
