/** The RRTM page's parameter table and the number inputs built from it. */
module RrtmParams {
  import opened Wrappers
  import opened Dicts
  import opened Strings
  import Utils
  import DivBased

  const PageName := "RRTM"

  /** id_func: "<page name>-<local id>". */
  function IdFunc(local: string): string {
    PageName + "-" + local
  }

  /** id_func is make_page_id_func of the page name. */
  lemma IdFuncIsPageIdFunc()
    ensures forall local :: IdFunc(local) == Utils.MakePageIdFunc(PageName)(local)
  {
  }

  /** One row of possible_params. */
  datatype ParamSpec = ParamSpec(caption: string, tableId: string, value: real, min: real, max: real, step: real)

  /** possible_params, in its declaration order. */
  const PossibleParams: seq<(string, ParamSpec)> := [
    ("co2_concentration", ParamSpec("CO2 Concentration (ppm)", IdFunc("co2-concentration"), 400.0, 0.0, 10000.0, 1.0)),
    ("ch4_concentration", ParamSpec("CH4 Concentration (ppm)", IdFunc("ch4-concentration"), 0.0, 0.0, 10000.0, 1.0)),
    ("rel_humidity", ParamSpec("Relative Humidity (-)", IdFunc("rel-humidity"), 0.8, 0.0, 1.0, 0.01)),
    ("surface_temperature", ParamSpec("Surface Temperature (K)", IdFunc("surface-temperature"), 275.0, 250.0, 290.0, 1.0))
  ]

  /** The store the selectors of the current page write to, and that of the older page. */
  const OptionsStoreLocal := "rrtm-options"
  const LegacyOptionsStoreLocal := "rrtm_options"

  /** The selector ids the sweep and the callbacks look values up by: selectors[key].id. */
  const Co2Id := IdFunc("co2_concentration")
  const Ch4Id := IdFunc("ch4_concentration")
  const RelHumidityId := IdFunc("rel_humidity")
  const SurfaceTemperatureId := IdFunc("surface_temperature")

  /** The four selector ids are pairwise different. */
  lemma SelectorIdsDistinct()
    ensures Co2Id != Ch4Id && Co2Id != RelHumidityId && Co2Id != SurfaceTemperatureId
    ensures Ch4Id != RelHumidityId && Ch4Id != SurfaceTemperatureId
    ensures RelHumidityId != SurfaceTemperatureId
  {
    assert Co2Id[6] != Ch4Id[6];
    assert |Co2Id| == |Ch4Id| == 22 && |RelHumidityId| == 17 && |SurfaceTemperatureId| == 24;
  }

  /** Every default value lies within its parameter's bounds. */
  lemma DefaultsWithinBounds()
    ensures forall i :: 0 <= i < |PossibleParams| ==>
      PossibleParams[i].1.min <= PossibleParams[i].1.value <= PossibleParams[i].1.max
  {
  }

  /** The table's "id" differs from the selector id of the same parameter. */
  lemma TableIdIsNotSelectorId()
    ensures forall i :: 0 <= i < |PossibleParams| ==> PossibleParams[i].1.tableId != IdFunc(PossibleParams[i].0)
  {
    assert PossibleParams[0].1.tableId[8] != Co2Id[8];
    assert PossibleParams[1].1.tableId[8] != Ch4Id[8];
    assert PossibleParams[2].1.tableId[8] != RelHumidityId[8];
    assert PossibleParams[3].1.tableId[12] != SurfaceTemperatureId[12];
  }

  const Concentration := "concentration"

  lemma Co2IdIsConcentration()
    ensures Contains(Co2Id, Concentration)
  {
    ContainsFromIsWindow(Co2Id, Concentration, 0);
    assert OccursAt(Co2Id, Concentration, 9);
  }

  lemma Ch4IdIsConcentration()
    ensures Contains(Ch4Id, Concentration)
  {
    ContainsFromIsWindow(Ch4Id, Concentration, 0);
    assert OccursAt(Ch4Id, Concentration, 9);
  }

  lemma RelHumidityIdIsNoConcentration()
    ensures !Contains(RelHumidityId, Concentration)
  {
    ContainsFromIsWindow(RelHumidityId, Concentration, 0);
    forall i: nat | OccursAt(RelHumidityId, Concentration, i) ensures false {
      OccursAtHead(RelHumidityId, Concentration, i);
    }
  }

  lemma SurfaceTemperatureIdIsNoConcentration()
    ensures !Contains(SurfaceTemperatureId, Concentration)
  {
    ContainsFromIsWindow(SurfaceTemperatureId, Concentration, 0);
    forall i: nat | OccursAt(SurfaceTemperatureId, Concentration, i) ensures false {
      OccursAtHead(SurfaceTemperatureId, Concentration, i);
    }
  }

  /** Exactly the two gas parameters carry the substring the sweep's unit rule tests. */
  lemma ConcentrationParams()
    ensures forall i :: 0 <= i < |PossibleParams| ==>
      (Contains(IdFunc(PossibleParams[i].0), Concentration) <==> i < 2)
  {
    Co2IdIsConcentration();
    Ch4IdIsConcentration();
    RelHumidityIdIsNoConcentration();
    SurfaceTemperatureIdIsNoConcentration();
  }

  /** A number input built from row `spec` of parameter `key`, writing to the store id_func(storeLocal). */
  predicate BuiltFrom(input: DivBased.NumberInput, key: string, spec: ParamSpec, storeLocal: string) {
    input.id == IdFunc(key) && input.caption == spec.caption && input.value == spec.value &&
    input.min == spec.min && input.max == spec.max && input.step == spec.step &&
    input.storeId == Some(IdFunc(storeLocal)) && input.customKey == None
  }

  /** The parameter keys, in table order. */
  function ParamKeys(): (ks: seq<string>)
    ensures |ks| == |PossibleParams| && forall i :: 0 <= i < |ks| ==> ks[i] == PossibleParams[i].0
  {
    seq(|PossibleParams|, i requires 0 <= i < |PossibleParams| => PossibleParams[i].0)
  }

  /**
   * The module-level loop of the parameter table: one number input per parameter, keyed
   * by the parameter, built from its row.
   */
  method BuildSelectors(storeLocal: string) returns (selectors: OrderedDict<string, DivBased.NumberInput>)
    ensures fresh(selectors) && selectors.Valid()
    ensures selectors.keys == ParamKeys()
    ensures forall i :: 0 <= i < |PossibleParams| ==>
      PossibleParams[i].0 in selectors.entries &&
      BuiltFrom(selectors.entries[PossibleParams[i].0], PossibleParams[i].0, PossibleParams[i].1, storeLocal)
  {
    selectors := new OrderedDict<string, DivBased.NumberInput>();
    var keys := ParamKeys();
    assert Distinct(keys);
    for i := 0 to |PossibleParams|
      invariant fresh(selectors) && selectors.Valid()
      invariant selectors.keys == keys[..i]
      invariant forall k :: 0 <= k < i ==>
        keys[k] in selectors.entries &&
        BuiltFrom(selectors.entries[keys[k]], keys[k], PossibleParams[k].1, storeLocal)
    {
      var param := keys[i];
      var spec := PossibleParams[i].1;
      assert param !in keys[..i];
      var input := new DivBased.NumberInput(IdFunc(param), spec.caption, spec.value, spec.min, spec.max,
                                            spec.step, DivBased.DefaultSize, Some(IdFunc(storeLocal)), None);
      ghost var before := selectors.entries;
      selectors.Put(param, input);
      forall k | 0 <= k < i + 1
        ensures keys[k] in selectors.entries &&
                BuiltFrom(selectors.entries[keys[k]], keys[k], PossibleParams[k].1, storeLocal)
      {
        if k < i {
          assert keys[k] != param && selectors.entries[keys[k]] == before[keys[k]];
        }
      }
      TakeSnoc(keys, i);
    }
  }
}
