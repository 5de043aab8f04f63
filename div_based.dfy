/** The number input that mirrors its value into a session store of options. */
module DivBased {
  import opened Wrappers
  import opened Dicts

  /** A JSON value held by a store: a number or an object. */
  datatype Json = Num(x: real) | Obj(fields: map<string, Json>)

  /** The store contents a callback receives: a dictionary of JSON values. */
  type StoreData = OrderedDict<string, Json>

  /** The entry written for a component the store does not know yet. */
  function Field(value: real, min: real, max: real): Json {
    Obj(map["value" := Num(value), "min" := Num(min), "max" := Num(max)])
  }

  /** The "value" number of an option entry, if it has one. */
  function EntryValue(entry: Json): Option<real> {
    if entry.Obj? && "value" in entry.fields && entry.fields["value"].Num?
    then Some(entry.fields["value"].x) else None
  }

  /** Insert `{value, min, max}` under `id`, or replace only the "value" of an existing object. */
  function UpsertEntry(entries: map<string, Json>, id: string, value: real, min: real, max: real)
    : (r: Result<map<string, Json>>)
    ensures r.Err? <==> (id in entries && entries[id].Num?)
    ensures r.Err? ==> r.error == TypeError
    ensures r.Ok? ==> r.value.Keys == entries.Keys + {id}
    ensures r.Ok? ==> forall k :: k in entries && k != id ==> r.value[k] == entries[k]
    ensures r.Ok? ==> EntryValue(r.value[id]) == Some(value)
    ensures r.Ok? && id !in entries ==> r.value[id] == Field(value, min, max)
    ensures r.Ok? && id in entries ==> r.value[id].fields.Keys == entries[id].fields.Keys + {"value"}
    ensures r.Ok? && id in entries ==>
      forall f :: f in entries[id].fields && f != "value" ==> r.value[id].fields[f] == entries[id].fields[f]
  {
    if id !in entries then Ok(entries[id := Field(value, min, max)])
    else if entries[id].Num? then Err(TypeError)
    else Ok(entries[id := Obj(entries[id].fields["value" := Num(value)])])
  }

  /** Default arguments of CustomMantineNumberInput. */
  const DefaultValue: real := 0.0
  const DefaultMin: real := 0.0
  const DefaultMax: real := 1000000.0
  const DefaultStep: real := 1.0
  const DefaultSize := "sm"

  /** CustomMantineNumberInput: a number input bound to the store `storeId`. */
  class NumberInput {
    const id: string
    const caption: string
    const value: real
    const min: real
    const max: real
    const step: real
    const size: string
    const storeId: Option<string>
    const customKey: Option<string>

    /** The constructor records its arguments unchanged. */
    constructor (id: string, caption: string, value: real, min: real, max: real, step: real,
                 size: string, storeId: Option<string>, customKey: Option<string>)
      ensures this.id == id && this.caption == caption && this.value == value
      ensures this.min == min && this.max == max && this.step == step && this.size == size
      ensures this.storeId == storeId && this.customKey == customKey
    {
      this.id := id;
      this.caption := caption;
      this.value := value;
      this.min := min;
      this.max := max;
      this.step := step;
      this.size := size;
      this.storeId := storeId;
      this.customKey := customKey;
    }

    /** The top-level store key the update writes under. */
    function TopKey(): string {
      if customKey.Some? then customKey.value else id
    }

    /** The store contents after `_update_function(state, value)`, or the error it raises. */
    function Updated(entries: map<string, Json>, newValue: real): (r: Result<map<string, Json>>)
      ensures r.Ok? ==> r.value.Keys == entries.Keys + {TopKey()}
      ensures r.Ok? ==> forall k :: k in entries && k != TopKey() ==> r.value[k] == entries[k]
    {
      if customKey.None? then UpsertEntry(entries, id, newValue, min, max)
      else
        var group := if customKey.value in entries then entries[customKey.value] else Obj(map[]);
        if group.Num? then Err(TypeError)
        else match UpsertEntry(group.fields, id, newValue, min, max)
             case Ok(fields) => Ok(entries[customKey.value := Obj(fields)])
             case Err(e) => Err(e)
    }

    /** The value this component reads back from the store contents. */
    function CurrentValue(entries: map<string, Json>): Option<real> {
      if customKey.None? then
        (if id in entries then EntryValue(entries[id]) else None)
      else if customKey.value in entries && entries[customKey.value].Obj?
              && id in entries[customKey.value].fields
      then EntryValue(entries[customKey.value].fields[id])
      else None
    }

    /** The update fails exactly when a number sits where an object is expected. */
    lemma UpdateFailsOnlyOnNumbers(entries: map<string, Json>, newValue: real)
      ensures Updated(entries, newValue).Err? <==>
        if customKey.None? then id in entries && entries[id].Num?
        else customKey.value in entries &&
             (entries[customKey.value].Num? ||
              (id in entries[customKey.value].fields && entries[customKey.value].fields[id].Num?))
    {
    }

    /** After a successful update the component reads back the value it wrote. */
    lemma UpdateThenRead(entries: map<string, Json>, newValue: real)
      requires Updated(entries, newValue).Ok?
      ensures CurrentValue(Updated(entries, newValue).value) == Some(newValue)
    {
    }

    /** Writing the same value twice leaves the store as writing it once. */
    lemma UpdateIdempotent(entries: map<string, Json>, newValue: real)
      requires Updated(entries, newValue).Ok?
      ensures Updated(Updated(entries, newValue).value, newValue) == Updated(entries, newValue)
    {
      var once := Updated(entries, newValue).value;
      if customKey.None? {
        assert once[id].Obj?;
        assert once[id].fields["value" := Num(newValue)] == once[id].fields;
        assert once[id := Obj(once[id].fields["value" := Num(newValue)])] == once;
      } else {
        var ck := customKey.value;
        var g := once[ck].fields;
        assert g[id].Obj?;
        assert g[id].fields["value" := Num(newValue)] == g[id].fields;
        assert g[id := Obj(g[id].fields["value" := Num(newValue)])] == g;
        assert once[ck := Obj(g)] == once;
      }
    }

    /** _update_function: upsert into the passed store object, mutated in place and returned. */
    method UpdateFunction(state: StoreData, newValue: real) returns (r: Result<StoreData>)
      requires state.Valid()
      modifies state
      ensures state.Valid()
      ensures r.Ok? <==> Updated(old(state.entries), newValue).Ok?
      ensures r.Ok? ==> r.value == state && state.entries == Updated(old(state.entries), newValue).value
      ensures r.Ok? ==> state.keys == if TopKey() in old(state.keys) then old(state.keys)
                                      else old(state.keys) + [TopKey()]
      ensures r.Err? ==> r.error == TypeError
      ensures r.Err? ==> state.keys == old(state.keys) && state.entries == old(state.entries)
    {
      if customKey.None? {
        if id !in state.entries {
          state.Put(id, Field(newValue, min, max));
        } else if state.entries[id].Num? {
          return Err(TypeError);
        } else {
          state.Put(id, Obj(state.entries[id].fields["value" := Num(newValue)]));
        }
      } else {
        var ck := customKey.value;
        if ck !in state.entries {
          state.Put(ck, Obj(map[]));
        }
        var group := state.entries[ck];
        if group.Num? {
          return Err(TypeError);
        }
        if id !in group.fields {
          state.Put(ck, Obj(group.fields[id := Field(newValue, min, max)]));
        } else if group.fields[id].Num? {
          return Err(TypeError);
        } else {
          state.Put(ck, Obj(group.fields[id := Obj(group.fields[id].fields["value" := Num(newValue)])]));
        }
      }
      r := Ok(state);
    }
  }
}
