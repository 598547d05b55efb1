/** `UserData`: the string-keyed bag of a user's custom attributes, with the
    pass that turns stored custom-data-type records back into their values. */
module UserDataModel {
  import opened JsValues

  /** The field that marks a stored value as a custom data type. */
  const SchemaTag := "__Ionic_DataTypeSchema"

  datatype Option<T> = None | Some(value: T)

  /** The process-wide custom data type registry: type name to its
      `fromStorage` conversion. The conversions themselves are not part of
      this model and stay abstract. */
  type Registry = map<string, Value -> Value>

  /** A stored value is a custom-type record whose type is registered: an
      object whose tag is a non-empty name found in the registry. */
  predicate IsRegisteredTagged(registry: Registry, v: Value) {
    v.Obj? && Truthy(Field(v, SchemaTag)) && Field(v, SchemaTag).Str?
    && Field(v, SchemaTag).s in registry
  }

  /** The stored form of a custom-type value. */
  function TaggedRecord(name: string, payload: Value): (r: Value)
    ensures r.Obj? && Field(r, SchemaTag) == Str(name) && Field(r, "value") == payload
  {
    Obj(map[SchemaTag := Str(name), "value" := payload])
  }

  /** What the deserialisation pass leaves in place of one top-level value:
      the registered type's conversion of a tagged record's `value` field,
      and any other value as it is. */
  function DeserializeValue(registry: Registry, v: Value): (r: Value)
    ensures !IsRegisteredTagged(registry, v) ==> r == v
  {
    if IsRegisteredTagged(registry, v) then registry[Field(v, SchemaTag).s](Field(v, "value"))
    else v
  }

  /** The whole data map after the deserialisation pass (corrected: a `null`
      value is left alone, like any other value that is not a tagged record). */
  function Deserialized(registry: Registry, m: map<string, Value>): (r: map<string, Value>)
    ensures r.Keys == m.Keys
  {
    map k | k in m :: DeserializeValue(registry, m[k])
  }

  /** One step of the loop as the source writes it: `typeof v === 'object'`
      holds for objects and for `null`; reading the tag of `null` throws a
      TypeError (`None` here); a truthy tag naming a registered type is
      converted, and everything else is kept. */
  function DeserializeValueAsWritten(registry: Registry, v: Value): (r: Option<Value>)
  {
    if v.Obj? || v.Null? then
      if v.Null? then None
      else if Truthy(Field(v, SchemaTag)) then
        var name := Field(v, SchemaTag);
        if name.Str? && name.s in registry then Some(registry[name.s](Field(v, "value")))
        else Some(v)
      else Some(v)
    else Some(v)
  }

  /** A single value throws exactly when it is `null`; any other value gets
      the corrected treatment. */
  lemma ValueAsWrittenThrowsOnlyOnNull(registry: Registry, v: Value)
    ensures DeserializeValueAsWritten(registry, v).None? <==> v == Null
    ensures v != Null ==> DeserializeValueAsWritten(registry, v) == Some(DeserializeValue(registry, v))
  {
  }

  /** The pass as the source writes it: it throws (`None`) as soon as one
      key's step throws, and otherwise holds every key's converted value. */
  function DeserializedAsWritten(registry: Registry, m: map<string, Value>): (r: Option<map<string, Value>>)
    ensures r.Some? ==> r.value.Keys == m.Keys
  {
    if exists k :: k in m && DeserializeValueAsWritten(registry, m[k]).None? then None
    else Some(map k | k in m :: DeserializeValueAsWritten(registry, m[k]).value)
  }

  /** The source's pass throws exactly when some top-level value is `null`. */
  lemma AsWrittenThrowsExactlyOnNull(registry: Registry, m: map<string, Value>)
    ensures DeserializedAsWritten(registry, m).None? <==> exists k :: k in m && m[k] == Null
  {
    forall k | k in m
      ensures DeserializeValueAsWritten(registry, m[k]).None? <==> m[k] == Null
    {
      ValueAsWrittenThrowsOnlyOnNull(registry, m[k]);
    }
  }

  /** The as-written pass rejects a map as small as `{k: null}`, which the
      corrected pass keeps unchanged. */
  lemma NullValueThrows(registry: Registry)
    ensures DeserializedAsWritten(registry, map["k" := Null]) == None
    ensures Deserialized(registry, map["k" := Null]) == map["k" := Null]
  {
    var m := map["k" := Null];
    assert m["k"] == Null;
    assert Deserialized(registry, m)["k"] == Null;
  }

  /** Wherever the source does not throw, it agrees with the corrected pass. */
  lemma AsWrittenAgreesWithoutNull(registry: Registry, m: map<string, Value>)
    requires forall k :: k in m ==> m[k] != Null
    ensures DeserializedAsWritten(registry, m) == Some(Deserialized(registry, m))
  {
    forall k | k in m
      ensures DeserializeValueAsWritten(registry, m[k]) == Some(DeserializeValue(registry, m[k]))
    {
      ValueAsWrittenThrowsOnlyOnNull(registry, m[k]);
    }
    AsWrittenThrowsExactlyOnNull(registry, m);
    assert DeserializedAsWritten(registry, m).Some?;
    var r := DeserializedAsWritten(registry, m).value;
    assert forall k :: k in m ==> r[k] == Deserialized(registry, m)[k];
    assert r == Deserialized(registry, m);
  }

  /** The pass replaces a value exactly when it is a registered tagged
      record, with the conversion applied to the record's `value` field;
      untagged values and unregistered tags come through unchanged. */
  lemma DeserializedReplacesExactlyRegistered(registry: Registry, m: map<string, Value>, k: string)
    requires k in m
    ensures IsRegisteredTagged(registry, m[k]) ==>
              Deserialized(registry, m)[k] == registry[Field(m[k], SchemaTag).s](Field(m[k], "value"))
    ensures !IsRegisteredTagged(registry, m[k]) ==> Deserialized(registry, m)[k] == m[k]
  {
  }

  /** A map holding no registered tagged record comes through the pass unchanged. */
  lemma DeserializedPlain(registry: Registry, m: map<string, Value>)
    requires forall k :: k in m ==> !IsRegisteredTagged(registry, m[k])
    ensures Deserialized(registry, m) == m
  {
    var r := Deserialized(registry, m);
    assert forall k :: k in r ==> r[k] == m[k];
  }

  /** A tagged record whose type is not registered is never touched. */
  lemma UnregisteredTagKept(registry: Registry, m: map<string, Value>, k: string, name: string, payload: Value)
    requires name !in registry
    requires k in m && m[k] == TaggedRecord(name, payload)
    ensures Deserialized(registry, m)[k] == m[k]
  {
  }

  class UserData {
    var data: map<string, Value>

    /** `new UserData(raw)`: an object becomes the data map and goes through
        the deserialisation pass; anything else gives an empty map. */
    constructor (raw: Value, registry: Registry)
      ensures data == Deserialized(registry, FieldsOf(raw))
    {
      data := FieldsOf(raw);
      new;
      DeserializeDataTypes(registry);
    }

    /** `deserializerDataTypes`: visits every top-level key once and rewrites
        registered tagged records in place. */
    method DeserializeDataTypes(registry: Registry)
      modifies this
      ensures data == Deserialized(registry, old(data))
    {
      ghost var original := data;
      var pending := data.Keys;
      while pending != {}
        invariant pending <= original.Keys && data.Keys == original.Keys
        invariant forall k :: k in original ==>
                    data[k] == if k in pending then original[k] else DeserializeValue(registry, original[k])
        decreases pending
      {
        var x :| x in pending;
        data := data[x := DeserializeValue(registry, data[x])];
        pending := pending - {x};
      }
      assert forall k :: k in data ==> data[k] == Deserialized(registry, original)[k];
    }

    /** `set`: unconditional overwrite; afterwards `get` yields the value
        whatever default is passed. */
    method Set(key: string, value: Value)
      modifies this
      ensures data == old(data)[key := value]
      ensures forall d :: Get(key, d) == value
    {
      data := data[key := value];
    }

    /** `unset`: the key is gone, no other key changes, and removing an
        absent key is a no-op. */
    method Unset(key: string)
      modifies this
      ensures key !in data
      ensures forall k :: k != key ==> (k in data <==> k in old(data)) && (k in data ==> data[k] == old(data)[k])
      ensures key !in old(data) ==> data == old(data)
    {
      data := data - {key};
    }

    /** `get(key, default)`: a present key yields its stored value, falsy or
        not; for an absent key a default of `0` or `false` comes back verbatim,
        a truthy default comes back as given, and any other default reads as
        `null`. */
    function Get(key: string, default: Value): (r: Value)
      reads this
      ensures key in data ==> r == data[key]
      ensures key !in data && (default == Num(0) || default == Bool(false) || Truthy(default)) ==> r == default
      ensures key !in data && !(default == Num(0) || default == Bool(false) || Truthy(default)) ==> r == Null
    {
      if key in data then data[key]
      else if default == Num(0) || default == Bool(false) then default
      else Or(default, Null)
    }
  }
}
