/** The persisted form of the current user and the key-value storage slots
    it lives in: the primary slot and the write-once legacy slot. These pure
    functions specify what `UserContext` does to the storage map. */
module UserStorage {
  import opened JsValues
  import opened UserDataModel

  const LabelPrefix := "ionic_io_user_"
  const LegacySuffix := "_legacy"

  /** The custom-data key that marks a completed legacy migration. */
  const MigratedFlag := "__ionic_user_migrated"

  /** The storage slot of an app's current user; each app id has its own. */
  function PrimaryKey(appId: string): (key: string)
    ensures LabelPrefix <= key && key[|LabelPrefix|..] == appId
  {
    LabelPrefix + appId
  }

  /** The legacy slot beside it; the two slots never collide. */
  function LegacyKey(appId: string): (key: string)
    ensures key != PrimaryKey(appId)
    ensures PrimaryKey(appId) <= key
  {
    PrimaryKey(appId) + LegacySuffix
  }

  /** `storage.retrieveObject(key)`: `null` for a key that holds nothing. */
  function Retrieve(storage: map<string, Value>, key: string): (r: Value) {
    if key in storage then storage[key] else Null
  }

  /** `storeLegacyData(record)`: the legacy slot is written only while it
      reads as empty (falsy). */
  function WithLegacy(storage: map<string, Value>, legacyKey: string, record: Value): (r: map<string, Value>) {
    if Truthy(Retrieve(storage, legacyKey)) then storage else storage[legacyKey := record]
  }

  /** The storage after `UserContext.load()`: a stored primary record is
      copied forward into the legacy slot (if that is empty). */
  function LoadedStorage(storage: map<string, Value>, appId: string): (r: map<string, Value>) {
    var primary := Retrieve(storage, PrimaryKey(appId));
    if Truthy(primary) then WithLegacy(storage, LegacyKey(appId), primary) else storage
  }

  /** The marker record the legacy slot holds once migration is complete. */
  const MigratedMarker: Value := Obj(map[MigratedFlag := Bool(true)])

  /** The storage after `UserContext.store()` of a current user whose
      persisted record is `record` and whose data carries the migration flag
      when `migrated` holds. */
  function StoredStorage(storage: map<string, Value>, appId: string, record: Value, migrated: bool): (r: map<string, Value>) {
    var s1 := LoadedStorage(storage, appId);
    var s2 := if migrated then s1[LegacyKey(appId) := MigratedMarker] else s1;
    s2[PrimaryKey(appId) := record]
  }

  /** The record a `User` is persisted as:
      `{_id, data: {data: <custom map>}, details, _fresh, _dirty}`. */
  function UserRecord(id: Value, custom: map<string, Value>, details: Value, isFresh: bool, isDirty: bool): (record: Value) {
    Obj(map["_id" := id, "data" := Obj(map["data" := Obj(custom)]), "details" := details,
            "_fresh" := Bool(isFresh), "_dirty" := Bool(isDirty)])
  }

  /** `record.data.data`, the custom map a stored record carries, as the
      `UserData` constructor receives it. */
  function RecordCustom(record: Value): (custom: map<string, Value>) {
    FieldsOf(Field(Field(record, "data"), "data"))
  }

  /** Storing the legacy slot twice writes it once: the second call, whatever
      record it carries, changes nothing. */
  lemma WithLegacyIdempotent(storage: map<string, Value>, legacyKey: string, first: Value, second: Value)
    requires Truthy(first)
    ensures WithLegacy(WithLegacy(storage, legacyKey, first), legacyKey, second) == WithLegacy(storage, legacyKey, first)
    ensures Truthy(Retrieve(WithLegacy(storage, legacyKey, first), legacyKey))
  {
    var s1 := WithLegacy(storage, legacyKey, first);
    assert Truthy(Retrieve(s1, legacyKey));
  }

  /** Writing the legacy slot touches no other slot. */
  lemma WithLegacyFrame(storage: map<string, Value>, legacyKey: string, record: Value, key: string)
    requires key != legacyKey
    ensures Retrieve(WithLegacy(storage, legacyKey, record), key) == Retrieve(storage, key)
  {
  }

  /** Loading a stored primary record into an empty legacy slot leaves that
      slot holding the same record; a filled legacy slot is kept; the primary
      slot never changes. */
  lemma LoadCopiesPrimaryForward(storage: map<string, Value>, appId: string)
    ensures Retrieve(LoadedStorage(storage, appId), PrimaryKey(appId)) == Retrieve(storage, PrimaryKey(appId))
    ensures Truthy(Retrieve(storage, PrimaryKey(appId))) && !Truthy(Retrieve(storage, LegacyKey(appId))) ==>
              Retrieve(LoadedStorage(storage, appId), LegacyKey(appId)) == Retrieve(storage, PrimaryKey(appId))
    ensures Truthy(Retrieve(storage, LegacyKey(appId))) ==> LoadedStorage(storage, appId) == storage
  {
    WithLegacyFrame(storage, LegacyKey(appId), Retrieve(storage, PrimaryKey(appId)), PrimaryKey(appId));
  }

  /** Loading twice copies forward once. */
  lemma LoadedStorageIdempotent(storage: map<string, Value>, appId: string)
    ensures LoadedStorage(LoadedStorage(storage, appId), appId) == LoadedStorage(storage, appId)
  {
    var primary := Retrieve(storage, PrimaryKey(appId));
    LoadCopiesPrimaryForward(storage, appId);
    if Truthy(primary) {
      WithLegacyIdempotent(storage, LegacyKey(appId), primary, primary);
    }
  }

  /** After `store()` the primary slot holds the user's record, the legacy
      slot is non-empty whenever a primary record existed before or the user
      is migrated, and it is the marker exactly in the migrated case. */
  lemma StoreWritesPrimary(storage: map<string, Value>, appId: string, record: Value, migrated: bool)
    ensures Retrieve(StoredStorage(storage, appId, record, migrated), PrimaryKey(appId)) == record
    ensures migrated ==> Retrieve(StoredStorage(storage, appId, record, migrated), LegacyKey(appId)) == MigratedMarker
    ensures !migrated && Truthy(Retrieve(storage, LegacyKey(appId))) ==>
              Retrieve(StoredStorage(storage, appId, record, migrated), LegacyKey(appId)) == Retrieve(storage, LegacyKey(appId))
    ensures Truthy(Retrieve(storage, PrimaryKey(appId))) ==>
              Truthy(Retrieve(StoredStorage(storage, appId, record, migrated), LegacyKey(appId)))
  {
    var primary := Retrieve(storage, PrimaryKey(appId));
    LoadCopiesPrimaryForward(storage, appId);
    if Truthy(primary) {
      WithLegacyIdempotent(storage, LegacyKey(appId), primary, primary);
    }
  }

  /** Reading back a persisted record yields the same id, the same custom
      map (when it holds no registered tagged record, which the
      deserialisation pass would convert), the same details (when they are
      an object) and the same flags. */
  lemma UserRecordRoundTrip(registry: Registry, id: Value, custom: map<string, Value>, details: Value, isFresh: bool, isDirty: bool)
    requires forall k :: k in custom ==> !IsRegisteredTagged(registry, custom[k])
    ensures var record := UserRecord(id, custom, details, isFresh, isDirty);
      && Truthy(record)
      && Field(record, "_id") == id
      && Deserialized(registry, RecordCustom(record)) == custom
      && (details.Obj? ==> Or(Field(record, "details"), EmptyObject) == details)
      && Truthy(Field(record, "_fresh")) == isFresh
      && Truthy(Field(record, "_dirty")) == isDirty
  {
    var record := UserRecord(id, custom, details, isFresh, isDirty);
    assert RecordCustom(record) == custom;
    DeserializedPlain(registry, custom);
  }

  /** `store()` followed by `load()` finds the user's record in the primary
      slot and reads back the same id and custom data. */
  lemma StoreThenLoad(storage: map<string, Value>, appId: string, registry: Registry, migrated: bool,
                                         id: Value, custom: map<string, Value>, details: Value, isFresh: bool, isDirty: bool)
    requires forall k :: k in custom ==> !IsRegisteredTagged(registry, custom[k])
    ensures var loaded := Retrieve(StoredStorage(storage, appId, UserRecord(id, custom, details, isFresh, isDirty), migrated), PrimaryKey(appId));
      && Truthy(loaded)
      && Field(loaded, "_id") == id
      && Deserialized(registry, RecordCustom(loaded)) == custom
  {
    StoreWritesPrimary(storage, appId, UserRecord(id, custom, details, isFresh, isDirty), migrated);
    UserRecordRoundTrip(registry, id, custom, details, isFresh, isDirty);
  }
  /** The legacy snapshot still waits to be migrated: the legacy slot holds
      something and it does not carry the migration flag. */
  predicate MigrationPending(storage: map<string, Value>, appId: string) {
    var legacy := Retrieve(storage, LegacyKey(appId));
    Truthy(legacy) && !Truthy(Field(legacy, MigratedFlag))
  }

  /** The custom data of a user after `migrate()`: every key of the legacy
      snapshot is copied over the user's own data, then the flag is set. */
  function MigratedData(own: map<string, Value>, legacy: map<string, Value>): (r: map<string, Value>) {
    (own + legacy)[MigratedFlag := Bool(true)]
  }

  /** A migrated user's data carries every legacy key with its legacy
      value, keeps every other key of its own, and is marked as migrated. */
  lemma MigratedDataContents(own: map<string, Value>, legacy: map<string, Value>, k: string)
    ensures MigratedData(own, legacy).Keys == own.Keys + legacy.Keys + {MigratedFlag}
    ensures Truthy(Field(Obj(MigratedData(own, legacy)), MigratedFlag))
    ensures k != MigratedFlag && k in legacy ==> MigratedData(own, legacy)[k] == legacy[k]
    ensures k != MigratedFlag && k !in legacy && k in own ==> MigratedData(own, legacy)[k] == own[k]
  {
  }

  /** Migration happens once: storing a user whose data carries the flag
      leaves nothing pending in the legacy slot. */
  lemma StoreOfMigratedEndsMigration(storage: map<string, Value>, appId: string, record: Value)
    ensures !MigrationPending(StoredStorage(storage, appId, record, true), appId)
  {
    StoreWritesPrimary(storage, appId, record, true);
    assert Field(MigratedMarker, MigratedFlag) == Bool(true);
  }
}
