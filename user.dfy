/** The user session: `UserContext`, which persists the current user, and
    `User`, the session entity with its dirty/fresh bookkeeping and its
    single-request guards.

    The module globals of the source (the storage adapter, the current-user
    slot `AppUserContext`, the configured app id and the custom data type
    registry) are the fields of one `UserContext` object, passed to every
    operation that touches them. Each asynchronous operation is split into
    a `...Begin` step, which runs synchronously when the operation is
    called, and a `...Complete(ok, ...)` step, which is the request's
    callback: `ok` says whether the request succeeded, `error` is the
    transport error, `response` the server's response and `body` its
    `res.body.data` member. */
module Users {
  import opened JsValues
  import opened UserDataModel
  import opened UserStorage

  /** What a call hands back through its deferred promise. */
  datatype Outcome<T> =
    | RejectedFalse           // rejected synchronously with `false`
    | Pending                 // the request is in flight
    | Rejected(error: Value)  // the request failed with `error`
    | Resolved(value: T)      // the request succeeded

  /** A snapshot of every field of a `User`, to say which fields an
      operation changes. */
  datatype UserFields = UserFields(
    id: Value, data: UserData, details: Value, dirty: bool, isFresh: bool,
    unset: set<string>, blockLoad: bool, blockSave: bool, blockDelete: bool)

  /** The body `getAPIFormat()` builds: every field of `details`, then
      `custom` holding the custom data map. */
  function APIFormat(details: Value, custom: map<string, Value>): (body: map<string, Value>) {
    FieldsOf(details)["custom" := Obj(custom)]
  }

  /** The API body carries every `details` key plus `custom`, which is
      always the data map and overrides a `custom` key of `details`. */
  lemma APIFormatContents(details: Value, custom: map<string, Value>)
    ensures APIFormat(details, custom).Keys == FieldsOf(details).Keys + {"custom"}
    ensures APIFormat(details, custom)["custom"] == Obj(custom)
    ensures forall k :: k in FieldsOf(details) && k != "custom" ==> APIFormat(details, custom)[k] == FieldsOf(details)[k]
  {
  }

  class UserContext {
    /** The configured `app_id`, which names the storage slots. */
    const appId: string
    /** `DataType.getMapping()`. */
    const registry: Registry
    /** The storage adapter's contents, by key. */
    var storage: map<string, Value>
    /** `AppUserContext`, the current user (`null` until resolved). */
    var current: User?

    constructor (appId: string, registry: Registry, storage: map<string, Value>)
      ensures this.appId == appId && this.registry == registry
      ensures this.storage == storage && current == null
    {
      this.appId := appId;
      this.registry := registry;
      this.storage := storage;
      current := null;
    }

    /** `UserContext.delete()`: removes the primary slot only. */
    method Delete()
      modifies this
      ensures storage == old(storage) - {PrimaryKey(appId)}
      ensures Retrieve(storage, LegacyKey(appId)) == Retrieve(old(storage), LegacyKey(appId))
      ensures current == old(current)
    {
      storage := storage - {PrimaryKey(appId)};
    }

    /** `getRawData()`: the primary record, or `false` when it reads as empty. */
    function GetRawData(): (r: Value)
      reads this
      ensures Truthy(r) <==> Truthy(Retrieve(storage, PrimaryKey(appId)))
      ensures Truthy(r) ==> PrimaryKey(appId) in storage && r == storage[PrimaryKey(appId)]
      ensures !Truthy(r) ==> r == Bool(false)
    {
      Or(Retrieve(storage, PrimaryKey(appId)), Bool(false))
    }

    /** `getRawLegacyData()`: the legacy record, or `false` when it reads as empty. */
    function GetRawLegacyData(): (r: Value)
      reads this
      ensures Truthy(r) <==> Truthy(Retrieve(storage, LegacyKey(appId)))
      ensures Truthy(r) ==> LegacyKey(appId) in storage && r == storage[LegacyKey(appId)]
      ensures !Truthy(r) ==> r == Bool(false)
    {
      Or(Retrieve(storage, LegacyKey(appId)), Bool(false))
    }

    /** `storeLegacyData(record)`: writes the legacy slot only while it is empty. */
    method StoreLegacyData(record: Value)
      modifies this
      ensures storage == WithLegacy(old(storage), LegacyKey(appId), record)
      ensures current == old(current)
    {
      if !Truthy(GetRawLegacyData()) {
        storage := storage[LegacyKey(appId) := record];
      }
    }

    /** `store()`: copies a stored primary record forward into an empty
        legacy slot, writes the migration marker for a migrated user, then
        persists the current user's record under the primary slot. Only ever
        called once the current user is resolved. */
    method Store()
      requires current != null
      modifies this
      ensures current == old(current)
      ensures storage == StoredStorage(old(storage), appId, current.Record(), current.MarkedMigrated())
    {
      if Truthy(GetRawData()) {
        StoreLegacyData(GetRawData());
      }
      if current.MarkedMigrated() {
        storage := storage[LegacyKey(appId) := MigratedMarker];
      }
      storage := storage[PrimaryKey(appId) := current.Record()];
    }

    /** `load()`: a stored primary record is copied forward into an empty
        legacy slot and turned into a new `User`; with nothing stored the
        result is `null`. */
    method Load() returns (u: User?)
      modifies this
      ensures current == old(current)
      ensures storage == LoadedStorage(old(storage), appId)
      ensures u == null <==> !Truthy(Retrieve(old(storage), PrimaryKey(appId)))
      ensures u != null ==> fresh(u) && fresh(u.data) && u.HoldsRecord(Retrieve(old(storage), PrimaryKey(appId)), registry)
    {
      var data := Or(Retrieve(storage, PrimaryKey(appId)), Bool(false));
      if Truthy(data) {
        StoreLegacyData(data);
        u := User.FromContext(data, registry);
      } else {
        u := null;
      }
    }
  }

  class User {
    /** `_id`, as assigned; the `id` getter is `Id()`. */
    var rawId: Value
    var data: UserData
    var details: Value
    var blockLoad: bool
    var blockSave: bool
    var blockDelete: bool
    /** `_dirty`: local changes the server has not confirmed. */
    var dirtyFlag: bool
    /** `_fresh`: no load or save has completed yet. */
    var freshFlag: bool
    /** `_unset`: keys removed locally since the last save of a non-fresh user. */
    var unsetKeys: set<string>

    function Fields(): (f: UserFields)
      reads this
    {
      UserFields(rawId, data, details, dirtyFlag, freshFlag, unsetKeys, blockLoad, blockSave, blockDelete)
    }

    /** The state of a newly constructed user. */
    ghost predicate IsBlank()
      reads this, data
    {
      rawId == Undefined && data.data == map[] && details == Undefined
      && !blockLoad && !blockSave && !blockDelete
      && !dirtyFlag && freshFlag && unsetKeys == {}
    }

    /** The user `fromContext(record)` builds out of a stored record. */
    ghost predicate HoldsRecord(record: Value, registry: Registry)
      reads this, data
    {
      rawId == Field(record, "_id")
      && data.data == Deserialized(registry, RecordCustom(record))
      && details == Or(Field(record, "details"), EmptyObject)
      && freshFlag == Truthy(Field(record, "_fresh"))
      && dirtyFlag == Truthy(Field(record, "_dirty"))
      && unsetKeys == {} && !blockLoad && !blockSave && !blockDelete
    }

    /** The user `User.current()` resolves when none is current yet: the
        user built from the stored primary record, or a blank one. */
    ghost predicate ResolvedFrom(storage: map<string, Value>, appId: string, registry: Registry)
      reads this, data
    {
      var primary := Retrieve(storage, PrimaryKey(appId));
      (Truthy(primary) ==> HoldsRecord(primary, registry)) && (!Truthy(primary) ==> IsBlank())
    }

    /** The record this user is persisted as. */
    function Record(): (record: Value)
      reads this, data
    {
      UserRecord(rawId, data.data, details, freshFlag, dirtyFlag)
    }

    /** `data.data.__ionic_user_migrated` reads as true. */
    predicate MarkedMigrated()
      reads this, data
    {
      Truthy(Field(Obj(data.data), MigratedFlag))
    }

    constructor ()
      ensures IsBlank() && fresh(data)
    {
      rawId := Undefined;
      details := Undefined;
      blockLoad, blockSave, blockDelete := false, false, false;
      dirtyFlag := false;
      freshFlag := true;
      unsetKeys := {};
      data := new UserData(Undefined, map[]);
    }

    function IsDirty(): (r: bool)
      reads this
    {
      dirtyFlag
    }

    function IsFresh(): (r: bool)
      reads this
    {
      freshFlag
    }

    /** The `id` getter, `_id || null`: the assigned id when it is truthy,
        and `null` for every falsy one (an empty string included). */
    function Id(): (r: Value)
      reads this
      ensures r == Null || Truthy(r)
      ensures Truthy(r) ==> r == rawId
      ensures Truthy(rawId) ==> r == rawId
    {
      Or(rawId, Null)
    }

    /** The `id` setter. */
    method SetId(v: Value)
      modifies this
      ensures Fields() == old(Fields()).(id := v)
    {
      rawId := v;
    }

    /** `isAnonymous()`: holds exactly when the `id` getter yields `null`. */
    function IsAnonymous(): (r: bool)
      reads this
      ensures r <==> Id() == Null
      ensures r <==> !Truthy(rawId)
    {
      !Truthy(Id())
    }

    /** `isValid()`: the user has an id, i.e. is not anonymous. */
    function IsValid(): (r: bool)
      reads this
      ensures r <==> !IsAnonymous()
      ensures r ==> Id() == rawId && Truthy(rawId)
    {
      Truthy(Id())
    }

    /** `isAuthenticated()`: only the current user can be authenticated, and
        then exactly when the auth subsystem says so (`authenticated`).
        Asking resolves the current user first. */
    method IsAuthenticated(ctx: UserContext, authenticated: bool) returns (r: bool)
      modifies ctx
      ensures r <==> old(ctx.current) == this && authenticated
      ensures old(ctx.current) != null ==> ctx.current == old(ctx.current) && ctx.storage == old(ctx.storage)
      ensures old(ctx.current) == null ==> ctx.storage == LoadedStorage(old(ctx.storage), ctx.appId)
      ensures old(ctx.current) == null ==> ctx.current != null && fresh(ctx.current) && ctx.current.ResolvedFrom(old(ctx.storage), ctx.appId, ctx.registry)
    {
      var cur := User.Current(ctx);
      if this == cur {
        r := authenticated;
      } else {
        r := false;
      }
    }

    /** `User.current()`: the current user, resolved once (from storage,
        else a new anonymous user) and then returned unchanged. */
    static method Current(ctx: UserContext) returns (u: User)
      modifies ctx
      ensures ctx.current == u
      ensures old(ctx.current) != null ==> u == old(ctx.current) && ctx.storage == old(ctx.storage)
      ensures old(ctx.current) == null ==>
                fresh(u) && fresh(u.data) && ctx.storage == LoadedStorage(old(ctx.storage), ctx.appId)
      ensures old(ctx.current) == null && Truthy(Retrieve(old(ctx.storage), PrimaryKey(ctx.appId))) ==>
                u.HoldsRecord(Retrieve(old(ctx.storage), PrimaryKey(ctx.appId)), ctx.registry)
      ensures old(ctx.current) == null && !Truthy(Retrieve(old(ctx.storage), PrimaryKey(ctx.appId))) ==>
                u.IsBlank()
    {
      if ctx.current == null {
        var loaded := ctx.Load();
        if loaded == null {
          loaded := new User();
        }
        ctx.current := loaded;
      }
      u := ctx.current;
    }

    /** `User.current(user)`: installs `user` as the current user and
        persists it at once. */
    static method InstallCurrent(ctx: UserContext, user: User) returns (u: User)
      modifies ctx
      ensures u == user && ctx.current == user
      ensures ctx.storage == StoredStorage(old(ctx.storage), ctx.appId, user.Record(), user.MarkedMigrated())
    {
      ctx.current := user;
      ctx.Store();
      u := ctx.current;
    }

    /** `User.fromContext(record)`: a new user carrying the stored id,
        custom data, details (defaulting to `{}`) and flags. */
    static method FromContext(record: Value, registry: Registry) returns (u: User)
      ensures fresh(u) && fresh(u.data)
      ensures u.HoldsRecord(record, registry)
    {
      u := new User();
      u.SetId(Field(record, "_id"));
      u.data := new UserData(Field(Field(record, "data"), "data"), registry);
      u.details := Or(Field(record, "details"), EmptyObject);
      u.freshFlag := Truthy(Field(record, "_fresh"));
      u.dirtyFlag := Truthy(Field(record, "_dirty"));
    }

    /** `User.self()`, synchronous part: a new temporary user takes the load
        guard and the request `GET /auth/users/self` goes out. The guard of
        a user just built is never taken, so this step never rejects. */
    static method SelfBegin() returns (temp: User, o: Outcome<User>)
      ensures fresh(temp) && fresh(temp.data) && o == Pending
      ensures temp.blockLoad && temp.rawId == Undefined && temp.data.data == map[] && temp.freshFlag
      ensures !temp.dirtyFlag && temp.unsetKeys == {} && !temp.blockSave && !temp.blockDelete && temp.details == Undefined
    {
      temp := new User();
      temp.blockLoad := true;
      o := Pending;
    }

    /** `User.self()`, callback: on success the server's id, custom data and
        details are installed, the user stops being fresh and becomes the
        current user (and is persisted); on failure only the guard is
        released. */
    method SelfComplete(ctx: UserContext, ok: bool, error: Value, body: Value) returns (o: Outcome<User>)
      requires blockLoad
      modifies this, ctx
      ensures !ok ==> o == Rejected(error) && Fields() == old(Fields()).(blockLoad := false)
      ensures !ok ==> ctx.storage == old(ctx.storage) && ctx.current == old(ctx.current)
      ensures ok ==> o == Resolved(this) && !blockLoad && !freshFlag && fresh(data)
      ensures ok ==> rawId == Field(body, "uuid") && details == Field(body, "details")
      ensures ok ==> data.data == Deserialized(ctx.registry, FieldsOf(Field(body, "custom")))
      ensures ok ==> dirtyFlag == old(dirtyFlag) && unsetKeys == old(unsetKeys)
      ensures ok ==> blockSave == old(blockSave) && blockDelete == old(blockDelete)
      ensures ok ==> ctx.current == this
      ensures ok ==> ctx.storage == StoredStorage(old(ctx.storage), ctx.appId, Record(), MarkedMigrated())
    {
      if !ok {
        blockLoad := false;
        o := Rejected(error);
      } else {
        blockLoad := false;
        SetId(Field(body, "uuid"));
        data := new UserData(Field(body, "custom"), ctx.registry);
        details := Field(body, "details");
        freshFlag := false;
        var _ := User.InstallCurrent(ctx, this);
        o := Resolved(this);
      }
    }

    /** `User.load(id)`, synchronous part: a new temporary user with the
        given id takes the load guard; as with `self()` it never rejects. */
    static method LoadBegin(id: Value) returns (temp: User, o: Outcome<User>)
      ensures fresh(temp) && fresh(temp.data) && o == Pending
      ensures temp.blockLoad && temp.rawId == id && temp.data.data == map[] && temp.freshFlag
      ensures !temp.dirtyFlag && temp.unsetKeys == {} && !temp.blockSave && !temp.blockDelete && temp.details == Undefined
    {
      temp := new User();
      temp.SetId(id);
      temp.blockLoad := true;
      o := Pending;
    }

    /** `User.load(id)`, callback: on success the custom data and details of
        the server's record are installed and the user stops being fresh;
        the current user and the storage are never touched. */
    method LoadComplete(ctx: UserContext, ok: bool, error: Value, body: Value) returns (o: Outcome<User>)
      requires blockLoad
      modifies this
      ensures !ok ==> o == Rejected(error) && Fields() == old(Fields()).(blockLoad := false)
      ensures ok ==> o == Resolved(this) && !blockLoad && !freshFlag && fresh(data)
      ensures ok ==> rawId == old(rawId) && details == Field(body, "details")
      ensures ok ==> data.data == Deserialized(ctx.registry, FieldsOf(Field(body, "custom")))
      ensures ok ==> dirtyFlag == old(dirtyFlag) && unsetKeys == old(unsetKeys)
      ensures ok ==> blockSave == old(blockSave) && blockDelete == old(blockDelete)
    {
      if !ok {
        blockLoad := false;
        o := Rejected(error);
      } else {
        blockLoad := false;
        data := new UserData(Field(body, "custom"), ctx.registry);
        details := Field(body, "details");
        freshFlag := false;
        o := Resolved(this);
      }
    }

    /** `getAPIFormat()`: copies every field of `details` into a new object,
        then sets `custom` to the data map. */
    method GetAPIFormat() returns (api: map<string, Value>)
      ensures api == APIFormat(details, data.data)
    {
      var source := FieldsOf(details);
      var pending := source.Keys;
      api := map[];
      while pending != {}
        invariant pending <= source.Keys
        invariant api.Keys == source.Keys - pending
        invariant forall k :: k in api ==> api[k] == source[k]
        decreases pending
      {
        var key :| key in pending;
        api := api[key := source[key]];
        pending := pending - {key};
      }
      api := api["custom" := Obj(data.data)];
    }

    /** `getFormat(format)`: the API body for `"api-save"`, `null` for any
        other format. */
    method GetFormat(format: string) returns (r: Value)
      ensures format == "api-save" ==> r == Obj(APIFormat(details, data.data))
      ensures format != "api-save" ==> r == Null
    {
      r := Null;
      if format == "api-save" {
        var api := GetAPIFormat();
        r := Obj(api);
      }
    }

    /** `migrate()`: when the legacy slot holds a snapshot not yet marked as
        migrated, every custom key of that snapshot is set on the current
        user (resolving it first) and the migration flag is set; nothing is
        persisted here. Otherwise nothing happens. */
    method Migrate(ctx: UserContext)
      modifies ctx, ctx.current, if ctx.current != null then {ctx.current.data} else {}
      ensures ctx.storage == old(ctx.storage)
      ensures !MigrationPending(old(ctx.storage), ctx.appId) ==> ctx.current == old(ctx.current)
      ensures !MigrationPending(old(ctx.storage), ctx.appId) && old(ctx.current) != null ==>
                unchanged(old(ctx.current), old(ctx.current.data))
      ensures MigrationPending(old(ctx.storage), ctx.appId) ==> ctx.current != null
      ensures MigrationPending(old(ctx.storage), ctx.appId) && old(ctx.current) != null ==>
                var legacy := Deserialized(ctx.registry, RecordCustom(Retrieve(old(ctx.storage), LegacyKey(ctx.appId))));
                && ctx.current == old(ctx.current)
                && ctx.current.data.data == MigratedData(old(ctx.current.data.data), legacy)
                && ctx.current.Fields() == old(ctx.current.Fields()).(unset := old(ctx.current.unsetKeys) - legacy.Keys - {MigratedFlag})
      ensures MigrationPending(old(ctx.storage), ctx.appId) && old(ctx.current) == null ==>
                var legacy := Deserialized(ctx.registry, RecordCustom(Retrieve(old(ctx.storage), LegacyKey(ctx.appId))));
                var primary := Retrieve(old(ctx.storage), PrimaryKey(ctx.appId));
                var own := if Truthy(primary) then Deserialized(ctx.registry, RecordCustom(primary)) else map[];
                && fresh(ctx.current)
                && ctx.current.data.data == MigratedData(own, legacy)
                && ctx.current.unsetKeys == {}
                && !ctx.current.blockLoad && !ctx.current.blockSave && !ctx.current.blockDelete
                && (Truthy(primary) ==>
                      && ctx.current.rawId == Field(primary, "_id")
                      && ctx.current.details == Or(Field(primary, "details"), EmptyObject)
                      && ctx.current.freshFlag == Truthy(Field(primary, "_fresh"))
                      && ctx.current.dirtyFlag == Truthy(Field(primary, "_dirty")))
                && (!Truthy(primary) ==>
                      && ctx.current.rawId == Undefined && ctx.current.details == Undefined
                      && ctx.current.freshFlag && !ctx.current.dirtyFlag)
    {
      var rawData := ctx.GetRawLegacyData();
      if Truthy(rawData) {
        if !Truthy(Field(rawData, MigratedFlag)) {
          var currentUser := User.Current(ctx);
          var userData := new UserData(Field(Field(rawData, "data"), "data"), ctx.registry);
          currentUser.SetEach(userData.data);
          currentUser.Set(MigratedFlag, Bool(true));
        }
      }
    }

    /** The loop of `migrate()`: `set(key, value)` for every entry of
        `source`, one key at a time. */
    method SetEach(source: map<string, Value>)
      modifies this, data
      ensures Fields() == old(Fields()).(unset := old(unsetKeys) - source.Keys)
      ensures data.data == old(data.data) + source
    {
      var pending := source.Keys;
      while pending != {}
        invariant pending <= source.Keys
        invariant Fields() == old(Fields()).(unset := old(unsetKeys) - (source.Keys - pending))
        invariant data.data == old(data.data) + (source - pending)
        decreases pending
      {
        var key :| key in pending;
        Set(key, source[key]);
        pending := pending - {key};
      }
      assert source - pending == source;
    }

    /** `_delete()`: erases the primary slot when this is the current user
        (resolving the current user first). */
    method DeleteIfCurrent(ctx: UserContext)
      modifies ctx
      ensures old(ctx.current) != null ==> ctx.current == old(ctx.current)
      ensures old(ctx.current) == null ==> ctx.current != null && fresh(ctx.current) && ctx.current.ResolvedFrom(old(ctx.storage), ctx.appId, ctx.registry)
      ensures ctx.storage == DeleteIfCurrentEffect(old(ctx.current), old(ctx.storage), ctx.appId)
    {
      var cur := User.Current(ctx);
      if this == cur {
        ctx.Delete();
      }
    }

    /** The storage after `_delete()`, given the current user before it. */
    function DeleteIfCurrentEffect(before: User?, storage: map<string, Value>, appId: string): (r: map<string, Value>) {
      if before == this then storage - {PrimaryKey(appId)}
      else if before == null then LoadedStorage(storage, appId)
      else storage
    }

    /** `_store()`: persists this user when it is the current one (resolving
        the current user first). */
    method StoreIfCurrent(ctx: UserContext)
      modifies ctx
      ensures old(ctx.current) != null ==> ctx.current == old(ctx.current)
      ensures old(ctx.current) == null ==> ctx.current != null && fresh(ctx.current) && ctx.current.ResolvedFrom(old(ctx.storage), ctx.appId, ctx.registry)
      ensures ctx.storage == StoreIfCurrentEffect(old(ctx.current), old(ctx.storage), ctx.appId)
    {
      var cur := User.Current(ctx);
      if this == cur {
        ctx.Store();
      }
    }

    /** The storage after `_store()`, given the current user before it. */
    function StoreIfCurrentEffect(before: User?, storage: map<string, Value>, appId: string): (r: map<string, Value>)
      reads this, data
    {
      if before == this then StoredStorage(storage, appId, Record(), MarkedMigrated())
      else if before == null then LoadedStorage(storage, appId)
      else storage
    }

    /** `save()`, synchronous part: rejected with `false` and no effect while
        a save is in flight; otherwise takes the save guard, persists
        locally if current, and sends the API body (`request`). */
    method SaveBegin(ctx: UserContext) returns (o: Outcome<Value>, request: Value)
      modifies this, ctx
      ensures old(blockSave) ==> o == RejectedFalse && request == Null && unchanged(this, ctx)
      ensures !old(blockSave) ==> o == Pending && Fields() == old(Fields()).(blockSave := true)
      ensures !old(blockSave) ==> ctx.storage == StoreIfCurrentEffect(old(ctx.current), old(ctx.storage), ctx.appId)
      ensures !old(blockSave) ==> request == Obj(APIFormat(details, data.data))
      ensures !old(blockSave) && old(ctx.current) == null ==>
                ctx.current != null && fresh(ctx.current) && ctx.current.ResolvedFrom(old(ctx.storage), ctx.appId, ctx.registry)
      ensures old(ctx.current) != null ==> ctx.current == old(ctx.current)
    {
      if !blockSave {
        blockSave := true;
        StoreIfCurrent(ctx);
        request := GetFormat("api-save");
        o := Pending;
      } else {
        request := Null;
        o := RejectedFalse;
      }
    }

    /** `save()`, callback: a failure marks the user dirty; a success clears
        dirty and fresh, and clears the pending-unset keys only when the user
        was not fresh before. Either way the save guard is released. */
    method SaveComplete(ok: bool, error: Value, response: Value) returns (o: Outcome<Value>)
      requires blockSave
      modifies this
      ensures !ok ==> o == Rejected(error) && Fields() == old(Fields()).(blockSave := false, dirty := true)
      ensures ok ==> o == Resolved(response)
      ensures ok ==> Fields() == old(Fields()).(blockSave := false, dirty := false, isFresh := false,
                                                unset := if old(freshFlag) then old(unsetKeys) else {})
      ensures IsDirty() <==> !ok
    {
      if !ok {
        dirtyFlag := true;
        blockSave := false;
        o := Rejected(error);
      } else {
        dirtyFlag := false;
        if !IsFresh() {
          unsetKeys := {};
        }
        freshFlag := false;
        blockSave := false;
        o := Resolved(response);
      }
    }

    /** `delete()`, synchronous part: rejected with `false` and no effect for
        a user without an id or while a delete is in flight; otherwise takes
        the delete guard and erases the primary slot if this is the current
        user, before the request goes out. */
    method DeleteBegin(ctx: UserContext) returns (o: Outcome<Value>)
      modifies this, ctx
      ensures !old(IsValid()) || old(blockDelete) ==> o == RejectedFalse && unchanged(this, ctx)
      ensures old(IsValid()) && !old(blockDelete) ==> o == Pending && Fields() == old(Fields()).(blockDelete := true)
      ensures old(IsValid()) && !old(blockDelete) ==>
                ctx.storage == DeleteIfCurrentEffect(old(ctx.current), old(ctx.storage), ctx.appId)
      ensures old(IsValid()) && !old(blockDelete) && old(ctx.current) == null ==>
                ctx.current != null && fresh(ctx.current) && ctx.current.ResolvedFrom(old(ctx.storage), ctx.appId, ctx.registry)
      ensures old(ctx.current) != null ==> ctx.current == old(ctx.current)
    {
      if IsValid() {
        if !blockDelete {
          blockDelete := true;
          DeleteIfCurrent(ctx);
          o := Pending;
        } else {
          o := RejectedFalse;
        }
      } else {
        o := RejectedFalse;
      }
    }

    /** `delete()`, callback: releases the delete guard either way. */
    method DeleteComplete(ok: bool, error: Value, response: Value) returns (o: Outcome<Value>)
      requires blockDelete
      modifies this
      ensures Fields() == old(Fields()).(blockDelete := false)
      ensures ok ==> o == Resolved(response)
      ensures !ok ==> o == Rejected(error)
    {
      blockDelete := false;
      o := if ok then Resolved(response) else Rejected(error);
    }

    /** `set(key, value)`: the key stops being pending removal and holds the
        value. */
    method Set(key: string, value: Value)
      modifies this, data
      ensures Fields() == old(Fields()).(unset := old(unsetKeys) - {key})
      ensures data.data == old(data.data)[key := value]
      ensures forall d :: Get(key, d) == value
    {
      unsetKeys := unsetKeys - {key};
      data.Set(key, value);
    }

    /** `get(key, default)`: the data map's lookup with its default rule. */
    function Get(key: string, default: Value): (r: Value)
      reads this, data
      ensures key in data.data ==> r == data.data[key]
      ensures key !in data.data && (default == Num(0) || default == Bool(false) || Truthy(default)) ==> r == default
      ensures key !in data.data && !(default == Num(0) || default == Bool(false) || Truthy(default)) ==> r == Null
    {
      data.Get(key, default)
    }

    /** `unset(key)`: the key becomes pending removal and leaves the data map. */
    method Unset(key: string)
      modifies this, data
      ensures Fields() == old(Fields()).(unset := old(unsetKeys) + {key})
      ensures data.data == old(data.data) - {key}
      ensures key in unsetKeys && key !in data.data
    {
      unsetKeys := unsetKeys + {key};
      data.Unset(key);
    }
  }
}
