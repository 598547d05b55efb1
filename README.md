# Ionic Cloud client: user session, local cache and push payloads in Dafny

This project models the user-session subsystem of the Ionic Cloud client SDK
and its push-message normaliser:

- `UserData`, the string-keyed bag of a user's custom attributes, with `set`,
  `unset`, the `get` default rule and the pass that turns stored custom-type
  records back into values through a registry of `fromStorage` conversions;
- `UserContext`, which persists the current user under
  `"ionic_io_user_" + app_id`, keeps a write-once legacy slot
  (`<label>_legacy`) and loads the current user back;
- `User`, with its id, dirty/fresh bookkeeping, the `_unset` key set, the
  three per-instance guards against a second load, save or delete, and the
  lazily resolved current user;
- `PushMessage`, which normalises a raw plugin record: default
  `additionalData`, `|| null` coercion of the text fields, `asleep`/`closed`
  derived from `foreground`/`coldstart`, and the `payload` getter.

JavaScript values are the datatype `JsValues.Value` (undefined, null,
booleans, integers, strings, objects). `Truthy` is ECMAScript's ToBoolean, so
every `||` of the source is explicit. A stored custom-type value is the
object `{__Ionic_DataTypeSchema: <name>, value: <payload>}`.

The module globals (the storage adapter, `AppUserContext`, the configured
app id and `DataType.getMapping()`) are the fields of a `UserContext` object
that the `User` operations receive. Each asynchronous operation is split
into two steps. The `...Begin` step runs when the operation is called: the
guard check, taking the guard, local persistence. The `...Complete(ok, ...)`
step is the request callback, with `ok` telling success from failure. The
result is an `Outcome`: `RejectedFalse`, `Pending`, `Rejected(error)` or
`Resolved(value)`. The network, the promise machinery and the logger are
outside the model. The request body the save step would send is returned
by `SaveBegin`.

A successful save sets `_fresh` to `false` (src/core/user.ts:352): a user
stops being fresh once a save, a `load(id)` or a `self()` request has
succeeded (src/core/user.ts:196, 231, 352). A failed save leaves `_fresh` as
it was, and a local `UserContext.load()` copies the stored `_fresh`.

## Model

| member | source | states |
|---|---|---|
| `UserDataModel.UserData.constructor` | src/core/user.ts:60-66 | an object argument becomes the data map after the corrected deserialisation pass `Deserialized` (the source throws on a top-level `null`, see "## Findings"); any other argument gives an empty map |
| `UserDataModel.UserData.DeserializeDataTypes` | src/core/user.ts:68-84 | the loop visits every key once and leaves the map equal to `Deserialized(registry, old map)`, the corrected pass (the source throws on a top-level `null`, see "## Findings") |
| `UserDataModel.DeserializedReplacesExactlyRegistered` | src/core/user.ts:71-81 | a value is replaced exactly when it is a tagged record whose non-empty tag is registered, by that type's conversion of its `value` field; any other value is kept |
| `UserDataModel.UnregisteredTagKept` | src/core/user.ts:76-81 | a tagged record whose type is not in the registry is left unchanged |
| `UserDataModel.DeserializedPlain` | src/core/user.ts:68-84 | a map holding no registered tagged record comes through the pass unchanged |
| `UserDataModel.DeserializedAsWritten` | src/core/user.ts:68-84 | the loop as written throws as soon as one key's step throws; otherwise it holds a converted value for every key |
| `UserDataModel.ValueAsWrittenThrowsOnlyOnNull` | src/core/user.ts:71-80 | one step as written (`typeof === 'object'`, then the tag read) throws exactly on `null`, and treats every other value as the corrected step does |
| `UserDataModel.AsWrittenThrowsExactlyOnNull` | src/core/user.ts:68-84 | the pass as written throws exactly when some top-level value is `null` |
| `UserDataModel.NullValueThrows` | src/core/user.ts:71-73 | for `{k: null}` the as-written pass throws, while the corrected pass keeps the map unchanged |
| `UserDataModel.AsWrittenAgreesWithoutNull` | src/core/user.ts:68-84 | on maps without `null` values the as-written and corrected passes agree |
| `UserDataModel.UserData.Set` | src/core/user.ts:86-88 | the key is overwritten, and afterwards `get(key, d)` returns the value for every default `d` |
| `UserDataModel.UserData.Unset` | src/core/user.ts:90-92 | the key is absent afterwards, no other key changes, and unsetting an absent key is a no-op |
| `UserDataModel.UserData.Get` | src/core/user.ts:94-103 | a present key returns its stored value, even `0`, `false` or `""`; for an absent key a default of `0` or `false` is returned verbatim, a truthy default as given, and any other default reads as `null` |
| `UserStorage.PrimaryKey` | src/core/user.ts:14-16 | the label is `ionic_io_user_` followed by the app id, so each app id has its own slot |
| `UserStorage.LegacyKey` | src/core/user.ts:42-44 | the legacy slot extends the label and never coincides with it |
| `UserStorage.WithLegacyIdempotent` | src/core/user.ts:32-36 | `storeLegacyData` writes once: a second call with any record changes nothing, and the slot is then non-empty |
| `UserStorage.WithLegacyFrame` | src/core/user.ts:32-36 | writing the legacy slot leaves every other slot as it was |
| `UserStorage.LoadCopiesPrimaryForward` | src/core/user.ts:46-53 | `load()` keeps the primary record, copies it into an empty legacy slot, and leaves a filled legacy slot alone |
| `UserStorage.LoadedStorageIdempotent` | src/core/user.ts:46-53 | loading twice has the storage effect of loading once |
| `UserStorage.StoreWritesPrimary` | src/core/user.ts:22-30 | after `store()` the primary slot holds the user's record; a migrated user's legacy slot holds the marker; a filled legacy slot of an unmigrated user is kept; a previously stored primary record leaves the legacy slot non-empty |
| `UserStorage.UserRecordRoundTrip` | src/core/user.ts:166-174 | reading a persisted record back gives the same id, custom data (without registered tagged records), object details and fresh/dirty flags |
| `UserStorage.StoreThenLoad` | src/core/user.ts:22-53 | `store()` followed by `load()` finds a record whose id and custom data are those stored |
| `UserStorage.MigratedDataContents` | src/core/user.ts:275-287 | after migration the data holds every legacy key with its legacy value, keeps the user's other keys, and carries the migration flag |
| `UserStorage.StoreOfMigratedEndsMigration` | src/core/user.ts:26-28 | once a migrated user is stored, no migration is pending; `migrate()` itself leaves the storage alone, so two `migrate()` calls with no store in between both copy |
| `Users.APIFormatContents` | src/core/user.ts:255-262 | the API body holds every `details` key plus `custom`; `custom` is always the data map and overrides `details.custom` |
| `Users.UserContext.Delete` | src/core/user.ts:18-20 | only the primary slot is removed; the legacy slot is untouched |
| `Users.UserContext.GetRawData` | src/core/user.ts:38-40 | the stored primary record when it is truthy, else `false` |
| `Users.UserContext.GetRawLegacyData` | src/core/user.ts:42-44 | the stored legacy record when it is truthy, else `false` |
| `Users.UserContext.StoreLegacyData` | src/core/user.ts:32-36 | the storage becomes `WithLegacy(old storage)`: written only while the legacy slot is empty |
| `Users.UserContext.Store` | src/core/user.ts:22-30 | legacy copy-forward, the migration marker for a migrated user, then the current user's record in the primary slot |
| `Users.UserContext.Load` | src/core/user.ts:46-53 | no user (the model's `null` stands for the `undefined` of the bare `return;`) exactly when no truthy primary record exists; otherwise a new user built from that record, with the record copied into an empty legacy slot |
| `Users.User.constructor` | src/core/user.ts:120-129 | a new user is anonymous, fresh, clean, unguarded, with no unset keys and empty data |
| `Users.User.Id` | src/core/user.ts:388-390 | the `id` getter yields the assigned id when it is truthy and `null` otherwise, never another falsy value |
| `Users.User.SetId` | src/core/user.ts:384-386 | the setter changes `_id` and nothing else |
| `Users.User.IsAnonymous` | src/core/user.ts:135-141 | anonymous exactly when the `id` getter yields `null`, i.e. the assigned id is falsy (an empty string included) |
| `Users.User.IsValid` | src/core/user.ts:248-253 | valid exactly when not anonymous; then the id is the assigned truthy one |
| `Users.User.IsAuthenticated` | src/core/user.ts:143-148 | true exactly when this user was already the current user and the auth subsystem reports an authenticated token; asking resolves the current user first: an unresolved current user is resolved to the user built from the stored primary record, or to a new blank user |
| `Users.User.Current` | src/core/user.ts:155-163 | once resolved, the current user is returned again with storage untouched; otherwise it is resolved from a stored record (with legacy copy-forward), or is a new anonymous user |
| `Users.User.InstallCurrent` | src/core/user.ts:151-154 | `current(u)` installs `u` and stores it under the label at once |
| `Users.User.FromContext` | src/core/user.ts:166-174 | a new user whose id, custom data, details (default `{}`) and fresh/dirty flags come from the record |
| `Users.User.SelfBegin` | src/core/user.ts:176-182 | a new temporary user (anonymous, fresh, clean, no unset keys, no details, save and delete guards free) takes the load guard; this step never rejects |
| `Users.User.SelfComplete` | src/core/user.ts:183-201 | failure only releases the guard and rejects with the error; success installs id, custom data and details from the response, clears fresh, and makes the user current and persisted |
| `Users.User.LoadBegin` | src/core/user.ts:210-218 | a new temporary user with the given id (otherwise as built by `new User()`: fresh, clean, no unset keys, no details, save and delete guards free) takes the load guard; this step never rejects |
| `Users.User.LoadComplete` | src/core/user.ts:219-235 | failure only releases the guard; success installs custom data and details and clears fresh, without touching the current user or storage |
| `Users.User.GetAPIFormat` | src/core/user.ts:255-262 | the copying loop yields exactly `APIFormat(details, data)` |
| `Users.User.GetFormat` | src/core/user.ts:264-273 | the API body for `"api-save"`, `null` for any other format |
| `Users.User.Migrate` | src/core/user.ts:275-287 | with a pending legacy snapshot, the current user's data becomes `MigratedData(own, legacy)`, its unset set loses the copied keys, and storage is untouched; a current user resolved here carries the stored record's id, details and flags (or is blank) with free guards; otherwise nothing changes |
| `Users.User.SetEach` | src/core/user.ts:281-283 | setting every legacy entry merges them over the data and removes their keys from the unset set |
| `Users.User.StoreIfCurrent` | src/core/user.ts:320-324 | persists this user only if it is the current user; first an unresolved current user is resolved to the user built from the stored primary record, or to a new blank user |
| `Users.User.DeleteIfCurrent` | src/core/user.ts:326-330 | erases the primary slot only if this user is the current user; first an unresolved current user is resolved to the user built from the stored primary record, or to a new blank user |
| `Users.User.SaveBegin` | src/core/user.ts:332-340 | while a save is in flight: rejected with `false`, nothing changes; otherwise the save guard is taken, the user is persisted if current, and the API body is the request; a resolved current user stays the current user, and otherwise one is resolved to the user built from the stored primary record, or to a new blank user |
| `Users.User.SaveComplete` | src/core/user.ts:341-357 | failure sets dirty; success clears dirty and fresh, and clears `_unset` only if the user was not fresh before; the guard is released either way |
| `Users.User.DeleteBegin` | src/core/user.ts:289-318 | with a null or empty id, or while a delete is in flight: rejected with `false`, nothing changes; otherwise the guard is taken and the primary slot erased if this is the current user; a resolved current user stays the current user, and otherwise one is resolved to the user built from the stored primary record, or to a new blank user |
| `Users.User.DeleteComplete` | src/core/user.ts:298-308 | the delete guard is released and the outcome follows `ok` |
| `Users.User.Set` | src/core/user.ts:396-399 | the key leaves `_unset` and holds the value; `get` then returns it for any default |
| `Users.User.Get` | src/core/user.ts:401-403 | a present key yields its stored value; for an absent key a default of `0`, `false` or any truthy default comes back as given, and any other default reads as `null` |
| `Users.User.Unset` | src/core/user.ts:405-408 | the key joins `_unset` and leaves the data map |
| `PushMessages.DefaultedRaw` | dist/es5/push/push-message.js:26-33 | a truthy `additionalData` is kept as given; otherwise `{coldstart: false, foreground: true}` is installed; a falsy raw becomes `{}` first |
| `PushMessages.PushMessage.constructor` | dist/es5/push/push-message.js:25-41 | keeps the defaulted record and clears every derived field |
| `PushMessages.PushMessage.FromPluginJSON` | dist/es5/push/push-message.js:42-46 | the processed message's view is `Normalise` of the defaulted record |
| `PushMessages.PushMessage.ProcessRaw` | dist/es5/push/push-message.js:54-70 | text fields by `|| null`, a new app status from `foreground`/`coldstart`, and a truthy payload taken |
| `PushMessages.AppStatusFromFlags` | dist/es5/push/push-message.js:60-66 | `asleep` exactly when `foreground` is falsy; `closed` exactly when `coldstart` is truthy |
| `PushMessages.DevelopmentPushIsForeground` | dist/es5/push/push-message.js:27-33 | a push without `additionalData` is neither asleep nor closed and has no payload |
| `PushMessages.FieldsCoercedToNull` | dist/es5/push/push-message.js:55-59 | each of `message`, `title`, `count`, `sound` and `image` is the raw field when truthy and `null` when falsy, so a count of `0` or an empty title becomes `null` |
| `PushMessages.PushMessage.Payload` | dist/es5/push/push-message.js:47-53 | the stored payload when truthy, else `{}`; never falsy |
| `PushMessages.PayloadOfProcessed` | dist/es5/push/push-message.js:67-69 | after processing, `payload` is the raw `additionalData.payload` when truthy and `{}` otherwise |
| `PushMessages.PushMessage.GetRawVersion` | dist/es5/push/push-message.js:71-73 | the kept record, whose `additionalData` is always truthy |
| `PushMessages.PushMessageAppStatus.constructor` | dist/es5/push/push-message.js:3-6 | a new app status is neither asleep nor closed |

`isDirty`, `isFresh`, `wasAsleep` and `wasClosed` are plain accessors
(`User.IsDirty`, `User.IsFresh`, `PushMessageAppStatus.WasAsleep`,
`PushMessageAppStatus.WasClosed`). `SaveComplete` states `IsDirty()` after a
save.

## Findings

| source | as written | input that shows it | evidently intended | confidence | as-written member | corrected member |
|---|---|---|---|---|---|---|
| src/core/user.ts:71-73 | `typeof null === 'object'`, so a top-level `null` reaches `null.__Ionic_DataTypeSchema` and the `UserData` constructor throws a TypeError | custom data `{k: null}`, e.g. after `user.set('k', null)`, a store, and a later `User.current()` that loads it | values that are not tagged records, `null` included, are left unchanged | high; not executed | `UserDataModel.DeserializedAsWritten` (with `UserDataModel.AsWrittenThrowsExactlyOnNull` and `UserDataModel.NullValueThrows`) | `UserDataModel.Deserialized` (with `UserDataModel.DeserializedReplacesExactlyRegistered`), used by `UserDataModel.UserData.DeserializeDataTypes` |

## Left out

- The HTTP client, `DeferredPromise` scheduling and the logger: each request is its Begin/Complete pair, with `ok`, the error and the response as parameters.
- `Users.User.IsAuthenticated`: `Auth.isAuthenticated()` is a foreign call and is the boolean parameter `authenticated`.
- `DataType.getMapping()` and the `fromStorage` implementations are abstract (`Registry`, a map from type name to a function). A tag that is not a string is never found in it; the source would convert it to a property name.
- `resetPassword` (src/core/user.ts:366-382) only sends a request and changes no state. `toString` is left out as well.
- src/core/cordova.ts, src/core/core.ts and gulpfile.js (DOM, script injection, object wiring, event bus, build) are not part of this model.
- Aliasing. Values are immutable here, so the model does not capture three things. `new UserData(obj)` shares and rewrites the caller's object in place. `getAPIFormat` shares the data map as `custom`. The push constructor adds `additionalData` to the caller's own record.
- A property read on `null` or `undefined` (`data.data.data` of a record without `data`, `res.body.data` of a response without one) throws in the source. Here it reads as `undefined`.
- `UserDataModel.UserData.constructor`: a `null` argument gives an empty map here. The source keeps `null` as the map. Then `set`, `unset` and `get` (src/core/user.ts:87, 91, 95) throw, and so does `UserContext.store()` of that user as the current one (src/core/user.ts:26). Two consequences are not modelled. First, `Users.User.SelfComplete` with `custom: null` installs the user as current, but the store throws, so the user is neither persisted nor is the request resolved. Second, a later `save()` of that user throws inside `_store()` after `_blockSave` was set (src/core/user.ts:337-338), so the guard stays taken and every later save is rejected with `false`. The model instead persists and resolves, and releases the guard on completion.
- `Users.User.FromContext`: `_fresh` and `_dirty` are converted to booleans by truthiness. The source copies the stored values as they are, and every use of them reads their truthiness.
- Persistence through the storage adapter: a record is stored and read back as the same value. JSON encoding, `toStorage` of custom-type instances, and the fields the source also writes without reading back (logger, guards, `_unset`) are left out.
- Numbers are integers: floating point, `NaN` and `-0` are left out.
- `for ... in` visits only an object's own fields here. Inherited enumerable properties, and the characters of a string, are not visited.
- `PushMessages.PushMessage.constructor`: requires an object or a falsy raw record. For any other truthy value, strict mode makes the source throw when it adds `additionalData`.
- Cross-instance concurrency, and requests that never complete, are outside the model. The guards are per-instance booleans, as in the source.
- Reading the label before configuration is initialised is a caller error in the source. Here the app id is fixed when the `UserContext` is built.
