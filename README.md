# libQuotient end-to-end encryption bookkeeping and event dispatch, in Dafny

This project models three pieces of libQuotient, a client library for the
Matrix protocol:

- **Event type dispatch** (`lib/events/event.h`), module `Events` in
  `events.dfy`. An event carries a numeric type id. A registry hands out
  ids for matrix type strings; the empty string is the unknown type. Each
  event base class keeps an ordered list of factory functions, and `make`
  returns the first event one of them builds. `registerEventType` installs
  a type's factory once. `is`, `isUnknown` and `eventCast` compare type
  ids. `switchOnType` runs the first handler whose type matches, otherwise
  a default value or a catch-all handler. `visitEach` does that for each
  event of a range.
- **The key store** (`Quotient/database.h`), module `KeyStore` in
  `keystore.dfy`. Class `Database` keeps one field per table: the olm
  account, olm sessions by sender curve key, inbound group sessions by room
  and session id, the current outbound group session per room, message
  index records, which devices received which group session key, the
  ed25519 key of each tracked device by key id, and the key ids marked
  verified. Opening a store keeps the tables it finds and
  migrates its schema from the stored version to 5, one migration at a time.
- **The connection's encryption state**
  (`Quotient/connectionencryptiondata_p.h`), module `ConnectionEncryption`
  in `connection.dfy`. Class `ConnectionEncryptionData` holds the olm
  account, the store, the olm sessions, the key verification
  sessions by transaction id, the tracked and outdated users and the device
  keys.

Module `Wrappers` (`wrappers.dfy`) defines `Option`. It stands for a
possibly-null pointer and for `Omittable`.

How the model reads the original:

- The type registry is a total function from matrix type to id.
  "Distinct types get distinct ids" is the predicate `Injective`. The
  registry's implementation is not part of this model. `reg` stands for
  the id each type's slot caches: `Is`, `TypedFactory` and the other
  members that read `reg` assume a registry whose answers do not change.
- `EventTypeTraits<E>::id()` caches its id in a function-local static.
  Class `TypeIdSlot` models that cache: the first call asks the registry and
  later calls return the stored id.
- A factory maps (JSON object, matrix type) to `Option<Event>`; `None` is
  the null pointer. `FirstEvent` states what `make` computes.
  `EventFactory.Make` is proved against it with a loop invariant. The
  lemmas about `FirstEvent` state ordering, fallthrough and flattening of
  chained factories.
- A void `switchOnType` handler returns a value that stands for its
  effect. When no handler matches, the result is the `DefaultValue` that
  means "nothing done".
- The store's method bodies are SQL in the original and are not part of
  this model. The in-memory semantics follow the declarations:
  - saving an olm session adds a row after the sender key's earlier rows;
  - `loadOlmSessions` gives the sessions of each sender key, in an order
    the model leaves open;
  - saving an inbound group session stores it under its room and id, and
    replaces a session with the same id;
  - an index with no record reads as the default pair `("", 0)`;
  - a later index record for the same index replaces the earlier one.
  - `setSessionVerified` takes a key id (`ed25519:<device>`) and
    `isSessionVerified` an ed25519 key; the table `edKeys` links the two,
    and a key reads as verified when a device carrying it is marked.
  The store does not itself reject a second event for a used index.
  A caller must read the record first and compare event ids.
- `hasOlmSession` and `curveKeyForUserDevice` are declared without bodies.
  The model defines them from their names and the Matrix key-id convention.
  The curve key is the device's `curve25519:<device id>` key, or empty when
  the device is unknown. An olm session exists when the list under that key
  is non-empty.
- The destroy hook of a verification session captures the transaction id,
  not the session. `OnVerificationSessionDestroyed` therefore removes
  whatever is registered under that id. If a second session replaced the
  first under the same id, destroying the first removes the second's entry.
- Clocks are inputs. `SaveSession` takes the current time as the
  parameter `now`.

## Model

| member | source | states |
|---|---|---|
| `Events.BasicEventJson` | lib/events/event.h:52-56 | the minimal event JSON has exactly the keys "type" and "content" |
| `Events.BasicEventJsonRoundTrip` | lib/events/event.h:52-56 | reading the type and the content back from `basicEventJson(t, c)` gives `t` and `c` |
| `Events.TypeIdSlot.Id` | lib/events/event.h:96-103 | the first call returns the registry's id for the type and stores it; every later call returns the stored id |
| `Events.TypeIdIsStable` | lib/events/event.h:96-109 | two calls of `typeId<E>()` return the same id, even if the registry would answer differently the second time |
| `Events.Is` | lib/events/event.h:296-300 | an event is of type E when it has E's id, and then (with an injective registry) no other matrix type has that id |
| `Events.UnknownTypeId` | lib/events/event.h:90-111 | the unknown type's id is the one `typeId<void>()` caches; with an injective registry no other matrix type has it |
| `Events.IsUnknown` | lib/events/event.h:302-305 | an event is unknown exactly when it has the id of the empty matrix type, and then (with an injective registry) it has no other type |
| `Events.EventCast` | lib/events/event.h:307-314 | for a non-null pointer the cast is non-null exactly when `is<E>` holds, and then it is that same event |
| `Events.EventFactory.constructor` | lib/events/event.h:155-162 | a base class starts with no factories and no registered types |
| `Events.EventFactory.AddMethod` | lib/events/event.h:125-130 | the factory goes at the end, the earlier factories stay unchanged and in order, and the result is 0 |
| `Events.EventFactory.ChainFactory` | lib/events/event.h:140-144 | appends a factory that asks the other base class's factories, and returns 0 |
| `Events.EventFactory.Make` | lib/events/event.h:146-153 | returns the result of the earliest factory that yields an event; it is null exactly when every factory yields null |
| `Events.FirstEventNoneIff` | lib/events/event.h:146-153 | `make` is null if and only if every factory yields null |
| `Events.FirstEventIsEarliest` | lib/events/event.h:149-151 | if factory k is the first to yield an event, `make` returns that event |
| `Events.FirstEventConcat` | lib/events/event.h:149-152 | asking a list is asking its first part, and the second part only when the first yields null |
| `Events.AddedFactoryIsAskedLast` | lib/events/event.h:125-130 | a factory added later is consulted only when all earlier ones yield null |
| `Events.ChainedFactoryFlattens` | lib/events/event.h:132-144 | a chained base class's types are looked through after the registered ones, as if its list were appended |
| `Events.TypedFactory` | lib/events/event.h:174-183 | the factory of type E yields an event exactly when the JSON's matrix type equals E's, and the event is an E carrying the given JSON |
| `Events.TypedFactoriesBuildRequestedType` | lib/events/event.h:174-183 | over a list of registered types, `make` builds an event of the requested type from the JSON when that type is registered, and null otherwise |
| `Events.EventFactory.SetupFactory` | lib/events/event.h:174-183 | appends the factory of type E and returns 0 |
| `Events.EventFactory.RegisterEventType` | lib/events/event.h:185-193 | the first call for a type appends its factory; later calls change nothing; every call returns 0 |
| `Events.RegisterTwiceAddsOnce` | lib/events/event.h:188-191 | registering a type twice adds its factory exactly once |
| `Events.SwitchOnType` | lib/events/event.h:316-366 | with no matching handler the result is the fallback's; otherwise it is the result of a matching handler that no earlier handler matches |
| `Events.SwitchRunsFirstMatch` | lib/events/event.h:356-366 | the result is that of the first handler whose type the event is, whatever the handlers after it do |
| `Events.SwitchFallsThrough` | lib/events/event.h:343-354 | when no handler's type matches, the default value comes back unchanged, or the catch-all handler's result |
| `Events.VisitEach` | lib/events/event.h:376-386 | each event of the range is dispatched in order, one result per event |
| `KeyStore.MigratedVersion` | Quotient/database.h:24-25 | opening never lowers the schema version, and a store at version 5 or below ends at version 5 |
| `KeyStore.Database.Open` | Quotient/database.h:24-25 | opening a store keeps every stored table and runs, in order, exactly the migrations above the stored version up to 5 |
| `KeyStore.OpenNewStore` | Quotient/database.h:24-25 | a store never written is migrated through versions 1, 2, 3, 4, 5 in that order and every one of its tables is empty |
| `KeyStore.Database.MigrateTo` | Quotient/database.h:75-79 | a migration runs only from the version before its own, raises the version by one and is logged after the earlier ones |
| `KeyStore.Database.Version` | Quotient/database.h:27 | reports the stored schema version |
| `KeyStore.Database.StoreOlmAccount` | Quotient/database.h:35 | the stored account is the given one |
| `KeyStore.Database.SaveOlmSession` | Quotient/database.h:38-39 | the session and timestamp are added after the sender key's earlier rows; other sender keys are unchanged |
| `KeyStore.Database.LoadOlmSessions` | Quotient/database.h:40 | gives exactly the stored sender keys, and under each the stored sessions, each as often as it was stored |
| `KeyStore.Database.UpdateOlmSession` | Quotient/database.h:58-59 | replaces the state of the stored rows of that session; the number of rows, their order and timestamps, and other sender keys are unchanged |
| `KeyStore.Database.SetOlmSessionLastReceived` | Quotient/database.h:52-53 | sets the timestamp of that session's rows and of no other row |
| `KeyStore.Database.LoadMegolmSessions` | Quotient/database.h:41-42 | gives the room's inbound group sessions by id, none for an unknown room |
| `KeyStore.Database.SaveMegolmSession` | Quotient/database.h:43-44 | stores the session under its room and id; other rooms and other sessions are unchanged |
| `KeyStore.Database.AddGroupSessionIndexRecord` | Quotient/database.h:45-47 | records the event id and timestamp for (room, session, index); other records are unchanged |
| `KeyStore.Database.GroupSessionIndexRecord` | Quotient/database.h:48-50 | gives the recorded event id and timestamp, or the empty pair when there is none; records are kept by 32-bit index, so an index outside 32 bits reads as the empty pair |
| `KeyStore.Database.ClearRoomData` | Quotient/database.h:51 | removes the room's inbound and outbound group sessions and index records, and nothing of other rooms |
| `KeyStore.Database.LoadCurrentOutboundMegolmSession` | Quotient/database.h:54-55 | gives the room's current outbound session, or nothing when none was saved |
| `KeyStore.Database.SaveCurrentOutboundMegolmSession` | Quotient/database.h:56-57 | the room's current outbound session becomes the given one; other rooms are unchanged |
| `KeyStore.Database.DevicesWithoutKey` | Quotient/database.h:61-64 | gives exactly those of the given devices not recorded as having received the session's key in the room, a subset of the input |
| `KeyStore.Database.SetDevicesReceivedKey` | Quotient/database.h:65-69 | records, device after device, each device's curve key and the index it received the session key at |
| `KeyStore.Database.IsSessionVerified` | Quotient/database.h:71 | true exactly when some device whose ed25519 key this is was marked verified by its key id |
| `KeyStore.Database.SetSessionVerified` | Quotient/database.h:72 | marks the device of that key id verified and no other |
| `KeyStore.DevicesLacking` | Quotient/database.h:61-64 | the devices without the key are a subset of the devices asked about |
| `KeyStore.RecordReceivedCovers` | Quotient/database.h:65-69 | after recording, every listed device is recorded as having received the key |
| `KeyStore.RecordReceivedKeeps` | Quotient/database.h:65-69 | recording never removes an earlier record |
| `KeyStore.RecordReceivedFrames` | Quotient/database.h:65-69 | the records of devices not in the list are unchanged |
| `KeyStore.SharingRemovesExactlyTheRecipients` | Quotient/database.h:61-69 | after `setDevicesReceivedKey(room, devs, sid, i)`, the devices without the key are those without it before, less `devs` |
| `KeyStore.SavedOlmSessionIsLoaded` | Quotient/database.h:38-40 | after saving, the store holds the new row after the sender key's earlier rows, and loading gives the saved session under its sender key together with the ones saved before |
| `KeyStore.ReplaceSessionKeepsOthers` | Quotient/database.h:58-59 | replacing a session's state leaves how often each session of another id occurs |
| `KeyStore.UpdateKeepsRows` | Quotient/database.h:58-59 | an update leaves the loaded sender keys and their session counts as they were, other sender keys load the same sessions, under the updated key only sessions of the updated id change, and the new state is loaded when that id was stored |
| `KeyStore.OutboundSaveLoad` | Quotient/database.h:54-57 | nothing is loaded for a room before a save; the saved session is loaded afterwards and is the room's entry in the store |
| `KeyStore.MegolmSaveLoad` | Quotient/database.h:41-44 | a saved inbound group session is stored and loaded back in its room under its id |
| `KeyStore.IndexRecordRoundTrip` | Quotient/database.h:45-50 | the record added for an index is stored under it and is the one read back for it |
| `KeyStore.ReceivedDevicesLeaveTheQuery` | Quotient/database.h:61-69 | devices recorded as having received a key are no longer reported by `devicesWithoutKey`, and the others are reported as before |
| `KeyStore.VerifiedFlagIsSet` | Quotient/database.h:71-72 | after `setSessionVerified(id)` for a tracked device, `isSessionVerified` of that device's ed25519 key holds, the verified key ids gain exactly `id`, and any other key's flag is unchanged |
| `KeyStore.ClearRoomKeepsOtherRooms` | Quotient/database.h:51 | after clearing a room, the store holds none of its inbound or outbound group sessions or index records (its key-sharing records stay), nothing is loaded for it, and another room's sessions load as before |
| `ConnectionEncryption.ConnectionEncryptionData.constructor` | Quotient/connectionencryptiondata_p.h:98-99 | the state starts with the given account and store, with exactly the olm sessions the store loads under each sender key, and with an empty verification registry, tracking sets and device keys |
| `ConnectionEncryption.ConnectionEncryptionData.CurveKeyForUserDevice` | Quotient/connectionencryptiondata_p.h:42-43 | a non-empty result is the `curve25519:<device>` key the device published; an unknown device gives the empty key (the definition is the model's own, since the source has no body) |
| `ConnectionEncryption.ConnectionEncryptionData.HasOlmSession` | Quotient/connectionencryptiondata_p.h:46 | holds exactly when some olm session is kept under the device's curve key (the definition is the model's own, since the source has no body) |
| `ConnectionEncryption.ConnectionEncryptionData.SaveSession` | Quotient/connectionencryptiondata_p.h:56-60 | the store gains the session under the sender key with the current time; no field of this object changes |
| `ConnectionEncryption.ConnectionEncryptionData.SaveOlmAccount` | Quotient/connectionencryptiondata_p.h:61-65 | the store's account becomes the current account |
| `ConnectionEncryption.ConnectionEncryptionData.SetupKeyVerificationSession` | Quotient/connectionencryptiondata_p.h:81-94 | a new session is created and registered under its transaction id, replacing any earlier entry there; other entries are unchanged |
| `ConnectionEncryption.ConnectionEncryptionData.OnVerificationSessionDestroyed` | Quotient/connectionencryptiondata_p.h:88-91 | removes the entry of the captured transaction id and no other |
| `ConnectionEncryption.ConnectionEncryptionData.OlmEncryptMessage` | Quotient/connectionencryptiondata_p.h:107-110 | may only be called when an olm session with the device exists; the result is the message encrypted with one of the device's sessions |
| `ConnectionEncryption.SavedSessionSurvivesRestart` | Quotient/connectionencryptiondata_p.h:24 | a session saved through one state is among the olm sessions of a state built afterwards on the same store |
| `ConnectionEncryption.SameTransactionIdReplaces` | Quotient/connectionencryptiondata_p.h:87 | setting up two sessions under one transaction id leaves one entry there, the later session |
| `ConnectionEncryption.SetupThenDestroy` | Quotient/connectionencryptiondata_p.h:85-91 | destroying a session just set up removes exactly its transaction id's entry; all other entries are as before |
| `ConnectionEncryption.DestroyingReplacedSessionDropsNewer` | Quotient/connectionencryptiondata_p.h:85-91 | when a second session replaced the first under one transaction id, destroying the first removes the second's entry |

## Left out

- `Events.EventFactory.ChainFactory`: the added factory asks the other base class's factories as they were when chaining. The original calls the other class's `make`, which also sees factories added to it later.
- `ConnectionEncryption.ConnectionEncryptionData.OlmEncryptMessage`: does not say which of the device's sessions is used. It also leaves out the ratchet step and the store update that follow, because the body is not part of this model.
- `KeyStore.Database.DevicesWithoutKey`: the devices are a set of (user, device) pairs. A `QMultiHash` holding the same pair twice is not distinguished.
- Olm and Megolm cryptography (`QOlmAccount`, `QOlmSession`, the group sessions, the pickling key). It is a foreign library, so sessions are opaque values with an id and a pickle, and the account a pickle. Encryption in `OlmEncryptMessage` is a function parameter.
- `Database::execute`, `prepareQuery`, `transaction`, `commit` and `database`. They are SQL plumbing; the model keeps tables as maps and sets.
- `Database::setupOlmAccount`: it unpickles the stored account and reports olm error codes, which is foreign crypto.
- `Database::clear`: which tables it empties cannot be seen from its declaration.
- What a migration changes in the schema. Only the version and the order of the steps are modelled; the SQL of each step is not part of this model.
- `EventTypeRegistry::initializeTypeId` and `getMatrixType`: their bodies are not part of this model. The registry is a function parameter.
- `rawPtr`, `weakPtrCast` and `makeEvent`. The model has no pointers: an event is a value, and null is `None`.
- The `DEFINE_EVENT_TYPEID` and `REGISTER_EVENT_TYPE` macros. The first defines `matrixTypeId()` and `typeId()`, which `TypeIdSlot` models; the second's effect is `RegisterEventType` with the type's matrix type string.
- The key name constants other than "type" and "content". No modelled operation uses them.
- `Event` members `contentPart`, `unsignedPart`, `unsignedJson`, `originalJson`, `isStateEvent`, `isCallEvent`, and the deprecated `content` and `visit`. They are JSON conversion, virtual flags or aliases.
- `operator<<`, `dumpTo` and the `qDebug` line in `setupFactory`. They are logging only.
- JSON numbers are integers. Floating point is not modelled.
- The `newKeyVerificationSession` signal and `QObject` lifetime. The destroy hook is the explicit method `OnVerificationSessionDestroyed`.
- `ConnectionEncryptionData::setup`, `onSyncSuccess`, `loadOutdatedUserDevices`, `consumeToDeviceEvents`, `encryptionUpdate`, `createOlmSession`, `saveDevicesList`, `loadDevicesList`, `isKnownCurveKey`, `sessionDecryptMessage`, `assembleEncryptedContent`, `sendSessionKeyToDevices`, `doSendSessionKeyToDevices`, `consumeDevicesList`, `processIfVerificationEvent`, `handleEncryptedToDeviceEvent` and `handleQueryKeys`. They are declared without bodies, so nothing is claimed about them. `trackedUsers`, `outdatedUsers` and `deviceKeys` are fields with no visible operation.
- The fields `q`, `currentQueryKeysJob`, `triedDevices`, `encryptionUpdateRequired`, `oneTimeKeysCount`, `pendingEncryptedEvents`, `isUploadingKeys` and `firstSync`. No visible body uses them.
- `lib/mxcreply.cpp` and `Quotient/networkaccessmanager.h` are not part of this model. They are network I/O and a call into file decryption.
- `KeyStore.Database.LoadOlmSessions`: does not promise an order of the sessions under one sender key, only which sessions and how often. Its declaration does not fix one, and the SQL that would is not part of this model.
- `KeyStore.Database.AddGroupSessionIndexRecord`: does not reject a second event for an index already used; the later record replaces the earlier. The declaration shows no failure result, so a caller must read the record first and compare event ids.
- `KeyStore.Database.Open`: a stored version above 5 is kept and no migration runs. What the original does with a newer schema is not visible in its declarations.
- `ConnectionEncryption.ConnectionEncryptionData`: the original holds its `Database` by value, so no two connections share a store. The model's `database` is a reference, and nothing rules out two objects sharing one.
- `KeyStore.Database.IsSessionVerified`: the table `edKeys` from key ids to ed25519 keys is filled by `saveDevicesList`, whose body is not part of this model; the store only takes it as it finds it on opening.
- `Events.EventFactory.SetupFactory`: its documentation promises the registered type id, but the code returns `addMethod`'s 0. The model follows the code.
- `ConnectionEncryption.ConnectionEncryptionData.constructor`: takes an opened store and an unpickled account instead of the connection and the pickling key. Opening the store is `KeyStore.Database.Open`, and unpickling the account is foreign cryptography. That the olm sessions are loaded from the store at construction is the model's reading: the constructor's body is not part of this model, and `olmSessions` has the type `loadOlmSessions` returns and no initialiser.
