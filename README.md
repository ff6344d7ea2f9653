# Template pallet: storage versioning and migration

A model of the Substrate FRAME template pallet in `pallets/template/src/lib.rs`. The pallet stores
one record, `SomeStruct { sth_else: bool, something: u32 }`, under the storage key
`TemplateModule::Something`. An earlier release stored a bare `u32` under that same key. The
pallet's storage items `Something: Option<SomeStruct>` and the deprecated
`Something: Option<u32>` are declared with the same prefix and name, so they are one key read
under two schemas. The marker `PalletVersion` (`V1_u32` or `V2_SomeStruct`, defaulting to
`V1_u32`) says which schema is live.

There are two entry points:

- `on_runtime_upgrade` runs `migration::migrate_to_struct`. If the marker reads `V1_u32`, it
  takes the key as a `u32` (read and clear), writes `SomeStruct { sth_else: true, something: v }`
  with `v` defaulting to 0, advances the marker, and reports one read and two writes. Otherwise
  it does nothing and reports zero.
- `do_something(origin, something, sth_else)` rejects an unsigned origin. For a signed one, it
  replaces the record wholesale and deposits `SomethingStored(something, who)`.

Files:

- `wrappers.dfy` holds `Option` (with `UnwrapOr`) and a failure-compatible `Result`, so that `:-` plays the part of Rust's `?`.
- `storage.dfy` holds the types and the shared key as a tagged slot, `Empty | Legacy(u32) | Current(SomeStruct)`. Two views read the key under each schema. The state is the slot, the marker as stored (`None` when never written) and the deposited events.
- `transitions.dfy` holds the two entry points as functions from state to state, plus the host's execution of a sequence of calls (`Run`).
- `properties.dfy` holds lemmas about one call and about any sequence of calls.
- `pallet.dfy` holds the class `Pallet`, whose fields are the storage items. Its methods update those fields step by step, as the Rust code does. Each entry point (`MigrateToStruct`, `OnRuntimeUpgrade`, `DoSomething`) is proved to reach the state and result its function in `transitions.dfy` gives. The storage steps they use are tied to `Storage` instead: `GetPalletVersion` to `Version`, `TakeLegacy` to `LegacyView`, and `DepositEvent` appends its event.

Reading a value through the other schema's type follows the SCALE layout. A `bool` is one byte, a
`u32` is four bytes little-endian, and struct fields come in declaration order. The storage
layer's decoder also ignores trailing bytes. So a `SomeStruct` read as `u32` yields
`sth_else + (something mod 2^24) * 256`. A `u32` read as `SomeStruct` is too short and reads as
absent.

One consequence follows from the `V1_u32` default. On a chain where `do_something` runs before
the first runtime upgrade, the record is written while the marker still names the old schema.
The upgrade then reinterprets the record (`CurrentRecordUnderOldMarkerIsReconverted`). The only
record that survives unchanged is `{ something: 0x01010101, sth_else: true }`.
`FreshWriteIsReconverted` states this for any write; `WriteBeforeFirstUpgradeIsReconverted` shows `{ something: 5, sth_else: false }` becoming
`{ something: 1280, sth_else: true }`. Once the marker is `V2_SomeStruct`, marker and key agree,
and every later call keeps them agreeing. This holds in every state reachable from storage never
written (`ReachableCurrentStatesAgree`).

The `else` branch of the migration (lib.rs:135-137) has read `PalletVersion`, yet it reports
weight 0. The model keeps that weight.

## Model

| member | source | states |
|---|---|---|
| `Properties.SharedKey` | pallets/template/src/lib.rs:42-45 | the current and the deprecated item are one key: whenever the current item reads a record the deprecated item reads a value too, a first-schema value is absent to the current item and reads as itself to the deprecated one, and an empty key is empty to both |
| `Storage.LegacyView` | pallets/template/src/lib.rs:116-117 | the deprecated item reads the key as absent exactly when nothing is stored; a first-schema value reads back as itself; a current-schema record reads with `sth_else` as its low byte |
| `Transitions.MigrateToStruct` | pallets/template/src/lib.rs:125-139 | afterwards the marker is `V2_SomeStruct` and events are untouched; from `V2_SomeStruct` nothing changes and the weight is zero; from `V1_u32` the weight is one read and two writes, and the key holds a current record with `sth_else` set |
| `Transitions.DoSomething` | pallets/template/src/lib.rs:86-99 | succeeds exactly for a signed origin; a failure leaves the state untouched with `BadOrigin`; the marker is never changed; exactly one event is added on success and none on failure |
| `Properties.FreshStoreNeedsMigration` | pallets/template/src/lib.rs:48 | storage never written reads as `V1_u32`, and its first migration writes `{ something: 0, sth_else: true }` and `V2_SomeStruct` at weight (1, 2) |
| `Properties.ConversionKeepsValue` | pallets/template/src/lib.rs:128-134 | from `V1_u32` with first-schema value `v`, migration yields exactly the record `{ something: v, sth_else: true }`, marker `V2_SomeStruct`, the same events, weight (1, 2) |
| `Properties.ConversionDefaultsToZero` | pallets/template/src/lib.rs:130-131 | from `V1_u32` with nothing stored, migration yields exactly `{ something: 0, sth_else: true }` and marker `V2_SomeStruct` |
| `Properties.MigrationIdempotent` | pallets/template/src/lib.rs:128-138 | migrating a migrated state changes nothing and reports zero weight |
| `Properties.MigrationEstablishesAgreement` | pallets/template/src/lib.rs:125-139 | after migration the marker names the schema of what is stored (given agreement before, or a `V1_u32` start); the key holds a current record exactly when the start was `V1_u32` or already held one |
| `Properties.WriteBeforeFirstUpgradeIsReconverted` | pallets/template/src/lib.rs:42-48 | a record written on fresh storage sits under marker `V1_u32` in disagreement, and the first upgrade turns `{ 5, false }` into `{ 1280, true }` |
| `Properties.FreshWriteIsReconverted` | pallets/template/src/lib.rs:42-48 | any signed write on never-written storage sits under marker `V1_u32` in disagreement, and the first upgrade turns `{ x, b }` into `{ b byte + (x mod 2^24) * 256, true }` |
| `Properties.CurrentRecordUnderOldMarkerIsReconverted` | pallets/template/src/lib.rs:128-132 | under marker `V1_u32`, any current record `r` becomes `{ sth_else byte + (something mod 2^24) * 256, true }`, and it is left unchanged exactly when `r` is `{ 0x01010101, true }` |
| `Properties.UnsignedCallChangesNothing` | pallets/template/src/lib.rs:90 | an unsigned call returns `BadOrigin` and leaves record, marker and events exactly as they were |
| `Properties.SignedCallReplacesRecord` | pallets/template/src/lib.rs:90-98 | a signed call succeeds, the record reads exactly `{ something, sth_else }` whatever was there, one `SomethingStored(something, who)` is appended, the marker is unchanged |
| `Properties.WriteKeepsAgreementAfterUpgrade` | pallets/template/src/lib.rs:86-99 | under marker `V2_SomeStruct`, a write keeps marker and key in agreement |
| `Properties.RepeatedUpgradesEqualOne` | pallets/template/src/lib.rs:101-103 | any n >= 1 upgrades in a row leave exactly the state one upgrade leaves |
| `Properties.MarkerCurrentIffUpgraded` | pallets/template/src/lib.rs:128-132 | after any sequence of calls the marker is `V2_SomeStruct` if and only if it was before or the sequence contains an upgrade: it never regresses and only the migration advances it |
| `Properties.EventsRecordSignedCalls` | pallets/template/src/lib.rs:96 | after any sequence of calls the events are the earlier ones followed by one `SomethingStored` per signed dispatch, in order, and nothing else |
| `Properties.RecordIsLastSignedWrite` | pallets/template/src/lib.rs:93 | from an agreeing `V2_SomeStruct` state, the record after any sequence of calls is the one the last signed dispatch wrote (or the earlier one); the marker stays current and in agreement |
| `Properties.CurrentMarkerAgreesAlongRun` | pallets/template/src/lib.rs:86-139 | if a current marker agrees with the key before a sequence of calls, a current marker agrees with it after |
| `Properties.ReachableCurrentStatesAgree` | pallets/template/src/lib.rs:48 | in every state reachable from storage never written, a current marker agrees with the key |
| `Template.Pallet.constructor` | pallets/template/src/lib.rs:42-48 | new storage has nothing under the key, no stored marker and no events |
| `Template.Pallet.GetPalletVersion` | pallets/template/src/lib.rs:48 | reading the marker yields the stored value, or `V1_u32` when none was stored |
| `Template.Pallet.TakeLegacy` | pallets/template/src/lib.rs:130 | returns the key read as `Option<u32>` and leaves the key empty |
| `Template.Pallet.DepositEvent` | pallets/template/src/lib.rs:96 | appends exactly the given event |
| `Template.Pallet.MigrateToStruct` | pallets/template/src/lib.rs:125-139 | the fields and weight after the step-by-step migration are those `Transitions.MigrateToStruct` gives; from `V1_u32` the converted record and weight (1, 2); from `V2_SomeStruct` nothing changes and the weight is zero |
| `Template.Pallet.OnRuntimeUpgrade` | pallets/template/src/lib.rs:101-103 | the hook leaves the state and weight of the migration; the marker is then current |
| `Template.Pallet.DoSomething` | pallets/template/src/lib.rs:86-99 | the fields and result are those `Transitions.DoSomething` gives; unsigned: `BadOrigin` and nothing changes; signed: the record replaced and one event appended; the marker never changes |

## Left out

- FRAME's declaration macros (`decl_storage!`, `decl_module!`, `decl_event!`, `decl_error!`), call dispatch and the `Trait` configuration are left out. They become plain datatypes, a class and methods.
- SCALE encoding and the byte-level storage layout are left out. The shared key is a tagged slot. Only the two cross-schema reads are written out, as `CurrentView` and `LegacyView`.
- `T::DbWeight` arithmetic is left out. The migration weight is an abstract count of reads and writes, and the literal `0` is `Weight(0, 0)`. The weight the code reports is modelled as the code states it, not checked against the accesses the migration performs.
- The dispatch weight annotation `#[weight = 10_000 + ...]` is left out, because it is fee accounting outside the state.
- `ensure_signed` internals are left out. The origin is `Option<AccountId>`, and any unsigned origin is `BadOrigin`.
- Event delivery is left out. Depositing an event appends it to a sequence.
- Logging (`debug::RuntimeLogger::init`, `debug::info!`) is left out, because it has no effect on state.
- The error variants `NoneValue` and `StorageOverflow` are left out, because no call returns them.
- A marker whose stored bytes cannot be decoded is left out. The marker is a two-variant datatype.
- The `mock` and `tests` modules are not part of this model.
- Concurrency is left out. There is none in this code, and the host orders calls; a sequence of calls (`Run`) stands for that order.
