/**
 * The pallet as it runs: its storage items are fields that `do_something` and the migration
 * update step by step. Each entry point is proved to leave the state and result its function in
 * `Transitions` gives; the storage steps are tied to `Storage.Version` and `Storage.LegacyView`.
 */
module Template {
  import opened Wrappers
  import opened Storage
  import opened Transitions

  class Pallet<AccountId> {
    /** The raw content of the shared key `TemplateModule::Something`. */
    var something: Slot
    /** `TemplateModule::PalletVersion` as stored; `None` until it is first written. */
    var palletVersion: Option<StorageVersion>
    /** The events deposited so far. */
    var events: seq<Event<AccountId>>

    /** The storage this pallet instance holds, as a value. */
    function Snapshot(): State<AccountId>
      reads this
    {
      State(something, palletVersion, events)
    }

    /** Storage in which nothing was ever written. */
    constructor ()
      ensures Snapshot() == Fresh()
    {
      something := Empty;
      palletVersion := None;
      events := [];
    }

    /** `PalletVersion::get()`. */
    method GetPalletVersion() returns (version: StorageVersion)
      ensures version == Version(Snapshot())
      ensures palletVersion.None? ==> version == V1_u32
    {
      version := palletVersion.UnwrapOr(V1_u32);
    }

    /** `deprecated::Something::take()`: read the shared key as `Option<u32>` and clear it. */
    method TakeLegacy() returns (value: Option<u32>)
      modifies this`something
      ensures value == LegacyView(old(something))
      ensures something == Empty
    {
      value := LegacyView(something);
      if value.Some? {
        something := Empty;
      }
    }

    /** `deposit_event`: append one event. */
    method DepositEvent(event: Event<AccountId>)
      modifies this`events
      ensures events == old(events) + [event]
    {
      events := events + [event];
    }

    /** `migration::migrate_to_struct`. */
    method MigrateToStruct() returns (weight: Weight)
      modifies this
      ensures Upgraded(Snapshot(), weight) == Transitions.MigrateToStruct(old(Snapshot()))
      ensures old(Version(Snapshot())) == V1_u32 ==>
        something == Current(SomeStruct(true, LegacyView(old(something)).UnwrapOr(0))) &&
        palletVersion == Some(V2_SomeStruct) && events == old(events) && weight == Weight(1, 2)
      ensures old(Version(Snapshot())) == V2_SomeStruct ==> unchanged(this) && weight == NoWeight
    {
      var version := GetPalletVersion();
      if version == V1_u32 {
        var legacy := TakeLegacy();
        something := Current(SomeStruct(true, legacy.UnwrapOr(0)));
        palletVersion := Some(V2_SomeStruct);
        weight := Weight(1, 2);
      } else {
        weight := NoWeight;
      }
    }

    /** `on_runtime_upgrade`: run the migration and report its weight. */
    method OnRuntimeUpgrade() returns (weight: Weight)
      modifies this
      ensures Upgraded(Snapshot(), weight) == Transitions.MigrateToStruct(old(Snapshot()))
      ensures Version(Snapshot()) == V2_SomeStruct && events == old(events)
    {
      weight := MigrateToStruct();
    }

    /** `do_something(origin, something, sth_else)`. */
    method DoSomething(origin: Option<AccountId>, value: u32, sthElse: bool) returns (result: Result<(), DispatchError>)
      modifies this
      ensures Dispatched(Snapshot(), result) == Transitions.DoSomething(old(Snapshot()), origin, value, sthElse)
      ensures origin.None? ==> result == Err(BadOrigin) && unchanged(this)
      ensures origin.Some? ==>
        result == Ok(()) && something == Current(SomeStruct(sthElse, value)) &&
        events == old(events) + [SomethingStored(value, origin.value)]
      ensures palletVersion == old(palletVersion)
    {
      var who :- EnsureSigned(origin);
      something := Current(SomeStruct(sthElse, value));
      DepositEvent(SomethingStored(value, who));
      result := Ok(());
    }
  }
}
