/**
 * What the migration and the write path promise: about one call, and about any sequence of
 * calls the host may execute.
 */
module Properties {
  import opened Wrappers
  import opened Storage
  import opened Transitions

  // ---------------------------------------------------------------------------------------------
  // One migration

  /** Storage that was never written reads as `V1_u32`, so the first upgrade converts. */
  lemma FreshStoreNeedsMigration<AccountId>()
    ensures Version(Fresh<AccountId>()) == V1_u32
    ensures MigrateToStruct(Fresh<AccountId>())
         == Upgraded(State(Current(SomeStruct(true, 0)), Some(V2_SomeStruct), []), Weight(1, 2))
  {
  }

  /** A first-schema value `v` becomes `{ something: v, sth_else: true }` under marker `V2_SomeStruct`. */
  lemma ConversionKeepsValue<AccountId>(s: State<AccountId>, v: u32)
    requires Version(s) == V1_u32 && s.slot == Legacy(v)
    ensures MigrateToStruct(s)
         == Upgraded(State(Current(SomeStruct(true, v)), Some(V2_SomeStruct), s.events), Weight(1, 2))
  {
  }

  /** With nothing stored under the shared key, the conversion writes `{ something: 0, sth_else: true }`. */
  lemma ConversionDefaultsToZero<AccountId>(s: State<AccountId>)
    requires Version(s) == V1_u32 && s.slot == Empty
    ensures MigrateToStruct(s)
         == Upgraded(State(Current(SomeStruct(true, 0)), Some(V2_SomeStruct), s.events), Weight(1, 2))
  {
  }

  /** A second migration changes nothing and reports zero weight. */
  lemma MigrationIdempotent<AccountId>(s: State<AccountId>)
    ensures MigrateToStruct(MigrateToStruct(s).state) == Upgraded(MigrateToStruct(s).state, NoWeight)
  {
  }

  /**
   * Migration leaves marker and key in agreement whenever they agreed before; from `V1_u32` it
   * establishes agreement whatever was stored.
   */
  lemma MigrationEstablishesAgreement<AccountId>(s: State<AccountId>)
    requires MarkerAgrees(s) || Version(s) == V1_u32
    ensures MarkerAgrees(MigrateToStruct(s).state)
    ensures CurrentView(MigrateToStruct(s).state.slot).Some? <==> Version(s) == V1_u32 || s.slot.Current?
  {
  }

  /**
   * Because the marker defaults to `V1_u32`, a record written by `do_something` before the first
   * upgrade sits under a marker naming the old schema; the upgrade then reads its first four bytes
   * as a `u32` and replaces the record: `{ something: 5, sth_else: false }` becomes
   * `{ something: 1280, sth_else: true }`.
   */
  lemma WriteBeforeFirstUpgradeIsReconverted<AccountId>(who: AccountId)
    ensures var written := DoSomething(Fresh(), Some(who), 5, false).state;
      CurrentView(written.slot) == Some(SomeStruct(false, 5)) &&
      !MarkerAgrees(written) &&
      CurrentView(MigrateToStruct(written).state.slot) == Some(SomeStruct(true, 1280))
  {
  }

  /**
   * Any signed write on storage never written leaves marker and key in disagreement, and the first
   * upgrade reinterprets the written record.
   */
  lemma FreshWriteIsReconverted<AccountId>(who: AccountId, something: u32, sthElse: bool)
    ensures var written := DoSomething(Fresh(), Some(who), something, sthElse).state;
      !MarkerAgrees(written) &&
      CurrentView(MigrateToStruct(written).state.slot)
        == Some(SomeStruct(true, (BoolByte(sthElse) + (something as int % 0x100_0000) * 0x100) as u32))
  {
  }

  /**
   * Under marker `V1_u32`, any current-schema record is reinterpreted by the upgrade: its `bool`
   * byte and the low three bytes of `something` become the new `something`, and `sth_else` is set.
   */
  lemma CurrentRecordUnderOldMarkerIsReconverted<AccountId>(s: State<AccountId>, r: SomeStruct)
    requires Version(s) == V1_u32 && s.slot == Current(r)
    ensures MigrateToStruct(s).state.slot
         == Current(SomeStruct(true, (BoolByte(r.sthElse) + (r.something as int % 0x100_0000) * 0x100) as u32))
    ensures MigrateToStruct(s).state.slot == s.slot <==> r == SomeStruct(true, 0x0101_0101)
  {
  }

  /**
   * The current and the deprecated item are one key: whenever the current item reads a record,
   * the deprecated item reads a value too; a first-schema value is visible only to the deprecated item; an
   * empty key is empty to both.
   */
  lemma SharedKey(slot: Slot)
    ensures CurrentView(slot).Some? ==> LegacyView(slot).Some?
    ensures slot.Legacy? ==> CurrentView(slot) == None && LegacyView(slot) == Some(slot.value)
    ensures slot.Empty? <==> CurrentView(slot) == None && LegacyView(slot) == None
  {
  }

  // ---------------------------------------------------------------------------------------------
  // One dispatch of `do_something`

  /** An unsigned origin is rejected with `BadOrigin`; record, marker and events stay as they were. */
  lemma UnsignedCallChangesNothing<AccountId>(s: State<AccountId>, something: u32, sthElse: bool)
    ensures DoSomething(s, None, something, sthElse) == Dispatched(s, Err(BadOrigin))
  {
  }

  /**
   * A signed call replaces the record wholesale, whatever was stored before, appends exactly one
   * event naming the signer, and leaves the marker alone.
   */
  lemma SignedCallReplacesRecord<AccountId>(s: State<AccountId>, who: AccountId, something: u32, sthElse: bool)
    ensures var r := DoSomething(s, Some(who), something, sthElse);
      r.result == Ok(()) &&
      CurrentView(r.state.slot) == Some(SomeStruct(sthElse, something)) &&
      r.state.events == s.events + [SomethingStored(something, who)] &&
      r.state.palletVersion == s.palletVersion
  {
  }

  /** Once the marker is current, a write keeps marker and key in agreement. */
  lemma WriteKeepsAgreementAfterUpgrade<AccountId>(s: State<AccountId>, origin: Option<AccountId>, something: u32, sthElse: bool)
    requires Version(s) == V2_SomeStruct && MarkerAgrees(s)
    ensures MarkerAgrees(DoSomething(s, origin, something, sthElse).state)
  {
  }

  // ---------------------------------------------------------------------------------------------
  // Sequences of calls

  /** `n` runtime upgrades in a row. */
  function Upgrades<AccountId>(n: nat): (r: seq<Call<AccountId>>)
    ensures |r| == n
  {
    if n == 0 then [] else [RuntimeUpgrade] + Upgrades(n - 1)
  }

  /** The events the signed dispatches among `calls` deposit, in order. */
  function Deposited<AccountId>(calls: seq<Call<AccountId>>): seq<Event<AccountId>> {
    if calls == [] then []
    else
      (match calls[0]
       case Dispatch(Some(who), something, _) => [SomethingStored(something, who)]
       case _ => []) + Deposited(calls[1..])
  }

  /** The record written by the last signed dispatch among `calls`, or `before` when there is none. */
  function LastWrite<AccountId>(calls: seq<Call<AccountId>>, before: Option<SomeStruct>): Option<SomeStruct> {
    if calls == [] then before
    else
      match calls[|calls| - 1]
      case Dispatch(Some(_), something, sthElse) => Some(SomeStruct(sthElse, something))
      case _ => LastWrite(calls[..|calls| - 1], before)
  }

  /** Running one more call after `calls` applies it to the state `calls` reached. */
  lemma {:induction false} RunAppend<AccountId>(s: State<AccountId>, calls: seq<Call<AccountId>>, call: Call<AccountId>)
    ensures Run(s, calls + [call]) == Apply(Run(s, calls), call)
    decreases |calls|
  {
    if calls == [] {
      assert calls + [call] == [call];
    } else {
      assert (calls + [call])[0] == calls[0];
      assert (calls + [call])[1..] == calls[1..] + [call];
      RunAppend(Apply(s, calls[0]), calls[1..], call);
    }
  }

  /** Any number (at least one) of upgrades in a row leaves the state exactly one upgrade leaves. */
  lemma {:induction false} RepeatedUpgradesEqualOne<AccountId>(s: State<AccountId>, n: nat)
    requires n >= 1
    ensures Run(s, Upgrades(n)) == MigrateToStruct(s).state
    decreases n
  {
    var once := MigrateToStruct(s).state;
    assert Upgrades<AccountId>(n)[0] == RuntimeUpgrade;
    assert Upgrades<AccountId>(n)[1..] == Upgrades(n - 1);
    if n > 1 {
      RepeatedUpgradesEqualOne(once, n - 1);
      MigrationIdempotent(s);
    }
  }

  /**
   * The marker is `V2_SomeStruct` after a run exactly when it was before or the run contains an
   * upgrade: it never moves back, and only an upgrade moves it.
   */
  lemma {:induction false} MarkerCurrentIffUpgraded<AccountId>(s: State<AccountId>, calls: seq<Call<AccountId>>)
    ensures Version(Run(s, calls)) == V2_SomeStruct <==> Version(s) == V2_SomeStruct || RuntimeUpgrade in calls
    decreases |calls|
  {
    if calls != [] {
      MarkerCurrentIffUpgraded(Apply(s, calls[0]), calls[1..]);
      assert calls == [calls[0]] + calls[1..];
    }
  }

  /** The events after a run are those before it followed by one per signed dispatch, in order. */
  lemma {:induction false} EventsRecordSignedCalls<AccountId>(s: State<AccountId>, calls: seq<Call<AccountId>>)
    ensures Run(s, calls).events == s.events + Deposited(calls)
    decreases |calls|
  {
    if calls != [] {
      EventsRecordSignedCalls(Apply(s, calls[0]), calls[1..]);
    }
  }

  /**
   * Once the marker is current, the record after a run is the one the last signed dispatch wrote,
   * or the one stored before when no dispatch was signed; marker and key keep agreeing.
   */
  lemma {:induction false} RecordIsLastSignedWrite<AccountId>(s: State<AccountId>, calls: seq<Call<AccountId>>)
    requires Version(s) == V2_SomeStruct && MarkerAgrees(s)
    ensures CurrentView(Run(s, calls).slot) == LastWrite(calls, CurrentView(s.slot))
    ensures Version(Run(s, calls)) == V2_SomeStruct && MarkerAgrees(Run(s, calls))
    decreases |calls|
  {
    if calls != [] {
      var init, call := calls[..|calls| - 1], calls[|calls| - 1];
      assert calls == init + [call];
      RecordIsLastSignedWrite(s, init);
      RunAppend(s, init, call);
    }
  }

  /**
   * Once the marker is current, marker and key agree; every call keeps this so.
   */
  lemma {:induction false} CurrentMarkerAgreesAlongRun<AccountId>(s: State<AccountId>, calls: seq<Call<AccountId>>)
    requires Version(s) == V2_SomeStruct ==> MarkerAgrees(s)
    ensures Version(Run(s, calls)) == V2_SomeStruct ==> MarkerAgrees(Run(s, calls))
    decreases |calls|
  {
    if calls != [] {
      CurrentMarkerAgreesAlongRun(Apply(s, calls[0]), calls[1..]);
    }
  }

  /** In every state reachable from storage never written, a current marker agrees with the key. */
  lemma ReachableCurrentStatesAgree<AccountId>(calls: seq<Call<AccountId>>)
    ensures Version(Run(Fresh(), calls)) == V2_SomeStruct ==> MarkerAgrees(Run(Fresh(), calls))
  {
    CurrentMarkerAgreesAlongRun(Fresh(), calls);
  }
}
