/**
 * The pallet's two entry points as functions from the old state to the new state, and the
 * host's ordering of calls as a sequence run one call after the other.
 */
module Transitions {
  import opened Wrappers
  import opened Storage

  /** What `on_runtime_upgrade` leaves behind: the new state and the weight it reports. */
  datatype Upgraded<AccountId> = Upgraded(state: State<AccountId>, weight: Weight)

  /** What a dispatch of `do_something` leaves behind: the new state and its `DispatchResult`. */
  datatype Dispatched<AccountId> = Dispatched(state: State<AccountId>, result: Result<(), DispatchError>)

  /**
   * `migration::migrate_to_struct`. If the marker says `V1_u32`, take the shared key as a bare
   * `u32` (read and clear), write it back as a `SomeStruct` with `sth_else` set, advance the marker
   * and report one read and two writes; otherwise do nothing and report zero.
   */
  function MigrateToStruct<AccountId>(s: State<AccountId>): (r: Upgraded<AccountId>)
    ensures Version(r.state) == V2_SomeStruct
    ensures r.state.events == s.events
    ensures Version(s) == V2_SomeStruct ==> r == Upgraded(s, NoWeight)
    ensures Version(s) == V1_u32 ==>
      r.weight == Weight(1, 2) && r.state.palletVersion == Some(V2_SomeStruct) &&
      r.state.slot.Current? && r.state.slot.record.sthElse
  {
    match Version(s)
    case V1_u32 =>
      var something := LegacyView(s.slot);
      var taken := s.(slot := Empty);
      var put := taken.(slot := Current(SomeStruct(true, something.UnwrapOr(0))));
      Upgraded(put.(palletVersion := Some(V2_SomeStruct)), Weight(1, 2))
    case V2_SomeStruct =>
      Upgraded(s, NoWeight)
  }

  /**
   * `do_something(origin, something, sth_else)`: reject an unsigned origin; otherwise replace the
   * record with `SomeStruct { something, sth_else }` and deposit `SomethingStored(something, who)`.
   */
  function DoSomething<AccountId>(s: State<AccountId>, origin: Option<AccountId>, something: u32, sthElse: bool)
    : (r: Dispatched<AccountId>)
    ensures r.result.Ok? <==> origin.Some?
    ensures r.result.Err? ==> r.state == s && r.result.error == BadOrigin
    ensures r.state.palletVersion == s.palletVersion
    ensures |r.state.events| == |s.events| + (if origin.Some? then 1 else 0)
  {
    match EnsureSigned(origin)
    case Err(e) => Dispatched(s, Err(e))
    case Ok(who) =>
      var put := s.(slot := Current(SomeStruct(sthElse, something)));
      Dispatched(put.(events := put.events + [SomethingStored(something, who)]), Ok(()))
  }

  /** A call the host may execute: a dispatch of `do_something`, or a runtime upgrade. */
  datatype Call<AccountId> = Dispatch(origin: Option<AccountId>, something: u32, sthElse: bool) | RuntimeUpgrade

  /** One call's effect on the state; a runtime upgrade is `on_runtime_upgrade`, which migrates. */
  function Apply<AccountId>(s: State<AccountId>, call: Call<AccountId>): State<AccountId> {
    match call
    case Dispatch(origin, something, sthElse) => DoSomething(s, origin, something, sthElse).state
    case RuntimeUpgrade => MigrateToStruct(s).state
  }

  /** The state after the host executes `calls` in order. */
  function Run<AccountId>(s: State<AccountId>, calls: seq<Call<AccountId>>): State<AccountId>
    decreases |calls|
  {
    if calls == [] then s else Run(Apply(s, calls[0]), calls[1..])
  }
}
