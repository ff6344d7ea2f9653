/**
 * The pallet's persistent state: the record type, the version marker, and the one storage
 * key `TemplateModule::Something` that the current item (`Option<SomeStruct>`) and the
 * deprecated item (`Option<u32>`) both read and write.
 */
module Storage {
  import opened Wrappers

  /** Rust's `u32`. */
  newtype u32 = x: int | 0 <= x < 0x1_0000_0000

  /** The current (second) schema of the record. Field order is the declaration order. */
  datatype SomeStruct = SomeStruct(sthElse: bool, something: u32)

  /** The persisted schema marker `PalletVersion`. */
  datatype StorageVersion = V1_u32 | V2_SomeStruct

  /**
   * The raw content of the shared key `TemplateModule::Something`: nothing, a value written
   * under the first schema (a bare `u32`), or a value written under the current schema.
   */
  datatype Slot = Empty | Legacy(value: u32) | Current(record: SomeStruct)

  /** The pallet's one event, `SomethingStored(something, who)`. */
  datatype Event<AccountId> = SomethingStored(something: u32, who: AccountId)

  /** The one error the pallet's calls can return (raised by `ensure_signed`). */
  datatype DispatchError = BadOrigin

  /** A migration cost as abstract counts of storage reads and writes. */
  datatype Weight = Weight(dbReads: nat, dbWrites: nat)

  const NoWeight := Weight(0, 0)

  /**
   * Everything the pallet's two entry points touch: the shared key, the marker as stored
   * (`None` when it was never written) and the events deposited so far.
   */
  datatype State<AccountId> = State(slot: Slot, palletVersion: Option<StorageVersion>, events: seq<Event<AccountId>>)

  /** Storage where nothing was ever written. */
  function Fresh<AccountId>(): State<AccountId> {
    State(Empty, None, [])
  }

  /** `PalletVersion::get()`: the stored marker, or the declared default `V1_u32`. */
  function Version<AccountId>(s: State<AccountId>): StorageVersion {
    s.palletVersion.UnwrapOr(V1_u32)
  }

  /** The SCALE byte of a `bool`. */
  function BoolByte(b: bool): (r: int)
    ensures 0 <= r < 0x100
  {
    if b then 1 else 0
  }

  /**
   * `Something::get()` on the current schema. A first-schema value is four bytes, too short for
   * the five-byte `SomeStruct`, so the storage layer fails to decode it and yields nothing.
   */
  function CurrentView(slot: Slot): (r: Option<SomeStruct>)
  {
    match slot
    case Current(record) => Some(record)
    case _ => None
  }

  /**
   * `deprecated::Something::get()`: the shared key read as `Option<u32>`. A current-schema value
   * is read from its first four bytes (the storage layer ignores trailing bytes): the `bool` byte,
   * then the low three bytes of `something`, little-endian.
   */
  function LegacyView(slot: Slot): (r: Option<u32>)
    ensures r.None? <==> slot.Empty?
    ensures slot.Legacy? ==> r == Some(slot.value)
    ensures slot.Current? ==> r.value as int % 0x100 == BoolByte(slot.record.sthElse)
  {
    match slot
    case Empty => None
    case Legacy(v) => Some(v)
    case Current(record) =>
      Some((BoolByte(record.sthElse) + (record.something as int % 0x100_0000) * 0x100) as u32)
  }

  /** The marker names the schema of whatever is stored under the shared key. */
  predicate MarkerAgrees<AccountId>(s: State<AccountId>) {
    match Version(s)
    case V1_u32 => !s.slot.Current?
    case V2_SomeStruct => !s.slot.Legacy?
  }

  /** `ensure_signed`: a signed origin yields its signer; any other origin is `BadOrigin`. */
  function EnsureSigned<AccountId>(origin: Option<AccountId>): (r: Result<AccountId, DispatchError>)
  {
    match origin
    case Some(who) => Ok(who)
    case None => Err(BadOrigin)
  }
}
