/**
 * The entities of the Player mapping: the three long-lived aggregates
 * (Player, Owner, PendingPlayerCreation), the event payloads with their chain
 * provenance, the immutable audit record written for each event, and the
 * pure updates that the handlers apply to one Player.
 */
module Entities {
  import opened Keys

  datatype Option<T> = None | Some(value: T)

  /** An account address as raw bytes. */
  type Address = seq<Byte>

  /**
   * AssemblyScript truthiness of a nullable string: set and non-empty. The
   * source tests names and skin ids this way before using them.
   */
  predicate Truthy(s: Option<string>) {
    s.Some? && |s.value| > 0
  }

  datatype Player = Player(
    playerId: nat,
    owner: string,
    firstNameIndex: nat,
    surnameIndex: nat,
    strength: nat,
    constitution: nat,
    size: nat,
    agility: nat,
    stamina: nat,
    luck: nat,
    firstName: Option<string>,
    surname: Option<string>,
    fullName: Option<string>,
    isRetired: bool,
    isImmortal: bool,
    wins: nat,
    losses: nat,
    kills: nat,
    currentSkin: Option<string>,
    createdAt: nat,
    lastUpdatedAt: nat,
    creationTx: seq<Byte>)

  datatype Owner = Owner(
    address: Address,
    totalPlayers: nat,
    nameChangeCharges: nat,
    attributeSwapCharges: nat)

  datatype PendingPlayerCreation = PendingPlayerCreation(
    requester: Address,
    fulfilled: bool,
    playerId: Option<nat>,
    createdAt: nat)

  /** The parameters of the twenty events the Player contract emits. */
  datatype EventParams =
    | AttributeSwapAwarded(to: Address, totalCharges: nat)
    | CreatePlayerFeeUpdated(oldFee: nat, newFee: nat)
    | EquipmentRequirementsUpdated(oldAddress: Address, newAddress: Address)
    | GameContractPermissionsUpdated(gameContract: Address, record: bool, retire: bool,
                                     name: bool, attributes: bool, immortal: bool)
    | NameChangeAwarded(to: Address, totalCharges: nat)
    | OwnershipTransferred(user: Address, newOwner: Address)
    | PausedStateChanged(isPaused: bool)
    | PlayerAttributesSwapped(playerId: nat, decreaseAttribute: nat, increaseAttribute: nat,
                              newDecreaseValue: nat, newIncreaseValue: nat)
    | PlayerAttributesUpdated(playerId: nat, strength: nat, constitution: nat, size: nat,
                              agility: nat, stamina: nat, luck: nat)
    | PlayerCreationComplete(requestId: nat, playerId: nat, owner: Address, randomness: nat,
                             firstNameIndex: nat, surnameIndex: nat, strength: nat,
                             constitution: nat, size: nat, agility: nat, stamina: nat, luck: nat)
    | PlayerCreationRequested(requestId: nat, requester: Address)
    | PlayerImmortalityChanged(playerId: nat, caller: Address, immortal: bool)
    | PlayerKillUpdated(playerId: nat, kills: nat)
    | PlayerNameUpdated(playerId: nat, firstNameIndex: nat, surnameIndex: nat)
    | PlayerRetired(playerId: nat, caller: Address, retired: bool)
    | PlayerSkinEquipped(playerId: nat, skinIndex: nat, tokenId: nat)
    | PlayerSlotsPurchased(user: Address, slotsAdded: nat, totalSlots: nat, amountPaid: nat)
    | PlayerWinLossUpdated(playerId: nat, wins: nat, losses: nat)
    | RequestedRandomness(round: nat, data: seq<Byte>)
    | SlotBatchCostUpdated(oldCost: nat, newCost: nat)
  {
    /** The events whose handler only writes the audit record. */
    predicate AuditOnly() {
      CreatePlayerFeeUpdated? || EquipmentRequirementsUpdated? || GameContractPermissionsUpdated? ||
      OwnershipTransferred? || PausedStateChanged? || PlayerSlotsPurchased? ||
      RequestedRandomness? || SlotBatchCostUpdated?
    }
  }

  /** Chain provenance supplied by the indexing host with every event. */
  datatype Meta = Meta(blockNumber: nat, blockTimestamp: nat, txHash: seq<Byte>, logIndex: nat)

  datatype Event = Event(meta: Meta, params: EventParams) {
    /** `logIndex.toI32()` succeeds. */
    predicate Valid() {
      meta.logIndex <= MaxI32
    }
  }

  /** The immutable record every handler saves before anything else. */
  datatype AuditRecord = AuditRecord(
    params: EventParams,
    blockNumber: nat,
    blockTimestamp: nat,
    transactionHash: seq<Byte>)

  /** `event.transaction.hash.concatI32(event.logIndex.toI32())`. */
  function AuditId(ev: Event): seq<Byte>
    requires ev.Valid()
  {
    AuditKey(ev.meta.txHash, ev.meta.logIndex)
  }

  function RecordOf(ev: Event): AuditRecord {
    AuditRecord(ev.params, ev.meta.blockNumber, ev.meta.blockTimestamp, ev.meta.txHash)
  }

  /** The Owner that `getOrCreateOwner` saves for an address it has not seen. */
  function NewOwner(address: Address): Owner {
    Owner(address, 0, 0, 0)
  }

  // ---------------------------------------------------------------------------
  // Stats and the attribute enum
  // ---------------------------------------------------------------------------

  /** The six stats in the order of the contract's attribute enum (0 STRENGTH .. 5 LUCK). */
  function StatsOf(p: Player): (s: seq<nat>)
    ensures |s| == 6
  {
    [p.strength, p.constitution, p.size, p.agility, p.stamina, p.luck]
  }

  /** `a` and `b` agree on every field except possibly the six stats. */
  predicate SameButStats(a: Player, b: Player) {
    a.(strength := b.strength, constitution := b.constitution, size := b.size,
       agility := b.agility, stamina := b.stamina, luck := b.luck) == b
  }

  /** One branch chain of the swap handler: the stat the enum names becomes `v`. */
  function WithStat(p: Player, attr: nat, v: nat): (r: Player)
    ensures forall k :: 0 <= k < 6 ==> StatsOf(r)[k] == if k == attr then v else StatsOf(p)[k]
    ensures SameButStats(r, p)
    ensures attr >= 6 ==> r == p
  {
    if attr == 0 then p.(strength := v)
    else if attr == 1 then p.(constitution := v)
    else if attr == 2 then p.(size := v)
    else if attr == 3 then p.(agility := v)
    else if attr == 4 then p.(stamina := v)
    else if attr == 5 then p.(luck := v)
    else p
  }

  /**
   * The stats after an attribute swap: the stat named by `increase` takes
   * `increaseValue` (written second, so it wins when both enums name one stat),
   * the one named by `decrease` takes `decreaseValue`, the others and every
   * other field are kept; enum values beyond 5 select nothing.
   */
  function AttributesSwapped(p: Player, decrease: nat, increase: nat,
                             decreaseValue: nat, increaseValue: nat): (r: Player)
    ensures forall k :: 0 <= k < 6 ==>
      StatsOf(r)[k] == if k == increase then increaseValue
                       else if k == decrease then decreaseValue
                       else StatsOf(p)[k]
    ensures SameButStats(r, p)
    ensures decrease >= 6 && increase >= 6 ==> r == p
  {
    WithStat(WithStat(p, decrease, decreaseValue), increase, increaseValue)
  }

  // ---------------------------------------------------------------------------
  // Name resolution, shared by creation and name update
  // ---------------------------------------------------------------------------

  /** The name fields are the only ones that differ between `a` and `b`. */
  predicate SameButNames(a: Player, b: Player) {
    a.(firstName := b.firstName, surname := b.surname, fullName := b.fullName) == b
  }

  /**
   * Looks the player's indices up in the Name table: a hit sets the field, a
   * miss keeps what the player had; `fullName` is rebuilt only when both parts
   * are then set and non-empty, and kept otherwise.
   */
  function WithNames(p: Player, names: map<string, string>): (r: Player)
    ensures SameButNames(r, p)
    ensures r.firstName == if FirstNameKey(p.firstNameIndex) in names
                           then Some(names[FirstNameKey(p.firstNameIndex)]) else p.firstName
    ensures r.surname == if SurnameKey(p.surnameIndex) in names
                         then Some(names[SurnameKey(p.surnameIndex)]) else p.surname
    ensures r.fullName == if Truthy(r.firstName) && Truthy(r.surname)
                          then Some(r.firstName.value + " " + r.surname.value) else p.fullName
  {
    var firstKey := FirstNameKey(p.firstNameIndex);
    var surnameKey := SurnameKey(p.surnameIndex);
    var p1 := if firstKey in names then p.(firstName := Some(names[firstKey])) else p;
    var p2 := if surnameKey in names then p1.(surname := Some(names[surnameKey])) else p1;
    if Truthy(p2.firstName) && Truthy(p2.surname)
    then p2.(fullName := Some(p2.firstName.value + " " + p2.surname.value))
    else p2
  }

  /** Resolving names a second time changes nothing. */
  lemma WithNamesIdempotent(p: Player, names: map<string, string>)
    ensures WithNames(WithNames(p, names), names) == WithNames(p, names)
  {
  }

  /**
   * When both lookups hit, the resolved names depend only on the indices and
   * the table, not on what the player was called before.
   */
  lemma NamesIndependentOfHistory(p: Player, q: Player, names: map<string, string>)
    requires p.firstNameIndex == q.firstNameIndex && p.surnameIndex == q.surnameIndex
    requires FirstNameKey(p.firstNameIndex) in names && SurnameKey(p.surnameIndex) in names
    requires |names[FirstNameKey(p.firstNameIndex)]| > 0 && |names[SurnameKey(p.surnameIndex)]| > 0
    ensures WithNames(p, names).firstName == WithNames(q, names).firstName
    ensures WithNames(p, names).surname == WithNames(q, names).surname
    ensures WithNames(p, names).fullName == WithNames(q, names).fullName
  {
  }
}
