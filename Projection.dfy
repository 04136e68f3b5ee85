/**
 * The effect of each Player-contract handler on the entity store, as pure
 * functions of a snapshot of the store. The handler methods of
 * `Store.EntityStore` are proved to produce exactly these snapshots; the
 * lemmas of `Properties` are stated over them.
 */
module Projection {
  import opened Keys
  import opened Entities

  /** The entity store as the Player mapping sees it. */
  datatype State = State(
    players: map<string, Player>,
    owners: map<string, Owner>,
    pending: map<string, PendingPlayerCreation>,
    audits: map<seq<Byte>, AuditRecord>)

  const Empty: State := State(map[], map[], map[], map[])

  /**
   * What the mapping reads but never writes: the Name table (populated by
   * another mapping) and `createOrUpdateSkin`, reduced to the id it returns.
   */
  datatype Env = Env(names: map<string, string>, resolveSkin: (nat, nat) -> Option<string>)

  /** The owner's player count, 0 for an address with no Owner yet. */
  function TotalPlayers(s: State, id: string): nat {
    if id in s.owners then s.owners[id].totalPlayers else 0
  }

  /** The first step of every handler: save the event's audit record. */
  function Recorded(s: State, ev: Event): State
    requires ev.Valid()
  {
    s.(audits := s.audits[AuditId(ev) := RecordOf(ev)])
  }

  /** The owners after `getOrCreateOwner(address)`. */
  function WithOwner(owners: map<string, Owner>, address: Address): (r: map<string, Owner>)
    ensures r.Keys == owners.Keys + {HexString(address)}
    ensures forall k :: k in owners ==> r[k] == owners[k]
    ensures HexString(address) !in owners ==> r[HexString(address)] == Owner(address, 0, 0, 0)
  {
    var id := HexString(address);
    if id in owners then owners else owners[id := NewOwner(address)]
  }

  /** The state is unchanged apart from the audit log and, when present, the player `id`. */
  predicate PlayerOnly(s: State, r: State, id: string) {
    r.owners == s.owners && r.pending == s.pending &&
    (id in s.players ==> id in r.players && r.players == s.players[id := r.players[id]]) &&
    (id !in s.players ==> r.players == s.players)
  }

  /** The Owner that `getOrCreateOwner(address)` hands back. */
  function OwnerOf(s: State, address: Address): Owner {
    var id := HexString(address);
    if id in s.owners then s.owners[id] else NewOwner(address)
  }

  // ---------------------------------------------------------------------------
  // Owner ledger handlers
  // ---------------------------------------------------------------------------

  /** AttributeSwapAwarded: the owner's swap charges become the event's total. */
  function OnAttributeSwapAwarded(s: State, ev: Event): (r: State)
    requires ev.Valid() && ev.params.AttributeSwapAwarded?
    ensures r.audits == s.audits[AuditId(ev) := RecordOf(ev)]
    ensures r.players == s.players && r.pending == s.pending
    ensures var id := HexString(ev.params.to);
      r.owners.Keys == s.owners.Keys + {id} &&
      (forall k :: k in s.owners && k != id ==> r.owners[k] == s.owners[k]) &&
      r.owners[id] == OwnerOf(s, ev.params.to).(attributeSwapCharges := ev.params.totalCharges)
  {
    var s1 := Recorded(s, ev);
    var owners := WithOwner(s1.owners, ev.params.to);
    var id := HexString(ev.params.to);
    s1.(owners := owners[id := owners[id].(attributeSwapCharges := ev.params.totalCharges)])
  }

  /** NameChangeAwarded: the owner's name-change charges become the event's total. */
  function OnNameChangeAwarded(s: State, ev: Event): (r: State)
    requires ev.Valid() && ev.params.NameChangeAwarded?
    ensures r.audits == s.audits[AuditId(ev) := RecordOf(ev)]
    ensures r.players == s.players && r.pending == s.pending
    ensures var id := HexString(ev.params.to);
      r.owners.Keys == s.owners.Keys + {id} &&
      (forall k :: k in s.owners && k != id ==> r.owners[k] == s.owners[k]) &&
      r.owners[id] == OwnerOf(s, ev.params.to).(nameChangeCharges := ev.params.totalCharges)
  {
    var s1 := Recorded(s, ev);
    var owners := WithOwner(s1.owners, ev.params.to);
    var id := HexString(ev.params.to);
    s1.(owners := owners[id := owners[id].(nameChangeCharges := ev.params.totalCharges)])
  }

  // ---------------------------------------------------------------------------
  // Two-phase creation
  // ---------------------------------------------------------------------------

  /**
   * PlayerCreationRequested: the requester gets an Owner if it had none, and a
   * fresh unfulfilled PendingPlayerCreation replaces whatever was stored under
   * the request id.
   */
  function OnPlayerCreationRequested(s: State, ev: Event): (r: State)
    requires ev.Valid() && ev.params.PlayerCreationRequested?
    ensures r.audits == s.audits[AuditId(ev) := RecordOf(ev)]
    ensures r.players == s.players
    ensures r.owners == WithOwner(s.owners, ev.params.requester)
    ensures var rk := DecimalString(ev.params.requestId);
      r.pending == s.pending[rk := PendingPlayerCreation(ev.params.requester, false, None,
                                                         ev.meta.blockTimestamp)]
  {
    var s1 := Recorded(s, ev);
    var s2 := s1.(owners := WithOwner(s1.owners, ev.params.requester));
    var pendingCreation := PendingPlayerCreation(ev.params.requester, false, None, ev.meta.blockTimestamp);
    s2.(pending := s2.pending[DecimalString(ev.params.requestId) := pendingCreation])
  }

  /**
   * The Player that PlayerCreationComplete saves: the event's indices and
   * stats, no flags, zero counters, both timestamps the block's, names resolved
   * from a blank record, and the default skin (index 0, token 1) when the
   * resolver yields a non-empty id.
   */
  function NewPlayer(env: Env, ev: Event, ownerId: string): (p: Player)
    requires ev.params.PlayerCreationComplete?
    ensures p.playerId == ev.params.playerId && p.owner == ownerId
    ensures !p.isRetired && !p.isImmortal && p.wins == 0 && p.losses == 0 && p.kills == 0
    ensures p.createdAt == p.lastUpdatedAt == ev.meta.blockTimestamp
    ensures p.creationTx == ev.meta.txHash
    ensures p.firstNameIndex == ev.params.firstNameIndex && p.surnameIndex == ev.params.surnameIndex
    ensures StatsOf(p) == [ev.params.strength, ev.params.constitution, ev.params.size,
                           ev.params.agility, ev.params.stamina, ev.params.luck]
    ensures p.currentSkin == if Truthy(env.resolveSkin(0, 1)) then env.resolveSkin(0, 1) else None
    ensures p.firstName == if FirstNameKey(p.firstNameIndex) in env.names
                           then Some(env.names[FirstNameKey(p.firstNameIndex)]) else None
    ensures p.surname == if SurnameKey(p.surnameIndex) in env.names
                         then Some(env.names[SurnameKey(p.surnameIndex)]) else None
    ensures p.fullName == if Truthy(p.firstName) && Truthy(p.surname)
                          then Some(p.firstName.value + " " + p.surname.value) else None
  {
    var e := ev.params;
    var ts := ev.meta.blockTimestamp;
    var blank := Player(e.playerId, ownerId, e.firstNameIndex, e.surnameIndex,
                        e.strength, e.constitution, e.size, e.agility, e.stamina, e.luck,
                        None, None, None, false, false, 0, 0, 0, None, ts, ts, ev.meta.txHash);
    var named := WithNames(blank, env.names);
    var defaultSkinId := env.resolveSkin(0, 1);
    if Truthy(defaultSkinId) then named.(currentSkin := defaultSkinId) else named
  }

  /**
   * PlayerCreationComplete: the owner's player count goes up by one, the
   * Player is (re)built under its id, and a pending request with the event's
   * request id, if any, is marked fulfilled with the player id.
   */
  function OnPlayerCreationComplete(env: Env, s: State, ev: Event): (r: State)
    requires ev.Valid() && ev.params.PlayerCreationComplete?
    ensures r.audits == s.audits[AuditId(ev) := RecordOf(ev)]
    ensures var oid := HexString(ev.params.owner);
      r.owners.Keys == s.owners.Keys + {oid} &&
      (forall k :: k in s.owners && k != oid ==> r.owners[k] == s.owners[k]) &&
      r.owners[oid] == OwnerOf(s, ev.params.owner).(totalPlayers := TotalPlayers(s, oid) + 1)
    ensures r.players == s.players[DecimalString(ev.params.playerId) :=
                                   NewPlayer(env, ev, HexString(ev.params.owner))]
    ensures var rk := DecimalString(ev.params.requestId);
      r.pending == if rk in s.pending
                   then s.pending[rk := s.pending[rk].(fulfilled := true, playerId := Some(ev.params.playerId))]
                   else s.pending
  {
    var e := ev.params;
    var s1 := Recorded(s, ev);
    var owners := WithOwner(s1.owners, e.owner);
    var oid := HexString(e.owner);
    var s2 := s1.(owners := owners[oid := owners[oid].(totalPlayers := owners[oid].totalPlayers + 1)]);
    var s3 := s2.(players := s2.players[DecimalString(e.playerId) := NewPlayer(env, ev, oid)]);
    var rk := DecimalString(e.requestId);
    if rk in s3.pending
    then s3.(pending := s3.pending[rk := s3.pending[rk].(fulfilled := true, playerId := Some(e.playerId))])
    else s3
  }

  // ---------------------------------------------------------------------------
  // Player projection: every other handler is a no-op on a missing player
  // ---------------------------------------------------------------------------

  /** PlayerAttributesSwapped: the two stats named by the enums, then the timestamp. */
  function OnPlayerAttributesSwapped(s: State, ev: Event): (r: State)
    requires ev.Valid() && ev.params.PlayerAttributesSwapped?
    ensures r.audits == s.audits[AuditId(ev) := RecordOf(ev)]
    ensures var id := DecimalString(ev.params.playerId);
      PlayerOnly(s, r, id) &&
      (id in s.players ==>
        r.players[id] == AttributesSwapped(s.players[id], ev.params.decreaseAttribute,
                                           ev.params.increaseAttribute, ev.params.newDecreaseValue,
                                           ev.params.newIncreaseValue).(lastUpdatedAt := ev.meta.blockTimestamp))
  {
    var e := ev.params;
    var s1 := Recorded(s, ev);
    var id := DecimalString(e.playerId);
    if id in s1.players then
      var player := AttributesSwapped(s1.players[id], e.decreaseAttribute, e.increaseAttribute,
                                      e.newDecreaseValue, e.newIncreaseValue);
      s1.(players := s1.players[id := player.(lastUpdatedAt := ev.meta.blockTimestamp)])
    else s1
  }

  /** PlayerAttributesUpdated: all six stats become the event's, only they and the timestamp. */
  function OnPlayerAttributesUpdated(s: State, ev: Event): (r: State)
    requires ev.Valid() && ev.params.PlayerAttributesUpdated?
    ensures r.audits == s.audits[AuditId(ev) := RecordOf(ev)]
    ensures var id := DecimalString(ev.params.playerId);
      PlayerOnly(s, r, id) &&
      (id in s.players ==>
        StatsOf(r.players[id]) == [ev.params.strength, ev.params.constitution, ev.params.size,
                                   ev.params.agility, ev.params.stamina, ev.params.luck] &&
        SameButStats(r.players[id], s.players[id].(lastUpdatedAt := ev.meta.blockTimestamp)))
  {
    var e := ev.params;
    var s1 := Recorded(s, ev);
    var id := DecimalString(e.playerId);
    if id in s1.players then
      var player := s1.players[id].(strength := e.strength, constitution := e.constitution,
                                    size := e.size, agility := e.agility, stamina := e.stamina,
                                    luck := e.luck, lastUpdatedAt := ev.meta.blockTimestamp);
      s1.(players := s1.players[id := player])
    else s1
  }

  /** PlayerImmortalityChanged: overwrite `isImmortal` and the timestamp. */
  function OnPlayerImmortalityChanged(s: State, ev: Event): (r: State)
    requires ev.Valid() && ev.params.PlayerImmortalityChanged?
    ensures r.audits == s.audits[AuditId(ev) := RecordOf(ev)]
    ensures var id := DecimalString(ev.params.playerId);
      PlayerOnly(s, r, id) &&
      (id in s.players ==>
        r.players[id] == s.players[id].(isImmortal := ev.params.immortal,
                                        lastUpdatedAt := ev.meta.blockTimestamp))
  {
    var s1 := Recorded(s, ev);
    var id := DecimalString(ev.params.playerId);
    if id in s1.players then
      var player := s1.players[id].(isImmortal := ev.params.immortal,
                                    lastUpdatedAt := ev.meta.blockTimestamp);
      s1.(players := s1.players[id := player])
    else s1
  }

  /** PlayerKillUpdated: overwrite `kills` (an absolute count) and the timestamp. */
  function OnPlayerKillUpdated(s: State, ev: Event): (r: State)
    requires ev.Valid() && ev.params.PlayerKillUpdated?
    ensures r.audits == s.audits[AuditId(ev) := RecordOf(ev)]
    ensures var id := DecimalString(ev.params.playerId);
      PlayerOnly(s, r, id) &&
      (id in s.players ==>
        r.players[id] == s.players[id].(kills := ev.params.kills,
                                        lastUpdatedAt := ev.meta.blockTimestamp))
  {
    var s1 := Recorded(s, ev);
    var id := DecimalString(ev.params.playerId);
    if id in s1.players then
      var player := s1.players[id].(kills := ev.params.kills, lastUpdatedAt := ev.meta.blockTimestamp);
      s1.(players := s1.players[id := player])
    else s1
  }

  /**
   * PlayerNameUpdated: the indices and the timestamp are overwritten and the
   * names re-resolved exactly as at creation.
   */
  function OnPlayerNameUpdated(env: Env, s: State, ev: Event): (r: State)
    requires ev.Valid() && ev.params.PlayerNameUpdated?
    ensures r.audits == s.audits[AuditId(ev) := RecordOf(ev)]
    ensures var id := DecimalString(ev.params.playerId);
      PlayerOnly(s, r, id) &&
      (id in s.players ==>
        r.players[id] == WithNames(s.players[id].(firstNameIndex := ev.params.firstNameIndex,
                                                  surnameIndex := ev.params.surnameIndex,
                                                  lastUpdatedAt := ev.meta.blockTimestamp),
                                   env.names))
  {
    var s1 := Recorded(s, ev);
    var id := DecimalString(ev.params.playerId);
    if id in s1.players then
      var player := s1.players[id].(firstNameIndex := ev.params.firstNameIndex,
                                    surnameIndex := ev.params.surnameIndex,
                                    lastUpdatedAt := ev.meta.blockTimestamp);
      s1.(players := s1.players[id := WithNames(player, env.names)])
    else s1
  }

  /** PlayerRetired: overwrite `isRetired` (a flag; the Player stays) and the timestamp. */
  function OnPlayerRetired(s: State, ev: Event): (r: State)
    requires ev.Valid() && ev.params.PlayerRetired?
    ensures r.audits == s.audits[AuditId(ev) := RecordOf(ev)]
    ensures var id := DecimalString(ev.params.playerId);
      PlayerOnly(s, r, id) &&
      (id in s.players ==>
        r.players[id] == s.players[id].(isRetired := ev.params.retired,
                                        lastUpdatedAt := ev.meta.blockTimestamp))
  {
    var s1 := Recorded(s, ev);
    var id := DecimalString(ev.params.playerId);
    if id in s1.players then
      var player := s1.players[id].(isRetired := ev.params.retired, lastUpdatedAt := ev.meta.blockTimestamp);
      s1.(players := s1.players[id := player])
    else s1
  }

  /**
   * PlayerSkinEquipped: only when the player exists and the resolver yields a
   * non-empty id are `currentSkin` and the timestamp overwritten.
   */
  function OnPlayerSkinEquipped(env: Env, s: State, ev: Event): (r: State)
    requires ev.Valid() && ev.params.PlayerSkinEquipped?
    ensures r.audits == s.audits[AuditId(ev) := RecordOf(ev)]
    ensures var id := DecimalString(ev.params.playerId);
      var skinId := env.resolveSkin(ev.params.skinIndex, ev.params.tokenId);
      PlayerOnly(s, r, id) &&
      (id in s.players ==>
        r.players[id] == if Truthy(skinId)
                         then s.players[id].(currentSkin := skinId, lastUpdatedAt := ev.meta.blockTimestamp)
                         else s.players[id])
  {
    var s1 := Recorded(s, ev);
    var skinId := env.resolveSkin(ev.params.skinIndex, ev.params.tokenId);
    var id := DecimalString(ev.params.playerId);
    if id in s1.players && Truthy(skinId) then
      var player := s1.players[id].(currentSkin := skinId, lastUpdatedAt := ev.meta.blockTimestamp);
      s1.(players := s1.players[id := player])
    else s1
  }

  /** PlayerWinLossUpdated: overwrite `wins` and `losses` (absolute counts) and the timestamp. */
  function OnPlayerWinLossUpdated(s: State, ev: Event): (r: State)
    requires ev.Valid() && ev.params.PlayerWinLossUpdated?
    ensures r.audits == s.audits[AuditId(ev) := RecordOf(ev)]
    ensures var id := DecimalString(ev.params.playerId);
      PlayerOnly(s, r, id) &&
      (id in s.players ==>
        r.players[id] == s.players[id].(wins := ev.params.wins, losses := ev.params.losses,
                                        lastUpdatedAt := ev.meta.blockTimestamp))
  {
    var s1 := Recorded(s, ev);
    var id := DecimalString(ev.params.playerId);
    if id in s1.players then
      var player := s1.players[id].(wins := ev.params.wins, losses := ev.params.losses,
                                    lastUpdatedAt := ev.meta.blockTimestamp);
      s1.(players := s1.players[id := player])
    else s1
  }

  // ---------------------------------------------------------------------------
  // What one event may change
  // ---------------------------------------------------------------------------

  /**
   * Every entity sits under the key derived from its own id, and every Player
   * points at an Owner that exists.
   */
  predicate Consistent(s: State) {
    (forall k :: k in s.players ==>
       k == DecimalString(s.players[k].playerId) && s.players[k].owner in s.owners) &&
    (forall k :: k in s.owners ==> k == HexString(s.owners[k].address))
  }

  /** The Player key an event creates: only PlayerCreationComplete creates one. */
  function CreatedPlayers(ev: Event): set<string> {
    if ev.params.PlayerCreationComplete? then {DecimalString(ev.params.playerId)} else {}
  }

  /** What an event adds to the player count stored under Owner key `id`. */
  function Credit(ev: Event, id: string): nat {
    if ev.params.PlayerCreationComplete? && HexString(ev.params.owner) == id then 1 else 0
  }

  /** The Player key an event addresses, for the nine events that carry a player id. */
  function Touched(ev: Event): set<string> {
    var e := ev.params;
    if e.PlayerAttributesSwapped? || e.PlayerAttributesUpdated? || e.PlayerCreationComplete? ||
       e.PlayerImmortalityChanged? || e.PlayerKillUpdated? || e.PlayerNameUpdated? ||
       e.PlayerRetired? || e.PlayerSkinEquipped? || e.PlayerWinLossUpdated?
    then {DecimalString(e.playerId)} else {}
  }

  /**
   * The rules every handler obeys: Players appear only by creation and never
   * disappear, no Player but the one the event names is rewritten,
   * `totalPlayers` moves only by a creation's single increment, and
   * consistency is kept.
   */
  ghost predicate Obeys(s: State, ev: Event, r: State) {
    r.players.Keys == s.players.Keys + CreatedPlayers(ev) &&
    (forall id :: id in s.players && id !in Touched(ev) ==> r.players[id] == s.players[id]) &&
    (forall id :: TotalPlayers(r, id) == TotalPlayers(s, id) + Credit(ev, id)) &&
    s.owners.Keys <= r.owners.Keys && s.pending.Keys <= r.pending.Keys &&
    (Consistent(s) ==> Consistent(r))
  }

  /** A handler that touches one player without moving it obeys the rules. */
  lemma PlayerOnlyObeys(s: State, ev: Event, r: State, id: string)
    requires !ev.params.PlayerCreationComplete? && PlayerOnly(s, r, id)
    requires id in Touched(ev) || r.players == s.players
    requires id in s.players ==>
      r.players[id].playerId == s.players[id].playerId && r.players[id].owner == s.players[id].owner
    ensures Obeys(s, ev, r)
  {
  }

  /** A handler that gets or creates the Owner of `address` and keeps its count obeys the rules. */
  lemma OwnerOnlyObeys(s: State, ev: Event, r: State, address: Address)
    requires !ev.params.PlayerCreationComplete? && r.players == s.players && s.pending.Keys <= r.pending.Keys
    requires var id := HexString(address);
      r.owners.Keys == s.owners.Keys + {id} &&
      (forall k :: k in s.owners && k != id ==> r.owners[k] == s.owners[k]) &&
      r.owners[id].address == OwnerOf(s, address).address &&
      r.owners[id].totalPlayers == TotalPlayers(s, id)
    ensures Obeys(s, ev, r)
  {
    var id := HexString(address);
    forall k | k in r.owners
      ensures Consistent(s) ==> k == HexString(r.owners[k].address)
    {
    }
  }

  lemma CreationObeys(env: Env, s: State, ev: Event)
    requires ev.Valid() && ev.params.PlayerCreationComplete?
    ensures Obeys(s, ev, OnPlayerCreationComplete(env, s, ev))
  {
    CreationCounts(env, s, ev);
    if Consistent(s) {
      CreationKeepsConsistent(env, s, ev);
    }
  }

  lemma CreationCounts(env: Env, s: State, ev: Event)
    requires ev.Valid() && ev.params.PlayerCreationComplete?
    ensures var r := OnPlayerCreationComplete(env, s, ev);
      forall id :: TotalPlayers(r, id) == TotalPlayers(s, id) + Credit(ev, id)
  {
    var r := OnPlayerCreationComplete(env, s, ev);
    var oid := HexString(ev.params.owner);
    forall id
      ensures TotalPlayers(r, id) == TotalPlayers(s, id) + Credit(ev, id)
    {
      if id != oid {
        assert id in r.owners <==> id in s.owners;
      }
    }
  }

  lemma CreationKeepsConsistent(env: Env, s: State, ev: Event)
    requires ev.Valid() && ev.params.PlayerCreationComplete?
    requires Consistent(s)
    ensures Consistent(OnPlayerCreationComplete(env, s, ev))
  {
    var r := OnPlayerCreationComplete(env, s, ev);
    var oid := HexString(ev.params.owner);
    var pid := DecimalString(ev.params.playerId);
    forall k | k in r.players
      ensures k == DecimalString(r.players[k].playerId) && r.players[k].owner in r.owners
    {
      if k != pid {
        assert r.players[k] == s.players[k];
      }
    }
    forall k | k in r.owners
      ensures k == HexString(r.owners[k].address)
    {
      if k != oid {
        assert r.owners[k] == s.owners[k];
      }
    }
  }

  // ---------------------------------------------------------------------------
  // Dispatch
  // ---------------------------------------------------------------------------

  /** The handler the host runs for one event, as the manifest maps events to handlers. */
  function Step(env: Env, s: State, ev: Event): (r: State)
    requires ev.Valid()
    ensures r.audits == s.audits[AuditId(ev) := RecordOf(ev)]
  {
    match ev.params
    case AttributeSwapAwarded(_, _) => OnAttributeSwapAwarded(s, ev)
    case NameChangeAwarded(_, _) => OnNameChangeAwarded(s, ev)
    case PlayerCreationRequested(_, _) => OnPlayerCreationRequested(s, ev)
    case PlayerCreationComplete(_, _, _, _, _, _, _, _, _, _, _, _) => OnPlayerCreationComplete(env, s, ev)
    case PlayerAttributesSwapped(_, _, _, _, _) => OnPlayerAttributesSwapped(s, ev)
    case PlayerAttributesUpdated(_, _, _, _, _, _, _) => OnPlayerAttributesUpdated(s, ev)
    case PlayerImmortalityChanged(_, _, _) => OnPlayerImmortalityChanged(s, ev)
    case PlayerKillUpdated(_, _) => OnPlayerKillUpdated(s, ev)
    case PlayerNameUpdated(_, _, _) => OnPlayerNameUpdated(env, s, ev)
    case PlayerRetired(_, _, _) => OnPlayerRetired(s, ev)
    case PlayerSkinEquipped(_, _, _) => OnPlayerSkinEquipped(env, s, ev)
    case PlayerWinLossUpdated(_, _, _) => OnPlayerWinLossUpdated(s, ev)
    case _ => Recorded(s, ev)
  }

  /**
   * Every handler obeys the rules: creation is the only way in, nothing goes
   * out. One lemma per event kind carries the proof.
   */
  lemma StepObeys(env: Env, s: State, ev: Event)
    requires ev.Valid()
    ensures Obeys(s, ev, Step(env, s, ev))
  {
    match ev.params
    case AttributeSwapAwarded(_, _) => SwapAwardedObeys(env, s, ev);
    case NameChangeAwarded(_, _) => NameChangeAwardedObeys(env, s, ev);
    case PlayerCreationRequested(_, _) => CreationRequestedObeys(env, s, ev);
    case PlayerCreationComplete(_, _, _, _, _, _, _, _, _, _, _, _) => CreationCompleteObeys(env, s, ev);
    case PlayerAttributesSwapped(_, _, _, _, _) => AttributesSwappedObeys(env, s, ev);
    case PlayerAttributesUpdated(_, _, _, _, _, _, _) => AttributesUpdatedObeys(env, s, ev);
    case PlayerImmortalityChanged(_, _, _) => ImmortalityChangedObeys(env, s, ev);
    case PlayerKillUpdated(_, _) => KillUpdatedObeys(env, s, ev);
    case PlayerNameUpdated(_, _, _) => NameUpdatedObeys(env, s, ev);
    case PlayerRetired(_, _, _) => RetiredObeys(env, s, ev);
    case PlayerSkinEquipped(_, _, _) => SkinEquippedObeys(env, s, ev);
    case PlayerWinLossUpdated(_, _, _) => WinLossUpdatedObeys(env, s, ev);
    case _ => AuditOnlyObeys(env, s, ev);
  }

  lemma SwapAwardedObeys(env: Env, s: State, ev: Event)
    requires ev.Valid() && ev.params.AttributeSwapAwarded?
    ensures Obeys(s, ev, Step(env, s, ev))
  {
    OwnerOnlyObeys(s, ev, OnAttributeSwapAwarded(s, ev), ev.params.to);
  }

  lemma NameChangeAwardedObeys(env: Env, s: State, ev: Event)
    requires ev.Valid() && ev.params.NameChangeAwarded?
    ensures Obeys(s, ev, Step(env, s, ev))
  {
    OwnerOnlyObeys(s, ev, OnNameChangeAwarded(s, ev), ev.params.to);
  }

  lemma CreationRequestedObeys(env: Env, s: State, ev: Event)
    requires ev.Valid() && ev.params.PlayerCreationRequested?
    ensures Obeys(s, ev, Step(env, s, ev))
  {
    var r := OnPlayerCreationRequested(s, ev);
    assert Step(env, s, ev) == r;
    OwnerOnlyObeys(s, ev, r, ev.params.requester);
  }

  lemma CreationCompleteObeys(env: Env, s: State, ev: Event)
    requires ev.Valid() && ev.params.PlayerCreationComplete?
    ensures Obeys(s, ev, Step(env, s, ev))
  {
    assert Step(env, s, ev) == OnPlayerCreationComplete(env, s, ev);
    CreationObeys(env, s, ev);
  }

  lemma AttributesSwappedObeys(env: Env, s: State, ev: Event)
    requires ev.Valid() && ev.params.PlayerAttributesSwapped?
    ensures Obeys(s, ev, Step(env, s, ev))
  {
    PlayerOnlyObeys(s, ev, OnPlayerAttributesSwapped(s, ev), DecimalString(ev.params.playerId));
  }

  lemma AttributesUpdatedObeys(env: Env, s: State, ev: Event)
    requires ev.Valid() && ev.params.PlayerAttributesUpdated?
    ensures Obeys(s, ev, Step(env, s, ev))
  {
    PlayerOnlyObeys(s, ev, OnPlayerAttributesUpdated(s, ev), DecimalString(ev.params.playerId));
  }

  lemma ImmortalityChangedObeys(env: Env, s: State, ev: Event)
    requires ev.Valid() && ev.params.PlayerImmortalityChanged?
    ensures Obeys(s, ev, Step(env, s, ev))
  {
    PlayerOnlyObeys(s, ev, OnPlayerImmortalityChanged(s, ev), DecimalString(ev.params.playerId));
  }

  lemma KillUpdatedObeys(env: Env, s: State, ev: Event)
    requires ev.Valid() && ev.params.PlayerKillUpdated?
    ensures Obeys(s, ev, Step(env, s, ev))
  {
    PlayerOnlyObeys(s, ev, OnPlayerKillUpdated(s, ev), DecimalString(ev.params.playerId));
  }

  lemma NameUpdatedObeys(env: Env, s: State, ev: Event)
    requires ev.Valid() && ev.params.PlayerNameUpdated?
    ensures Obeys(s, ev, Step(env, s, ev))
  {
    PlayerOnlyObeys(s, ev, OnPlayerNameUpdated(env, s, ev), DecimalString(ev.params.playerId));
  }

  lemma RetiredObeys(env: Env, s: State, ev: Event)
    requires ev.Valid() && ev.params.PlayerRetired?
    ensures Obeys(s, ev, Step(env, s, ev))
  {
    PlayerOnlyObeys(s, ev, OnPlayerRetired(s, ev), DecimalString(ev.params.playerId));
  }

  lemma SkinEquippedObeys(env: Env, s: State, ev: Event)
    requires ev.Valid() && ev.params.PlayerSkinEquipped?
    ensures Obeys(s, ev, Step(env, s, ev))
  {
    PlayerOnlyObeys(s, ev, OnPlayerSkinEquipped(env, s, ev), DecimalString(ev.params.playerId));
  }

  lemma WinLossUpdatedObeys(env: Env, s: State, ev: Event)
    requires ev.Valid() && ev.params.PlayerWinLossUpdated?
    ensures Obeys(s, ev, Step(env, s, ev))
  {
    PlayerOnlyObeys(s, ev, OnPlayerWinLossUpdated(s, ev), DecimalString(ev.params.playerId));
  }

  lemma AuditOnlyObeys(env: Env, s: State, ev: Event)
    requires ev.Valid() && ev.params.AuditOnly()
    ensures Obeys(s, ev, Step(env, s, ev))
  {
    PlayerOnlyObeys(s, ev, Recorded(s, ev), "");
  }

  predicate AllValid(evs: seq<Event>) {
    forall i :: 0 <= i < |evs| ==> evs[i].Valid()
  }

  /** The store after the host has delivered `evs` in order. */
  function Run(env: Env, s: State, evs: seq<Event>): State
    requires AllValid(evs)
    decreases |evs|
  {
    if evs == [] then s else Run(env, Step(env, s, evs[0]), evs[1..])
  }
}
