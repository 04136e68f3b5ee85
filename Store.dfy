/**
 * The Player mapping as it runs: an entity store whose handler methods load,
 * update and save entities step by step, in the order the mapping does. Each
 * handler is proved to leave the store in exactly the snapshot that the
 * matching `Projection` function describes, so every property proved there
 * holds of the running store.
 */
module Store {
  import opened Keys
  import opened Entities
  import opened Projection

  class EntityStore {
    /** Player entities by `playerId.toString()`. */
    var players: map<string, Player>
    /** Owner entities by `address.toHexString()`. */
    var owners: map<string, Owner>
    /** PendingPlayerCreation entities by `requestId.toString()`. */
    var pending: map<string, PendingPlayerCreation>
    /** The immutable per-event records by audit id. */
    var audits: map<seq<Byte>, AuditRecord>
    /** The Name table, written by another mapping and only read here. */
    const names: map<string, string>
    /** `createOrUpdateSkin`, reduced to the skin id it returns. */
    const resolveSkin: (nat, nat) -> Option<string>

    function Snapshot(): State
      reads this
    {
      State(players, owners, pending, audits)
    }

    function Environment(): Env {
      Env(names, resolveSkin)
    }

    /** A store with no entities, reading the given Name table and skin resolver. */
    constructor (names: map<string, string>, resolveSkin: (nat, nat) -> Option<string>)
      ensures Snapshot() == Empty
      ensures Environment() == Env(names, resolveSkin)
    {
      this.names := names;
      this.resolveSkin := resolveSkin;
      players := map[];
      owners := map[];
      pending := map[];
      audits := map[];
    }

    /**
     * The audit record every handler saves first; for the eight audit-only
     * events it is the whole handler.
     */
    method RecordEvent(ev: Event)
      requires ev.Valid()
      modifies this
      ensures audits == old(audits)[AuditId(ev) := RecordOf(ev)]
      ensures players == old(players) && owners == old(owners) && pending == old(pending)
    {
      var id := AuditKey(ev.meta.txHash, ev.meta.logIndex);
      audits := audits[id := RecordOf(ev)];
    }

    /**
     * `getOrCreateOwner`: the Owner stored under the address's hex key, saved
     * first with zero counters when there was none.
     */
    method GetOrCreateOwner(address: Address) returns (id: string, owner: Owner)
      modifies this
      ensures id == HexString(address)
      ensures owners == WithOwner(old(owners), address)
      ensures id in owners && owner == owners[id] && owner == OwnerOf(old(Snapshot()), address)
      ensures players == old(players) && pending == old(pending) && audits == old(audits)
    {
      id := HexString(address);
      if id in owners {
        owner := owners[id];
      } else {
        owner := Owner(address, 0, 0, 0);
        owners := owners[id := owner];
      }
    }

    /**
     * The name lookups shared by creation and name update: a Name entry that
     * exists sets the field, a missing one leaves it; the full name is built
     * only when both parts are then non-empty.
     */
    method ResolveNames(p: Player) returns (r: Player)
      ensures r == WithNames(p, names)
    {
      r := p;
      var firstNameId := FirstNameKey(p.firstNameIndex);
      var surnameId := SurnameKey(p.surnameIndex);
      if firstNameId in names {
        r := r.(firstName := Some(names[firstNameId]));
      }
      if surnameId in names {
        r := r.(surname := Some(names[surnameId]));
      }
      if Truthy(r.firstName) && Truthy(r.surname) {
        r := r.(fullName := Some(r.firstName.value + " " + r.surname.value));
      }
    }

    // -------------------------------------------------------------------------
    // Owner ledger
    // -------------------------------------------------------------------------

    method HandleAttributeSwapAwarded(ev: Event)
      requires ev.Valid() && ev.params.AttributeSwapAwarded?
      modifies this
      ensures Snapshot() == OnAttributeSwapAwarded(old(Snapshot()), ev)
    {
      RecordEvent(ev);
      var id, owner := GetOrCreateOwner(ev.params.to);
      owner := owner.(attributeSwapCharges := ev.params.totalCharges);
      owners := owners[id := owner];
    }

    method HandleNameChangeAwarded(ev: Event)
      requires ev.Valid() && ev.params.NameChangeAwarded?
      modifies this
      ensures Snapshot() == OnNameChangeAwarded(old(Snapshot()), ev)
    {
      RecordEvent(ev);
      var id, owner := GetOrCreateOwner(ev.params.to);
      owner := owner.(nameChangeCharges := ev.params.totalCharges);
      owners := owners[id := owner];
    }

    // -------------------------------------------------------------------------
    // Two-phase creation
    // -------------------------------------------------------------------------

    method HandlePlayerCreationRequested(ev: Event)
      requires ev.Valid() && ev.params.PlayerCreationRequested?
      modifies this
      ensures Snapshot() == OnPlayerCreationRequested(old(Snapshot()), ev)
    {
      RecordEvent(ev);
      var _, _ := GetOrCreateOwner(ev.params.requester);
      var pendingCreation := PendingPlayerCreation(ev.params.requester, false, None, ev.meta.blockTimestamp);
      pending := pending[DecimalString(ev.params.requestId) := pendingCreation];
    }

    method HandlePlayerCreationComplete(ev: Event)
      requires ev.Valid() && ev.params.PlayerCreationComplete?
      modifies this
      ensures Snapshot() == OnPlayerCreationComplete(Environment(), old(Snapshot()), ev)
    {
      var e := ev.params;
      var ts := ev.meta.blockTimestamp;
      RecordEvent(ev);
      var ownerId, owner := GetOrCreateOwner(e.owner);
      owner := owner.(totalPlayers := owner.totalPlayers + 1);
      owners := owners[ownerId := owner];

      var player := Player(e.playerId, ownerId, e.firstNameIndex, e.surnameIndex,
                           e.strength, e.constitution, e.size, e.agility, e.stamina, e.luck,
                           None, None, None, false, false, 0, 0, 0, None, ts, ts, ev.meta.txHash);
      player := ResolveNames(player);
      var defaultSkinId := resolveSkin(0, 1);
      if Truthy(defaultSkinId) {
        player := player.(currentSkin := defaultSkinId);
      }
      players := players[DecimalString(e.playerId) := player];

      var requestKey := DecimalString(e.requestId);
      if requestKey in pending {
        var pendingCreation := pending[requestKey];
        pendingCreation := pendingCreation.(fulfilled := true, playerId := Some(e.playerId));
        pending := pending[requestKey := pendingCreation];
      }
    }

    // -------------------------------------------------------------------------
    // Player projection
    // -------------------------------------------------------------------------

    method HandlePlayerAttributesSwapped(ev: Event)
      requires ev.Valid() && ev.params.PlayerAttributesSwapped?
      modifies this
      ensures Snapshot() == OnPlayerAttributesSwapped(old(Snapshot()), ev)
    {
      var e := ev.params;
      RecordEvent(ev);
      var id := DecimalString(e.playerId);
      if id in players {
        var player := players[id];
        var decreaseAttr, decreaseValue := e.decreaseAttribute, e.newDecreaseValue;
        if decreaseAttr == 0 { player := player.(strength := decreaseValue); }
        else if decreaseAttr == 1 { player := player.(constitution := decreaseValue); }
        else if decreaseAttr == 2 { player := player.(size := decreaseValue); }
        else if decreaseAttr == 3 { player := player.(agility := decreaseValue); }
        else if decreaseAttr == 4 { player := player.(stamina := decreaseValue); }
        else if decreaseAttr == 5 { player := player.(luck := decreaseValue); }
        var increaseAttr, increaseValue := e.increaseAttribute, e.newIncreaseValue;
        if increaseAttr == 0 { player := player.(strength := increaseValue); }
        else if increaseAttr == 1 { player := player.(constitution := increaseValue); }
        else if increaseAttr == 2 { player := player.(size := increaseValue); }
        else if increaseAttr == 3 { player := player.(agility := increaseValue); }
        else if increaseAttr == 4 { player := player.(stamina := increaseValue); }
        else if increaseAttr == 5 { player := player.(luck := increaseValue); }
        player := player.(lastUpdatedAt := ev.meta.blockTimestamp);
        players := players[id := player];
      }
    }

    method HandlePlayerAttributesUpdated(ev: Event)
      requires ev.Valid() && ev.params.PlayerAttributesUpdated?
      modifies this
      ensures Snapshot() == OnPlayerAttributesUpdated(old(Snapshot()), ev)
    {
      var e := ev.params;
      RecordEvent(ev);
      var id := DecimalString(e.playerId);
      if id in players {
        var player := players[id];
        player := player.(strength := e.strength, constitution := e.constitution, size := e.size,
                          agility := e.agility, stamina := e.stamina, luck := e.luck,
                          lastUpdatedAt := ev.meta.blockTimestamp);
        players := players[id := player];
      }
    }

    method HandlePlayerImmortalityChanged(ev: Event)
      requires ev.Valid() && ev.params.PlayerImmortalityChanged?
      modifies this
      ensures Snapshot() == OnPlayerImmortalityChanged(old(Snapshot()), ev)
    {
      RecordEvent(ev);
      var id := DecimalString(ev.params.playerId);
      if id in players {
        var player := players[id];
        player := player.(isImmortal := ev.params.immortal, lastUpdatedAt := ev.meta.blockTimestamp);
        players := players[id := player];
      }
    }

    method HandlePlayerKillUpdated(ev: Event)
      requires ev.Valid() && ev.params.PlayerKillUpdated?
      modifies this
      ensures Snapshot() == OnPlayerKillUpdated(old(Snapshot()), ev)
    {
      RecordEvent(ev);
      var id := DecimalString(ev.params.playerId);
      if id in players {
        var player := players[id];
        player := player.(kills := ev.params.kills, lastUpdatedAt := ev.meta.blockTimestamp);
        players := players[id := player];
      }
    }

    method HandlePlayerNameUpdated(ev: Event)
      requires ev.Valid() && ev.params.PlayerNameUpdated?
      modifies this
      ensures Snapshot() == OnPlayerNameUpdated(Environment(), old(Snapshot()), ev)
    {
      RecordEvent(ev);
      var id := DecimalString(ev.params.playerId);
      if id in players {
        var player := players[id];
        player := player.(firstNameIndex := ev.params.firstNameIndex,
                          surnameIndex := ev.params.surnameIndex,
                          lastUpdatedAt := ev.meta.blockTimestamp);
        player := ResolveNames(player);
        players := players[id := player];
      }
    }

    method HandlePlayerRetired(ev: Event)
      requires ev.Valid() && ev.params.PlayerRetired?
      modifies this
      ensures Snapshot() == OnPlayerRetired(old(Snapshot()), ev)
    {
      RecordEvent(ev);
      var id := DecimalString(ev.params.playerId);
      if id in players {
        var player := players[id];
        player := player.(isRetired := ev.params.retired, lastUpdatedAt := ev.meta.blockTimestamp);
        players := players[id := player];
      }
    }

    method HandlePlayerSkinEquipped(ev: Event)
      requires ev.Valid() && ev.params.PlayerSkinEquipped?
      modifies this
      ensures Snapshot() == OnPlayerSkinEquipped(Environment(), old(Snapshot()), ev)
    {
      RecordEvent(ev);
      var skinId := resolveSkin(ev.params.skinIndex, ev.params.tokenId);
      var id := DecimalString(ev.params.playerId);
      if id in players && Truthy(skinId) {
        var player := players[id];
        player := player.(currentSkin := skinId, lastUpdatedAt := ev.meta.blockTimestamp);
        players := players[id := player];
      }
    }

    method HandlePlayerWinLossUpdated(ev: Event)
      requires ev.Valid() && ev.params.PlayerWinLossUpdated?
      modifies this
      ensures Snapshot() == OnPlayerWinLossUpdated(old(Snapshot()), ev)
    {
      RecordEvent(ev);
      var id := DecimalString(ev.params.playerId);
      if id in players {
        var player := players[id];
        player := player.(wins := ev.params.wins, losses := ev.params.losses,
                          lastUpdatedAt := ev.meta.blockTimestamp);
        players := players[id := player];
      }
    }
  }
}
