/**
 * What the projection promises across events: players are created only by
 * PlayerCreationComplete and never removed, the owner's player count counts
 * completions, every audit record survives, every handler but creation can be
 * replayed harmlessly, the two phases of creation correlate by request id, and
 * name resolution agrees between creation and rename.
 */
module Properties {
  import opened Keys
  import opened Entities
  import opened Projection

  // ---------------------------------------------------------------------------
  // Referential consistency of the store
  // ---------------------------------------------------------------------------

  /** Consistency of the store (see `Projection.Consistent`) survives any sequence of events. */
  lemma {:induction false} RunKeepsConsistent(env: Env, s: State, evs: seq<Event>)
    requires AllValid(evs) && Consistent(s)
    ensures Consistent(Run(env, s, evs))
    decreases |evs|
  {
    if evs != [] {
      StepObeys(env, s, evs[0]);
      RunKeepsConsistent(env, Step(env, s, evs[0]), evs[1..]);
    }
  }

  // ---------------------------------------------------------------------------
  // Player lifecycle: absent -> active, never back
  // ---------------------------------------------------------------------------

  predicate Creates(ev: Event, playerId: nat) {
    ev.params.PlayerCreationComplete? && ev.params.playerId == playerId
  }

  /** No sequence of events removes a Player, an Owner or a pending request. */
  lemma {:induction false} NothingRemoved(env: Env, s: State, evs: seq<Event>)
    requires AllValid(evs)
    ensures var r := Run(env, s, evs);
      s.players.Keys <= r.players.Keys && s.owners.Keys <= r.owners.Keys &&
      s.pending.Keys <= r.pending.Keys
    decreases |evs|
  {
    if evs != [] {
      StepObeys(env, s, evs[0]);
      NothingRemoved(env, Step(env, s, evs[0]), evs[1..]);
    }
  }

  /** One event makes player `playerId` exist only if it is that player's creation. */
  lemma StepCreatesOnly(env: Env, s: State, ev: Event, playerId: nat)
    requires ev.Valid()
    ensures DecimalString(playerId) in Step(env, s, ev).players <==>
            DecimalString(playerId) in s.players || Creates(ev, playerId)
  {
    StepObeys(env, s, ev);
    if ev.params.PlayerCreationComplete? {
      DecimalStringInjective(ev.params.playerId, playerId);
    }
    assert Step(env, s, ev).players.Keys == s.players.Keys + CreatedPlayers(ev);
  }

  /**
   * Every handler but creation is a no-op on the players when the player it
   * names does not exist: nothing is created under that id and no other
   * Player is rewritten.
   */
  lemma MissingPlayerUntouched(env: Env, s: State, ev: Event)
    requires ev.Valid() && !ev.params.PlayerCreationComplete?
    requires forall id :: id in Touched(ev) ==> id !in s.players
    ensures Step(env, s, ev).players == s.players
  {
    StepObeys(env, s, ev);
    var r := Step(env, s, ev);
    assert r.players.Keys == s.players.Keys;
  }

  /**
   * From an empty store, a Player exists exactly when a PlayerCreationComplete
   * for its id has been processed.
   */
  lemma {:induction false} PlayerExistsIffCreated(env: Env, s: State, evs: seq<Event>, playerId: nat)
    requires AllValid(evs)
    ensures DecimalString(playerId) in Run(env, s, evs).players <==>
            DecimalString(playerId) in s.players || exists i :: 0 <= i < |evs| && Creates(evs[i], playerId)
    decreases |evs|
  {
    if evs != [] {
      var s1 := Step(env, s, evs[0]);
      StepCreatesOnly(env, s, evs[0], playerId);
      PlayerExistsIffCreated(env, s1, evs[1..], playerId);
      if exists i :: 0 <= i < |evs[1..]| && Creates(evs[1..][i], playerId) {
        var i :| 0 <= i < |evs[1..]| && Creates(evs[1..][i], playerId);
        assert Creates(evs[i + 1], playerId);
      }
      if exists i :: 0 <= i < |evs| && Creates(evs[i], playerId) {
        var i :| 0 <= i < |evs| && Creates(evs[i], playerId);
        if i > 0 {
          assert Creates(evs[1..][i - 1], playerId);
        }
      }
    }
  }

  // ---------------------------------------------------------------------------
  // Owner.totalPlayers counts creations
  // ---------------------------------------------------------------------------

  /** How many of `evs` are PlayerCreationComplete events for `owner`. */
  function CreationsFor(evs: seq<Event>, owner: Address): nat {
    if evs == [] then 0
    else (if evs[0].params.PlayerCreationComplete? && evs[0].params.owner == owner then 1 else 0)
         + CreationsFor(evs[1..], owner)
  }

  lemma StepCountsCreation(env: Env, s: State, ev: Event, owner: Address)
    requires ev.Valid()
    ensures TotalPlayers(Step(env, s, ev), HexString(owner)) ==
            TotalPlayers(s, HexString(owner)) +
            (if ev.params.PlayerCreationComplete? && ev.params.owner == owner then 1 else 0)
  {
    StepObeys(env, s, ev);
    if ev.params.PlayerCreationComplete? {
      HexStringInjective(ev.params.owner, owner);
    }
    assert TotalPlayers(Step(env, s, ev), HexString(owner)) ==
           TotalPlayers(s, HexString(owner)) + Credit(ev, HexString(owner));
  }

  /**
   * An owner's `totalPlayers` grows by exactly the number of creations for it:
   * from an empty store it equals that number, and a replayed creation is
   * counted again.
   */
  lemma {:induction false} TotalPlayersCountsCreations(env: Env, s: State, evs: seq<Event>, owner: Address)
    requires AllValid(evs)
    ensures TotalPlayers(Run(env, s, evs), HexString(owner)) ==
            TotalPlayers(s, HexString(owner)) + CreationsFor(evs, owner)
    decreases |evs|
  {
    if evs != [] {
      StepCountsCreation(env, s, evs[0], owner);
      TotalPlayersCountsCreations(env, Step(env, s, evs[0]), evs[1..], owner);
    }
  }

  // ---------------------------------------------------------------------------
  // The audit log is append-only
  // ---------------------------------------------------------------------------

  /** Transaction hashes are 32 bytes. */
  const HashLength: nat := 32

  /** Distinct log entries: no two events share transaction hash and log index. */
  predicate DistinctLogEntries(evs: seq<Event>) {
    (forall i :: 0 <= i < |evs| ==> |evs[i].meta.txHash| == HashLength) &&
    (forall i, j :: 0 <= i < j < |evs| ==>
       evs[i].meta.txHash != evs[j].meta.txHash || evs[i].meta.logIndex != evs[j].meta.logIndex)
  }

  lemma {:induction false} AuditKeptUnlessRewritten(env: Env, s: State, evs: seq<Event>, key: seq<Byte>)
    requires AllValid(evs) && key in s.audits
    requires forall i :: 0 <= i < |evs| ==> AuditId(evs[i]) != key
    ensures key in Run(env, s, evs).audits && Run(env, s, evs).audits[key] == s.audits[key]
    decreases |evs|
  {
    if evs != [] {
      assert AuditId(evs[0]) != key;
      AuditKeptUnlessRewritten(env, Step(env, s, evs[0]), evs[1..], key);
    }
  }

  /**
   * When the host delivers distinct log entries, every event's audit record is
   * in the store at the end, under its own id, unchanged.
   */
  lemma {:induction false} AuditTrailComplete(env: Env, s: State, evs: seq<Event>)
    requires AllValid(evs) && DistinctLogEntries(evs)
    ensures forall i :: 0 <= i < |evs| ==>
      AuditId(evs[i]) in Run(env, s, evs).audits &&
      Run(env, s, evs).audits[AuditId(evs[i])] == RecordOf(evs[i])
    decreases |evs|
  {
    if evs != [] {
      var s1 := Step(env, s, evs[0]);
      var rest := evs[1..];
      DistinctTail(evs);
      AuditTrailComplete(env, s1, rest);
      FirstIdNotRepeated(evs);
      AuditKeptUnlessRewritten(env, s1, rest, AuditId(evs[0]));
      forall i | 1 <= i < |evs|
        ensures AuditId(evs[i]) in Run(env, s, evs).audits &&
                Run(env, s, evs).audits[AuditId(evs[i])] == RecordOf(evs[i])
      {
        assert evs[i] == rest[i - 1];
      }
    }
  }

  lemma DistinctTail(evs: seq<Event>)
    requires evs != [] && DistinctLogEntries(evs)
    ensures DistinctLogEntries(evs[1..])
  {
    var rest := evs[1..];
    forall i, j | 0 <= i < j < |rest|
      ensures rest[i].meta.txHash != rest[j].meta.txHash || rest[i].meta.logIndex != rest[j].meta.logIndex
    {
      assert rest[i] == evs[i + 1] && rest[j] == evs[j + 1];
    }
  }

  /** No later entry of a distinct delivery reuses the first entry's audit id. */
  lemma FirstIdNotRepeated(evs: seq<Event>)
    requires evs != [] && AllValid(evs) && DistinctLogEntries(evs)
    ensures forall i :: 1 <= i < |evs| ==> AuditId(evs[i]) != AuditId(evs[0])
  {
    forall i | 1 <= i < |evs|
      ensures AuditId(evs[i]) != AuditId(evs[0])
    {
      AuditKeyInjective(evs[i].meta.txHash, evs[i].meta.logIndex, evs[0].meta.txHash, evs[0].meta.logIndex);
    }
  }

  // ---------------------------------------------------------------------------
  // Replay
  // ---------------------------------------------------------------------------

  /**
   * Delivering any event other than PlayerCreationComplete a second time
   * leaves the store as the first delivery left it: those handlers only
   * overwrite. One lemma per handler.
   */
  lemma AttributeSwapAwardedIdempotent(s: State, ev: Event)
    requires ev.Valid() && ev.params.AttributeSwapAwarded?
    ensures OnAttributeSwapAwarded(OnAttributeSwapAwarded(s, ev), ev) == OnAttributeSwapAwarded(s, ev)
  {
  }

  lemma NameChangeAwardedIdempotent(s: State, ev: Event)
    requires ev.Valid() && ev.params.NameChangeAwarded?
    ensures OnNameChangeAwarded(OnNameChangeAwarded(s, ev), ev) == OnNameChangeAwarded(s, ev)
  {
  }

  lemma CreationRequestedIdempotent(s: State, ev: Event)
    requires ev.Valid() && ev.params.PlayerCreationRequested?
    ensures OnPlayerCreationRequested(OnPlayerCreationRequested(s, ev), ev) == OnPlayerCreationRequested(s, ev)
  {
  }

  lemma AttributesSwappedIdempotent(s: State, ev: Event)
    requires ev.Valid() && ev.params.PlayerAttributesSwapped?
    ensures OnPlayerAttributesSwapped(OnPlayerAttributesSwapped(s, ev), ev) == OnPlayerAttributesSwapped(s, ev)
  {
  }

  lemma AttributesUpdatedIdempotent(s: State, ev: Event)
    requires ev.Valid() && ev.params.PlayerAttributesUpdated?
    ensures OnPlayerAttributesUpdated(OnPlayerAttributesUpdated(s, ev), ev) == OnPlayerAttributesUpdated(s, ev)
  {
  }

  lemma ImmortalityChangedIdempotent(s: State, ev: Event)
    requires ev.Valid() && ev.params.PlayerImmortalityChanged?
    ensures OnPlayerImmortalityChanged(OnPlayerImmortalityChanged(s, ev), ev) == OnPlayerImmortalityChanged(s, ev)
  {
  }

  lemma KillUpdatedIdempotent(s: State, ev: Event)
    requires ev.Valid() && ev.params.PlayerKillUpdated?
    ensures OnPlayerKillUpdated(OnPlayerKillUpdated(s, ev), ev) == OnPlayerKillUpdated(s, ev)
  {
  }

  lemma NameUpdatedIdempotent(env: Env, s: State, ev: Event)
    requires ev.Valid() && ev.params.PlayerNameUpdated?
    ensures OnPlayerNameUpdated(env, OnPlayerNameUpdated(env, s, ev), ev) == OnPlayerNameUpdated(env, s, ev)
  {
    var e := ev.params;
    var id := DecimalString(e.playerId);
    if id in s.players {
      var p := s.players[id].(firstNameIndex := e.firstNameIndex, surnameIndex := e.surnameIndex,
                              lastUpdatedAt := ev.meta.blockTimestamp);
      var once := OnPlayerNameUpdated(env, s, ev).players[id];
      WithNamesIdempotent(p, env.names);
      assert once.(firstNameIndex := e.firstNameIndex, surnameIndex := e.surnameIndex,
                   lastUpdatedAt := ev.meta.blockTimestamp) == WithNames(p, env.names);
    }
  }

  lemma RetiredIdempotent(s: State, ev: Event)
    requires ev.Valid() && ev.params.PlayerRetired?
    ensures OnPlayerRetired(OnPlayerRetired(s, ev), ev) == OnPlayerRetired(s, ev)
  {
  }

  lemma SkinEquippedIdempotent(env: Env, s: State, ev: Event)
    requires ev.Valid() && ev.params.PlayerSkinEquipped?
    ensures OnPlayerSkinEquipped(env, OnPlayerSkinEquipped(env, s, ev), ev) == OnPlayerSkinEquipped(env, s, ev)
  {
  }

  lemma WinLossUpdatedIdempotent(s: State, ev: Event)
    requires ev.Valid() && ev.params.PlayerWinLossUpdated?
    ensures OnPlayerWinLossUpdated(OnPlayerWinLossUpdated(s, ev), ev) == OnPlayerWinLossUpdated(s, ev)
  {
  }

  /**
   * The one path that is not replay-safe: a replayed PlayerCreationComplete
   * rebuilds the same Player and fulfils the same request, but counts the
   * player twice.
   */
  lemma CreationReplayCountsTwice(env: Env, s: State, ev: Event)
    requires ev.Valid() && ev.params.PlayerCreationComplete?
    ensures var once := OnPlayerCreationComplete(env, s, ev);
      var twice := OnPlayerCreationComplete(env, once, ev);
      var oid := HexString(ev.params.owner);
      TotalPlayers(twice, oid) == TotalPlayers(s, oid) + 2 &&
      twice.players == once.players && twice.pending == once.pending
  {
  }

  // ---------------------------------------------------------------------------
  // Two-phase creation
  // ---------------------------------------------------------------------------

  /**
   * A request followed by the completion with the same request id leaves the
   * pending record fulfilled, carrying the player id, the requester and the
   * request's timestamp.
   */
  lemma RequestThenComplete(env: Env, s: State, request: Event, complete: Event)
    requires request.Valid() && request.params.PlayerCreationRequested?
    requires complete.Valid() && complete.params.PlayerCreationComplete?
    requires request.params.requestId == complete.params.requestId
    ensures var pending := OnPlayerCreationComplete(env, OnPlayerCreationRequested(s, request), complete).pending;
      var rk := DecimalString(request.params.requestId);
      rk in pending &&
      pending[rk] == PendingPlayerCreation(request.params.requester, true,
                                           Some(complete.params.playerId), request.meta.blockTimestamp)
  {
  }

  /**
   * A completion whose request was never seen leaves the pending records
   * alone and still creates the Player.
   */
  lemma CompleteWithoutRequest(env: Env, s: State, complete: Event)
    requires complete.Valid() && complete.params.PlayerCreationComplete?
    requires DecimalString(complete.params.requestId) !in s.pending
    ensures OnPlayerCreationComplete(env, s, complete).pending == s.pending
    ensures DecimalString(complete.params.playerId) in OnPlayerCreationComplete(env, s, complete).players
  {
  }

  // ---------------------------------------------------------------------------
  // Name resolution agrees between creation and rename
  // ---------------------------------------------------------------------------

  /**
   * Renaming a just-created player to the indices it was created with leaves
   * its names as creation resolved them.
   */
  lemma RenameToCreationIndices(env: Env, s: State, complete: Event, rename: Event)
    requires complete.Valid() && complete.params.PlayerCreationComplete?
    requires rename.Valid() && rename.params.PlayerNameUpdated?
    requires rename.params.playerId == complete.params.playerId
    requires rename.params.firstNameIndex == complete.params.firstNameIndex
    requires rename.params.surnameIndex == complete.params.surnameIndex
    ensures var id := DecimalString(complete.params.playerId);
      var created := OnPlayerCreationComplete(env, s, complete);
      var renamed := OnPlayerNameUpdated(env, created, rename).players[id];
      renamed.firstName == created.players[id].firstName &&
      renamed.surname == created.players[id].surname &&
      renamed.fullName == created.players[id].fullName
  {
    var id := DecimalString(complete.params.playerId);
    var created := OnPlayerCreationComplete(env, s, complete).players[id];
    var e := complete.params;
    var ts := complete.meta.blockTimestamp;
    var blank := Player(e.playerId, HexString(e.owner), e.firstNameIndex, e.surnameIndex,
                        e.strength, e.constitution, e.size, e.agility, e.stamina, e.luck,
                        None, None, None, false, false, 0, 0, 0, None, ts, ts, complete.meta.txHash);
    WithNamesIdempotent(blank, env.names);
  }
}
