# Player subgraph projection, modelled in Dafny

The Player mapping of the game's subgraph consumes the log events of the
`Player` contract and projects them into an entity store:

- an immutable audit record for every event, keyed by the transaction hash
  followed by the log index;
- three long-lived aggregates:
  - `Player`, keyed by the decimal player id;
  - `Owner`, keyed by the lower-case hex address;
  - `PendingPlayerCreation`, keyed by the decimal request id.

The model has five modules:

- `Keys` renders the store's keys and proves that each rendering is
  injective. It covers `BigInt.toString`, `Bytes.toHexString`,
  `Bytes.concatI32` and the `"{type}-{index}"` keys of the Name table.
- `Entities` holds the entity and event datatypes. It also holds the pure
  per-player updates: the attribute-enum mapping of a stat swap, and the
  name resolution shared by creation and rename.
- `Projection` gives each handler's effect as a function from one snapshot
  of the store to the next. `Step` routes an event to its handler, and
  `Run` folds a delivered sequence of events. `Obeys` is what every handler
  guarantees: players only appear by creation and never disappear, an event
  rewrites no player but the one it names, an owner's count moves only by
  creation, and the store stays consistent.
- `Properties` proves the lifecycle, counting, audit-trail, replay,
  two-phase-creation and name-resolution properties, over single steps and
  over whole runs.
- `Store` holds the `EntityStore` class. Its handler methods load, mutate
  and save entities in the mapping's own order, and each is proved to leave
  the store in exactly the snapshot its `Projection` function describes.

The mapping reads two things it never writes, and both are parameters here:

- the Name table, as a map from key to value;
- the skin registry's `createOrUpdateSkin`, as a function from (skin index,
  token id) to an optional skin id.

Three behaviours of the code that a reader might not expect, modelled as
written:

- On a name update, a Name lookup that misses keeps the player's previous
  `firstName` or `surname`. It does not leave the field unset.
- On a name update, a `fullName` that cannot be rebuilt keeps its previous
  value. It is not cleared.
- A second `PlayerCreationRequested` for the same request id replaces the
  stored request with a fresh, unfulfilled one.

Strings are judged the way AssemblyScript judges them: a name part or a skin
id counts only when it is present and non-empty (`Entities.Truthy`).

## Model

| member | source | states |
|---|---|---|
| Keys.DecimalString | src/player.ts:201 | the player and request keys are non-empty strings of decimal digits, with no leading zero |
| Keys.DecimalRoundTrip | src/player.ts:201 | parsing a player or request key gives back the id it was rendered from |
| Keys.DecimalStringInjective | src/player.ts:201 | two ids share a Player or PendingPlayerCreation key exactly when they are equal |
| Keys.HexString | src/player.ts:655 | an Owner key is "0x" followed by two lower-case hex digits per address byte |
| Keys.HexDigitsRoundTrip | src/player.ts:655 | the hex digits of an address parse back to the address |
| Keys.HexStringInjective | src/player.ts:655 | two addresses share an Owner key exactly when they are equal |
| Keys.LittleEndianRoundTrip | src/player.ts:61 | the four bytes that `concatI32` appends for a log index decode back to that index |
| Keys.AuditKey | src/player.ts:60-62 | an audit id is the transaction hash followed by four bytes that decode to the log index; a log index beyond the i32 range has no id |
| Keys.AuditKeyInjective | src/player.ts:60-62 | for hashes of one length, two events share an audit id exactly when they share hash and log index |
| Keys.NameKeyInjective | src/player.ts:316-318 | a Name key determines both its type and its index |
| Keys.FirstNameType | src/player.ts:316 | the first-name type is 0 exactly when the index is 1000 or more, and 1 otherwise |
| Keys.FirstNameKey | src/player.ts:316-317 | the first-name key is the type-index key of that type, starting with "0-" or "1-" |
| Keys.SurnameKey | src/player.ts:318 | the surname key "2-" + index is the type-index key of type 2 |
| Keys.FirstNameNotSurname | src/player.ts:474-476 | no first-name key is ever a surname key |
| Keys.NameKeysInjective | src/player.ts:474-476 | distinct indices never share a first-name key, nor a surname key |
| Entities.WithStat | src/player.ts:208-213 | the stat the enum value names (0 strength … 5 luck) takes the new value; values past 5 change nothing; all other fields are kept |
| Entities.AttributesSwapped | src/player.ts:208-220 | the increase stat takes its value, the decrease stat takes its own unless both name the same stat (then the increase wins); other stats and fields are kept |
| Entities.WithNames | src/player.ts:311-342 | a Name hit sets the field and a miss keeps it; fullName becomes "first surname" only when both parts are non-empty, and is otherwise kept; nothing but names changes |
| Entities.WithNamesIdempotent | src/player.ts:470-500 | resolving names twice gives what resolving once gives |
| Entities.NamesIndependentOfHistory | src/player.ts:470-500 | when both lookups hit, the resulting names depend only on the indices and the table, not on the player's previous names |
| Projection.WithOwner | src/player.ts:654-668 | getOrCreateOwner keeps every existing owner and adds the address's key, with 0/0/0 counters when it was missing |
| Projection.OnAttributeSwapAwarded | src/player.ts:57-76 | writes the audit record; the owner, created if missing, has its swap charges overwritten with the event's total; nothing else changes |
| Projection.OnNameChangeAwarded | src/player.ts:130-149 | writes the audit record; the owner, created if missing, has its name-change charges overwritten with the event's total; nothing else changes |
| Projection.OnPlayerCreationRequested | src/player.ts:365-395 | writes the audit record; gets or creates the requester's Owner; stores an unfulfilled request with no player id under the request key, replacing any earlier one |
| Projection.NewPlayer | src/player.ts:290-351 | a new Player has the event's indices and stats, no flags, zero counters, both timestamps from the block, and the creating transaction; a Name hit sets firstName or surname and a miss leaves it unset; fullName is "first surname" when both parts are non-empty and unset otherwise; the default skin (0, 1) is applied only when non-empty |
| Projection.OnPlayerCreationComplete | src/player.ts:261-363 | writes the audit record; the owner's totalPlayers goes up by one and other owners are kept; the Player is saved under its id; a pending request with the event's request id becomes fulfilled with the player id, and with no such request the pending records are unchanged |
| Projection.OnPlayerAttributesSwapped | src/player.ts:182-225 | writes the audit record; an existing player gets the swapped stats and the block timestamp; a missing player, and every other entity, is left alone |
| Projection.OnPlayerAttributesUpdated | src/player.ts:227-259 | writes the audit record; an existing player's six stats become the event's and its timestamp the block's, with nothing else changed; a missing player is left alone |
| Projection.OnPlayerImmortalityChanged | src/player.ts:397-420 | writes the audit record; an existing player's isImmortal and timestamp are overwritten; a missing player is left alone |
| Projection.OnPlayerKillUpdated | src/player.ts:422-444 | writes the audit record; an existing player's kills (an absolute count) and timestamp are overwritten; a missing player is left alone |
| Projection.OnPlayerNameUpdated | src/player.ts:446-504 | writes the audit record; an existing player's indices and timestamp are overwritten and its names re-resolved as at creation; a missing player is left alone |
| Projection.OnPlayerRetired | src/player.ts:506-527 | writes the audit record; an existing player's isRetired and timestamp are overwritten, and the Player stays; a missing player is left alone |
| Projection.OnPlayerSkinEquipped | src/player.ts:529-573 | writes the audit record; the skin and timestamp change only when the player exists and the resolver returns a non-empty id; otherwise the player is unchanged |
| Projection.OnPlayerWinLossUpdated | src/player.ts:593-617 | writes the audit record; an existing player's wins, losses and timestamp are overwritten; a missing player is left alone |
| Projection.CreationCounts | src/player.ts:285-288 | a creation adds exactly one to its owner's totalPlayers and changes no other owner's count |
| Projection.CreationKeepsConsistent | src/player.ts:261-363 | creation keeps every entity under its own key, and keeps every Player pointing at an existing Owner |
| Projection.Step | src/player.ts:57-649 | every handler, including the eight audit-only ones, saves the event's audit record under its id |
| Projection.StepObeys | src/player.ts:182-617 | any event: players appear only by creation and never disappear; no player but the one named is rewritten; totalPlayers moves only by a creation's single increment; owners and pending requests are never removed; consistency is kept |
| Projection.SwapAwardedObeys | src/player.ts:57-76 | AttributeSwapAwarded keeps every rule of `Obeys` |
| Projection.NameChangeAwardedObeys | src/player.ts:130-149 | NameChangeAwarded keeps every rule of `Obeys` |
| Projection.CreationRequestedObeys | src/player.ts:365-395 | PlayerCreationRequested keeps every rule of `Obeys` |
| Projection.CreationCompleteObeys | src/player.ts:261-363 | PlayerCreationComplete keeps every rule of `Obeys`, creating exactly its own player and crediting exactly its own owner |
| Projection.AttributesSwappedObeys | src/player.ts:182-225 | PlayerAttributesSwapped keeps every rule of `Obeys` |
| Projection.AttributesUpdatedObeys | src/player.ts:227-259 | PlayerAttributesUpdated keeps every rule of `Obeys` |
| Projection.ImmortalityChangedObeys | src/player.ts:397-420 | PlayerImmortalityChanged keeps every rule of `Obeys` |
| Projection.KillUpdatedObeys | src/player.ts:422-444 | PlayerKillUpdated keeps every rule of `Obeys` |
| Projection.NameUpdatedObeys | src/player.ts:446-504 | PlayerNameUpdated keeps every rule of `Obeys` |
| Projection.RetiredObeys | src/player.ts:506-527 | PlayerRetired keeps every rule of `Obeys`; retiring never removes a Player |
| Projection.SkinEquippedObeys | src/player.ts:529-573 | PlayerSkinEquipped keeps every rule of `Obeys` |
| Projection.WinLossUpdatedObeys | src/player.ts:593-617 | PlayerWinLossUpdated keeps every rule of `Obeys` |
| Projection.AuditOnlyObeys | src/player.ts:78-92 | the eight audit-only handlers keep every rule of `Obeys`, because they change only the audit log |
| Properties.RunKeepsConsistent | src/player.ts:286-292 | after any sequence of events, every entity sits under its own key and every Player's owner exists |
| Properties.NothingRemoved | src/player.ts:506-527 | no sequence of events removes a Player, an Owner or a pending request |
| Properties.StepCreatesOnly | src/player.ts:290 | after one event, a player exists exactly when it existed before or the event is its creation |
| Properties.MissingPlayerUntouched | src/player.ts:201-202 | an event other than creation whose player is missing leaves the players exactly as they were |
| Properties.PlayerExistsIffCreated | src/player.ts:290 | after a run, a player exists exactly when it existed at the start or the run contains its creation |
| Properties.StepCountsCreation | src/player.ts:285-288 | one event adds 1 to an owner's totalPlayers when it is a creation for that owner, and 0 otherwise |
| Properties.TotalPlayersCountsCreations | src/player.ts:285-288 | after a run, an owner's totalPlayers is its starting count plus the number of creations for it, replays included |
| Properties.AuditKeptUnlessRewritten | src/player.ts:60-71 | an audit record is kept by every later event with a different audit id |
| Properties.AuditTrailComplete | src/player.ts:60-71 | for a delivery of distinct log entries, every event's audit record is in the final store under its own id |
| Properties.AttributeSwapAwardedIdempotent | src/player.ts:57-76 | delivering AttributeSwapAwarded twice leaves the store as once |
| Properties.NameChangeAwardedIdempotent | src/player.ts:130-149 | delivering NameChangeAwarded twice leaves the store as once |
| Properties.CreationRequestedIdempotent | src/player.ts:365-395 | delivering PlayerCreationRequested twice leaves the store as once |
| Properties.AttributesSwappedIdempotent | src/player.ts:182-225 | delivering PlayerAttributesSwapped twice leaves the store as once |
| Properties.AttributesUpdatedIdempotent | src/player.ts:227-259 | delivering PlayerAttributesUpdated twice leaves the store as once |
| Properties.ImmortalityChangedIdempotent | src/player.ts:397-420 | delivering PlayerImmortalityChanged twice leaves the store as once |
| Properties.KillUpdatedIdempotent | src/player.ts:422-444 | delivering PlayerKillUpdated twice leaves the store as once |
| Properties.NameUpdatedIdempotent | src/player.ts:446-504 | delivering PlayerNameUpdated twice leaves the store as once |
| Properties.RetiredIdempotent | src/player.ts:506-527 | delivering PlayerRetired twice leaves the store as once |
| Properties.SkinEquippedIdempotent | src/player.ts:529-573 | delivering PlayerSkinEquipped twice leaves the store as once |
| Properties.WinLossUpdatedIdempotent | src/player.ts:593-617 | delivering PlayerWinLossUpdated twice leaves the store as once |
| Properties.CreationReplayCountsTwice | src/player.ts:285-288 | a replayed PlayerCreationComplete rebuilds the same Player and pending records but counts the owner's player twice |
| Properties.RequestThenComplete | src/player.ts:356-362 | a request followed by the completion with the same request id leaves that request fulfilled, with the player id, the requester and the request's timestamp |
| Properties.CompleteWithoutRequest | src/player.ts:356-362 | a completion without a tracked request leaves the pending records unchanged and still creates the Player |
| Properties.RenameToCreationIndices | src/player.ts:470-500 | renaming a fresh player to its creation indices reproduces the names creation resolved |
| Store.EntityStore.RecordEvent | src/player.ts:78-92 | saves the event's audit record under its id and changes nothing else |
| Store.EntityStore.GetOrCreateOwner | src/player.ts:654-668 | returns the Owner under the address's hex key, first saving a 0/0/0 Owner when there was none; nothing else changes |
| Store.EntityStore.ResolveNames | src/player.ts:311-342 | the two Name lookups and the fullName rule produce exactly `WithNames` |
| Store.EntityStore.HandleAttributeSwapAwarded | src/player.ts:57-76 | leaves the store exactly as `OnAttributeSwapAwarded` describes |
| Store.EntityStore.HandleNameChangeAwarded | src/player.ts:130-149 | leaves the store exactly as `OnNameChangeAwarded` describes |
| Store.EntityStore.HandlePlayerCreationRequested | src/player.ts:365-395 | leaves the store exactly as `OnPlayerCreationRequested` describes |
| Store.EntityStore.HandlePlayerCreationComplete | src/player.ts:261-363 | leaves the store exactly as `OnPlayerCreationComplete` describes |
| Store.EntityStore.HandlePlayerAttributesSwapped | src/player.ts:182-225 | the two if-chains over the enum leave the store exactly as `OnPlayerAttributesSwapped` describes |
| Store.EntityStore.HandlePlayerAttributesUpdated | src/player.ts:227-259 | leaves the store exactly as `OnPlayerAttributesUpdated` describes |
| Store.EntityStore.HandlePlayerImmortalityChanged | src/player.ts:397-420 | leaves the store exactly as `OnPlayerImmortalityChanged` describes |
| Store.EntityStore.HandlePlayerKillUpdated | src/player.ts:422-444 | leaves the store exactly as `OnPlayerKillUpdated` describes |
| Store.EntityStore.HandlePlayerNameUpdated | src/player.ts:446-504 | leaves the store exactly as `OnPlayerNameUpdated` describes |
| Store.EntityStore.HandlePlayerRetired | src/player.ts:506-527 | leaves the store exactly as `OnPlayerRetired` describes |
| Store.EntityStore.HandlePlayerSkinEquipped | src/player.ts:529-573 | leaves the store exactly as `OnPlayerSkinEquipped` describes |
| Store.EntityStore.HandlePlayerWinLossUpdated | src/player.ts:593-617 | leaves the store exactly as `OnPlayerWinLossUpdated` describes |

## Left out

- Logging (`log.info`, `log.warning`) has no effect on the store and is not modelled.
- The skin registry (`createOrUpdateSkin`) is reduced to the skin id it returns. The Skin entities it writes are not modelled. `src/skin-registry.ts` is not part of this model.
- The Name table is read-only here. The mapping that fills it is not part of this model, nor is the imported but unused `updatePlayerNames`.
- `findMatchingPendingCreation` is never called, so it is not modelled.
- Projection.OnPlayerCreationRequested: a save replaces the stored entity. The indexing host merges the fields a save sets onto the stored entity. So when a request is repeated after it was fulfilled, the host would keep the old `playerId`, while the model clears it.
- Projection.OnPlayerCreationComplete: again, a save replaces the stored entity. So when a creation is repeated and a Name or skin lookup now misses, the host would keep the old value, while the model leaves the field unset.
- Projection.OnPlayerCreationComplete: `totalPlayers` is an unbounded natural. The 32-bit wrap-around after 2^31 - 1 creations for one owner is not modelled.
- Entities.Event: a log index beyond the i32 range makes `toI32` abort the handler. The model makes it a precondition (`Event.Valid`) and does not model the abort.
- Entities.Address: the 20-byte length of an address is not enforced. Every lemma holds for any length.
- Numbers: the contract's unsigned integers are naturals, without their 256-bit bound.
- Audit records keep the event's parameters as one value, not as the flat columns of the schema. For example, the permissions struct of GameContractPermissionsUpdated is not split into five columns.
- The host's routing of events to handlers (the subgraph manifest) is stated only as the pure function `Projection.Step`. No store-level dispatch method is modelled.
- Not modelled: the host's delivery order, chain reorganisations, store failures, and the atomicity of one handler's writes.
