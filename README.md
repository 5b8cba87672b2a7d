# Showdown client core in Dafny

This project models the two pieces of a Pokémon Showdown bot client that carry logic:

- **The move normaliser** (`Move` in `src/environment/move.py`). It turns a raw move name into a catalogue key. It rejects Z-moves that are missing from the catalogue. It copies the scalar fields of the catalogue record. It then sorts each secondary-effect record into `boosts`, `auto_boosts` or `secondaries`.
- **The network side of a player** (`PlayerNetwork` in `src/players/base_classes/player_network.py`). It splits each inbound message on `|` and dispatches it by type. It keeps the `logged_in` and `waiting_start` flags, builds the outbound `room|message[|message_2]` frames, runs the login handshake, and guards `challenge` and `accept_challenge`.

Layout:

- `wrappers.dfy`: `Option`, `Result` and `Outcome`, which stand in for absent JSON keys, `None` arguments and exceptions.
- `text.dfy`: the Python string operations the code relies on (`startswith`, substring `in`, `split("|")`, `"|".join`, `lower`), with their round-trip lemmas.
- `move_names.dfy`: name normalisation.
- `move_effects.dfy`: the raw catalogue records and what building a move from one means, as functions (`ApplyEffect`, `ApplyAll`, `Build`, `Resolution`). It also holds the lemmas about them.
- `moves.dfy`: the `Move` class. `Resolve` is `__init__`. It fills the fields one by one. Its `AddSecondary` updates the three tables in place, with loops over the boost entries. Each method is proved against the functions of `move_effects.dfy`.
- `player_network.dfy`: the `Dispatch` function, frame construction, and the `PlayerNetwork` class.

The catalogue `MOVES` is an immutable `map<string, RawRecord>` argument. A JSON key that may be missing is an `Option` field. A missing key gives `MissingField(key)`, which is the source's `KeyError`. The websocket is replaced by the ghost frame log `sent`. The login POST is replaced by the ghost log `logins` of posted forms. The battle handler is replaced by the ghost log `forwarded` of the messages handed to it.

Behaviour of the code worth knowing, which the model follows:

- Boost keys outside the initial six (`atk`, `spa`, …) are added to `boosts` and `auto_boosts`, not dropped. See `BoostEffect`.
- `status` is checked before `volatileStatus`. A present `status` that is not a known secondary stops the classification: `volatileStatus` is never examined. See `StatusEffect`.
- A raw numeric accuracy is copied unchanged. The code does not clamp it to 0–100.
- No avatar command is sent after login. `change_avatar` is called without `await`, so its coroutine never runs.
- `challenge` returns silently before login. It raises for a missing player or format only when logged in.
- Auto-accepting a challenge also requires `can_accept_challenge`.
- A second resolution of the same name is not always identical. See "## Findings".

## Model

| member | source | states |
|---|---|---|
| `Text.Contains` | src/players/base_classes/player_network.py:119 | a substring is never longer than the string holding it |
| `Text.ContainsIff` | src/players/base_classes/player_network.py:119 | `Contains(s, p)` holds exactly when `p` occurs at some index of `s` |
| `Text.Split` | src/players/base_classes/player_network.py:108 | `split("\|")` yields at least one field, and no field holds a separator |
| `Text.JoinSplit` | src/players/base_classes/player_network.py:108 | joining the fields of a split with `\|` gives back the message |
| `Text.SplitJoin` | src/players/base_classes/player_network.py:137-140 | splitting a join of separator-free fields gives back exactly those fields |
| `Text.SplitWithoutPipe` | src/players/base_classes/player_network.py:108 | a message without `\|` splits into itself alone |
| `Text.Join` | src/players/base_classes/player_network.py:137-140 | `"\|".join` puts a separator in its result exactly when there are two or more parts, or the single part holds one |
| `Text.Lower` | src/environment/move.py:77 | the lowercased type has the same length, keeps every non-capital, maps each ASCII capital to its small letter, and holds no capital |
| `MoveNames.Strip` | src/environment/move.py:29 | the stripped name holds no `-`, `'` or space and is no longer than the raw name |
| `MoveNames.StripAppend` | src/environment/move.py:29 | stripping works character by character: it distributes over concatenation |
| `MoveNames.StripClean` | src/environment/move.py:29 | every character other than the three is kept, in order: a clean name strips to itself |
| `MoveNames.StripIdempotent` | src/environment/move.py:29 | stripping a stripped name changes nothing |
| `MoveNames.Normalize` | src/environment/move.py:29-31 | the key is clean, and is the stripped name or that name less at most its last two characters |
| `MoveNames.HiddenPowerVariantsCollapse` | src/environment/move.py:30-31 | every `hiddenpower…<x><digit>` variant of a clean base collapses to the base; a base not ending in a digit is its own key |
| `MoveNames.NormalizeOutsideFamily` | src/environment/move.py:30-31 | outside the `hiddenpower` family the key is exactly the stripped name |
| `MoveEffects.InitialTable` | src/environment/move.py:49-64 | `boosts` and `auto_boosts` start with exactly `tox`, `psn`, `slp`, `par`, `brn`, `frz`, each at `(0, 0)` |
| `MoveEffects.Overwrite` | src/environment/move.py:85-87 | after the loop every listed stat maps to `(val, chance)`, including new keys; every other key keeps its value |
| `MoveEffects.OverwriteStep` | src/environment/move.py:85-87 | writing one more stat in the loop extends the overwrite so far by exactly that stat |
| `MoveEffects.AccuracyOf` | src/environment/move.py:37-41 | a boolean accuracy is stored as 100, a number as itself |
| `MoveEffects.RecordStatus` | src/environment/move.py:88-97 | a known status gets `secondaries[s] = chance`, raising `KeyError('chance')` exactly when `chance` is absent; an unknown one changes nothing; the boost tables are never touched |
| `MoveEffects.ApplyEffect` | src/environment/move.py:83-107 | `add_secondary` raises `KeyError('chance')` exactly when `chance` is absent and a branch reads it: a non-empty `boosts`, a known `status` or `volatileStatus`, a non-empty `self.boosts`, or an unrecognised record; it raises nothing else and never removes a key from either boost table |
| `MoveEffects.LeftBehind` | src/environment/move.py:104-105 | after the call, an unrecognised effect record is the same record without `chance`; a recognised one is returned unchanged; a well-formed record stays well-formed |
| `MoveEffects.ApplyAll` | src/environment/move.py:70-72 | a list of effects fails only with `KeyError('chance')` and never removes a boost key |
| `MoveEffects.AppliedEffects` | src/environment/move.py:67-72 | a present, truthy `secondary` contributes exactly itself and a null, false or empty one nothing; otherwise every element of `secondaries`, in order; neither key means no effects |
| `MoveEffects.Build` | src/environment/move.py:36-77 | building succeeds exactly when all eight read keys are present and the effects apply; every failure is a missing key; a built move has the given name, the stored accuracy, the record's base power, category, pp, priority, flags and target, the tables the effects produce and the lowercased type |
| `MoveEffects.Resolution` | src/environment/move.py:28-77 | a resolved move is stored under, and named by, the normalised key; a key missing from the catalogue fails with `ZMoveException` or the lookup's `KeyError` |
| `MoveEffects.MissingNames` | src/environment/move.py:33-38 | a key not in the catalogue that starts with `z` raises `ZMoveException`; any other missing key fails at the first lookup; a present key fails only on a missing field |
| `MoveEffects.ResolvedAccuracy` | src/environment/move.py:37-41 | the accuracy is 100 for a boolean raw accuracy (either value) and the raw number otherwise |
| `MoveEffects.NoEffectsKeepsInitialTables` | src/environment/move.py:49-77 | with no effect applied, both boost tables are the six keys at `(0, 0)`, `secondaries` is empty, the type is the lowercased raw type and the name is the key |
| `MoveEffects.SecondaryTakesPrecedence` | src/environment/move.py:67-72 | a present `secondary` key makes `secondaries` irrelevant, and a null, false or empty one adds nothing |
| `MoveEffects.SingleStatusSecondary` | src/environment/move.py:67-69 | a single `secondary` with a known status (for example `brn` at chance 10) is applied: `secondaries` is exactly that status at that chance and both boost tables keep their six zero entries |
| `MoveEffects.ApplyAllConcat` | src/environment/move.py:70-72 | applying `a + b` applies `a`, then `b` from where `a` left off, stopping at the first error |
| `MoveEffects.AppliedInListOrder` | src/environment/move.py:70-72 | an element appended to `secondaries` is applied last, to the tables the earlier ones produced |
| `MoveEffects.ResolvedTablesKeepInitialKeys` | src/environment/move.py:49-64 | every resolved move still has the six initial keys in both boost tables |
| `MoveEffects.BoostEffect` | src/environment/move.py:85-87 | a `boosts` effect writes `(val, chance)` for every listed stat, adding keys beyond the six, and leaves every other key, `auto_boosts` and `secondaries` unchanged |
| `MoveEffects.StatusEffect` | src/environment/move.py:88-92 | without `boosts`, a known `status` records its chance, an unknown one changes nothing, and `volatileStatus` is never looked at |
| `MoveEffects.VolatileStatusEffect` | src/environment/move.py:93-97 | a known `volatileStatus` records its chance, an unknown one changes nothing |
| `MoveEffects.SelfEffectBoosts` | src/environment/move.py:98-103 | a `self` record with boosts writes them to `auto_boosts` with the outer chance; one without boosts changes nothing |
| `MoveEffects.UnrecognisedEffect` | src/environment/move.py:104-107 | an effect with none of the recognised keys leaves all three tables unchanged and loses `chance`, or raises when it has none |
| `MoveEffects.ReapplyAfterPopFails` | src/environment/move.py:70-72 | after the pops, applying a list that held an unrecognised effect raises `KeyError('chance')` |
| `MoveEffects.LeftBehindRecord` | src/environment/move.py:104-105 | after one successful resolution, the catalogue record differs only in the effect records that were applied, each of which is what `add_secondary` left behind; a record with no applied effect is unchanged |
| `MoveEffects.ReresolveFailsAsWritten` | src/environment/move.py:104-105 | as written, building a move again from the record it left in the catalogue raises `KeyError('chance')` |
| `Moves.Move.constructor` | src/environment/move.py:36-66 | the scalar copies, and both boost tables and `secondaries` at their initial values |
| `Moves.Move.WriteBoosts` | src/environment/move.py:85-87 | the in-place loop leaves the chosen table equal to `Overwrite` of the old one, or unchanged when `chance` is missing; the other tables are untouched |
| `Moves.Move.RecordSecondary` | src/environment/move.py:88-97 | `secondaries[s] = chance` for a known status; an unknown one changes nothing |
| `Moves.Move.AddSecondary` | src/environment/move.py:83-107 | the new tables are `ApplyEffect` of the old ones, or unchanged on the error; scalars are untouched; the record left behind is `LeftBehind(e)` |
| `Moves.Move.AddSecondaries` | src/environment/move.py:70-72 | the loop over `secondaries` leaves the tables equal to `ApplyAll` of the old ones, or stops with the same `KeyError`; scalars are untouched |
| `Moves.Move.Resolve` | src/environment/move.py:28-77 | `Move(raw)` fails exactly when `Resolution` does, with the same error; on success the new move's state is `Resolution(catalogue, raw)` |
| `Moves.ResolveTwice` | src/environment/move.py:28-77 | two resolutions of one name against the unchanged catalogue agree: both fail with one error, or both build distinct moves with equal state |
| `Network.Frame` | src/players/base_classes/player_network.py:137-140 | the frame is `room\|message`, with `\|message_2` appended only for a truthy `message_2` |
| `Network.FrameGrammar` | src/players/base_classes/player_network.py:137-140 | a frame of separator-free parts splits back into exactly `[room, message]` or `[room, message, message_2]` |
| `Network.Dispatch` | src/players/base_classes/player_network.py:108-132 | `IndexError` exactly when the branch taken reads a missing field; `challstr` with its two tokens only for a `challstr` type; the login branch only for an `updateuser` naming the player; the challenge branch only for a type containing `updatechallenges`, with its payload; the battle branch only for a `>battle` room no earlier branch claims; the ignore branch only for a listed type outside battle rooms; the unmanaged branch only for a type no branch names, outside battle rooms |
| `Network.AcceptedUsers` | src/players/base_classes/player_network.py:121-125 | only challengers in the configured format are accepted, in the order received, and no more users than challenges |
| `Network.AcceptedUsersComplete` | src/players/base_classes/player_network.py:121-125 | every challenger in the configured format is accepted |
| `Network.AcceptedUsersDistinct` | src/players/base_classes/player_network.py:121-125 | challengers with distinct names (the keys of `challengesFrom`) are each accepted once: the accepted list has no duplicates |
| `Network.AcceptedUsersConcat` | src/players/base_classes/player_network.py:121-125 | accepted users keep the order of the challenges: a concatenation of challenge lists accepts the concatenation of their accepted lists |
| `Network.WebsocketAddress` | src/players/base_classes/player_network.py:164-166 | the address is `ws://` + server + `/showdown/websocket`, and the server can be read back from it |
| `Network.NoPipeFailsAtIndexing` | src/players/base_classes/player_network.py:108-111 | a message without `\|` fails at indexing |
| `Network.ChallstrMessage` | src/players/base_classes/player_network.py:111-113 | `room\|challstr\|A\|B` takes the challstr branch with tokens `A` and `B`, in any room |
| `Network.ShortChallstrFails` | src/players/base_classes/player_network.py:111-112 | `room\|challstr` and `room\|challstr\|A` raise `IndexError` when the tokens are unpacked |
| `Network.ShortChallstrFields` | src/players/base_classes/player_network.py:111-112 | a `challstr` field list with fewer than four fields raises `IndexError` |
| `Network.BattleForwarded` | src/players/base_classes/player_network.py:127-128 | a message in a `>battle` room goes to the battle handler unless it is `challstr`, the player's own `updateuser`, or a type containing `updatechallenges` |
| `Network.IgnoredOutsideBattle` | src/players/base_classes/player_network.py:129-130 | `updatesearch` and `popup` outside a battle room are dropped |
| `Network.UnmanagedOtherwise` | src/players/base_classes/player_network.py:131-132 | outside a battle room, a type that is not `challstr`, not on the ignore list and does not contain `updatechallenges` is reported as unmanaged |
| `Network.OwnUpdateUserFields` | src/players/base_classes/player_network.py:117-118 | an `updateuser` field list naming the player is the login branch |
| `Network.OwnUpdateUserMessage` | src/players/base_classes/player_network.py:117-118 | `room\|updateuser\|<own name>\|…` takes the login branch, even in a battle room |
| `Network.OtherUpdateUserIgnored` | src/players/base_classes/player_network.py:129-130 | `updateuser` for another name falls through to the ignore list outside battle rooms |
| `Network.UpdateChallengesMessage` | src/players/base_classes/player_network.py:119-120 | `room\|updatechallenges\|P` hands payload `P` to the challenge branch, in any room |
| `Network.PlayerNetwork.constructor` | src/players/base_classes/player_network.py:36-45 | a new player is neither logged in nor waiting for a start, and has sent nothing |
| `Network.PlayerNetwork.Create` | src/players/base_classes/player_network.py:31-43 | construction fails exactly when the authentication address is missing; otherwise both flags start false |
| `Network.PlayerNetwork.LoggedIn` | src/players/base_classes/player_network.py:151-153 | reports the login flag; no method below ever sets it back to false |
| `Network.PlayerNetwork.SendMessage` | src/players/base_classes/player_network.py:134-144 | exactly one frame, `room\|message[\|message_2]`, is appended; flags are unchanged |
| `Network.PlayerNetwork.LogIn` | src/players/base_classes/player_network.py:47-68 | one login form with `challstr = conf_1 + "%7C" + conf_2`, then exactly one frame `\|/trn <user>,0,<assertion>` and no avatar frame |
| `Network.PlayerNetwork.AcceptChallenge` | src/players/base_classes/player_network.py:70-73 | when the player can accept: `waiting_start` is set and `\|/accept <user>` sent; otherwise nothing changes |
| `Network.PlayerNetwork.LeaveBattle` | src/players/base_classes/player_network.py:75-76 | exactly the frame `<battle_tag>\|/leave` is sent |
| `Network.PlayerNetwork.Challenge` | src/players/base_classes/player_network.py:78-90 | before login nothing happens; after login, `\|/challenge <player>, <format>` is sent, or `ValueError` is raised with nothing sent when either is missing |
| `Network.PlayerNetwork.AcceptChallengers` | src/players/base_classes/player_network.py:119-125 | one accept frame per challenger in the configured format, in order, when the player can accept; `waiting_start` is set exactly when one was sent |
| `Network.PlayerNetwork.ManageMessage` | src/players/base_classes/player_network.py:104-132 | exactly the `Dispatch` branch runs: the handshake, the login flag (monotone), the accepts, or forwarding to the battle handler; every other branch and every error changes nothing |

## Left out

- Loading `data/moves.json` at import: this is file I/O. The catalogue is an argument.
- `Move.__repr__`: it only formats text for display.
- Dynamic typing of the JSON: each key is modelled with the type the catalogue uses. A `null` `boosts` or `self` value, which would raise `AttributeError` or `TypeError`, is not modelled.
- `Text.Lower`: handles ASCII letters only. Python's `str.lower` also maps non-ASCII capitals. Move types in the catalogue are ASCII.
- `Network.PlayerNetwork.ManageMessage`: takes `can_accept_challenge` as one value for the whole message. The source reads the subclass property again before each accept, and its value may change between accepts. The subclass is not part of this model.
- `listen`, `should_die` and the websocket connection: the receive loop is I/O. Sent frames are kept in the ghost log `sent`.
- `requests.post` and the JSON decoding of its response and of the `updatechallenges` payload: these are foreign calls. Their decoded results (`assertion`, the `challengesFrom` pairs) are parameters. A malformed payload's `ValueError` is not modelled.
- The `asyncio.Lock` around sends: it only serialises concurrent writers. Each call appends exactly one whole frame.
- `change_avatar`: its only call site does not await it, so it sends nothing. No avatar frame is modelled.
- `self.battle(message)`: an external handler. The model only records that the message was forwarded.
- Console output (`print` diagnostics and `log_messages_in_console`): logging only.
- `src/environment/players/random_random_battle.py` and `src/main.py`: random move choice over a `Battle` object that is not part of this model, and process orchestration.

## Findings

| source | as written | input that shows it | evidently intended | confidence | as-written member | corrected member |
|---|---|---|---|---|---|---|
| src/environment/move.py:104-105 | `effect.pop('chance')` removes `chance` from the effect dictionary, and that dictionary is the global catalogue's own record | a catalogue record with `"secondaries": [{"chance": 30}]`, or `"secondary": {"chance": 30, "dustproof": true}`: the first `Move(name)` succeeds and the second raises `KeyError('chance')` | building a move leaves the catalogue untouched, so resolving a name again gives an equal move | high; not executed | `MoveEffects.ReresolveFailsAsWritten` | `Moves.ResolveTwice` |

In the model, the catalogue is an immutable value. `AddSecondary` reports the record it would leave behind (`rest`), and `Resolve` discards it.
