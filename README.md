# Combat tracker core in Dafny

This project models the core of a tabletop combat tracker. The dungeon
master (DM) side keeps a roster of combatants: players, whose hit points are
not tracked, and monsters. A turn scheduler walks the roster in initiative
order, one group of tied combatants at a time, and decays timed effects. A
publisher projects the fight into a JSON snapshot, written only when it has
changed. The players' display reads that snapshot, reconciles its list rows
and narrates what changed in a three-line log. A controller turns user
actions (selected rows, typed amounts, state labels) into engine calls. A
factory creates numbered monsters from a bestiary, using a dice formula
parser.

One module per source file:

| module | file | source |
|---|---|---|
| `Wrappers` | wrappers.dfy | `Option`, `Result` and the Python exception kinds |
| `Text` | text.dfy | the Python string built-ins the core relies on: `str.strip`, `str.split()[0]`, `int(str)`, `str(int)`, `html.escape`, `sorted` |
| `Json` | json.dfy | decoded JSON values, `dict.get`, `bool(x)`, `isinstance(x, int)`, `int(x)` |
| `Dice` | dice.dfy | dice_roll.py |
| `Combatants` | combatants.dfy | combatants.py |
| `BattleEngine` | battle_engine.dfy | battle_engine.py |
| `StateExporter` | exporter.dfy | battle_state_exporter.py |
| `PlayerUi` | player_ui.dfy | Pui/player_ui.py |
| `MasterBridge` | qml_bridge.dfy | DMui/qml_parallel_bridge.py |
| `CombatantFactory` | factory.dfy | combatant_factory.py |

## How the model is shaped

- **Combatants, the engine, the publisher, the display state, the list model, the controller and the factory are classes.** Their fields are the attributes the source updates in place, and their methods carry `modifies` frames.
- **The effect bag is split into fields.** A combatant's `effects` dict becomes:
  - `incapacitatedFlag` for `effects["incapacitated"]`;
  - `concentrationEntry` for `effects["concentration"]`, which only `set_state` writes;
  - the map `customEffects`.
- **Ids.**
  - `id(combatant)` is the constant `addr` of each object.
  - The identifier the factory assigns is `factoryId`.
  - The factory's class-level counter `next_id` is the field `nextId` of one `Factory` object.
- **Randomness is an oracle.** `draw(k, s)` is the value of the k-th call of `random.randint(1, s)`, and methods that roll return the next draw number.
- **Time and the file are not modelled directly.**
  - `time.time()` is a parameter of the publisher's tick.
  - The snapshot file is the log `written` of documents written, in order.
  - The display's reading of the file is an optional payload (`None` when the file is unreadable).
- **Stateful methods are proved against specification functions on values.** Lemmas then prove what the source promises about those functions:
  - `SortedRoster` (a stable insertion sort) for `list.sort`;
  - `Runs` for the grouping loop;
  - `Scan` for the turn loop;
  - `Decayed` for effect decay;
  - `Entries` for the projection;
  - `TickStep` for the change gate;
  - `Updated` for `update_state`;
  - `PushAll` for the log;
  - `ValidIndices` and `Select` for selection;
  - `Rolls` and `LoopOutcome` for the monster loop.

### Behaviour as the code has it

The model follows the code as written. These are the places where the code behaves in ways its names or neighbouring code do not suggest:

- **`set_state` clears the wrong concentration entry.** It writes `effects["concentration"] = False`, not the `concentration` attribute. `HasConcentration` and the exporter read the attribute, so a state change does not end concentration (`BattleEngine.Engine.SetState`).
- **The round is reset only after a successful first turn.** `start_combat` does not reset the round before its first advance. It advances first and sets `round = 1` only after an eligible group was found. When every group is incapacitated, `first_group[0]` raises `TypeError`. By then the engine is already in combat and the round has gone up by one (`BattleEngine.Engine.StartCombat`).
- **The round goes up in the call that returns the last group.** The scheduler wraps the cursor right after returning the last group, so `round` increases then, not in the following call (`BattleEngine.Scan`, `BattleEngine.ScanFindsFirstReady`).
- **Custom-effect lines are not gated on a state change.** Only the HP, concentration and incapacitation lines are (`PlayerUi.StateGatesToggles`, `PlayerUi.DamageIsNarrated`).
- **Change suppression needs an equal timestamp.** The payload carries the timestamp, so a second tick writes nothing only when it is given the same timestamp (`StateExporter.RepeatedTick`).
- **`$` also matches before a trailing newline.** In `re.sub(r"\s*\d+$", …)`, a name ending in digits and a newline loses its number too (`StateExporter.TrailingNumberRemoved`).
- **A whitespace-only bestiary "Armor Class" is not caught.** Its `split()[0]` raises `IndexError`, which the `except ValueError` does not catch. It fails the whole `create_monster` call, even when an explicit `ac` is given (`CombatantFactory.ArmorClass`).
- **`create_player` always fails.** See "## Findings".

## Model

| member | source | states |
|---|---|---|
| Combatants.AfterDamage | combatants.py:50-61 | Temp HP absorbs damage first. If temp HP covers the amount, only temp HP falls. If HP falls, temp HP is 0 and HP is hp + temp − amount floored at 0. Non-negative HP stays non-negative. |
| Combatants.AfterHeal | combatants.py:66 | Healed HP never exceeds max HP. It is hp + amount, or max HP when that would be exceeded. |
| Combatants.AfterTemp | combatants.py:71-72 | A grant leaves the larger of the old temp HP and the amount. |
| Combatants.Damaged | combatants.py:47-61 | The damage step on the optional HP: HP that is not tracked (a player) stays untracked. |
| Combatants.Healed | combatants.py:63-66 | The heal step on the optional HP: untracked HP stays untracked. |
| Combatants.DamageConservesTotal | combatants.py:50-61 | After damage, hp + temp HP equals the old total minus the amount, floored at 0. |
| Combatants.TempAbsorbsFirst | combatants.py:50-56 | HP drops only when the amount exceeds temp HP, and temp HP is then exhausted. |
| Combatants.TempGrantsDoNotStack | combatants.py:68-72 | Two grants in a row equal one grant of the larger amount. |
| Combatants.HpStaysInRange | combatants.py:58-66 | Damage and healing keep HP within [0, max HP]. |
| Combatants.Combatant.constructor | combatants.py:4-15 | A new combatant has HP = max HP = the given HP, temp HP 0, the given AC, the given initiative or the roll, state alive, no concentration, no manual flag and no effects. |
| Combatants.Combatant.NewPlayer | combatants.py:82-90 | A player has HP, max HP and AC all None, temp HP 0, and is otherwise a fresh combatant. |
| Combatants.Combatant.NewMonster | combatants.py:103-111 | A monster's type defaults to its name. Its traits, actions, legendary actions and immunities come from the bestiary entry, or are "" without one. |
| Combatants.Combatant.Incapacitated | combatants.py:17-21 | Definition: disabled by hand, or dead, unconscious or gone. `ManuallyDisabled`, `SetManuallyDisabled` and `AliveIsActiveUnlessDisabled` state its properties. |
| Combatants.Combatant.ManuallyDisabled | combatants.py:23-25 | A set manual flag implies the combatant is incapacitated. |
| Combatants.Combatant.IsAlive | combatants.py:41-45 | Definition: alive in state, and with positive HP when HP is tracked. `AliveIsActiveUnlessDisabled` relates it to incapacitation. |
| Combatants.AliveIsActiveUnlessDisabled | combatants.py:17-45 | A living combatant is incapacitated exactly when disabled by hand. A combatant not in state alive, or with tracked HP of 0 or less, is not alive. |
| Combatants.Combatant.HasConcentration | combatants.py:32-33 | Definition: the `concentration` attribute. `AddConcentration` and `RemoveConcentration` set and clear it. |
| Combatants.Granted | combatants.py:68-72 | Definition (with the player override at combatants.py:98-99): players and the dead keep their temp HP, others take `AfterTemp`. `TempGrantsDoNotStack` and `MasterBridge.RepeatedGrant` state its properties. |
| Combatants.Combatant.SetManuallyDisabled | combatants.py:28-30 | Reading the flag back gives the stored value. Setting it incapacitates. Clearing it leaves the combatant incapacitated exactly when its state is not alive. |
| Combatants.Combatant.AddConcentration | combatants.py:35-36 | Afterwards the combatant has concentration. |
| Combatants.Combatant.RemoveConcentration | combatants.py:38-39 | Afterwards the combatant has no concentration. |
| Combatants.Combatant.TakeDamage | combatants.py:47-61 | The new HP and temp HP are the damage step of the old ones. A player, or a dead or departed combatant, is unchanged. Non-negative damage keeps tracked HP non-negative. |
| Combatants.Combatant.Heal | combatants.py:63-66 | The new HP is the heal step. A player or a dead combatant is unchanged. Otherwise HP ends at most max HP. |
| Combatants.Combatant.AddTempHp | combatants.py:68-72 | The new temp HP is the grant step. A player or a dead combatant is unchanged. Otherwise temp HP ends at least the old value and at least the amount. |
| BattleEngine.SortedRoster | battle_engine.py:53-56 | The sorted roster has the same length and only members of the input. |
| BattleEngine.Insert | battle_engine.py:53-56 | One insertion step of the stable descending sort: one element more, and every element is the new one or an old one. |
| BattleEngine.InsertPermutation | battle_engine.py:53-56 | Inserting one combatant adds exactly it to the multiset. |
| BattleEngine.SortedIsPermutation | battle_engine.py:53-56 | Sorting is a permutation of the roster. |
| BattleEngine.InsertDescending | battle_engine.py:53-56 | Inserting into a descending roster keeps it descending. |
| BattleEngine.SortedIsDescending | battle_engine.py:53-56 | The sorted roster is ordered by initiative, highest first, with None read as 0. |
| BattleEngine.InsertStable | battle_engine.py:53-56 | Insertion keeps the relative order of combatants with equal initiative. |
| BattleEngine.SortedIsStable | battle_engine.py:53-56 | For each initiative value, the combatants with that value keep their roster order (Python's sort is stable). |
| BattleEngine.SortedIdempotent | battle_engine.py:49-56 | Sorting a sorted roster changes nothing. |
| BattleEngine.SortOfDescending | battle_engine.py:49-56 | Sorting a roster that is already descending returns it unchanged. |
| BattleEngine.Runs | battle_engine.py:58-75 | The grouping of a sequence is empty exactly when the sequence is. |
| BattleEngine.RunsExtend | battle_engine.py:63-70 | One loop step: a unit with a new initiative closes the current group and opens one; a tied unit joins the current group. |
| BattleEngine.RunsFlatten | battle_engine.py:58-75 | Concatenating the groups gives back the sorted roster. |
| BattleEngine.RunsUniform | battle_engine.py:58-75 | Every group is non-empty and all its members share one initiative. |
| BattleEngine.RunsDescending | battle_engine.py:58-75 | The initiatives of successive groups strictly decrease. |
| BattleEngine.Flags | battle_engine.py:97 | There is one readiness flag per group. |
| BattleEngine.FlagsAt | battle_engine.py:97 | A group's flag holds exactly when one of its members is not incapacitated. |
| BattleEngine.FlagsUnchanged | battle_engine.py:158-169 | Readiness is unchanged by a heap change that keeps every member's flag and state (effect decay). |
| BattleEngine.Step | battle_engine.py:100-103 | Advancing the cursor keeps it within the group list. |
| BattleEngine.Scan | battle_engine.py:93-110 | The turn search leaves the cursor in range. A group it returns is a valid index. |
| BattleEngine.ScanFrom | battle_engine.py:93-110 | From any point of the search, a found group is the first ready one, with cursor and round just past it. If none is found, no group is ready, the cursor is back at its start and the round is one higher. |
| BattleEngine.ScanFindsFirstReady | battle_engine.py:95-104 | The group returned is the first ready one at or after the cursor, circularly. The cursor moves just past it, and the round rises by the number of wraps. |
| BattleEngine.ScanNoneIffNoneReady | battle_engine.py:93-110 | The search returns nothing exactly when every group is incapacitated. |
| BattleEngine.ScanNoneFullLap | battle_engine.py:105-110 | When nothing is ready, the cursor ends where it started and the round rises by exactly 1. |
| BattleEngine.Decayed | battle_engine.py:158-169 | Permanent effects, and effects applied in the current round, are kept as they are. Every other timed effect loses one round and is removed once it reaches 0. No effect is added. |
| BattleEngine.EffectLifetime | battle_engine.py:158-169 | An effect of duration d, decayed in k rounds other than its own, survives exactly while k < d and then has d − k left. A permanent effect survives unchanged. |
| BattleEngine.Survives | battle_engine.py:160-169 | Definition: an effect is kept when it has no duration, was applied this round, or still has turns left after the tick; `BattleEngine.Decayed` and `BattleEngine.EffectLifetime` state what that keeps. |
| BattleEngine.NeverComesBack | battle_engine.py:158-169 | A removed effect never reappears through decay. |
| BattleEngine.StateHp | battle_engine.py:118-133 | "dead" and "unconscious" set tracked HP to 0. "alive" after dead or unconscious sets it to 1. Every other case keeps HP, and untracked HP stays untracked. |
| BattleEngine.Engine.constructor | battle_engine.py:7-16 | A new engine holds the given roster, no groups, cursor 0, round 1, and is not in combat. |
| BattleEngine.Engine.SortInitiative | battle_engine.py:49-56 | During combat the roster is untouched. Otherwise it becomes the stable descending sort of itself. |
| BattleEngine.Engine.AddCombatant | battle_engine.py:18-21 | During combat the combatant is appended. Otherwise the roster becomes the sort of roster + [c]: descending, and a permutation of the old roster plus c. |
| BattleEngine.Engine.BuildInitiativeGroups | battle_engine.py:58-75 | The groups are the runs of tied initiative of the sorted roster, and the cursors are reset to 0. |
| BattleEngine.Engine.GetCurrent | battle_engine.py:77-85 | A combatant is returned exactly when in combat, groups exist and the member cursor is inside the current group. It is a member of that group. |
| BattleEngine.Engine.DecayEffects | battle_engine.py:160-169 | One combatant's effects become their decay for the current round. |
| BattleEngine.Engine.UpdateEffectsForPrevTurn | battle_engine.py:158-169 | Each member of the group is decayed once per occurrence in the group. No one else is touched. |
| BattleEngine.Engine.FindReady | battle_engine.py:93-110 | The loop computes exactly the turn search over the groups' readiness. |
| BattleEngine.Engine.NextTurn | battle_engine.py:87-110 | Outside combat, or without groups, it returns None and changes nothing. Otherwise the previous group is decayed. Cursor, round, result and previous group are those of the turn search over readiness before the call. |
| BattleEngine.Engine.Prepare | battle_engine.py:32-37 | The roster is sorted, regrouped, marked in combat, and the cursors are reset. |
| BattleEngine.Engine.StartCombat | battle_engine.py:29-41 | If already in combat or the roster is empty, it changes nothing. Otherwise it sorts, groups and takes the first turn. On success the round is 1 and the current initiative is that of the group found. If no group is ready it fails with TypeError, the round is one higher and the current initiative is unchanged. |
| BattleEngine.Engine.Begin | battle_engine.py:32-41 | The same as StartCombat, for the case where combat actually starts. |
| BattleEngine.Engine.EndCombat | battle_engine.py:43-47 | Leaves combat and resets the cursors and the round. The roster and the groups are untouched. |
| BattleEngine.Engine.SetState | battle_engine.py:112-134 | The state is set and `effects["concentration"]` is cleared. HP follows the state table. The manual flag, and so incapacitation, holds exactly when the new state is not alive. |
| BattleEngine.Engine.AddEffect | battle_engine.py:136-144 | The effect is stored (overwriting) with "вечный" read as permanent and the current round as its applied round. |
| BattleEngine.Engine.RemoveEffect | battle_engine.py:146-150 | The name is removed. An absent name changes nothing. |
| BattleEngine.Engine.AddConcentration | battle_engine.py:152-153 | The combatant then has concentration. |
| BattleEngine.Engine.RemoveConcentration | battle_engine.py:155-156 | The combatant then has no concentration. |
| StateExporter.CombatantId | battle_state_exporter.py:152-153 | Every id starts with "id_". |
| StateExporter.CombatantIdInjective | battle_state_exporter.py:152-153 | Distinct objects get distinct ids. |
| StateExporter.ShownName | battle_state_exporter.py:87 | The custom name when non-empty, otherwise the name. |
| StateExporter.DropDigits | battle_state_exporter.py:111 | Removes exactly the maximal run of trailing digits. |
| StateExporter.CutNumber | battle_state_exporter.py:111 | The cut is the longest `\s*\d+` suffix. |
| StateExporter.CutIsNumber | battle_state_exporter.py:111 | What the cut removes is whitespace followed by digits. |
| StateExporter.CutIsLongest | battle_state_exporter.py:111 | No longer whitespace-and-digits suffix exists. |
| StateExporter.TrailingNumberRemoved | battle_state_exporter.py:111 | A name ending in digits, or in digits and a newline, loses its longest `\s*\d+` tail. Any other name is unchanged. |
| StateExporter.DisplayName | battle_state_exporter.py:108-113 | Non-monsters keep their name. A monster's display name is empty only when its name is. |
| StateExporter.DropDigitsOfNumber | battle_state_exporter.py:111 | Appending digits to a text that does not end in a digit, then dropping trailing digits, gives the text back. |
| StateExporter.DisplayNameOfNumbered | battle_state_exporter.py:108-113 | A factory-numbered monster name "base i" is shown as "base". |
| StateExporter.Durations | battle_state_exporter.py:115-124 | The exported table has the same keys, each mapped to exactly its duration. |
| StateExporter.Entries | battle_state_exporter.py:76-106 | The projection has one entry per roster combatant. |
| StateExporter.EntryFields | battle_state_exporter.py:80-102 | Each entry field is as exported: id; `custom_name or name`; display name; kind; HP; max HP; temp HP; state. The temp-HP flag holds iff HP is tracked and temp HP > 0. The dead and unconscious flags mirror the state, and the incapacitated flag mirrors incapacitation. The custom effects have the same key set. |
| StateExporter.EntryOf | battle_state_exporter.py:79-104 | Definition of one exported entry; `StateExporter.EntryFields` states its fields. |
| StateExporter.KindText | battle_state_exporter.py:80-84 | Definition: "player", "monster" or "combatant" by kind; `StateExporter.EntryFields` states where it appears. |
| StateExporter.EntriesAt | battle_state_exporter.py:76-106 | Entry i is the entry of roster combatant i (roster order). |
| StateExporter.ActiveIds | battle_state_exporter.py:142-146 | There are never more active ids than group members. |
| StateExporter.ActiveIdsMembers | battle_state_exporter.py:142-146 | An id is active exactly when some non-incapacitated member of the group has it. |
| StateExporter.PreviousIndex | battle_state_exporter.py:133-139 | The previous group index is in range. It exists whenever there are groups, and never when there are none. |
| StateExporter.PreviousOfScan | battle_state_exporter.py:133-139 | After a turn, the "previous" index is exactly the group that turn returned. |
| StateExporter.ActiveGroupIds | battle_state_exporter.py:126-146 | Outside combat or without groups there are no active ids. |
| StateExporter.Snapshot | battle_state_exporter.py:56-65 | The payload has one entry per combatant, the engine's round and the given timestamp. |
| StateExporter.ExportCustomEffects | battle_state_exporter.py:115-124 | The loop builds exactly the duration table. |
| StateExporter.BuildEntry | battle_state_exporter.py:78-105 | The method builds exactly the entry of the combatant. |
| StateExporter.BuildCombatants | battle_state_exporter.py:76-106 | The loop builds exactly the projection of the roster. |
| StateExporter.TickStep | battle_state_exporter.py:50-70 | Outside combat it writes the empty document and forgets the last payload. In combat it writes the payload exactly when it differs from the last one, and remembers it. |
| StateExporter.RepeatedTick | battle_state_exporter.py:59-70 | A second tick with an unchanged snapshot writes nothing. Outside combat, every tick writes the empty document. |
| StateExporter.NoRepeatedPublication | battle_state_exporter.py:50-70 | Over any sequence of ticks, two consecutive payload writes always differ, and the first differs from the payload remembered before. |
| StateExporter.Publisher.constructor | battle_state_exporter.py:15-24 | A new publisher is idle, remembers nothing and has written nothing. |
| StateExporter.Publisher.Start | battle_state_exporter.py:30-35 | The publisher is running afterwards. |
| StateExporter.Publisher.Stop | battle_state_exporter.py:37-39 | It stops, and the empty document is appended to the file log. |
| StateExporter.Publisher.Tick | battle_state_exporter.py:50-70 | The remembered payload and the file log advance exactly as TickStep says, for the engine's current snapshot. |
| PlayerUi.Combatants | Pui/player_ui.py:182 | The payload's combatants, in order, each a well-formed dict. |
| PlayerUi.BuildItem | Pui/player_ui.py:75-89 | The row's id is the combatant's id (or None). The row is active exactly when that id is among the active ids. |
| PlayerUi.BuildItemDefaults | Pui/player_ui.py:75-89 | Missing keys default to: name "—", temp HP 0, HP and max HP None, state "alive", kind "combatant", empty effects, and the display name falling back to the name. Present keys are copied. |
| PlayerUi.BuiltItems | Pui/player_ui.py:93 | Row k is the built item of combatant k. |
| PlayerUi.IncomingIds | Pui/player_ui.py:103 | The incoming id sequence, one per combatant. |
| PlayerUi.RowIds | Pui/player_ui.py:104 | The current id sequence, one per row. |
| PlayerUi.ChangedRowsExactly | Pui/player_ui.py:109-114 | A change notice is sent for a row exactly when its old and new items differ, in ascending row order. |
| PlayerUi.ChangedRowsBelow | Pui/player_ui.py:109-114 | Every notice names a row of the list. |
| PlayerUi.CombatantModel.constructor | Pui/player_ui.py:24-26 | The list starts empty. |
| PlayerUi.CombatantModel.FullReset | Pui/player_ui.py:91-94 | The rows become the built items, with one reset notice. |
| PlayerUi.CombatantModel.UpdateItems | Pui/player_ui.py:96-114 | The rows always end equal to the built items. When the length or the id sequence differs, there is exactly one reset notice. Otherwise there is exactly one change notice per changed row. |
| PlayerUi.CombatantModel.ReplaceChangedRows | Pui/player_ui.py:109-114 | Replacing changed rows in place yields the built items, with exactly the changed-row notices. |
| PlayerUi.Take | Pui/player_ui.py:165 | `s[:n]`: the first min(len(s), n) elements. |
| PlayerUi.Pushed | Pui/player_ui.py:162-166 | An empty message is ignored. Otherwise the log becomes the message followed by the first two old lines. |
| PlayerUi.NewestFirst | Pui/player_ui.py:162-166 | The non-empty messages, newest first; none of them is empty. |
| PlayerUi.RollingLog | Pui/player_ui.py:162-166 | Pushing a batch leaves the three newest non-empty messages, newest first, followed by old lines. A batch of empty messages leaves the log unchanged. |
| PlayerUi.PushAllKeepsThree | Pui/player_ui.py:162-166 | The log always has three lines. |
| PlayerUi.PushAll | Pui/player_ui.py:162-166 | Definition: `_push_log` for each message in turn; `PlayerUi.RollingLog`, `PlayerUi.PushAllKeepsThree` and `PlayerUi.PushAllAppend` state its properties. |
| PlayerUi.PushAllAppend | Pui/player_ui.py:162-166 | Pushing a + b equals pushing a, then b. |
| PlayerUi.UiName | Pui/player_ui.py:150-152 | The name used in narration is never empty (display name, else name, else "—"). |
| PlayerUi.ActorLine | Pui/player_ui.py:154-160 | A narration line is never empty, so it is always logged. |
| PlayerUi.HpTexts | Pui/player_ui.py:212-233 | HP lines appear exactly when HP or temp HP changed between ints. A rise in HP gives the heal line. Otherwise a rise in temp HP gives the grant line. Otherwise the damage line comes first, followed by "теряет временные HP" exactly when temp HP fell from positive to 0. |
| PlayerUi.Prefixed | Pui/player_ui.py:257-260 | One escaped line per name, each starting with the prefix. |
| PlayerUi.PrefixedCovers | Pui/player_ui.py:257-260 | Every name has its line. |
| PlayerUi.EffectTexts | Pui/player_ui.py:253-260 | One line per added name and then one per removed name. Every added name has its "получает эффект" line among the first, and every removed name its "теряет эффект" line among the rest. This holds whatever the state did. |
| PlayerUi.EffectTextsInOrder | Pui/player_ui.py:253-260 | The lines are `sorted(added)` then `sorted(removed)`: each half follows a strictly sorted list of exactly the added (resp. removed) names. |
| PlayerUi.StateText | Pui/player_ui.py:195-210 | Definition of the state line; `PlayerUi.ReturnPhrases` and `PlayerUi.StateIsNotDamage` state its properties. |
| PlayerUi.CombatantTexts | Pui/player_ui.py:190-260 | Definition: the state line when the state changed, else the status lines, then the effect lines; `PlayerUi.StateGatesToggles` and `PlayerUi.DamageIsNarrated` state its properties. |
| PlayerUi.StateGatesToggles | Pui/player_ui.py:193-251 | A state change gives only the state line and the effect lines. With the state unchanged, each concentration and incapacitation line appears exactly when that flag switched in that direction. |
| PlayerUi.ToggleTextsDistinct | Pui/player_ui.py:235-251 | A toggle line is never an HP line, an effect line or another toggle line. |
| PlayerUi.ActorLines | Pui/player_ui.py:159-160 | One marked-up line per text, in order. |
| PlayerUi.DamageIsNarrated | Pui/player_ui.py:193-233 | A damage line is narrated exactly when: the state is unchanged; HP or temp HP changed between ints; HP did not rise; and temp HP did not rise. |
| PlayerUi.EffectsAreNotDamage | Pui/player_ui.py:253-260 | Effect lines are never the damage line. |
| PlayerUi.StateIsNotDamage | Pui/player_ui.py:195-210 | State lines are never the damage line. |
| PlayerUi.StatusDamage | Pui/player_ui.py:212-251 | Among the state-gated lines, the damage line appears exactly when the HP lines start with it. |
| PlayerUi.ReturnPhrases | Pui/player_ui.py:202-208 | Becoming alive reads "воскресает" after dead, "возвращается в бой" after left, and "приходит в себя" otherwise. |
| PlayerUi.IdIndex | Pui/player_ui.py:176-183 | Every combatant's id is a key and maps to a combatant with that id. A repeated id maps to its last combatant. |
| PlayerUi.IdOrder | Pui/player_ui.py:185 | The distinct ids in first-appearance order, covering every combatant. |
| PlayerUi.NewcomersAreSilent | Pui/player_ui.py:185-188 | Ids absent from the previous payload produce no lines. |
| PlayerUi.DiffNeedsKnownIds | Pui/player_ui.py:172-188 | With no previous payload, or no id in common, the diff is empty. |
| PlayerUi.DiffOver | Pui/player_ui.py:185-188 | Definition: the lines of each id in order, for ids also present before; `PlayerUi.NewcomersAreSilent` states its property. |
| PlayerUi.DiffMessages | Pui/player_ui.py:172-188 | Definition of `_diff_messages`; `PlayerUi.DiffNeedsKnownIds` and `PlayerUi.NewcomersAreSilent` state its properties. |
| PlayerUi.Updated | Pui/player_ui.py:262-285 | It fails exactly when the round is not convertible by `int`, and then nothing changes. Otherwise: the payload is remembered; `running` is `bool(payload["running"])`; the log receives the diff lines, then the start or end line; a missing round reads 0. |
| PlayerUi.AnnouncementIsNewest | Pui/player_ui.py:269-275 | When the fight starts, "Бой начался" is the newest line and no clear is pending. When it ends, "Бой закончен" is the newest line and a clear is pending. |
| PlayerUi.Transition | Pui/player_ui.py:269-275 | Definition of the start and end lines; `PlayerUi.AnnouncementIsNewest` states what they do to the log. |
| PlayerUi.FallbackStops | Pui/player_ui.py:312-315 | The substitute payload has no combatants and leaves the display stopped at round 0, logging at most the end line. |
| PlayerUi.LoadState | Pui/player_ui.py:288-295 | A payload is returned exactly when the file decodes to a JSON object, and it is that object. |
| PlayerUi.PlayerUiState.constructor | Pui/player_ui.py:122-132 | Not running, round 0, no previous payload, three empty log lines. |
| PlayerUi.PlayerUiState.PushLog | Pui/player_ui.py:162-166 | The log becomes Pushed of the old log. |
| PlayerUi.PlayerUiState.ClearLogs | Pui/player_ui.py:168-170 | The log becomes three empty lines and the pending clear is consumed. |
| PlayerUi.PlayerUiState.PushLines | Pui/player_ui.py:159-166 | Pushing lines one by one equals PushAll. |
| PlayerUi.PlayerUiState.CollectDiffLogs | Pui/player_ui.py:172-260 | The log receives exactly the diff messages against the previous payload. |
| PlayerUi.PlayerUiState.PushDiffs | Pui/player_ui.py:185-260 | The loop over ids logs exactly the per-combatant messages, in id order. |
| PlayerUi.PlayerUiState.Announce | Pui/player_ui.py:269-275 | Logs the start or end line. Starting cancels a pending clear, and ending schedules one. |
| PlayerUi.PlayerUiState.UpdateState | Pui/player_ui.py:262-285 | On success the state becomes Updated's result. If the round fails to convert, the error is returned and the state is unchanged. |
| PlayerUi.UpdatedOk | Pui/player_ui.py:266-285 | Pushing the diff lines and then the transition line, in the method's order, gives exactly the log of a successful update, and the log keeps three lines. |
| PlayerUi.PlayerUiState.Apply | Pui/player_ui.py:266-285 | Once the round has converted, the new state is exactly Updated's result. |
| PlayerUi.PlayerUiState.LogUpdate | Pui/player_ui.py:266-275 | The diff and transition lines leave the log and the pending clear as Updated says, keeping three lines. |
| PlayerUi.Viewer.constructor | Pui/player_ui.py:302-307 | The viewer starts with no last payload. |
| PlayerUi.Viewer.Tick | Pui/player_ui.py:309-321 | An unreadable file before any payload shows the stopped fallback and an empty list. An unreadable file later changes nothing. A payload is remembered, updates the state, and (if that succeeds) rebuilds the rows from its combatants and active ids. |
| MasterBridge.ParseOptionalInt | DMui/qml_parallel_bridge.py:81-91 | None and blank text give None. Otherwise the result is `int` of the text, or None when that fails. |
| MasterBridge.ParseOptionalIntDecimal | DMui/qml_parallel_bridge.py:81-91 | Any decimal rendering of an integer parses back to it. |
| MasterBridge.ValidIndices | DMui/qml_parallel_bridge.py:93-103 | The kept indices are never more than the inputs. |
| MasterBridge.Kept | DMui/qml_parallel_bridge.py:94-103 | Definition: one value kept when `int()` gives a non-negative index; `MasterBridge.ValidIndices` states its properties. |
| MasterBridge.ValidIndicesAppend | DMui/qml_parallel_bridge.py:93-103 | Sanitising is done element by element, in order. |
| MasterBridge.ValidIndicesExactly | DMui/qml_parallel_bridge.py:93-103 | n is kept exactly when some input converts by `int` to n ≥ 0. |
| MasterBridge.SafeIndices | DMui/qml_parallel_bridge.py:93-103 | The loop computes exactly the sanitised indices. |
| MasterBridge.Select | DMui/qml_parallel_bridge.py:105-111 | The selection contains only roster members and no more entries than indices. |
| MasterBridge.SelectAppend | DMui/qml_parallel_bridge.py:105-111 | Selection is done index by index, in order, keeping duplicates. |
| MasterBridge.SelectOne | DMui/qml_parallel_bridge.py:108-110 | An index below the roster length selects that combatant. Any other index selects nothing. |
| MasterBridge.DamagedTimes | DMui/qml_parallel_bridge.py:184-185 | Repeated damage keeps untracked HP untracked. |
| MasterBridge.RepeatedDamage | DMui/qml_parallel_bridge.py:184-185 | A combatant selected n times takes the damage n times. It ends with hp + temp = the old total − n·amount floored at 0, and HP ≥ 0. |
| MasterBridge.HealedTimes | DMui/qml_parallel_bridge.py:190-191 | Repeated healing keeps untracked HP untracked. |
| MasterBridge.RepeatedHeal | DMui/qml_parallel_bridge.py:190-191 | n heals give min(hp + n·amount, max HP). |
| MasterBridge.RepeatedGrant | DMui/qml_parallel_bridge.py:196-197 | Repeating a grant acts as one grant. |
| MasterBridge.CountSnoc | DMui/qml_parallel_bridge.py:184 | Appending a selected combatant adds one to its count. |
| MasterBridge.Clamped | DMui/qml_parallel_bridge.py:185 | `max(0, amount)`: never negative, and non-negative amounts are kept. |
| MasterBridge.DamageEach | DMui/qml_parallel_bridge.py:184-185 | Each roster combatant is damaged once per occurrence in the selection. |
| MasterBridge.GrantEach | DMui/qml_parallel_bridge.py:196-197 | Each roster combatant receives the grant once per occurrence in the selection. |
| MasterBridge.PutEffectEach | DMui/qml_parallel_bridge.py:207-213 | Exactly the targets receive the (overwriting) effect entry. |
| MasterBridge.DropEffectEach | DMui/qml_parallel_bridge.py:225-228 | Exactly the targets lose the name. Absent names are ignored. |
| MasterBridge.HealEach | DMui/qml_parallel_bridge.py:190-191 | Each roster combatant is healed once per occurrence in the selection. |
| MasterBridge.LabelsRoundTrip | DMui/qml_parallel_bridge.py:261-266 | The four Russian labels and the four states map to each other both ways. |
| MasterBridge.Label | DMui/qml_parallel_bridge.py:42-47 | Definition of the Russian state labels; `MasterBridge.LabelsRoundTrip` states its property. |
| MasterBridge.StateOfLabel | DMui/qml_parallel_bridge.py:261-266 | Definition of the label lookup; `MasterBridge.LabelsRoundTrip` states its property. |
| MasterBridge.Bridge.constructor | DMui/qml_parallel_bridge.py:16-22 | A fresh engine with an empty roster, no current initiative, status "Готов к бою". |
| MasterBridge.Bridge.SelectedCombatants | DMui/qml_parallel_bridge.py:105-111 | Exactly the roster selection of the sanitised indices. |
| MasterBridge.Bridge.ApplyDamage | DMui/qml_parallel_bridge.py:182-186 | Every combatant takes the clamped damage once per time it is selected. |
| MasterBridge.Bridge.ApplyHeal | DMui/qml_parallel_bridge.py:188-192 | Every combatant receives the clamped heal once per time it is selected. |
| MasterBridge.Bridge.SetTempHp | DMui/qml_parallel_bridge.py:194-198 | Every combatant receives the clamped grant once per time it is selected. |
| MasterBridge.Bridge.AddEffect | DMui/qml_parallel_bridge.py:200-215 | A blank name changes nothing and sets the "enter a name" status. Otherwise each selected combatant gets the stripped name with the engine round as applied round, duration 0 read as permanent, overwriting. |
| MasterBridge.Bridge.RemoveEffect | DMui/qml_parallel_bridge.py:217-231 | A blank name changes nothing. Otherwise the name is removed from the selection, or from the whole roster when nothing is selected. |
| MasterBridge.Bridge.SetConcentration | DMui/qml_parallel_bridge.py:233-246 | An out-of-range index changes nothing. Otherwise the target ends with concentration exactly when it is requested and the target is not incapacitated. Others are untouched. |
| MasterBridge.Bridge.SetIncapacitated | DMui/qml_parallel_bridge.py:248-254 | An out-of-range index changes nothing. Otherwise the target's manual flag becomes the requested value. |
| MasterBridge.Bridge.SetState | DMui/qml_parallel_bridge.py:256-272 | Out-of-range indices and unknown labels change nothing. Otherwise the target takes the labelled state with the engine's HP table, and others are untouched. |
| MasterBridge.Bridge.NextTurn | DMui/qml_parallel_bridge.py:163-171 | The engine advances as the turn search says. When a group is found its initiative becomes current, and otherwise the "no next turn" status is shown. |
| CombatantFactory.EntryOf | combatant_factory.py:45 | A bestiary entry is used exactly when the name is present and its entry is non-empty (truthy). |
| CombatantFactory.BaseName | combatant_factory.py:49 | The stripped custom name when one is given and non-empty, otherwise the monster name. |
| CombatantFactory.MonsterName | combatant_factory.py:67-79 | Definition: `f"{base} {i}"`; `CombatantFactory.MonsterNamesDiffer` states that it tells numbers apart. |
| CombatantFactory.MonsterNamesDiffer | combatant_factory.py:67 | Monsters numbered differently get different names. |
| CombatantFactory.HpFormula | combatant_factory.py:53-54 | The explicit HP text if given. Otherwise the bestiary's "Hit Points", or "1d10" without an entry or field (line 75). |
| CombatantFactory.ArmorClass | combatant_factory.py:55-65 | The explicit AC when given. Otherwise the leading integer of the bestiary's text when it parses, else 10. A whitespace-only text raises IndexError, even with an explicit AC. |
| CombatantFactory.LeadingArmorClass | combatant_factory.py:56-61 | Without an explicit AC, a bestiary text that starts with a number and a space, such as "15 (natural armor)", gives that number. |
| CombatantFactory.Rolls | combatant_factory.py:51-54 | n successful rolls give n values and never go back in the draws. |
| CombatantFactory.RollsPrefix | combatant_factory.py:51-54 | The first m rolls of a successful run of n are the run of m. |
| CombatantFactory.RollsFail | combatant_factory.py:51-54 | Once a roll fails, a longer run fails with the same error. |
| CombatantFactory.RollsSteady | combatant_factory.py:51-54 | A formula that always rolls v uses no draws and gives v every time. |
| CombatantFactory.RollsOfNumber | combatant_factory.py:51-54 | A plain-number HP gives that number to every monster, using no draws. |
| CombatantFactory.RollNumber | dice_roll.py:26-27 | A plain number rolls to itself, using no draws. |
| CombatantFactory.DigitsHaveNoGroup | dice_roll.py:14-16 | A digit string has no parenthesised part. |
| CombatantFactory.LoopOutcomeOk | combatant_factory.py:51-86 | The loop succeeds exactly when there are no monsters to make, or every roll and the AC succeed. It then yields one HP per monster. |
| CombatantFactory.LoopOutcome | combatant_factory.py:51-86 | Definition of the loop's result; `CombatantFactory.LoopOutcomeOk` states its properties. |
| CombatantFactory.BatchGrows | combatant_factory.py:66-86 | Appending the next numbered monster extends the batch. |
| CombatantFactory.BatchAt | combatant_factory.py:66-86 | Monster k of a batch is named "base k+1", with the shared initiative, its own rolled HP, the AC, the type and the id firstId + k. |
| CombatantFactory.Factory.constructor | combatant_factory.py:11 | The counter starts at 1. |
| CombatantFactory.Factory.AssignId | combatant_factory.py:13-16 | The object gets the current counter, which then rises by 1. |
| CombatantFactory.Factory.Spawn | combatant_factory.py:66-86 | One fresh monster with the given fields and the current counter as its id; the counter rises by 1. |
| CombatantFactory.Factory.SpawnOne | combatant_factory.py:52-86 | One loop turn fails exactly when the roll or the AC fails, with that error and no id used. Otherwise it yields the numbered monster with the rolled HP and the next id. |
| CombatantFactory.Factory.SpawnAll | combatant_factory.py:51-86 | The loop fails exactly when the loop outcome does, with its error. On success it yields exactly count fresh monsters in a batch, with ids consecutive from the old counter. On failure the counter has risen by exactly the monsters built before it: the successful HP rolls before the failing one, and none when the AC fails. |
| CombatantFactory.Factory.CreateMonster | combatant_factory.py:36-87 | Exactly max(count, 0) monsters named "base 1" … "base n", in order. They share one initiative (the given one or one roll), have HP from the formula, the chosen AC and consecutive ids. Errors are those of the roll or the AC; on failure the counter has risen by exactly the monsters built before it (none when the AC fails). |
| CombatantFactory.Factory.CreatePlayerAsWritten | combatant_factory.py:18-34 | As written, the call always raises TypeError, after rolling the initiative when none is given. |
| CombatantFactory.Factory.CreatePlayer | combatant_factory.py:18-34 | The intended call: a fresh player with untracked HP and AC, the given or rolled initiative, and the next id. |
| Dice.FormatPlain | dice_roll.py:10 | A formula without braces is unchanged by substitution. |
| Dice.FormatPlaceholder | dice_roll.py:7-10 | A `{name}` placeholder reads as the supplied value, or as 0 when the formula names it and the caller does not supply it. |
| Dice.Format | dice_roll.py:10 | Definition of `str.format` on integer arguments; `Dice.FormatPlain`, `Dice.FormatField` and `Dice.PositionalFields` state its properties. |
| Dice.PlainFields | dice_roll.py:8 | Definition of `re.findall(r"\{(\w+)}", formula)` as a set; `Dice.LeadingPlain` states that a leading `{name}` is found. |
| Dice.LeadingPlain | dice_roll.py:8 | A formula that starts with `{name}` and a word name has that name among its placeholders. |
| Dice.Defaulted | dice_roll.py:7-9 | The arguments are the caller's variables plus every placeholder name; a supplied variable keeps its value and a missing one is 0. |
| Dice.Substitute | dice_roll.py:7-10 | Definition: `format` with the defaulted arguments; `Dice.FormatPlaceholder` and `Dice.SpecFieldUsesDefault` state its properties. |
| Dice.FieldHead | dice_roll.py:10 | For a word name followed by a conversion or format specification, the looked-up key is the name. |
| Dice.FormatField | dice_roll.py:10 | A field `{name…}` whose key is a word present in the arguments renders as the decimal text of its value, followed by the rest of the formatted text. |
| Dice.PositionalFields | dice_roll.py:10 | `{0:5}` and `{:5}` are positional fields, which fail with IndexError since no positional argument is passed. |
| Dice.SpecFieldUsesDefault | dice_roll.py:7-10 | In `{x}{x:5}` the second field uses the default 0 that the first one created, so the text is "00". |
| Dice.NormaliseShape | dice_roll.py:12 | Normalised text has no spaces, no `д`/`к` and no ASCII or Cyrillic capital letters. |
| Dice.NormaliseIdempotent | dice_roll.py:12 | Normalising twice equals normalising once. |
| Dice.NormaliseNumber | dice_roll.py:12 | A signed number is unchanged by normalisation. |
| Dice.Lower | dice_roll.py:12 | The lower-cased text has the same length, with each character lower-cased on its own. |
| Dice.Normalise | dice_roll.py:12 | Definition: lower-case, map `д` and `к` to `d`, drop spaces; `Dice.NormaliseShape`, `Dice.NormaliseIdempotent` and `Dice.NormaliseNumber` state its properties. |
| Dice.ParenGroup | dice_roll.py:14-16 | A found group is non-empty and contains no `)`. |
| Dice.GroupAt | dice_roll.py:14 | Definition: a `(`, at least one non-`)` character, then a `)`. |
| Dice.ParenGroupNoneIff | dice_roll.py:14-16 | The search finds nothing exactly when no group starts at or after the search position. |
| Dice.ParenGroupLeftmost | dice_roll.py:14-16 | When a group starts at i and none starts earlier, the search returns that group's content. |
| Dice.ExpressionOfGroup | dice_roll.py:7-16 | When the normalised substitution has its leftmost group at i, the expression is that group's content. |
| Dice.NoParenGroup | dice_roll.py:14-16 | Text without `(` has no group. |
| Dice.ParenExample | dice_roll.py:14-16 | "15(2d8+6)" yields "2d8+6". |
| Dice.ParseDiceParts | dice_roll.py:18-20 | Digits, "d", digits and a signed modifier parse to those three numbers. |
| Dice.ModifierRoundTrip | dice_roll.py:18-23 | Every modifier's text parses back to it. |
| Dice.DiceTextRoundTrip | dice_roll.py:18-20 | Every dice specification's text parses back to it. |
| Dice.DiceExample | dice_roll.py:18-20 | "2d8+6" parses to 2 dice of 8 sides plus 6. |
| Dice.NotDice | dice_roll.py:18-19 | Text without "d" is not a dice formula. |
| Dice.ParseDice | dice_roll.py:18-20 | Definition of `re.fullmatch(r"(\d+)d(\d+)([+-]\d+)?", expr)`; `Dice.ParseDiceParts`, `Dice.DiceTextRoundTrip` and `Dice.NotDice` state its properties. |
| Dice.ParseModifier | dice_roll.py:18-23 | Definition of the optional signed modifier group; `Dice.ModifierRoundTrip` states its property. |
| Dice.SumDrawsBounds | dice_roll.py:21 | The sum of N fair draws of an S-sided die lies in [N, N·S]. |
| Dice.SumDraws | dice_roll.py:21 | Definition: the sum of `count` draws from the oracle; `Dice.SumDrawsBounds` states its bounds. |
| Dice.Evaluate | dice_roll.py:18-29 | Every failure is a ValueError. It fails exactly when the text is neither a dice formula nor an integer, or is a dice formula with dice but no sides. Plain integer text rolls to that integer with no draws. A roll that used draws was a dice formula with that many dice. |
| Dice.RollFormula | dice_roll.py:5-29 | A failing substitution makes the roll fail. |
| Dice.Expression | dice_roll.py:7-16 | Definition: substitute, normalise, then take the first group when there is one; `Dice.ExpressionOfGroup` and `Dice.RollFormula` state its properties. |
| Dice.DiceRollBounds | dice_roll.py:18-24 | For `NdS±M` with S > 0 the roll succeeds, lies in [N+M, N·S+M] and uses N draws. |
| Dice.PlainIntegerRoll | dice_roll.py:26-27 | A plain integer rolls to itself. |
| Text.Strip | DMui/qml_parallel_bridge.py:85 | `str.strip`: the result is the input minus its leading and trailing whitespace, and neither end of it is whitespace. |
| Text.StripLeft | battle_state_exporter.py:111 | Removes exactly the leading whitespace. |
| Text.StripRight | battle_state_exporter.py:111 | Removes exactly the trailing whitespace. |
| Text.FirstToken | combatant_factory.py:59 | `split()[0]`: absent exactly when the text is all whitespace. Otherwise it is a non-empty run without whitespace. |
| Text.ParseInt | DMui/qml_parallel_bridge.py:88-91 | `int(text)` succeeds only on text whose stripped form ends in a digit. |
| Text.ParseIntOfStripped | DMui/qml_parallel_bridge.py:85-89 | `int` ignores surrounding whitespace. |
| Text.IntToStringRoundTrip | dice_roll.py:10 | `int(str(n)) == n`. |
| Text.HtmlEscape | Pui/player_ui.py:156 | The escaped text contains no `<`, `>`, `"` or `'`. Text without those characters and without `&` is unchanged. |
| Text.SortedNames | Pui/player_ui.py:257-260 | `sorted(set)`: strictly increasing and holding exactly the set's members. |
| Text.LessTotal | Pui/player_ui.py:257 | The string order used by `sorted` is total. |
| Text.LessTransitive | Pui/player_ui.py:257 | The string order is transitive. |
| Text.MinimumExists | Pui/player_ui.py:257 | Every non-empty set of names has a least member. |
| Json.Get | Pui/player_ui.py:76-88 | `dict.get`: the stored value when the key is present, otherwise the default. |
| Json.AsInt | Pui/player_ui.py:214-218 | `isinstance(x, int)` holds exactly for ints and bools, and gives the int's value. |
| Json.IntOf | Pui/player_ui.py:264 | `int(x)` agrees with the int reading. A string fails exactly when it does not parse, and then with ValueError; None, lists and dicts fail with TypeError. |
| Json.IntOfDecimal | DMui/qml_parallel_bridge.py:98 | `int` of an integer's decimal text gives it back. |
| Json.IntOfRealTruncates | Pui/player_ui.py:264 | `int` of a float truncates toward zero. |

## Left out

- The polling thread, `time.sleep` and the Qt timers (battle_state_exporter.py:30-44, Pui/player_ui.py:130-132 and 323-326): they concern concurrency and timing. One tick is one method call.
- File and JSON I/O: writing the snapshot, and `os.makedirs` at a fixed path. Writes are the ghost log `written`, and `json.loads` of the display's file is the optional payload given to `Viewer.Tick`. Its error handling is `LoadState`.
- `time.time()`: it is a parameter of the tick.
- `id(combatant)`: it is the object's constant `addr`, which is injective.
- `random.randint`: it is an oracle with a draw counter.
- Loading the bestiary at import (combatant_factory.py:6-9): the bestiary is a map parameter.
- Qt signals, `beginResetModel`/`dataChanged` and `Property` plumbing. The display's notifications are a ghost list of notices.
- The `<span>` markup around names: the name part of a line is `HtmlEscape` of the name inside a fixed markup.
- `BattleEngine.roll_initiative` is not modelled. Initiative is fixed when a combatant is created: the given value, or the oracle's roll. So it is never None in the model, and the grouping's own `sorted(…, key=initiative)` agrees with the roster sort.
- The `"value": True` key that the controller's `addEffect` stores beside `duration` and `applied_round` is not modelled. Nothing reads it.
- `Text` and `Dice`: Unicode digits and whitespace, and `\w` beyond ASCII letters, digits, `_` and the Cyrillic block. `str.lower` (`Dice.Lower`) is modelled only for ASCII and Cyrillic capitals; other case mappings are not. `int()` of text is modelled as far as `ParseInt` goes: surrounding whitespace, an optional sign, ASCII digits with single underscores between them. Non-ASCII digits are not modelled.
- `Json`: the numeric nuances of JSON decoding (large floats, NaN) are not modelled.
- PlayerUi: the members require `WellFormedPayload`, which leaves out two kinds of payload. First, payloads that make the source crash part-way through: combatants that are not dicts, or names that are not strings, raise an AttributeError or TypeError. Second, payloads the source handles without raising but with Python semantics the value model does not share:
  - an id or state of another JSON kind (number, bool, list): Python's `==` and dict keys identify `True`, `1` and `1.0`, which `Json` equality does not, and a non-string state is rendered through `str()`;
  - a `display_name` or `name` that is falsy but not a string (0, `[]`, `{}`), which `or` skips;
  - `active_ids` given as a string or dict, where `in` tests substrings or keys and `list()` yields characters or keys.
- `BattleEngine.Engine.GetCurrent`: `sub_index` is never advanced by the source, so the member cursor stays 0. The contract states membership, not which member.
- The controller's glue slots are not modelled as methods: `addPlayer`, `addMonsters`, `startBattle`, `endBattle`, `shutdown` and the `combatants` property (DMui/qml_parallel_bridge.py:40-72, 113-180, 274-276). They compose the modelled factory, engine and publisher operations with status messages and Qt signals.
- DMui/master_ui.py, Pui/app.js, Pui/tools_ft_textures.py, monster_creator.py, DMui/run_master_ui.py and DMui/combatant_card.py are not part of this model. They are widget layout, DOM rendering, image fitting over floating point, JSON file editing, application launch, and a dialog.
- `Combatants.Combatant.__repr__` is not modelled. It only formats text.
- Dice.Format: a conversion (`!r`), a format specification (`:5`), an attribute (`.x`) or an index (`[0]`) after the field name is not applied: the field renders as the value's decimal text. Nested fields inside a format specification, and malformed conversions or specifications (ValueError in Python), are not modelled.

## Findings

| source | as written | input that shows it | evidently intended | confidence | as-written member | corrected member |
|---|---|---|---|---|---|---|
| combatant_factory.py:26-31 | `create_player` calls `Player(name=…, hp=…, ac=…, initiative=…)`, but `Player.__init__` (combatants.py:82) takes no `hp` or `ac` parameter | any call, e.g. `create_player("Ann")`: the initiative is rolled, then the constructor raises TypeError | create a player with untracked HP and AC, the given or rolled initiative, and the next factory id | not executed | CombatantFactory.Factory.CreatePlayerAsWritten | CombatantFactory.Factory.CreatePlayer |
