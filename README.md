# Minimal cultivation RPG — a verified model of the turn engine

This project models, in Dafny, the game logic of a small cultivation ("xiuxian")
role-playing game. It covers the enterprise version's turn engine and the first
prototype's rules.

**The character** (`Models`, `models.py`)
- Health saturates at 0 and at its maximum.
- Mana is spent all-or-nothing.
- The inventory holds only pills.
- Experience moves through six realms, 炼气期 → 筑基期 → 结丹期 → 元婴期 → 化神期 → 飞升. The thresholds are 100, 200, 400, 800 and 1600, and 飞升 (Ascension) is final.
- Talent, from 1 to 10, scales the gains.
- The game log keeps the newest 100 lines.

**The actions** (`Actions`, `actions.py`)
- Meditate (打坐), take a pill (吃丹药), cultivate (修炼) and wait (等待).
- Each has a cost, an eligibility test, a failure message and an `execute` that changes the character step by step.

**The rules** (`Rules`, `rules.py`)
- The talent bonus table.
- Realm thresholds and the next realm.
- The advice decision tree.
- The three difficulty presets.

**The turn engine** (`Core`, `game_core.py`)
- A turn starts with three refusals that change nothing: the game is over, the action is unknown, or the action is not allowed now.
- Then the action runs.
- Then comes the game-over check: death or Ascension.
- Also: reset, the list of available actions, a simulation that changes nothing, and a bounded state history.

**The supporting containers**
- The action registry (`Registry`).
- The state manager with rollback and diffs, and the snapshot manager (`States`).
- The event handler with priority-ordered listeners and the achievement tracker (`Events`).

**The pure formatters** of the renderer (`Interface`) and the colour themes (`Themes`).

**The first prototype's five rules** over its global state record (`Prototype`, `jixian_mvp_pygame.py`).

**How the source takes shape here**
- Objects the source updates in place are classes with `modifies` clauses. Each class has a pure snapshot (`Value()` or `State()`), and every method is proved equal to a transition function on that snapshot.
- The lemmas are stated about those functions.
- Loops of the source are `while` or `for` loops with invariants, proved against a specification function.
- Python's list slicing with negative and zero bounds, `int()` truncation, `pop(0)` on overflow and the stable `list.sort` are written out in `Builtins` and `Sorting`.
- Float multipliers are integer tenths.
- Percentages are exact ratios or integer comparisons (`10 * hp < 3 * maxHp`).

**Where the code does something other than its own docstrings and names suggest, the model follows the code:**
- Actions are looked up by their Chinese display name (`打坐`), not by `"meditate"`.
- One `add_experience` call crosses at most one realm.
- The character's talent bonus table has no `"wait"` entry, so it uses 1.0 there, while the rules table uses 0.2. The wait action uses fixed amounts.
- The game-over check runs only after a successful action.
- The difficulty's `talent_range` is never used; a difficulty only adds starting pills.
- The dashboard (`game_state`) is refreshed before the game-over check, so its `is_game_over` lags one step behind.
- The experience display prints `inf` for Ascension: Python's `str(float('inf'))`. The `∞` sign is printed only for a realm name no realm has.
- The achievement tracker reads `total_actions` from the status summary, which has no such key, so the three action-count achievements cannot be unlocked through the engine. The model takes the count as a parameter.

## Model

| member | source | states |
|---|---|---|
| Models.RealmIndex | versions/v2.0-enterprise/models.py:12-19 | the position of a realm in declaration order, unique |
| Models.RealmNameInjective | versions/v2.0-enterprise/models.py:14-19 | distinct realms have distinct display names |
| Models.RealmThreshold | versions/v2.0-enterprise/models.py:101-108 | the threshold is infinite exactly at Ascension |
| Models.GainExperience | versions/v2.0-enterprise/models.py:110-126 | both counters grow by the amount; a breakthrough happens iff the realm is not Ascension and its threshold is reached, and then it advances exactly one realm, keeps the surplus over the threshold and reports "突破至 …！"; otherwise realm unchanged and (false, None) |
| Models.GainKeepsWellFormed | versions/v2.0-enterprise/models.py:110-126 | a grant no larger than the realm's threshold keeps level experience non-negative and below the new realm's threshold |
| Models.ThreeHundredCrossesOneRealm | versions/v2.0-enterprise/models.py:116-124 | 300 experience from a fresh start reaches 筑基期 with 200 left over, not 结丹期 |
| Models.TotalNeverDecreases | versions/v2.0-enterprise/models.py:112-123 | for a non-negative amount the total never decreases, nor does the experience spent on breakthroughs |
| Models.ProgressPercentage | versions/v2.0-enterprise/models.py:128-133 | progress is 100 at Ascension, otherwise at most 100 and non-negative for non-negative experience |
| Models.ExperienceComponent.GetProgressPercentage | versions/v2.0-enterprise/models.py:128-133 | the component reports ProgressPercentage of its own experience, a percentage of at most 100 |
| Models.ExperienceComponent.constructor | versions/v2.0-enterprise/models.py:95-98 | starts at 0/0 in 炼气期 |
| Models.ExperienceComponent.AddExperience | versions/v2.0-enterprise/models.py:110-126 | new fields and the returned pair are those of GainExperience |
| Models.RestoredTo | versions/v2.0-enterprise/models.py:47-86 | a restore never passes the maximum, never gains more than the amount, never loses, and adds the whole amount when it fits |
| Models.HealthAfterConsume | versions/v2.0-enterprise/models.py:53-57 | health after a consume is never negative, drops by at most the amount, and by exactly the amount when affordable |
| Models.ManaAfterConsume | versions/v2.0-enterprise/models.py:81-86 | succeeds iff current ≥ amount, subtracting exactly the amount; otherwise mana is unchanged |
| Models.HealthComponent.constructor | versions/v2.0-enterprise/models.py:42-45 | full health |
| Models.HealthComponent.Restore | versions/v2.0-enterprise/models.py:47-51 | new health is RestoredTo and the result is new − old |
| Models.HealthComponent.Consume | versions/v2.0-enterprise/models.py:53-57 | new health is HealthAfterConsume and the result is old − new |
| Models.HealthComponent.GetHpPercentage | versions/v2.0-enterprise/models.py:63-65 | hp over max_hp, a fraction between 0 and 1 while hp is within its bounds |
| Models.ManaComponent.constructor | versions/v2.0-enterprise/models.py:70-73 | mana starts at max // 2 |
| Models.ManaComponent.Restore | versions/v2.0-enterprise/models.py:75-79 | new mana is RestoredTo and the result is new − old |
| Models.ManaComponent.Consume | versions/v2.0-enterprise/models.py:81-86 | result and new mana are those of ManaAfterConsume |
| Models.ManaComponent.GetMpPercentage | versions/v2.0-enterprise/models.py:88-90 | mp over max_mp, a fraction between 0 and 1 while mp is within its bounds |
| Models.TalentBonus | versions/v2.0-enterprise/models.py:144-152 | the bonus is base + talent × multiplier (0.8/1.5/1.0, 1.0 otherwise) truncated to an integer |
| Models.ItemCount | versions/v2.0-enterprise/models.py:176-178 | an unknown kind counts 0 |
| Models.WithItemAdded | versions/v2.0-enterprise/models.py:162-167 | succeeds iff the kind is known; adds exactly the amount to it and nothing else; keys unchanged |
| Models.WithItemConsumed | versions/v2.0-enterprise/models.py:169-174 | succeeds iff the kind is known and has enough; subtracts exactly the amount, nothing else changes |
| Models.AddThenConsume | versions/v2.0-enterprise/models.py:162-174 | consuming what was just added succeeds and gives back the original inventory |
| Models.InventoryComponent.constructor | versions/v2.0-enterprise/models.py:157-160 | the inventory is {"pill": 0} |
| Models.InventoryComponent.AddItem | versions/v2.0-enterprise/models.py:162-167 | result and new items are those of WithItemAdded |
| Models.InventoryComponent.ConsumeItem | versions/v2.0-enterprise/models.py:169-174 | result and new items are those of WithItemConsumed |
| Models.InventoryComponent.GetItemCount | versions/v2.0-enterprise/models.py:176-178 | the stored count of a held kind, 0 for any other kind |
| Models.NewCharacterConsistent | versions/v2.0-enterprise/models.py:183-193 | a new character satisfies the resource invariants |
| Models.Debit | versions/v2.0-enterprise/models.py:199-216 | succeeds iff hp, mp and pills cover the cost (time unchecked); on failure nothing changes; on success each resource is debited and total_actions grows by 1, all else unchanged |
| Models.CharacterStats.constructor | versions/v2.0-enterprise/models.py:183-193 | the state of a fresh character with the given talent |
| Models.CharacterStats.ApplyCost | versions/v2.0-enterprise/models.py:207-216 | result and new state are those of Debit |
| Models.Summary | versions/v2.0-enterprise/models.py:218-234 | the summary is alive iff hp is positive, names the realm and counts the pills; for a consistent character hp, mp and talent are in range and the level experience lies between 0 and the total |
| Models.CharacterStats.GetStatusSummary | versions/v2.0-enterprise/models.py:218-234 | the object's summary is Summary of its state, alive iff its health component holds positive hp |
| Models.Appended | versions/v2.0-enterprise/models.py:243-247 | the log grows by one unless over the bound, and never beyond a bound it respected |
| Models.AppendedKeepsNewest | versions/v2.0-enterprise/models.py:243-247 | the log after add_entry is the newest suffix of old log + message, ending with the message |
| Models.AppendedEndsWith | versions/v2.0-enterprise/models.py:243-247 | with a positive bound the new message is the last entry |
| Models.RecentEntries | versions/v2.0-enterprise/models.py:249-251 | the placeholder line when empty; otherwise the last min(count, size) entries, or all of them for count 0 |
| Models.GameLog.constructor | versions/v2.0-enterprise/models.py:239-241 | empty log with the given bound |
| Models.GameLog.AddEntry | versions/v2.0-enterprise/models.py:243-247 | the entries become Appended(old entries, bound, message) |
| Models.GameLog.GetRecentEntries | versions/v2.0-enterprise/models.py:249-251 | the log's RecentEntries: with a positive count, at most that many entries, all from the end of the log |
| Actions.Execute | versions/v2.0-enterprise/actions.py:29-31 | dispatch to the action's own execute: new state, result and log are those of Perform |
| Actions.Action.GetCost | versions/v2.0-enterprise/actions.py:44-235 | the four get_cost tables: meditate and wait cost 1 hp and 1 time, consume_pill 1 pill, cultivate 20 mp and 2 time; no component is negative and every action costs some hp, mp or pills |
| Actions.Action.CanExecute | versions/v2.0-enterprise/actions.py:179-181 | an action runs only for a living character, and only with the mana and pills its cost names (cultivate: mp >= 20; the pill: at least one pill) |
| Actions.Action.FailureMessage | versions/v2.0-enterprise/actions.py:33-225 | meditate and wait report the base class's "无法执行" + name; the pill and cultivate actions report "你已经无法行动" for a dead character, and for a living one "没有丹药可用" without pills (else "无法服用丹药") and "仙力不足，无法修炼" below 20 mp (else "无法修炼") |
| Actions.Perform | versions/v2.0-enterprise/actions.py:50-270 | no action changes the character's name, talent or maxima |
| Actions.ExecutableIsAffordable | versions/v2.0-enterprise/actions.py:50-56 | when an action may run its cost is affordable, so the internal apply_cost always succeeds |
| Actions.FailureChangesNothing | versions/v2.0-enterprise/actions.py:50-270 | success iff can_execute; a refused action changes nothing, returns its failure message with empty effects and costs, and logs nothing; a successful one logs its message |
| Actions.SuccessLogsMessage | versions/v2.0-enterprise/actions.py:82-84 | a successful action logs exactly its result message |
| Actions.MeditateEffects | versions/v2.0-enterprise/actions.py:44-73 | hp −1, mana +int(8 + 0.8·talent) capped, experience +int(3 + 0.8·talent), streak +1, one pill exactly when the new streak is a multiple of 5, total_actions +1 |
| Actions.MeditateReports | versions/v2.0-enterprise/actions.py:86-92 | pill_bonus 1 or 0 as above, mp_recovery is the mana actually gained, costs {hp: 1, time: 1} |
| Actions.ConsumePillEffects | versions/v2.0-enterprise/actions.py:108-134 | executable iff alive with a pill; one pill fewer, hp and mp +int(15 + talent) capped, experience +int(5 + talent), streak 0 |
| Actions.CultivateEffects | versions/v2.0-enterprise/actions.py:176-198 | executable iff alive with ≥ 20 mana; mana −20, hp unchanged, experience +int(12 + 1.5·talent), streak 0 |
| Actions.WaitEffects | versions/v2.0-enterprise/actions.py:234-257 | hp −1 then +2 capped, mana +3 capped, no experience, streak 0 |
| Actions.BreakthroughIsReported | versions/v2.0-enterprise/actions.py:94-97 | effects hold level_up exactly when the realm changed, with new_level the new realm's name |
| Actions.ExperienceGrantsAreSmall | versions/v2.0-enterprise/models.py:144-152 | for talent 1–10 the grants stay within 11, 15 and 27 |
| Actions.PerformKeepsConsistent | versions/v2.0-enterprise/actions.py:50-270 | every action keeps the character's resource invariants |
| Actions.ExecuteMeditate | versions/v2.0-enterprise/actions.py:50-99 | the imperative execute matches Perform(Meditate) on state, result and log |
| Actions.MeditateGains | versions/v2.0-enterprise/actions.py:59-64 | the restore and experience steps, with the reported amounts |
| Actions.MeditationStreak | versions/v2.0-enterprise/actions.py:66-73 | streak +1 and one pill on every fifth meditation |
| Actions.ExecuteConsumePill | versions/v2.0-enterprise/actions.py:115-160 | the imperative execute matches Perform(ConsumePill) |
| Actions.ConsumePillSteps | versions/v2.0-enterprise/actions.py:123-134 | the restore and experience steps, with the reported amounts |
| Actions.ExecuteCultivate | versions/v2.0-enterprise/actions.py:183-218 | the imperative execute matches Perform(Cultivate) |
| Actions.ExecuteWait | versions/v2.0-enterprise/actions.py:240-270 | the imperative execute matches Perform(Wait) |
| Actions.WaitSteps | versions/v2.0-enterprise/actions.py:248-257 | the fixed restores, with the amounts actually gained |
| Actions.FindByName | versions/v2.0-enterprise/actions.py:286-293 | the first catalog action whose display name equals the argument, None iff none does |
| Actions.GetActionByName | versions/v2.0-enterprise/actions.py:286-293 | the search loop returns FindByName over the catalog |
| Actions.LookupByDisplayName | versions/v2.0-enterprise/actions.py:277-293 | every action is found by its display name; "meditate" finds nothing |
| Rules.CalculateTalentBonus | versions/v2.0-enterprise/rules.py:55-76 | int(base + talent × multiplier) with 0.8/1.5/1.0/0.2 and 1.0 otherwise, never below base |
| Rules.BonusTablesAgree | versions/v2.0-enterprise/rules.py:55-76 | the rules table and the character's table agree on every kind except wait |
| Rules.WaitBonusDiffers | versions/v2.0-enterprise/rules.py:55-76 | for wait they differ: 3 against 7 at talent 5 |
| Rules.MeditationEffects | versions/v2.0-enterprise/rules.py:78-99 | the meditation table's keys |
| Rules.PillEffects | versions/v2.0-enterprise/rules.py:101-128 | the pill table's keys |
| Rules.CultivationEffects | versions/v2.0-enterprise/rules.py:130-144 | the cultivation table's keys |
| Rules.WaitEffects | versions/v2.0-enterprise/rules.py:146-167 | the wait table's keys |
| Rules.EffectTablesMatchActions | versions/v2.0-enterprise/rules.py:78-167 | the tables' amounts equal what the meditate, pill and cultivate actions grant (pill: hp and mp recovery both int(15 + talent)); wait's hp recovery is the action's fixed 2, and its mp recovery the action's fixed 3, iff talent < 5 |
| Rules.GetRealmThreshold | versions/v2.0-enterprise/rules.py:169-171 | the same thresholds as the experience component |
| Rules.ThresholdsIncrease | versions/v2.0-enterprise/rules.py:63-70 | thresholds strictly increase along the ladder; only Ascension's is infinite |
| Rules.GetNextRealm | versions/v2.0-enterprise/rules.py:173-179 | the following realm; a fixed point at Ascension |
| Rules.BreakthroughFollowsRules | versions/v2.0-enterprise/rules.py:181-184 | a breakthrough in add_experience happens iff can_breakthrough holds after the grant, and leads to get_next_realm |
| Rules.PowerLevelBounds | versions/v2.0-enterprise/rules.py:186-212 | the power level is 0 exactly for a dead character; for a living one it is the base score times the realm multiplier truncated, so at least talent × 10 × the multiplier |
| Rules.PowerGrowsWithRealm | versions/v2.0-enterprise/rules.py:200-212 | with everything else equal, a later realm never gives a lower power level |
| Rules.CanBreakthrough | versions/v2.0-enterprise/rules.py:181-184 | a breakthrough is never possible at Ascension and needs at least 100 level experience (the lowest threshold) |
| Rules.RecommendationCases | versions/v2.0-enterprise/rules.py:214-243 | each advice in terms of hp, mp (30%/80%) and the pill count, in branch order, both directions |
| Rules.Recommendation | versions/v2.0-enterprise/rules.py:214-243 | the restart advice is given exactly to a dead character; the three normal-state pieces of advice only when neither hp nor mp is below 30% |
| Rules.PillAdviceNeedsPills | versions/v2.0-enterprise/rules.py:224-243 | pill advice is given only with pills, the other advice only without |
| Rules.GetDifficultySettings | versions/v2.0-enterprise/rules.py:249-273 | unknown names use normal; starting pills 3/1/0 |
| Rules.WithDifficulty | versions/v2.0-enterprise/rules.py:275-280 | only the pill count changes, by the preset's starting pills |
| Rules.ApplyDifficultyToCharacter | versions/v2.0-enterprise/rules.py:275-280 | the character becomes WithDifficulty |
| Core.ExecutableNames | versions/v2.0-enterprise/core/game_core.py:406-410 | no more names than actions scanned |
| Core.ExecutableNamesMembers | versions/v2.0-enterprise/core/game_core.py:406-410 | the names are exactly those of the actions that can execute |
| Core.DisplayName | versions/v2.0-enterprise/core/game_core.py:45 | `name or "无名修士"` is never empty |
| Core.ResetDifficulty | versions/v2.0-enterprise/core/game_core.py:259 | a given non-empty difficulty wins; None and the empty string keep the current one |
| Core.TurnKeepsConsistent | versions/v2.0-enterprise/core/game_core.py:79-185 | every turn keeps the game consistent |
| Core.Turn | versions/v2.0-enterprise/core/game_core.py:79-185 | a turn never changes the difficulty and never clears the game-over flag |
| Core.RejectedTurnsChangeNothing | versions/v2.0-enterprise/core/game_core.py:87-112 | success iff the action is available; otherwise nothing changes, effects and costs are empty, and the message is "游戏已结束", "未找到动作: …" or the action's own failure message in that order |
| Core.GameOverAfterSuccess | versions/v2.0-enterprise/core/game_core.py:114-244 | after a successful action the game is over iff the character died or reached 飞升; the dashboard was refreshed before the check |
| Core.CheckedLastLine | versions/v2.0-enterprise/core/game_core.py:202-244 | the game-over check logs the death line, the victory line, or nothing |
| Core.PlayedLastLine | versions/v2.0-enterprise/core/game_core.py:114-170 | the last log line of a played action is the death line, the victory line or the action's message |
| Core.TurnOnSuccess | versions/v2.0-enterprise/core/game_core.py:114-177 | an available action is played and its result returned |
| Core.LastLineOfSuccess | versions/v2.0-enterprise/core/game_core.py:114-177 | the last log line after a successful turn |
| Core.GameOverIsFinal | versions/v2.0-enterprise/core/game_core.py:87-93 | once over, no sequence of turns changes the game |
| Core.SimulationMatchesTurn | versions/v2.0-enterprise/core/game_core.py:450-496 | a simulation succeeds iff the turn would, refuses with the same result, and on success reports "预期执行: …" and the action's cost |
| Core.Simulated | versions/v2.0-enterprise/core/game_core.py:450-496 | a simulation has no effects and succeeds exactly when the action is available |
| Core.AvailableMeansExecutable | versions/v2.0-enterprise/core/game_core.py:400-428 | a name is listed as available iff is_action_available holds |
| Core.InitializedStartsFresh | versions/v2.0-enterprise/core/game_core.py:30-77 | a fresh, consistent game with the difficulty's pills, the two welcome lines, and the stale dashboard flag |
| Core.Initialized | versions/v2.0-enterprise/core/game_core.py:30-77 | a new game is running, has the chosen difficulty, a living character with the given name (or the default) and talent, and a log of the welcome and talent lines |
| Core.GameCore.constructor | versions/v2.0-enterprise/core/game_core.py:15-24 | no character, empty log, not over, "normal" |
| Core.GameCore.InitializeGame | versions/v2.0-enterprise/core/game_core.py:30-77 | the new state is Initialized |
| Core.GameCore.NewGameObjects | versions/v2.0-enterprise/core/game_core.py:44-56 | a fresh character with the difficulty applied, and a log with the two welcome lines |
| Core.GameCore.ResetGame | versions/v2.0-enterprise/core/game_core.py:250-260 | initialize with the given or the current difficulty |
| Core.GameCore.ExecuteAction | versions/v2.0-enterprise/core/game_core.py:79-185 | new state and result are those of Turn |
| Core.GameCore.UpdateGameState | versions/v2.0-enterprise/core/game_core.py:187-200 | the dashboard is refreshed from the character |
| Core.GameCore.CheckGameOver | versions/v2.0-enterprise/core/game_core.py:202-244 | the new state is CheckedForGameOver |
| Core.CheckedForGameOver | versions/v2.0-enterprise/core/game_core.py:202-244 | the game is over afterwards iff it was over, or the character is dead or at Ascension; the character, difficulty and dashboard are kept |
| Core.GameCore.GetAvailableActions | versions/v2.0-enterprise/core/game_core.py:400-410 | the loop returns AvailableActions |
| Core.GameCore.IsActionAvailableNow | versions/v2.0-enterprise/core/game_core.py:419-428 | agrees with the listing of available actions |
| Core.GameCore.SimulateAction | versions/v2.0-enterprise/core/game_core.py:450-496 | the result is Simulated; nothing changes |
| Core.GetActionDescription | versions/v2.0-enterprise/core/game_core.py:430-435 | the action's description, or "未知动作" |
| Core.GetActionCost | versions/v2.0-enterprise/core/game_core.py:437-448 | the action's cost as a map of hp/mp/pills/time, or an empty map |
| Core.PreviousState | versions/v2.0-enterprise/core/game_core.py:512-516 | present iff the history is longer than steps; then history[-steps-1], counted from the end for steps >= 0 and from the front for negative steps |
| Core.PreviousAfterSave | versions/v2.0-enterprise/core/game_core.py:506-516 | below the bound, the state just saved is at 0 steps and older ones shift by one |
| Core.GameStateManager.constructor | versions/v2.0-enterprise/core/game_core.py:502-504 | empty history, bound 100 |
| Core.GameStateManager.SaveState | versions/v2.0-enterprise/core/game_core.py:506-510 | append, dropping the oldest past the bound |
| Core.GameStateManager.ClearHistory | versions/v2.0-enterprise/core/game_core.py:518-520 | the history is empty |
| Core.GameStateManager.GetPreviousState | versions/v2.0-enterprise/core/game_core.py:512-516 | the manager reads PreviousState of its history: present iff the history is longer than steps |
| Registry.SortOrders | versions/v2.0-enterprise/core/action_registry.py:157 | a sort key for every registered id |
| Registry.RemoveFirst | versions/v2.0-enterprise/core/action_registry.py:114-115 | list.remove at its guarded call site (the id is checked to be in the list first, since list.remove raises ValueError otherwise): exactly one occurrence leaves |
| Registry.DistinctAfterRemove | versions/v2.0-enterprise/core/action_registry.py:114-115 | removing from a list without repeats leaves the others and drops the id |
| Registry.EnabledOnly | versions/v2.0-enterprise/core/action_registry.py:160 | the filter never grows the list |
| Registry.EnabledOnlyMembers | versions/v2.0-enterprise/core/action_registry.py:160 | it keeps exactly the enabled ids; unknown ids count as enabled |
| Registry.EnabledOnlyAll | versions/v2.0-enterprise/core/action_registry.py:160 | a list of enabled ids passes unchanged |
| Registry.InfoFor | versions/v2.0-enterprise/core/action_registry.py:60-76 | missing display name and description default to the action's own |
| Registry.CountEnabled | versions/v2.0-enterprise/core/action_registry.py:257 | at most the list's length; its value is given by CountEnabledIsFiltered |
| Registry.RemoveFirstSplits | versions/v2.0-enterprise/core/action_registry.py:114-115 | the occurrence removed is the first one, and the rest keeps its order |
| Registry.CountEnabledIsFiltered | versions/v2.0-enterprise/core/action_registry.py:257 | when every id has info, a category's "enabled" count is the number of ids the enabled filter keeps |
| Registry.RemovedStaysDistinct | versions/v2.0-enterprise/core/action_registry.py:114-115 | a category list keeps no repeats after a remove |
| Registry.LeavingOldFacts | versions/v2.0-enterprise/core/action_registry.py:78-86 | moving an id out of its old category keeps the other ids filed |
| Registry.FiledOnce | versions/v2.0-enterprise/core/action_registry.py:83-86 | the id is appended only if absent, so it appears exactly once |
| Registry.RegisteredDistinct | versions/v2.0-enterprise/core/action_registry.py:78-86 | after register no category list repeats an id |
| Registry.RegisteredFiled | versions/v2.0-enterprise/core/action_registry.py:78-86 | every registered id is filed under its category |
| Registry.RegisteredListed | versions/v2.0-enterprise/core/action_registry.py:78-86 | every filed id is registered under that category |
| Registry.RegisterKeepsLinked | versions/v2.0-enterprise/core/action_registry.py:56-88 | the corrected register keeps the three tables linked and stores the instance and info under the id |
| Registry.UnregisteredMembers | versions/v2.0-enterprise/core/action_registry.py:104-117 | unregister removes exactly the id from the category lists |
| Registry.UnregisteredDistinct | versions/v2.0-enterprise/core/action_registry.py:104-117 | no repeats after unregister |
| Registry.UnregisterKeepsLinked | versions/v2.0-enterprise/core/action_registry.py:94-118 | succeeds iff registered; on failure nothing changes; on success the id is gone everywhere and the tables stay linked |
| Registry.UnregisteredFiled | versions/v2.0-enterprise/core/action_registry.py:104-117 | every remaining id is still filed |
| Registry.UnregisteredListed | versions/v2.0-enterprise/core/action_registry.py:104-117 | every filed id is still registered |
| Registry.EnableKeepsLinked | versions/v2.0-enterprise/core/action_registry.py:180-208 | succeeds iff the id has info; sets exactly its flag; nothing else changes |
| Registry.SameMembers | versions/v2.0-enterprise/core/action_registry.py:157 | sorting keeps the members and the absence of repeats |
| Registry.ListingIsSorted | versions/v2.0-enterprise/core/action_registry.py:154-160 | the listing is ordered by sort_order |
| Registry.ListingMembers | versions/v2.0-enterprise/core/action_registry.py:154-160 | the listing holds exactly the enabled ids of the list, without repeats |
| Registry.ListingKeepsLinked | versions/v2.0-enterprise/core/action_registry.py:157 | sorting the stored list in place keeps the tables linked |
| Registry.CategoryListing | versions/v2.0-enterprise/core/action_registry.py:144-160 | the listing is sorted, without repeats, and holds exactly the enabled ids registered under the category |
| Registry.EnabledOnlyKeepsOrder | versions/v2.0-enterprise/core/action_registry.py:160 | filtering keeps the order |
| Registry.StatsAddUp | versions/v2.0-enterprise/core/action_registry.py:244-269 | disabled = total − enabled |
| Registry.ValidationFindsExactly | versions/v2.0-enterprise/core/action_registry.py:300-334 | no issues iff the two tables have the same ids and every info has a name and a description |
| Registry.StaleCategoryEntry | versions/v2.0-enterprise/core/action_registry.py:78-118 | as written, re-registering under another category and then unregistering leaves the id listed in its first category |
| Registry.AsWrittenAgreesUnlessMoved | versions/v2.0-enterprise/core/action_registry.py:78-86 | the register as written equals the corrected one exactly when the id is new or keeps its category; a moved id stays in its old list and the tables are no longer linked |
| Registry.GameActionsLinked | versions/v2.0-enterprise/core/action_registry.py:341-380 | registering the four game actions as written and listing "game" (which sorts that list in place) keeps the tables linked when none of the four ids is filed under another category |
| Registry.GameFiling | versions/v2.0-enterprise/core/action_registry.py:341-380 | after the four registrations the four ids are filed under "game" in order, with sort orders 1–4, enabled |
| Registry.ListingInOrder | versions/v2.0-enterprise/core/action_registry.py:144-160 | a list already in sort order, all enabled, is listed as is |
| Registry.GameListing | versions/v2.0-enterprise/core/action_registry.py:341-392 | on a fresh registry the final listing's in-place sort changes nothing, and the game listing is meditate, consume_pill, cultivate, wait |
| Registry.ActionRegistry.constructor | versions/v2.0-enterprise/core/action_registry.py:30-33 | three empty tables |
| Registry.ActionRegistry.RegisterAction | versions/v2.0-enterprise/core/action_registry.py:35-92 | the new state is RegisteredAsWritten: instance and info stored, id appended to its category once, and left in any old category |
| Registry.ActionRegistry.UnregisterAction | versions/v2.0-enterprise/core/action_registry.py:94-118 | result and new state are those of Unregistered |
| Registry.ActionRegistry.GetActionsByCategory | versions/v2.0-enterprise/core/action_registry.py:144-160 | the stored list is sorted in place and the enabled ids returned, as ByCategory |
| Registry.ActionRegistry.EnableAction | versions/v2.0-enterprise/core/action_registry.py:180-193 | as WithEnabled(true) |
| Registry.ActionRegistry.DisableAction | versions/v2.0-enterprise/core/action_registry.py:195-208 | as WithEnabled(false) |
| Registry.ActionRegistry.IsActionEnabled | versions/v2.0-enterprise/core/action_registry.py:210-221 | false for unknown ids |
| Registry.ActionRegistry.GetRegistryStats | versions/v2.0-enterprise/core/action_registry.py:244-269 | the registry's Stats: total actions, category count and one entry per category (StatsAddUp shows enabled + disabled = total) |
| Registry.ActionRegistry.ValidateRegistry | versions/v2.0-enterprise/core/action_registry.py:300-334 | the registry's Issues, which ValidationFindsExactly shows are reported iff the defect exists |
| Registry.ExecuteActionSafely | versions/v2.0-enterprise/core/action_registry.py:395-436 | "未找到动作: …" or "动作已禁用: …" without executing anything; otherwise the action's execute |
| States.StepsBack | versions/v2.0-enterprise/core/state_manager.py:49-59 | present iff the history holds at least steps entries; then history[-steps]: the steps-th newest for steps > 0, history[-steps] from the front for steps <= 0 |
| States.DropNewest | versions/v2.0-enterprise/core/state_manager.py:74-76 | popping steps times leaves the oldest entries |
| States.DiffOverNone | versions/v2.0-enterprise/core/state_manager.py:178 | the diff over no keys is empty |
| States.DiffOverAdd | versions/v2.0-enterprise/core/state_manager.py:183-191 | one more key adds an entry iff its values differ |
| States.Latest | versions/v2.0-enterprise/core/state_manager.py:268-270 | present iff there are snapshots |
| States.UpdateKeepsValid | versions/v2.0-enterprise/core/state_manager.py:19-47 | update keeps the history within 50 non-empty entries and makes the new state current |
| States.UpdateSavesCurrent | versions/v2.0-enterprise/core/state_manager.py:25-27 | a non-empty current state is the newest history entry |
| States.RollbackUndoesUpdate | versions/v2.0-enterprise/core/state_manager.py:19-79 | below the bound, rolling back one step undoes an update |
| States.RollbackSucceedsIff | versions/v2.0-enterprise/core/state_manager.py:61-79 | succeeds iff the history holds steps entries; then current is that state and steps entries are gone; otherwise nothing changes |
| States.DiffEmptyIffEqual | versions/v2.0-enterprise/core/state_manager.py:169-193 | the diff is empty iff the states are equal |
| States.PatchRoundTrip | versions/v2.0-enterprise/core/state_manager.py:169-193 | applying the diff's new values to the old state gives the new state |
| States.DiffSwaps | versions/v2.0-enterprise/core/state_manager.py:169-193 | swapping the states swaps old and new in every entry |
| States.MissingFieldInvalid | versions/v2.0-enterprise/core/state_manager.py:205-209 | a state missing character, game_log or actions is invalid |
| States.ConsistentCharacterValid | versions/v2.0-enterprise/core/state_manager.py:195-229 | a state with the fields and a consistent character is valid |
| States.LatestAfterCreate | versions/v2.0-enterprise/core/state_manager.py:259-270 | the snapshot just created is the latest |
| States.FirstFromFinds | versions/v2.0-enterprise/core/state_manager.py:272-277 | the first snapshot with the description, None iff there is none |
| States.StateManager.constructor | versions/v2.0-enterprise/core/state_manager.py:14-17 | empty state and history, bound 50 |
| States.StateManager.UpdateState | versions/v2.0-enterprise/core/state_manager.py:19-30 | the new state is Updated |
| States.StateManager.AddToHistory | versions/v2.0-enterprise/core/state_manager.py:36-47 | append, dropping the oldest past the bound |
| States.StateManager.RollbackState | versions/v2.0-enterprise/core/state_manager.py:61-79 | result and new state are those of RolledBack |
| States.StateManager.ClearHistory | versions/v2.0-enterprise/core/state_manager.py:81-83 | the history is empty, the current state kept |
| States.StateManager.GetPreviousState | versions/v2.0-enterprise/core/state_manager.py:49-59 | the manager reads StepsBack of its history: the steps-th newest entry for a positive step |
| States.StateManager.GetStateDiff | versions/v2.0-enterprise/core/state_manager.py:169-193 | the loop over the union of keys computes Diff |
| States.StateManager.ValidateState | versions/v2.0-enterprise/core/state_manager.py:195-233 | the loop computes ValidState |
| States.SnapshotManager.constructor | versions/v2.0-enterprise/core/state_manager.py:255-257 | no snapshots |
| States.SnapshotManager.CreateSnapshot | versions/v2.0-enterprise/core/state_manager.py:259-266 | append, dropping the oldest past the bound |
| States.SnapshotManager.GetLatestSnapshot | versions/v2.0-enterprise/core/state_manager.py:268-270 | the newest snapshot, None iff there is none |
| States.SnapshotManager.GetSnapshotByDescription | versions/v2.0-enterprise/core/state_manager.py:272-277 | the search loop returns FirstWithDescription |
| States.SnapshotManager.ClearSnapshots | versions/v2.0-enterprise/core/state_manager.py:288-290 | no snapshots |
| Events.Without | versions/v2.0-enterprise/core/event_handler.py:108-111 | the filter never grows the list |
| Events.OfType | versions/v2.0-enterprise/core/event_handler.py:166-167 | the filter never grows the history |
| Events.RegisterKeepsValid | versions/v2.0-enterprise/core/event_handler.py:86-96 | registration keeps every list sorted by priority, highest first |
| Events.RegisterIsStable | versions/v2.0-enterprise/core/event_handler.py:86-96 | the new list is the old one plus the listener, and listeners of equal priority keep registration order |
| Events.WithoutKeeps | versions/v2.0-enterprise/core/event_handler.py:107-111 | the filter keeps exactly the listeners whose id differs, in order |
| Events.UnregisterKeeps | versions/v2.0-enterprise/core/event_handler.py:98-113 | true iff the type has a list; otherwise nothing changes; the remaining listeners are those whose id differs |
| Events.DispatchRecords | versions/v2.0-enterprise/core/event_handler.py:48-145 | disabled: false and nothing recorded; enabled: the event is the newest in history and the answer is true iff some enabled listener of the type did not raise |
| Events.OfTypeKeeps | versions/v2.0-enterprise/core/event_handler.py:166-167 | the filter keeps exactly the events of the type |
| Events.HistoryQuery | versions/v2.0-enterprise/core/event_handler.py:155-170 | the newest min(limit, n) events of the type, oldest first |
| Events.TotalFromSplit | versions/v2.0-enterprise/core/event_handler.py:195 | the total counts each type's list once |
| Events.AllEventTypesListed | versions/v2.0-enterprise/core/event_handler.py:11-25 | every event type is listed once |
| Events.RegisterCounts | versions/v2.0-enterprise/core/event_handler.py:184-195 | registration adds one to its type's count and to the total |
| Events.UnlockIdempotent | versions/v2.0-enterprise/core/event_handler.py:291-295 | unlocked afterwards, announced only the first time, a second unlock changes nothing, other entries unchanged |
| Events.UnlockGrows | versions/v2.0-enterprise/core/event_handler.py:291-295 | what was unlocked stays unlocked |
| Events.EventHandler.constructor | versions/v2.0-enterprise/core/event_handler.py:70-74 | no listeners, empty history, enabled, bound 100 |
| Events.EventHandler.RegisterListener | versions/v2.0-enterprise/core/event_handler.py:76-96 | new state and id are those of WithListener |
| Events.EventHandler.UnregisterListener | versions/v2.0-enterprise/core/event_handler.py:98-113 | as WithoutListener |
| Events.EventHandler.DispatchEvent | versions/v2.0-enterprise/core/event_handler.py:115-145 | the loop over the listeners computes Dispatched |
| Events.EventHandler.AddToHistory | versions/v2.0-enterprise/core/event_handler.py:147-153 | append, dropping the oldest past the bound |
| Events.EventHandler.ClearHistory | versions/v2.0-enterprise/core/event_handler.py:172-174 | the history is empty |
| Events.EventHandler.Enable | versions/v2.0-enterprise/core/event_handler.py:176-178 | the handler is enabled |
| Events.EventHandler.Disable | versions/v2.0-enterprise/core/event_handler.py:180-182 | the handler is disabled |
| Events.EventHandler.GetEventHistory | versions/v2.0-enterprise/core/event_handler.py:155-170 | the handler's EventHistory: never more events than recorded; unfiltered with a positive limit, the newest events in order |
| Events.EventHandler.GetListenerCount | versions/v2.0-enterprise/core/event_handler.py:184-195 | the number of listeners of the given type, or ListenerCount over all types |
| Events.EventHandler.RemoveAllListeners | versions/v2.0-enterprise/core/event_handler.py:197-206 | one type's list or all lists are emptied |
| Events.AchievementTracker.constructor | versions/v2.0-enterprise/core/event_handler.py:236-239 | no achievements |
| Events.AchievementTracker.UnlockAchievement | versions/v2.0-enterprise/core/event_handler.py:291-295 | as Unlocked |
| Events.AchievementTracker.OnLevelUp | versions/v2.0-enterprise/core/event_handler.py:249-253 | first_breakthrough on reaching 筑基期 |
| Events.AchievementTracker.OnMeditationStreak | versions/v2.0-enterprise/core/event_handler.py:255-261 | beginner at 5, master at 10 |
| Events.AchievementTracker.OnCharacterDied | versions/v2.0-enterprise/core/event_handler.py:263-265 | first_death |
| Events.AchievementTracker.OnPillObtained | versions/v2.0-enterprise/core/event_handler.py:267-271 | first_pill for at least one pill |
| Events.AchievementTracker.OnActionExecuted | versions/v2.0-enterprise/core/event_handler.py:273-289 | first_action at 1, persistent_cultivator from 10, cultivation_enthusiast for 修炼 from 5 |
| Interface.FormatGameLog | versions/v2.0-enterprise/ui/interface.py:247-270 | the loop builds GameLogLines |
| Interface.GameLogTail | versions/v2.0-enterprise/ui/interface.py:256-270 | the newest min(max, n) entries, in order, each prefixed "> "; all of them for max 0 |
| Interface.GameLogLines | versions/v2.0-enterprise/ui/interface.py:247-270 | the opening line for an empty log; otherwise at most one line per entry, each starting with "> ", and min(max, entries) lines for a positive max |
| Interface.FormatActionButtons | versions/v2.0-enterprise/ui/interface.py:179-203 | the loop builds one button per action |
| Interface.ButtonsFollowEligibility | versions/v2.0-enterprise/ui/interface.py:188-203 | one visible button per action in order, enabled iff the action can execute, tooltip the description or "条件不足" |
| Interface.CharacterInfoThreshold | versions/v2.0-enterprise/ui/interface.py:138-177 | the panel shows the threshold of the character's own realm |
| Interface.CharacterInfo | versions/v2.0-enterprise/ui/interface.py:138-177 | the panel shows the character's own name, talent, pills, hp and mp with their maxima, and hp and mp over their maxima |
| Interface.UnknownRealmNameFallsBack | versions/v2.0-enterprise/ui/interface.py:151-160 | an unknown realm name falls back to 炼气期 |
| Interface.StatusRecommendationAgrees | versions/v2.0-enterprise/ui/interface.py:272-287 | the renderer's advice is the rules' advice |
| Interface.StatusRecommendation | versions/v2.0-enterprise/ui/interface.py:272-287 | a dead character gets the restart advice |
| Interface.ProgressBarShape | versions/v2.0-enterprise/ui/interface.py:289-305 | for 0 ≤ current ≤ maximum the bar is width long: current·width/maximum full blocks, then light ones |
| Interface.ProgressBar | versions/v2.0-enterprise/ui/interface.py:289-305 | the bar is made of full and light blocks only; without a positive maximum it is width light blocks |
| Interface.EmptyBar | versions/v2.0-enterprise/ui/interface.py:299-300 | maximum ≤ 0 gives width light blocks |
| Interface.FormatExpDisplay | versions/v2.0-enterprise/ui/interface.py:307-332 | the loop over the realms computes ExpText |
| Interface.ExpTextOfCharacter | versions/v2.0-enterprise/ui/interface.py:307-332 | a character's display is exp/threshold, "inf" at Ascension |
| Interface.ExpText | versions/v2.0-enterprise/ui/interface.py:307-332 | the text starts with the experience and a slash and has something after it |
| Interface.HitTestEdges | versions/v2.0-enterprise/ui/interface.py:402-406 | the hit test is inclusive on all four edges: the corners are inside, the points one step beyond each edge are not, and moving both together changes nothing |
| Themes.ButtonStatesBracketBase | versions/v2.0-enterprise/ui/themes.py:84-95 | hover and pressed stay within 0–255, on either side of the base colour |
| Themes.HoverPressInverse | versions/v2.0-enterprise/ui/themes.py:88-91 | away from the range's ends, pressed undoes hover and hover undoes pressed |
| Themes.ButtonColorFallbacks | versions/v2.0-enterprise/ui/themes.py:84-95 | disabled ignores the action; other states give the base; unknown names use BUTTON_NORMAL |
| Themes.ButtonColor | versions/v2.0-enterprise/ui/themes.py:84-95 | every state of a button gives a valid RGB colour when the theme's colours are valid |
| Themes.HpColorBands | versions/v2.0-enterprise/ui/themes.py:75-82 | each colour iff its band; more health is never more alarming |
| Themes.HpColor | versions/v2.0-enterprise/ui/themes.py:75-82 | the colour is the theme's health colour, the warning yellow or the danger red, the first above 0.6 |
| Themes.SetThenGet | versions/v2.0-enterprise/ui/themes.py:128-137 | a known name becomes the default theme; an unknown one changes nothing and gets the default theme |
| Themes.ThemeManager.constructor | versions/v2.0-enterprise/ui/themes.py:121-126 | the two themes, "default" current |
| Themes.ThemeManager.GetTheme | versions/v2.0-enterprise/ui/themes.py:128-132 | as ThemeFor |
| Themes.ThemeManager.SetTheme | versions/v2.0-enterprise/ui/themes.py:134-137 | as ThemeSet |
| Themes.ThemeManager.GetAvailableThemes | versions/v2.0-enterprise/ui/themes.py:139-141 | "default", "dark": exactly the known names |
| Prototype.LevelIndex | versions/v1.0-mvp/jixian_mvp_pygame.py:41 | the first position of the level's name |
| Prototype.UpdateLevelOneStep | versions/v1.0-mvp/jixian_mvp_pygame.py:39-45 | at 100 or more below 飞升, exactly one level up with exp 0 and a log line; otherwise nothing changes |
| Prototype.BreakthroughDiscardsSurplus | versions/v1.0-mvp/jixian_mvp_pygame.py:43-44 | 195 experience leaves 0 after a breakthrough |
| Prototype.MeditateEffects | versions/v1.0-mvp/jixian_mvp_pygame.py:48-59 | nothing without health; else mp +10 to 100, hp −2, count +1, a pill iff the count is a multiple of 5 |
| Prototype.MeditateGoesNegative | versions/v1.0-mvp/jixian_mvp_pygame.py:54 | meditating at 1 hp leaves −1 |
| Prototype.ConsumePillEffects | versions/v1.0-mvp/jixian_mvp_pygame.py:61-68 | a pill is spent to restore 20 hp and mp up to 100, with its log line, and experience, talent, count and level stay; without pills only a log line |
| Prototype.CultivateEffects | versions/v1.0-mvp/jixian_mvp_pygame.py:70-77 | 20 mp buys 15 + 2·talent experience, hp, pills, talent and count stay, and the last line is the cultivation line; otherwise only a log line |
| Prototype.WaitTurnEffects | versions/v1.0-mvp/jixian_mvp_pygame.py:79-82 | hp becomes max(0, hp − 1), nothing else but the log changes, and the log gains exactly the failure line iff hp reaches 0 |
| Prototype.UpdateLevelKeepsSane | versions/v1.0-mvp/jixian_mvp_pygame.py:39-45 | keeps the invariant, the level never drops |
| Prototype.MeditateKeepsSane | versions/v1.0-mvp/jixian_mvp_pygame.py:48-59 | keeps the invariant, the level never drops |
| Prototype.CultivateKeepsSane | versions/v1.0-mvp/jixian_mvp_pygame.py:70-77 | keeps the invariant, the level never drops |
| Prototype.StepKeepsSane | versions/v1.0-mvp/jixian_mvp_pygame.py:48-82 | every action keeps 0 ≤ mp ≤ 100, −1 ≤ hp ≤ 100, no negative pills, a listed level |
| Prototype.PlayKeepsSane | versions/v1.0-mvp/jixian_mvp_pygame.py:48-82 | any sequence of actions keeps the invariant and never lowers the level |
| Prototype.Cultivator.constructor | versions/v1.0-mvp/jixian_mvp_pygame.py:17-26 | the starting record |
| Prototype.Cultivator.UpdateLevel | versions/v1.0-mvp/jixian_mvp_pygame.py:39-45 | as LevelUpdated |
| Prototype.Cultivator.Meditate | versions/v1.0-mvp/jixian_mvp_pygame.py:48-59 | as Meditated |
| Prototype.Cultivator.ConsumePill | versions/v1.0-mvp/jixian_mvp_pygame.py:61-68 | as PillTaken |
| Prototype.Cultivator.Cultivate | versions/v1.0-mvp/jixian_mvp_pygame.py:70-77 | as Cultivated |
| Prototype.Cultivator.WaitTurn | versions/v1.0-mvp/jixian_mvp_pygame.py:79-82 | as Waited |
| Sorting.SortByIsSorted | versions/v2.0-enterprise/core/event_handler.py:94 | the stable sort orders by the key |
| Sorting.SortByIsPermutation | versions/v2.0-enterprise/core/event_handler.py:94 | the stable sort is a permutation |
| Sorting.SortByIsStable | versions/v2.0-enterprise/core/action_registry.py:157 | equal keys keep their order |

## Left out

- Saving and loading games, JSON export and import, files (`save_game`, `load_game`, the state manager's export, import and file methods), and `print` output.
- Timestamps and wall-clock time: events and history entries carry no time.
- Random talent: it is a parameter from 1 to 10.
- Event dispatch from the turn engine is not modelled, and the logging listener is left out. The achievement tracker's handlers are methods, but its listener registration is left out.
- Listener callbacks: the set of listener keys whose callback raises is a parameter of a dispatch.
- Listener identity: `id(listener)` is modelled as a counter key.
- `restore_from_snapshot`, `get_snapshot_list`, `search_actions`, `export_registry_info`, `get_all_action_ids`, `get_action` and `get_action_info` are not modelled: they are plain reads, printing, or float-free copies of the modelled tables.
- The `hasattr` checks of `validate_registry` always pass for these actions.
- Dictionary order of Python maps is not modelled, except where a list keeps it.
- The in-place sort is modelled as a stable-sort function assigned back to the stored list.
- Values in the state manager's dictionaries are characters or text; `None` values are not modelled.
- `get_gradient_color` is left out because it interpolates colours in floating point.
- Rules.PowerLevel: the score is computed in exact tenths and hundredths, while the source sums floats such as `hp * 0.3`, so the float result can truncate one lower (0.3 × 3 is 0.8999… in floating point).
- FontManager, the pygame renderer, layouts, the application loop and the prototype's pygame loop are not part of this model.
- Interface.ProgressBarShape: exact arithmetic, while the source computes `int(current / maximum * width)` in floating point, which can land one block lower (0.29 × 100 is 28.999… in floating point).
- Themes.HpColorBands: the fraction is an exact real, not a float.
- Core.PreviousState: `history[-steps - 1]` raises IndexError for a negative step whenever `-steps - 1 >= len(history)`, on any history; the model requires a negative step to index the history. A zero step on an empty history is not an error: `len(history) > 0` fails and the result is None.
- Core.GameStateManager.GetPreviousState: the same IndexError for a negative step past the end is excluded by its requires.
- States.StepsBack: for `steps_back <= 0` the guard `len(history) >= steps_back` always passes and `history[-steps_back]` indexes from the front, which raises IndexError when `-steps_back >= len(history)` (every zero step on an empty history); the model requires such a step to index the history.
- States.StateManager.GetPreviousState: the same IndexError for `steps_back <= 0` past the end is excluded by its requires.
- States.StateManager.RollbackState: the same IndexError for `steps_back <= 0` is excluded by its requires. Characters are also kept as values: `state.copy()` is shallow, so in Python every history entry shares the one live CharacterStats object, and a rollback brings back that object as it is now, not an older character.
- States.DiffEmptyIffEqual: characters are compared as values. CharacterStats defines no `__eq__`, so Python compares two characters by identity, and two distinct but equal character objects count as a change there and not in the model. The same holds for States.Diff and States.StateManager.GetStateDiff.
- The `except Exception` paths are not modelled, because nothing in the modelled code raises there: `execute_action`'s "执行动作时出错" branch, `initialize_game`'s path that returns False, `register_action`'s path that returns False, and `execute_action_safely`'s handler.
- Events.EventHandler.RemoveAllListeners: removing the listeners of a type that was never registered raises KeyError; the model requires a registered type.
- Prototype.LevelIndex: `LEVELS.index` on a name outside the list raises ValueError; the model requires a listed level, which every reachable record has.

## Findings

| source | as written | input that shows it | evidently intended | confidence | as-written member | corrected member |
|---|---|---|---|---|---|---|
| versions/v2.0-enterprise/core/action_registry.py:78-86 | re-registering an id under a new category appends it there but leaves it in its old category's list, and unregister removes it only from the new one | register "meditate" under "game", again under "system", then unregister it: "game" still lists "meditate" | an id is filed only under its current category | not executed | Registry.StaleCategoryEntry | Registry.RegisterKeepsLinked |
