# borg_the_spire combat engine core, in Dafny

This project models the bookkeeping core of the borg_the_spire combat
simulator, a search-based player for Slay the Spire:

- **Distributions** (`distribution.dfy`): small weighted lists of
  `(weight, value)` outcomes. The model covers construction from one value,
  scaling, merging by value and `split`.
- **The runner and its action queues** (`engine.dfy`). This covers:
  - when an action may run now (`can_apply`);
  - how `action_now` runs an action inline or defers it;
  - how `action_top` and `action_bottom` queue top-level actions;
  - how `run_until_unable` moves deferred subactions from the fresh queue to
    the stale stack, drains that stack, and then takes the next top-level
    action.

  Concrete actions are parameters. Each action has a determinism in a state,
  and executing it gives a new game state plus the ordered runner calls it
  makes. Both run against a functional model (`Machine`, `AfterNow`,
  `Iteration`, `RunLoop`). The `Runner` class and `RunUntilUnable` do the
  same work in place, and each is proved equal to that model.
- **State predicates and choice generation** (`combat.dfy`):
  - power queries, the end-of-combat test and card playability;
  - `legal_choices`, with its de-duplication of equal cards and one play per
    live monster for targeted cards;
  - creature access by index, and monster intents;
  - the integer shell of `DamageInfo::apply_powers`.
- **Snapshot ingestion** (`ingestion.dfy`). `from_communication_mod` turns an
  observed game state into a combat state:
  - it maps every field across;
  - it assembles each monster's move history;
  - it derives each monster's innate damage, carrying it over from the
    previous state by position.

  The file also holds the defaults for unknown cards and powers.
- **Text forms** (`display.dfy`): the `Display` output of creatures, powers
  and cards, written piece by piece to a formatter.

The state types are in `state.dfy`. The declared `CombatState` has no queue
fields, but the runner uses three (src/simulation.rs:222-235, 255-267), so
the model adds them:

- `actions`: a deque, front at index 0;
- `freshSubactionQueue`: top is the last element;
- `staleSubactionStack`: top is the last element.

Four facts about the run loop are proved.

- Pending work is `fresh ++ reverse(stale) ++ actions`, and moving the fresh
  actions to the stale stack leaves that order unchanged.
- Each pass of the loop takes the head of the pending work. It runs that
  action, or it defers the action with the work unchanged. Whatever the
  running action defers comes next, then the older stale entries, then the
  top-level actions.
- The loop returns only when:
  - the combat is over;
  - the stale top cannot be applied (it is left on the stack);
  - every queue is empty;
  - the runner halted;
  - the step bound ran out.
- Over a whole run, for every rule set, every action pending at the start
  is started during the run or still pending at its end, in the order it
  was pending. When the loop drains every queue, all of it was started, in
  that order. So the subactions an action defers start before the
  top-level actions queued behind it.

Two worked runs follow one rule set in which A, queued ahead of B, spawns
X and then Y. In the first, X can be applied: X and Y run inline inside A,
and the trace is A, X, Y, B. In the second, X is random on a runner that
may not sample: X and Y are deferred, X ends on top of the stale stack and
is blocked, and the loop returns with only A started and B still queued.

One statement about `Distribution::split` does not match the code. It is
sometimes described as giving a total weight equal to the sum of the two
totals. The code scales the two lists by `p` and `1 - p` before merging, so
the total is `p * total(a) + (1 - p) * total(b)`. The model follows the code
(`Distributions.Split`).

## Model

| member | source | states |
|---|---|---|
| Distributions.New | src/simulation.rs:54-56 | every value has weight 0, the total is 0 and there are no values |
| Distributions.FromValue | src/simulation.rs:17-21 | exactly one entry, `(1.0, value)`: its values are `[value]`, `value` has weight 1, total 1, every other value weight 0 |
| Distributions.Mul | src/simulation.rs:22-30 | same length, order and values; entry k is entry k with weight times `factor`; each value's weight and the total are scaled by `factor` |
| Distributions.ScaledWeight | src/simulation.rs:22-30 | scaling the entries scales every value's weight by the factor |
| Distributions.ScaledTotal | src/simulation.rs:22-30 | scaling the entries scales the total weight by the factor |
| Distributions.FirstIndex | src/simulation.rs:41-45 | the first position holding `v`, or none exactly when `v` is not among the values |
| Distributions.FindValue | src/simulation.rs:41-45 | the loop finds the first entry with value `v`, or reports that there is none |
| Distributions.AddAssign | src/simulation.rs:38-52 | each value's merged weight is its weight in `self` plus its weight in `other`; the total is the sum of the totals; existing values keep their positions and unseen values follow in order of first appearance; unique values stay unique |
| Distributions.Add | src/simulation.rs:31-37 | same as `+=`: weights and totals add, order is kept, uniqueness is kept |
| Distributions.Split | src/simulation.rs:57-63 | equals `then * p` merged with `else * (1 - p)`; each value's weight is `p * w_then + (1 - p) * w_else`, and likewise the total |
| Distributions.AddedWeight | src/simulation.rs:40-49 | merging one entry adds its weight to its value and to no other value |
| Distributions.MergedWeight | src/simulation.rs:38-52 | for every value, the merged weight is the sum of its weights in both lists |
| Distributions.MergedTotal | src/simulation.rs:38-52 | the merged total is the sum of both totals |
| Distributions.AddedValues | src/simulation.rs:40-49 | merging one entry appends its value exactly when that value is new |
| Distributions.MergedValues | src/simulation.rs:38-52 | the merged values are the old values, then the new values of `other` in order of first appearance |
| Distributions.AddedUnique | src/simulation.rs:40-49 | merging one entry keeps the values unique |
| Distributions.MergedUnique | src/simulation.rs:38-52 | merging keeps the values unique |
| Combat.PowersHave | src/simulation.rs:294-296 | true exactly when some entry has the id |
| Combat.HasPower | src/simulation.rs:294-296 | `has_power(id)` holds exactly when some power entry has that id |
| Combat.PowerAmount | src/simulation.rs:297-304 | a creature without the power has amount 0 |
| Combat.AbsentPowerHasNoAmount | src/simulation.rs:297-304 | with no entry of the id, the summed amount is 0 |
| Combat.PowerAmountAppend | src/simulation.rs:297-304 | the amount is additive over separate stacks: the amount of `xs + ys` is the sum of the amounts |
| Combat.PositiveStacksAmount | src/simulation.rs:294-304 | when every stack has a positive amount, the amount is non-negative, and it is positive exactly when the creature has the power |
| Combat.AllGone | src/simulation.rs:309 | true exactly when every monster is gone |
| Combat.CombatOver | src/simulation.rs:308-310 | over exactly when the player's hit points are at most 0 or every monster is gone |
| Combat.CardPlayable | src/simulation.rs:312-320 | playable exactly when the cost is between -1 and the energy, the card's own check passes, and it is not an attack while the player is entangled |
| Combat.LegalChoices | src/simulation.rs:322-355 | the nested loops build `EndTurn`, then each hand card's plays in hand order; a card contributes only if no earlier card is equal and it is playable; a targeted card gives one play per live monster in slot order, an untargeted one the single play with target 0 |
| Combat.TargetChoicesCount | src/simulation.rs:331-342 | a play of the card appears once for each live monster slot below k, and nothing else appears |
| Combat.CardChoicesCount | src/simulation.rs:325-352 | the card at position i contributes a play once exactly when it is the first of its kind, playable, and the target fits |
| Combat.ChoicesUpToCount | src/simulation.rs:325-353 | among the first k hand cards, a play appears once exactly when its card is among them, is playable, and its target fits; otherwise it appears 0 times |
| Combat.LegalChoicesExactlyOnce | src/simulation.rs:322-355 | each legal choice (end turn, or a playable hand card with a fitting target) appears exactly once, and nothing else appears |
| Combat.GetCreature | src/simulation.rs:357-362 | the player's creature, or the creature of the monster in the given slot |
| Combat.SetCreature | src/simulation.rs:364-369 | a write through `get_creature_mut` replaces only the creature at that index: reading it back gives the new creature, other indices read as before, the monster count is unchanged; the piles, queues, the player's energy and every monster's fields other than its creature are kept |
| Combat.CreatureWriteBack | src/simulation.rs:357-369 | writing back what was read changes nothing, and a second write through the same index overrides the first |
| Combat.Intent | src/simulation.rs:377-379 | the intent is one of the recorded moves (the last pushed one, as `PushIntent` shows); an empty history is a panic in the source and is excluded |
| Combat.PushIntent | src/simulation.rs:380-385 | the history grows by one with no cap, the old history is a prefix, the intent is the pushed move, and nothing else changes |
| Combat.MonsterIntent | src/simulation.rs:371-373 | the intent of the monster in that slot is a move from its history |
| Combat.NewDamageInfo | src/simulation.rs:98-105 | the output equals the base, with the given owner and type |
| Combat.Truncate | src/simulation.rs:124 | `as i32` truncates toward zero: the result is the integer part of x, on the same side of 0 |
| Combat.ApplyPowers | src/simulation.rs:106-128 | base, type and owner are unchanged; the output is never negative; it is 0 when the hooked damage is below 1; otherwise it is the integer part of the hooked damage |
| Combat.ApplyPowersResetsOutput | src/simulation.rs:106-107 | the result does not depend on the previous output, so applying twice is the same as applying once |
| Combat.ApplyPowersWithoutPowers | src/simulation.rs:106-128 | with no powers on either side, the output is the base floored at 0 |
| Engine.CanApplyImpl | src/simulation.rs:179-185 | holds exactly when the action is deterministic, or random with random allowed or a single entry; `Choice` is never applicable |
| Engine.CanApply | src/simulation.rs:186-188 | holds exactly when `can_apply_impl` holds and the combat is not over |
| Engine.Sampled | src/simulation.rs:201-207 | the sampled value is one of the distribution's values, and it is the only value when there is a single entry |
| Engine.AfterNow | src/simulation.rs:221-230 | with something already deferred, or the action not applicable, the action is appended to the fresh queue and nothing else changes; otherwise it is applied inline |
| Engine.AfterTop | src/simulation.rs:231-233 | pushes the action on the front of `actions` and changes nothing else |
| Engine.AfterBottom | src/simulation.rs:234-236 | pushes the action on the back of `actions` and changes nothing else |
| Engine.Commit | src/simulation.rs:199-208 | the committed state is the executed action's new game state in every field (piles, card in play, player, monsters) except the runner's three queues, which stay as they were |
| Engine.MoveFresh | src/simulation.rs:255-257 | the fresh queue is emptied and nothing but the two subaction queues changes |
| Engine.MoveFreshKeepsWork | src/simulation.rs:255-257 | moving fresh to stale keeps the order of pending work; older stale entries stay below; the earliest-deferred fresh action ends on top |
| Engine.AppliedFrame | src/simulation.rs:189-220 | applying an action records it first; it then leaves the stale stack untouched, only appends to the fresh queue, only adds top-level actions at either end, and only extends the trace |
| Engine.AfterNowFrame | src/simulation.rs:221-230 | `action_now` stays within the same bounds: stale stack untouched, fresh queue appended to, top-level order kept, trace extended |
| Engine.AfterCallsFrame | src/simulation.rs:221-236 | any sequence of `action_now`, `action_top` and `action_bottom` calls stays within the same bounds |
| Engine.IterationStops | src/simulation.rs:250-273 | a pass returns only when the runner halted, the combat is over, the stale top is blocked (with the stack put back as it was after the move), or there is no work; otherwise there was work to take |
| Engine.RunLoopExits | src/simulation.rs:249-274 | the loop ends only at combat end; at a blocked stale top with the fresh queue empty; with every queue empty; after a halt; or when the step bound runs out |
| Engine.IterationPopsStaleTop | src/simulation.rs:259-262 | a pass that goes on with stale actions pops the top one, which is applicable, and hands it to `action_now` |
| Engine.IterationTakesFront | src/simulation.rs:266-268 | a pass that goes on with no stale actions takes the front of `actions` and hands it to `action_now` |
| Engine.IterationExtendsTrace | src/simulation.rs:250-273 | a pass that goes on only extends the record of applied actions |
| Engine.IterationTakesHeadOfWork | src/simulation.rs:249-273 | each pass takes the head of the pending work; if it runs, it is the next action in the trace, and what it defers comes before the older stale entries, which come before the top-level actions in their old order; if it is deferred, the pending work is unchanged |
| Engine.StaleTopRuns | src/simulation.rs:259-262 | a popped, applicable stale top runs next, and the rest of the stale stack stays in order ahead of the top-level actions |
| Engine.FrontActionRuns | src/simulation.rs:266-268 | with the stale stack empty, the front top-level action runs next, or is deferred with the pending work unchanged |
| Engine.RunLoopExtendsTrace | src/simulation.rs:249-274 | the loop only ever extends the record of applied actions |
| Engine.RunLoopKeepsWorkOrder | src/simulation.rs:249-274 | over any run, the trace only grows, and the work pending at the start is a subsequence of the actions started during the run followed by the work still pending at the end |
| Engine.DrainedRunStartsWorkInOrder | src/simulation.rs:249-274 | when the loop drains every queue, the work pending at the start is a subsequence of the actions started, so deferred subactions start before the top-level actions behind them |
| Engine.PassKeepsWorkOrder | src/simulation.rs:250-273 | one pass followed by the rest of a run keeps the pending work in order: the step of the whole-run lemma |
| Engine.RestOfWorkKept | src/simulation.rs:255-268 | after a pass runs an action, the rest of the stale stack and the old top-level actions stay, in order, within the new pending work |
| Engine.SpawnedRunBeforeNextTopLevel | src/simulation.rs:249-274 | in one worked rule set where A, queued before B, spawns X and then Y and X can be applied, the order is A, X, Y, B and the loop returns with all queues empty (the all-inputs form is `RunLoopKeepsWorkOrder`) |
| Engine.FirstPassRunsSpawnInside | src/simulation.rs:221-230 | X and Y, passed to `action_now` while nothing is deferred, run inline inside A |
| Engine.SecondPassRunsNextTopLevel | src/simulation.rs:266-268 | the next pass takes B from the front of `actions` |
| Engine.BlockedSubactionStaysOnTop | src/simulation.rs:221-230 | when X cannot be sampled, X and then Y are deferred; the loop puts X on top of the stale stack, finds it blocked, and returns with the stack `[Y, X]` and B still queued |
| Engine.Runner.constructor | src/simulation.rs:170-177 | a runner over the state with its settings, nothing applied yet |
| Engine.Runner.ApplyImpl | src/simulation.rs:189-220 | in place, equal to the functional `apply_impl` |
| Engine.Runner.ActionNow | src/simulation.rs:221-230 | in place, equal to the functional `action_now` |
| Engine.Runner.ActionTop | src/simulation.rs:231-233 | in place, pushes on the front of `actions` only |
| Engine.Runner.ActionBottom | src/simulation.rs:234-236 | in place, pushes on the back of `actions` only |
| Engine.Runner.RunCalls | src/simulation.rs:199-208 | makes an executing action's runner calls in order, stopping at a halt |
| Engine.Runner.MoveFreshToStale | src/simulation.rs:255-257 | the pop/push loop leaves the state as `MoveFresh` describes |
| Engine.RunOnce | src/simulation.rs:250-272 | one pass of the loop in place, equal to `Iteration` |
| Engine.RunUntilUnable | src/simulation.rs:249-274 | the in-place loop ends in the state and with the exit `RunLoop` gives |
| Ingestion.CardFrom | src/simulation_state.rs:203-212 | misc, cost and upgrades are copied, and the card info is looked up by the converted id |
| Ingestion.Cards | src/simulation_state.rs:145-149 | a pile keeps its length and order, card by card |
| Ingestion.PowerFrom | src/simulation_state.rs:214-225 | every field is copied; the id and the optional card are converted |
| Ingestion.Powers | src/simulation_state.rs:177 | a power list keeps its length and order |
| Ingestion.PlayerFrom | src/simulation_state.rs:227-239 | energy, hit points, max hit points, block and powers (in order) are copied |
| Ingestion.MoveHistory | src/simulation_state.rs:156-162 | one to three moves: the second-last move if known, then the last move if known, then the current move, which is last |
| Ingestion.BuildMoveHistory | src/simulation_state.rs:156-162 | building by insertion at the front gives that history |
| Ingestion.InnateDamage | src/simulation_state.rs:163-167 | `Some(d)` exactly when the move's base damage `d` is positive, else `None` |
| Ingestion.MonsterFrom | src/simulation_state.rs:155-181 | id converted, ascension from the game, history as above with the intent equal to the current move, innate damage as above, hit points, block, powers and gone copied |
| Ingestion.CarriedOver | src/simulation_state.rs:185-198 | only the innate damage can change; a known one is never replaced; a missing one is taken from the same position of the previous list when that list reaches so far |
| Ingestion.ConvertMonsters | src/simulation_state.rs:152-182 | the monster list keeps its length and order |
| Ingestion.CarryOver | src/simulation_state.rs:185-198 | the zip loop applies the carry-over at every position and changes nothing past the shorter list |
| Ingestion.FromCommunicationMod | src/simulation_state.rs:138-200 | returns none exactly outside combat; otherwise the five piles, the card in play, the player and the monsters (in order, carried over) are mapped, and the queues start empty |
| Ingestion.IngestedMonsterFacts | src/simulation_state.rs:155-181 | an ingested monster has the observed ascension, one to three moves, the observed move as intent, and a positive base damage as innate damage |
| Ingestion.InnateDamageSurvivesQuietTurn | src/simulation_state.rs:185-198 | an innate damage seen on one turn survives a later snapshot that shows no damage for that monster |
| Ingestion.DefaultCardUnplayable | src/simulation_state.rs:66-79 | the default card info is an Injury curse whose normal cost makes a card unplayable |
| Ingestion.DefaultPowerAddsNothing | src/simulation_state.rs:117-128 | a default power is an Unknown power that adds nothing to any power amount |
| Display.IntText | src/simulation_state.rs:243 | integers print in canonical decimal (no leading zeros, no `-0`), with a minus sign exactly when negative, ending in a digit |
| Display.IntRoundTrip | src/simulation_state.rs:243 | a printed integer reads back as itself |
| Display.IntTextUnique | src/simulation_state.rs:243 | every canonical decimal text is the printing of the number it reads as, so printing is one-to-one onto canonical decimal |
| Display.ShowsExactly | src/simulation_state.rs:243 | a text is canonical decimal reading as n exactly when it is the printing of n |
| Display.PowerText | src/simulation_state.rs:254-265 | the name comes first; the amount is omitted when 0; with a nonzero amount the text ends in `j` exactly when the power was just applied |
| Display.PowerTextShowsAmount | src/simulation_state.rs:257-259 | a nonzero amount is printed in canonical decimal between the name and the `j` mark |
| Display.UpgradeText | src/simulation_state.rs:270-271 | nothing for no upgrades, `+` for exactly one, `+n` for more, with n in canonical decimal |
| Display.CardTextParts | src/simulation_state.rs:267-274 | name, upgrade mark, then the cost in canonical decimal in parentheses |
| Display.PowersText | src/simulation_state.rs:247-249 | empty exactly when there are no powers; otherwise it starts with a space |
| Display.PowersTextStep | src/simulation_state.rs:247-249 | each further power adds a space and its text |
| Display.BlockText | src/simulation_state.rs:244-246 | `(+block)` exactly when block is positive, with block in canonical decimal |
| Display.CreatureTextShowsHitpoints | src/simulation_state.rs:243 | the text starts with `hp/max`, both numbers in canonical decimal around the slash |
| Display.CreatureTextTail | src/simulation_state.rs:241-252 | after the head come the block mark and the powers; with no block and no powers the head is all |
| Display.FmtPower | src/simulation_state.rs:254-265 | writes exactly the power's text |
| Display.FmtCard | src/simulation_state.rs:267-274 | writes exactly the card's text |
| Display.FmtCreature | src/simulation_state.rs:241-252 | writes exactly the creature's text |
| Display.FmtPowers | src/simulation_state.rs:247-249 | the loop writes each power after a space, in order |

## Left out

- Random sampling. `choose_weighted` with `thread_rng` (src/simulation.rs:202-206) is replaced by an oracle, `ActionRules.sample`. It names an entry, taken modulo the entry count. Weights do not affect the pick. Only an empty distribution makes the model panic; the source's errors for zero or negative weights are not modelled.
- The debug log (src/simulation.rs:190-198, 211-219). It is diagnostics only. The `debug` flag is kept on the runner, but nothing is written.
- Concrete actions and their behaviour. `PlayCard`, `EndTurn`, `DynAction`, `execute`, `execute_random` and `determinism` come from modules outside this model, so they are the `ActionRules` parameters. `Action` is a datatype with `EndTurn`, `PlayCard` and an opaque `Other`.
- Engine.Applied: one action's effect is computed from the state at its start. Its game state is committed before its runner calls are made. An action that reads the state again after a nested inline execution is not modelled, and neither is one that changes the queues other than through `action_now`, `action_top` and `action_bottom`.
- Engine.RunLoop: the source loop and the nested `action_now`/`apply_impl` recursion are unbounded. The model bounds passes with `steps` and nesting depth with `maxDepth`, and reports `StepsExhausted` or `DepthExhausted` when a bound runs out.
- Engine.Applied: a `Choice` reaching `apply_impl` (`unreachable!()`) and an empty random distribution (`unwrap` on `choose_weighted`) are modelled as the `Panicked` halt, not as process aborts.
- The per-power damage hooks, `CardId::playable`, `MonsterBehavior`, and the `cards`, `monsters` and `powers` modules. These are not part of this model, so they are parameters: `DamageHooks`, the `playable` argument, and `Lookup`.
- Combat.ApplyPowers: damage is a real number, not an f64. `as i32` is truncation toward zero; its saturation and NaN handling are not modelled.
- Combat.PowerAmount: the `i32` sum can overflow in the source. The model uses unbounded integers, as it does for hit points, energy and costs.
- Distribution weights are reals, not f64, so the model has no rounding.
- String conversions of ids (`CardId::from`, `PowerId::from`, `MonsterId::from`) and the card-info table are parameters (`Lookup`). Ids are opaque, apart from the few the engine names.
- Display: the `{:?}` debug names of ids are the `Names` parameter. Formatter errors are not modelled, since writing to the model's formatter cannot fail.
- serde derives, `Arc` sharing of card info, `Relic`, `PowerType` and the commented-out `Choice` enum play no part in the behaviour modelled.
