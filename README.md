# Battle scene of EasyRPG Player: enemy decisions and the action queue

This project models the core of `Scene_Battle` in EasyRPG Player. That core covers:

- how a battle starts, and how an unknown troop id makes it stop at once;
- how an enemy's data-driven action (a basic action, a skill or a transformation) becomes a battle algorithm assigned to that enemy;
- how the enemies that received an algorithm wait in the first-in first-out queue `battle_actions`, and how `RemoveCurrentAction` takes them out;
- the small bookkeeping around these: `NextTurn`, `UpdateBackground`, and the order of the steps in `Update`.

It is written in Dafny in four modules:

- `BattleTypes` (battle_types.dfy): battlers, skills, enemy actions, the algorithm variants, phases, results and backgrounds, all as datatypes.
- `EnemyAi` (enemy_ai.dfy): the decision engine as pure functions. A `Decision` is `Deferred` (nothing assigned, nothing queued), `Act(algorithm, selectActor)`, or `QueueOnly` (the enemy is queued and keeps whatever algorithm it held).
- `SceneState` (scene_state.dfy): the scene and the engine globals it touches, as one value `Scene`. Each scene operation is a function from the old value to the new one. The lemmas about runs of several calls live here.
- `BattleScene` (scene_battle.dfy): class `SceneBattle`. Its fields change in place, following the source's control flow. The scene operations (`Start`, `NextTurn`, `UpdateBackground`, `Update`, the three `CreateEnemyAction` methods and `RemoveCurrentAction`) have an `ensures` that makes `Snapshot()` equal to the matching `SceneState` function applied to the old state. The helpers `SetBattleAlgorithm`, `SetState` and `InitBattleTest` state their field updates directly.

A battler's algorithm slot is the map `algorithms`; a battler missing from it holds no algorithm (NULL). Static data comes in as parameters: the troop count, the skill table and the battle-test settings. So do the two values the source gets from elsewhere: the party member `GetRandomAliveBattler` picks, and the skill the skill window shows.

In these places the model follows the code, including where a reader might expect otherwise:

- **Start.** The code clears `enemy_action` and leaves the active actor and `battle_actions` as they were.
- **The queue.** The code never checks for a battler queued twice. So "every queued battler holds an algorithm" is not an invariant of `RemoveCurrentAction`: `PopActionConsistent` proves it survives exactly when the front battler is not queued again, and `DoubleQueueLeavesEmptySlot` shows the case where it fails.
- **Removing from an empty queue.** `RemoveCurrentAction` calls `front()` without a guard, so its behaviour on an empty queue is undefined; the model requires a non-empty queue.
- **Skill types.** Skill type codes other than normal, teleport, escape and switch go to the `default:` branch and are handled like normal skills (`TypeOther`).
- **Basic codes.** A basic code other than the eight named ones (`BasicOther`) matches no case of the switch, so no algorithm is set. It is still not `Basic_nothing`, so the enemy is queued anyway and keeps whatever algorithm it held, possibly none (the decision `QueueOnly`). `UnnamedBasicQueuesEmptySlot` shows that this can leave a queued battler without an algorithm.
- **Action kinds and skill scopes.** An action kind other than basic, skill and transformation (`KindOther`) matches no case of `CreateEnemyAction`'s switch, and both helpers return early for it, so nothing changes. A skill scope other than the five named ones (`ScopeOther`) matches no case of the scope switch, so nothing changes either. Both decide `Deferred`.
- **Party-scope skills.** The party-scope branch casts the skill shown in the skill window, not the enemy's own skill. The model keeps that.

## Model

| member | source | states |
|---|---|---|
| `EnemyAi.BasicDecision` | src/scene_battle.cpp:215-250 | an algorithm is assigned exactly when the action is basic with one of the seven named codes other than "nothing"; a basic action with an unnamed code queues the enemy without assigning; the algorithm belongs to the enemy, carries the action's own basic type (round trip through `BasicTypeOf`), targets the given party member exactly for attack and dual attack, and never changes the phase |
| `EnemyAi.SkillDecision` | src/scene_battle.cpp:257-299 | no-op unless the action is a skill; with the skill at `skill_id - 1`, an algorithm is assigned exactly when the type is not teleport/escape/switch and the scope is all enemies, self or party (one enemy, one ally and unnamed scope codes assign nothing); then it is a skill cast by the enemy at the player party, at the enemy itself, or at the enemy party with the window's skill, and the phase becomes SelectActor |
| `EnemyAi.EnemyDecision` | src/scene_battle.cpp:199-213 | basic and skill actions decide as their handlers do; a transformation always assigns `Transform(enemy, enemy_id)` without a phase change; an unnamed kind decides nothing; any algorithm assigned belongs to the acting enemy |
| `EnemyAi.BasicAlgorithmDetermined` | src/scene_battle.cpp:220-245 | two basic algorithms with the same caster, basic type and target are equal, so BasicDecision's contract fixes its result |
| `EnemyAi.BasicDecisionInjective` | src/scene_battle.cpp:220-245 | different basic types never yield the same algorithm |
| `EnemyAi.DecisionShape` | src/scene_battle.cpp:199-213 | when an algorithm is assigned, the phase moves to SelectActor exactly when it is a skill cast, and it is a basic algorithm exactly when the action is basic; a decision queues without assigning exactly for a basic action with an unnamed code |
| `SceneState.StartBattle` | src/scene_battle.cpp:58-98 | the test flag substitutes the test troop before the check; an id outside 1..troop count sets victory and pop and leaves everything else (enemy party, cycle, queue, phase) untouched; a valid id sets up the enemy party from it, initialises the battle, sets cycle 0, auto battle off, no enemy action, phase Start, and picks the named or terrain background; the queue and slots are unchanged |
| `SceneState.ApplyDecision` | src/scene_battle.cpp:282-296 | a deferred decision changes nothing; an acting one puts the enemy once more at the back of the queue (old queue kept as prefix, multiset grows by exactly that enemy), gives it the algorithm, leaves every other slot alone, and moves to SelectActor only when asked; a queue-only one appends the enemy and changes nothing else; no slot is ever removed; from a consistent scene the result is consistent if and only if the decision is not queue-only or the enemy already held an algorithm |
| `SceneState.PopAction` | src/scene_battle.cpp:252-255 | the front leaves the queue with the rest in order, its slot is emptied, other slots and all other state are unchanged |
| `SceneState.EndTurn` | src/scene_battle.cpp:166-171 | auto battle is off and nothing else of the scene changes |
| `SceneState.SyncBackground` | src/scene_battle.cpp:180-187 | the temporary background name ends equal to the battle's; when they already agreed nothing changes; the shown background changes only when they differed and the new name is not empty |
| `SceneState.SyncBackgroundIdempotent` | src/scene_battle.cpp:180-187 | a second sync is a no-op |
| `SceneState.PopActionConsistent` | src/scene_battle.cpp:252-255 | after a removal every queued battler still holds an algorithm if and only if the removed battler was not queued again |
| `SceneState.DoubleQueueLeavesEmptySlot` | src/scene_battle.cpp:247-255 | queuing an enemy twice and removing once leaves it queued with no algorithm |
| `SceneState.DrainIsFifo` | src/scene_battle.cpp:252-255 | n removals detach the first n queued battlers in queue order, leave the rest queued, empty exactly their slots, and change nothing else |
| `SceneState.ApplyAllAppends` | src/scene_battle.cpp:247-249 | a run of decisions queues the enemies of its non-deferred decisions behind the old queue, in decision order; deferred decisions queue nothing |
| `SceneState.EnqueueThenDrain` | src/scene_battle.cpp:252-255 | after a run of decisions, removing everything detaches the old queue and then the newly queued enemies in order, and empties the queue |
| `SceneState.ApplyAllConsistent` | src/scene_battle.cpp:247-249 | no run of decisions leaves a queued battler without an algorithm, provided each enemy queued without an assignment held an algorithm at the start |
| `SceneState.UnnamedBasicQueuesEmptySlot` | src/scene_battle.cpp:220-249 | an enemy without an algorithm whose basic action has an unnamed code is queued anyway and is left queued with no algorithm |
| `SceneState.EmptiedByFullDrain` | src/scene_battle.cpp:252-255 | removing as many times as the queue is long detaches every queued battler in queue order and empties the queue |
| `SceneState.TickSteps` | src/scene_battle.cpp:124-153 | window updates come first; actions are processed if and only if the message window is hidden, input is read if and only if no message is waiting, actions before input; background sync, battle update and screen update come last; no step runs twice |
| `BattleScene.SceneBattle.SetBattleAlgorithm` | src/scene_battle.cpp:252-255 | the battler's slot becomes the given algorithm, or is removed when it is NULL; every other slot is unchanged |
| `BattleScene.SceneBattle.SetState` | src/scene_battle.cpp:97 | the phase becomes the given one |
| `BattleScene.SceneBattle.constructor` | src/scene_battle.cpp:46-52 | the queue is empty, actor index 0, no active actor, no background, globals and battler slots as given |
| `BattleScene.SceneBattle.Start` | src/scene_battle.cpp:58-98 | the new state is `StartBattle` of the old one |
| `BattleScene.SceneBattle.InitBattleTest` | src/scene_battle.cpp:155-164 | the test troop and background are installed, the party gets its test members, and the enemy party is set up from the test troop |
| `BattleScene.SceneBattle.NextTurn` | src/scene_battle.cpp:166-171 | the new state is `EndTurn` of the old one |
| `BattleScene.SceneBattle.UpdateBackground` | src/scene_battle.cpp:180-187 | the new state is `SyncBackground` of the old one |
| `BattleScene.SceneBattle.Update` | src/scene_battle.cpp:124-153 | returns the steps `TickSteps` prescribes for the two message flags; the scene's own change is the background sync |
| `BattleScene.SceneBattle.CreateEnemyAction` | src/scene_battle.cpp:199-213 | the new state is `ApplyDecision` of `EnemyDecision`; from a consistent queue, consistency is kept if and only if the action is not a basic one with an unnamed code or the enemy already held an algorithm |
| `BattleScene.SceneBattle.CreateEnemyActionBasic` | src/scene_battle.cpp:215-250 | the new state is `ApplyDecision` of `BasicDecision`; from a consistent queue, consistency is kept if and only if the code is a named one or the enemy already held an algorithm |
| `BattleScene.SceneBattle.CreateEnemyActionSkill` | src/scene_battle.cpp:257-299 | requires a valid skill id only for skill actions; the new state is `ApplyDecision` of `SkillDecision`; consistency of the queue is kept |
| `BattleScene.SceneBattle.RemoveCurrentAction` | src/scene_battle.cpp:252-255 | requires a non-empty queue; the new state is `PopAction` of the old one |

`BattleScene.ScenarioQueueOrder` is a client of the class. It walks through these steps:

1. Start with troop id 0 out of five troops: the battle is refused.
2. Start with troop id 3: the start succeeds.
3. An enemy defends: it is queued with a Defend algorithm.
4. A second enemy casts self-scope skill 7: it is queued behind the first and the phase moves to SelectActor.
5. Two removals: the enemies leave the queue in the order they joined it, and each loses its algorithm.

## Left out

- Window creation, window and cursor updates, the help/item/skill/status windows (src/scene_battle.cpp:100-132 and the window calls in `Update`): user interface.
- Music and sound effects and the reset of the map music (src/scene_battle.cpp:87-90): audio.
- Background images: only the background's source is kept (a name, a terrain id, or none). Sprite animation states (`SetAnimationState`, src/scene_battle.cpp:173-178) are left out too.
- `Scene_Battle::Create` (src/scene_battle.cpp:189-197): it only picks an engine-specific subclass, and those subclasses are not part of this model.
- The destructor's `Game_Battle::Quit` and the `Output::Warning` message: external side effects with no state the scene reads.
- `Game_Battle::Init` is recorded as a flag only; whatever it does to the globals is not part of this model. `Game_EnemyParty::Setup` and `SetupBattleTestMembers` are recorded as which troop was set up and a flag.
- `GetRandomAliveBattler`: its random choice is a parameter, required to be a party member. The case where it finds no living member is not modelled. Who is alive is not modelled either.
- The skill window's selected skill is a parameter; the case where the window has no skill (a null pointer) is not modelled.
- `SetState` belongs to the engine variants and also updates their windows; here it only sets the phase.
- `skill_item`, set to null by the constructor, is not modelled: nothing in this file reads it.
- Algorithm effects (damage, hit, states) are not modelled; an algorithm is only its variant and constructor arguments.
- A "no battler queued twice" invariant is not claimed, because the code never checks for it. `PopActionConsistent` and `DoubleQueueLeavesEmptySlot` state what holds instead.
- BattleScene.SceneBattle.Update: `ProcessActions`, `ProcessInput`, `Game_Battle::Update` and the screen update are defined elsewhere. The model records only whether and in what order they run, not how they change the state.
- BattleScene.SceneBattle.NextTurn: the effects of `Game_Battle::NextTurn` and `Game_Battle::UpdateEvents` (the shared turn counter, battle events) are not modelled.
- BattleScene.SceneBattle.constructor: `state`, `cycle`, `auto_battle` and `enemy_action` are not initialised by the source's constructor, so the model promises nothing about them before `Start`.
