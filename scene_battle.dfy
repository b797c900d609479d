/** Scene_Battle (src/scene_battle.cpp) as a class: its fields, the engine
    globals it touches, and each battler's algorithm slot. The scene's
    operations are specified by the matching SceneState function of the old
    state; the small helpers state their field updates directly. */
module BattleScene {
  import opened BattleTypes
  import opened EnemyAi
  import opened SceneState

  class SceneBattle {
    var state: BattleState
    var cycle: int
    var autoBattle: bool
    var enemyAction: Option<EnemyAction>
    var actorIndex: int
    var activeActor: Option<Battler>
    var background: Background
    /** battle_actions: the battlers whose algorithm waits to be resolved, front first. */
    var battleActions: seq<Battler>
    /** The slot each battler's SetBattleAlgorithm writes; absent means NULL. */
    var algorithms: map<Battler, Algorithm>
    /** The engine globals the scene reads and writes. */
    var world: Globals

    function Snapshot(): Scene
      reads this
    {
      Scene(state, cycle, autoBattle, enemyAction, actorIndex, activeActor, background,
            battleActions, algorithms, world)
    }

    /** The scene starts with an empty queue, actor index 0 and no active
        actor; state, cycle, auto_battle and enemy_action are given values
        only by Start. */
    constructor(world: Globals, algorithms: map<Battler, Algorithm>)
      ensures this.world == world && this.algorithms == algorithms
      ensures battleActions == [] && actorIndex == 0 && activeActor == None && background == NoBackground
    {
      this.world := world;
      this.algorithms := algorithms;
      battleActions := [];
      actorIndex := 0;
      activeActor := None;
      background := NoBackground;
    }

    /** Game_Battler::SetBattleAlgorithm: replace battler `b`'s algorithm, or clear it. */
    method SetBattleAlgorithm(b: Battler, a: Option<Algorithm>)
      modifies this`algorithms
      ensures algorithms == if a.Some? then old(algorithms)[b := a.value] else old(algorithms) - {b}
    {
      if a.Some? {
        algorithms := algorithms[b := a.value];
      } else {
        algorithms := algorithms - {b};
      }
    }

    method SetState(s: BattleState)
      modifies this`state
      ensures state == s
    {
      state := s;
    }

    method Start(troopCount: nat, testFlag: bool, testTroopId: int, testBackground: string)
      modifies this
      ensures Snapshot() == StartBattle(old(Snapshot()), troopCount, testFlag, testTroopId, testBackground)
    {
      if testFlag {
        world := world.(troopId := testTroopId);
      }
      if world.troopId <= 0 || world.troopId > troopCount {
        world := world.(result := Victory);
        world := world.(popped := true);
        return;
      }
      if testFlag {
        InitBattleTest(testTroopId, testBackground);
      } else {
        world := world.(enemyParty := Some(world.troopId));
      }
      world := world.(battleReady := true);
      cycle := 0;
      autoBattle := false;
      enemyAction := None;
      if world.tempBackground != "" {
        background := NamedBackground(world.tempBackground);
      } else {
        background := TerrainBackground(world.terrainId);
      }
      SetState(StateStart);
    }

    /** The test troop and background replace the current ones, the party
        gets its test members and the enemy party is set up from the troop. */
    method InitBattleTest(testTroopId: int, testBackground: string)
      modifies this`world
      ensures world == old(world).(troopId := testTroopId, tempBackground := testBackground,
                                   testMembers := true, enemyParty := Some(testTroopId))
    {
      world := world.(troopId := testTroopId);
      world := world.(tempBackground := testBackground);
      world := world.(testMembers := true);
      world := world.(enemyParty := Some(world.troopId));
    }

    method NextTurn()
      modifies this
      ensures Snapshot() == EndTurn(old(Snapshot()))
    {
      autoBattle := false;
    }

    method UpdateBackground()
      modifies this
      ensures Snapshot() == SyncBackground(old(Snapshot()))
    {
      if world.tempBackground != world.backgroundName {
        world := world.(tempBackground := world.backgroundName);
        if world.tempBackground != "" {
          background := NamedBackground(world.tempBackground);
        }
      }
    }

    /** One tick. `messageVisible` is the message window's visibility after
        the window updates. `messageWaiting` is Game_Message::message_waiting as
        read after the action step, which may have changed it. The returned
        steps say which of the collaborators' steps ran, in order. */
    method Update(messageVisible: bool, messageWaiting: bool) returns (steps: seq<Step>)
      modifies this
      ensures steps == TickSteps(messageVisible, messageWaiting)
      ensures Snapshot() == SyncBackground(old(Snapshot()))
    {
      steps := [StepWindows];
      if !messageVisible {
        steps := steps + [StepActions];
      }
      if !messageWaiting {
        steps := steps + [StepInput];
      }
      UpdateBackground();
      steps := steps + [StepBackground, StepBattle, StepScreen];
    }

    /** `target` is the party member GetRandomAliveBattler returns;
        `selected` is the skill the skill window shows. */
    method CreateEnemyAction(enemy: Battler, action: EnemyAction, skills: seq<Skill>, target: Battler, selected: Skill)
      requires enemy.Enemy? && target.Actor?
      requires action.kind == KindSkill ==> 1 <= action.skillId <= |skills|
      modifies this
      ensures Snapshot() == ApplyDecision(old(Snapshot()), enemy, EnemyDecision(enemy, action, skills, target, selected))
      ensures old(Consistent(Snapshot())) ==>
        (Consistent(Snapshot()) <==> !(action.kind == KindBasic && action.basic.BasicOther?) || enemy in old(algorithms))
    {
      match action.kind
      case KindBasic =>
        CreateEnemyActionBasic(enemy, action, target);
      case KindSkill =>
        CreateEnemyActionSkill(enemy, action, skills, selected);
        return;
      case KindTransformation =>
        SetBattleAlgorithm(enemy, Some(Transform(enemy, action.enemyId)));
        battleActions := battleActions + [enemy];
      case KindOther(_) =>
    }

    method CreateEnemyActionBasic(enemy: Battler, action: EnemyAction, target: Battler)
      requires enemy.Enemy? && target.Actor?
      modifies this
      ensures Snapshot() == ApplyDecision(old(Snapshot()), enemy, BasicDecision(enemy, action, target))
      ensures old(Consistent(Snapshot())) ==>
        (Consistent(Snapshot()) <==> !(action.kind == KindBasic && action.basic.BasicOther?) || enemy in old(algorithms))
    {
      if action.kind != KindBasic {
        return;
      }
      match action.basic {
        case BasicAttack => SetBattleAlgorithm(enemy, Some(Normal(enemy, target)));
        case BasicDualAttack => SetBattleAlgorithm(enemy, Some(NormalDual(enemy, target)));
        case BasicDefense => SetBattleAlgorithm(enemy, Some(Defend(enemy)));
        case BasicObserve => SetBattleAlgorithm(enemy, Some(Observe(enemy)));
        case BasicCharge => SetBattleAlgorithm(enemy, Some(Charge(enemy)));
        case BasicAutodestruction => SetBattleAlgorithm(enemy, Some(SelfDestruct(enemy)));
        case BasicEscape => SetBattleAlgorithm(enemy, Some(Escape(enemy)));
        case BasicNothing =>
        case BasicOther(_) =>
      }
      if action.basic != BasicNothing {
        battleActions := battleActions + [enemy];
      }
    }

    method CreateEnemyActionSkill(enemy: Battler, action: EnemyAction, skills: seq<Skill>, selected: Skill)
      requires enemy.Enemy?
      requires action.kind == KindSkill ==> 1 <= action.skillId <= |skills|
      modifies this
      ensures Snapshot() == ApplyDecision(old(Snapshot()), enemy, SkillDecision(enemy, action, skills, selected))
      ensures old(Consistent(Snapshot())) ==> Consistent(Snapshot())
    {
      if action.kind != KindSkill {
        return;
      }
      var skill := skills[action.skillId - 1];
      if skill.skillType == TypeTeleport || skill.skillType == TypeEscape || skill.skillType == TypeSwitch {
        return;
      }
      match skill.scope
      case ScopeEnemy =>
      case ScopeAlly =>
      case ScopeEnemies =>
        SetBattleAlgorithm(enemy, Some(SkillCast(enemy, PlayerParty, skill)));
        battleActions := battleActions + [enemy];
        SetState(StateSelectActor);
      case ScopeSelf =>
        SetBattleAlgorithm(enemy, Some(SkillCast(enemy, OneBattler(enemy), skill)));
        battleActions := battleActions + [enemy];
        SetState(StateSelectActor);
      case ScopeParty =>
        SetBattleAlgorithm(enemy, Some(SkillCast(enemy, EnemyParty, selected)));
        battleActions := battleActions + [enemy];
        SetState(StateSelectActor);
      case ScopeOther(_) =>
    }

    method RemoveCurrentAction()
      requires battleActions != []
      modifies this
      ensures Snapshot() == PopAction(old(Snapshot()))
    {
      SetBattleAlgorithm(battleActions[0], None);
      battleActions := battleActions[1..];
    }
  }

  /** Two enemies act and their actions are resolved: an enemy defending, then
      an enemy casting a normal self-scope skill (id 7), then both removed in
      the order they were queued. Beside it, a battle with the unknown troop id
      0 out of five troops ends as a victory before anything is set up. */
  method ScenarioQueueOrder(world: Globals, skills: seq<Skill>, hero: Battler, selected: Skill)
    requires |skills| == 7 && skills[6] == Skill(7, TypeNormal, ScopeSelf) && hero.Actor?
  {
    var goblin, slime := Enemy(0), Enemy(1);
    var refused := new SceneBattle(world.(troopId := 0), map[]);
    refused.Start(5, false, 0, "");
    assert refused.world.result == Victory && refused.world.popped && refused.world.enemyParty == world.enemyParty;

    var scene := new SceneBattle(world.(troopId := 3), map[]);
    scene.Start(5, false, 0, "");
    assert scene.state == StateStart && scene.world.enemyParty == Some(3) && scene.battleActions == [];

    scene.CreateEnemyAction(goblin, EnemyAction(KindBasic, BasicDefense, 0, 0), skills, hero, selected);
    assert scene.battleActions == [goblin] && scene.algorithms[goblin] == Defend(goblin);

    scene.CreateEnemyAction(slime, EnemyAction(KindSkill, BasicNothing, 7, 0), skills, hero, selected);
    assert scene.battleActions == [goblin, slime] && scene.state == StateSelectActor;
    assert scene.algorithms[slime] == SkillCast(slime, OneBattler(slime), skills[6]);

    scene.RemoveCurrentAction();
    assert scene.battleActions == [slime] && goblin !in scene.algorithms;
    scene.RemoveCurrentAction();
    assert scene.battleActions == [] && slime !in scene.algorithms;
  }
}
