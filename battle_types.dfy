/** Data shared by the battle scene: battlers, the static game data an enemy
    action refers to, and the algorithms an action is resolved into. */
module BattleTypes {

  datatype Option<+T> = None | Some(value: T)

  /** A combat participant, named by its place in the player party
      (a Game_Actor) or in the enemy troop (a Game_Enemy). */
  datatype Battler = Actor(index: nat) | Enemy(index: nat)

  /** RPG::Skill::type. Codes other than the four named ones (the sub-skill
      types of later engines) reach the `default:` branch. */
  datatype SkillType = TypeNormal | TypeTeleport | TypeEscape | TypeSwitch | TypeOther(code: int)

  /** RPG::Skill::scope, seen from the caster: one enemy, all enemies, the
      caster itself, one ally, the caster's whole party. A code outside the
      five named ones matches no case of the scene's switch. */
  datatype Scope = ScopeEnemy | ScopeEnemies | ScopeSelf | ScopeAlly | ScopeParty | ScopeOther(code: int)

  /** The part of an RPG::Skill record the scene looks at. */
  datatype Skill = Skill(id: int, skillType: SkillType, scope: Scope)

  /** RPG::EnemyAction::kind. A code outside the three named ones matches no
      case of the scene's switch. */
  datatype ActionKind = KindBasic | KindSkill | KindTransformation | KindOther(code: int)

  /** RPG::EnemyAction::basic. A code outside the eight named ones matches
      no case of the scene's switch. */
  datatype BasicType =
    | BasicAttack | BasicDualAttack | BasicDefense | BasicObserve
    | BasicCharge | BasicAutodestruction | BasicEscape | BasicNothing
    | BasicOther(code: int)

  /** An entry of an enemy's action list. Like the record it models, it carries
      every field whatever its kind; only the fields of its kind are read. */
  datatype EnemyAction = EnemyAction(kind: ActionKind, basic: BasicType, skillId: int, enemyId: int)

  /** What a skill algorithm is aimed at: one battler, or a whole party. */
  datatype Target = OneBattler(battler: Battler) | PlayerParty | EnemyParty

  /** The Game_BattleAlgorithm variants the scene creates, with the arguments
      it passes to their constructors. Their effects are not modelled. */
  datatype Algorithm =
    | Normal(source: Battler, target: Battler)
    | NormalDual(source: Battler, target: Battler)
    | Defend(source: Battler)
    | Observe(source: Battler)
    | Charge(source: Battler)
    | SelfDestruct(source: Battler)
    | Escape(source: Battler)
    | SkillCast(source: Battler, group: Target, skill: Skill)
    | Transform(source: Battler, enemyId: int)

  /** The scene's phase. Only Start and SelectActor are entered in the modelled
      code; the other phases belong to the concrete battle variants. */
  datatype BattleState = StateStart | StateSelectActor | StateOther(code: nat)

  /** Game_Temp::battle_result: victory, or one of the other outcomes. */
  datatype BattleResult = Victory | OtherResult(code: nat)

  /** Where the scene's background comes from: none yet, a named image, or the
      default image of a terrain. */
  datatype Background = NoBackground | NamedBackground(name: string) | TerrainBackground(terrainId: int)
}
