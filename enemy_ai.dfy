/** The enemy decision engine as pure functions: which algorithm an enemy's
    action resolves into, if any, and whether the scene then moves to the
    actor-selection phase (src/scene_battle.cpp, CreateEnemyAction and its two
    helpers). The scene applies a decision with SceneState.ApplyDecision. */
module EnemyAi {
  import opened BattleTypes

  /** Deferred: nothing is assigned and nothing is queued. Act: `algorithm` is
      assigned to the enemy, the enemy is queued, and the scene moves to
      SelectActor when `selectActor` holds. QueueOnly: the enemy is queued and
      keeps whatever algorithm it held, possibly none. */
  datatype Decision = Deferred | Act(algorithm: Algorithm, selectActor: bool) | QueueOnly

  /** The basic action an algorithm performs, if it is one of the basic ones. */
  function BasicTypeOf(a: Algorithm): Option<BasicType> {
    match a
    case Normal(_, _) => Some(BasicAttack)
    case NormalDual(_, _) => Some(BasicDualAttack)
    case Defend(_) => Some(BasicDefense)
    case Observe(_) => Some(BasicObserve)
    case Charge(_) => Some(BasicCharge)
    case SelfDestruct(_) => Some(BasicAutodestruction)
    case Escape(_) => Some(BasicEscape)
    case SkillCast(_, _, _) => None
    case Transform(_, _) => None
  }

  /** What an algorithm is aimed at, for the algorithms that carry a target. */
  function TargetOf(a: Algorithm): Option<Target> {
    match a
    case Normal(_, t) => Some(OneBattler(t))
    case NormalDual(_, t) => Some(OneBattler(t))
    case SkillCast(_, g, _) => Some(g)
    case _ => None
  }

  /** Teleport, escape and switch skills are left to another path; every other
      type, including the codes of the `default:` branch, is resolved here. */
  predicate ResolvedHere(t: SkillType) {
    t != TypeTeleport && t != TypeEscape && t != TypeSwitch
  }

  /** A scope the engine resolves at once: a whole party, or the caster itself. */
  predicate ImmediateScope(scope: Scope) {
    scope == ScopeEnemies || scope == ScopeSelf || scope == ScopeParty
  }

  /** CreateEnemyActionBasic. `target` is the living party member that
      GetRandomAliveBattler picks for the two attacks. A code outside the
      named ones assigns nothing but is still queued, since it is not
      Basic_nothing. */
  function BasicDecision(enemy: Battler, action: EnemyAction, target: Battler): (d: Decision)
    ensures d.Act? <==> action.kind == KindBasic && action.basic != BasicNothing && !action.basic.BasicOther?
    ensures d.QueueOnly? <==> action.kind == KindBasic && action.basic.BasicOther?
    ensures d.Act? ==> !d.selectActor && d.algorithm.source == enemy
    ensures d.Act? ==> BasicTypeOf(d.algorithm) == Some(action.basic)
    ensures d.Act? ==>
      (TargetOf(d.algorithm) ==
       if action.basic == BasicAttack || action.basic == BasicDualAttack then Some(OneBattler(target)) else None)
  {
    if action.kind != KindBasic then Deferred
    else
      match action.basic
      case BasicAttack => Act(Normal(enemy, target), false)
      case BasicDualAttack => Act(NormalDual(enemy, target), false)
      case BasicDefense => Act(Defend(enemy), false)
      case BasicObserve => Act(Observe(enemy), false)
      case BasicCharge => Act(Charge(enemy), false)
      case BasicAutodestruction => Act(SelfDestruct(enemy), false)
      case BasicEscape => Act(Escape(enemy), false)
      case BasicNothing => Deferred
      case BasicOther(_) => QueueOnly
  }

  /** CreateEnemyActionSkill. The skill is looked up by its 1-based id without
      a bounds check, hence the precondition; `selected` is the skill the skill
      window currently shows. */
  function SkillDecision(enemy: Battler, action: EnemyAction, skills: seq<Skill>, selected: Skill): (d: Decision)
    requires action.kind == KindSkill ==> 1 <= action.skillId <= |skills|
    ensures action.kind != KindSkill ==> d == Deferred
    ensures !d.QueueOnly?
    ensures action.kind == KindSkill ==>
      var skill := skills[action.skillId - 1];
      && (d.Act? <==> ResolvedHere(skill.skillType) && ImmediateScope(skill.scope))
      && (d.Act? ==> d.selectActor && d.algorithm.SkillCast? && d.algorithm.source == enemy)
      && (d.Act? && skill.scope == ScopeEnemies ==> d.algorithm.group == PlayerParty && d.algorithm.skill == skill)
      && (d.Act? && skill.scope == ScopeSelf ==> d.algorithm.group == OneBattler(enemy) && d.algorithm.skill == skill)
      && (d.Act? && skill.scope == ScopeParty ==> d.algorithm.group == EnemyParty && d.algorithm.skill == selected)
  {
    if action.kind != KindSkill then Deferred
    else
      var skill := skills[action.skillId - 1];
      match skill.skillType
      case TypeTeleport => Deferred
      case TypeEscape => Deferred
      case TypeSwitch => Deferred
      case _ =>
        match skill.scope
        case ScopeEnemy => Deferred
        case ScopeAlly => Deferred
        case ScopeEnemies => Act(SkillCast(enemy, PlayerParty, skill), true)
        case ScopeSelf => Act(SkillCast(enemy, OneBattler(enemy), skill), true)
        case ScopeParty => Act(SkillCast(enemy, EnemyParty, selected), true)
        case ScopeOther(_) => Deferred
  }

  /** CreateEnemyAction: dispatch on the action's kind. A kind outside the
      named ones matches no case and decides nothing. */
  function EnemyDecision(enemy: Battler, action: EnemyAction, skills: seq<Skill>, target: Battler, selected: Skill): (d: Decision)
    requires action.kind == KindSkill ==> 1 <= action.skillId <= |skills|
    ensures d.Act? ==> d.algorithm.source == enemy
    ensures action.kind == KindBasic ==> d == BasicDecision(enemy, action, target)
    ensures action.kind == KindSkill ==> d == SkillDecision(enemy, action, skills, selected)
    ensures action.kind == KindTransformation ==>
      d.Act? && !d.selectActor && d.algorithm == Transform(enemy, action.enemyId)
    ensures action.kind.KindOther? ==> d == Deferred
  {
    match action.kind
    case KindBasic => BasicDecision(enemy, action, target)
    case KindSkill => SkillDecision(enemy, action, skills, selected)
    case KindTransformation => Act(Transform(enemy, action.enemyId), false)
    case KindOther(_) => Deferred
  }

  /** The basic algorithm is fixed by its caster, its kind and its target:
      BasicDecision's contract determines its result. */
  lemma BasicAlgorithmDetermined(a: Algorithm, b: Algorithm)
    requires BasicTypeOf(a).Some? && BasicTypeOf(a) == BasicTypeOf(b)
    requires a.source == b.source && TargetOf(a) == TargetOf(b)
    ensures a == b
  {
  }

  /** Different basic action types never resolve into the same algorithm. */
  lemma BasicDecisionInjective(enemy: Battler, x: EnemyAction, y: EnemyAction, target: Battler)
    requires BasicDecision(enemy, x, target).Act? && BasicDecision(enemy, y, target).Act?
    requires BasicDecision(enemy, x, target) == BasicDecision(enemy, y, target)
    ensures x.basic == y.basic
  {
  }

  /** The shape of every decision: the phase moves to SelectActor exactly
      for skill casts, a basic algorithm comes exactly from a basic action, and
      only a basic action with an unnamed code queues without assigning. */
  lemma DecisionShape(enemy: Battler, action: EnemyAction, skills: seq<Skill>, target: Battler, selected: Skill)
    requires action.kind == KindSkill ==> 1 <= action.skillId <= |skills|
    ensures var d := EnemyDecision(enemy, action, skills, target, selected);
      && (d.Act? ==> (d.selectActor <==> d.algorithm.SkillCast?) && (BasicTypeOf(d.algorithm).Some? <==> action.kind == KindBasic))
      && (d.QueueOnly? <==> action.kind == KindBasic && action.basic.BasicOther?)
  {
  }
}
