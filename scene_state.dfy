/** The battle scene's state as a value, and each scene operation as a function
    from the state before to the state after. The class in BattleScene is
    specified by these functions; the lemmas here are about several calls. */
module SceneState {
  import opened BattleTypes
  import opened EnemyAi

  /** The engine globals the scene reads and writes. */
  datatype Globals = Globals(
    troopId: int,              // Game_Temp::battle_troop_id
    result: BattleResult,      // Game_Temp::battle_result
    popped: bool,              // Scene::Pop has been requested
    tempBackground: string,    // Game_Temp::battle_background
    terrainId: int,            // Game_Temp::battle_terrain_id
    backgroundName: string,    // Game_Battle::background_name
    enemyParty: Option<int>,   // the troop Main_Data::game_enemyparty was set up from
    testMembers: bool,         // the party has been given its battle-test members
    battleReady: bool          // Game_Battle::Init has run
  )

  /** A snapshot of a Scene_Battle object and of the globals above. Each
      battler's algorithm slot is `algorithms`: a battler absent from it holds
      no algorithm. */
  datatype Scene = Scene(
    state: BattleState,
    cycle: int,
    autoBattle: bool,
    enemyAction: Option<EnemyAction>,
    actorIndex: int,
    activeActor: Option<Battler>,
    background: Background,
    battleActions: seq<Battler>,
    algorithms: map<Battler, Algorithm>,
    world: Globals
  )

  function AlgorithmOf(s: Scene, b: Battler): Option<Algorithm> {
    if b in s.algorithms then Some(s.algorithms[b]) else None
  }

  /** Every queued battler holds an algorithm. */
  predicate Consistent(s: Scene) {
    forall i :: 0 <= i < |s.battleActions| ==> s.battleActions[i] in s.algorithms
  }

  predicate ValidTroop(troopId: int, troopCount: nat) {
    0 < troopId <= troopCount
  }

  /** Start. In battle-test mode the test troop and background replace the
      current ones. An unknown troop ends the battle as a victory at once. */
  function StartBattle(s: Scene, troopCount: nat, testFlag: bool, testTroopId: int, testBackground: string): (r: Scene)
    ensures r.world.troopId == (if testFlag then testTroopId else s.world.troopId)
    ensures !ValidTroop(r.world.troopId, troopCount) ==>
      r == s.(world := s.world.(troopId := r.world.troopId, result := Victory, popped := true))
    ensures ValidTroop(r.world.troopId, troopCount) ==>
      && r.state == StateStart && r.cycle == 0 && !r.autoBattle && r.enemyAction == None
      && r.world.enemyParty == Some(r.world.troopId) && r.world.battleReady
      && r.world.tempBackground == (if testFlag then testBackground else s.world.tempBackground)
      && r.world.testMembers == (testFlag || s.world.testMembers)
      && r.background == (if r.world.tempBackground != "" then NamedBackground(r.world.tempBackground)
                          else TerrainBackground(s.world.terrainId))
      && r.(state := s.state, cycle := s.cycle, autoBattle := s.autoBattle, enemyAction := s.enemyAction,
            background := s.background, world := s.world) == s
      && r.world.(troopId := s.world.troopId, enemyParty := s.world.enemyParty, battleReady := s.world.battleReady,
                  tempBackground := s.world.tempBackground, testMembers := s.world.testMembers) == s.world
    ensures Consistent(s) ==> Consistent(r)
  {
    var id := if testFlag then testTroopId else s.world.troopId;
    if !ValidTroop(id, troopCount) then
      s.(world := s.world.(troopId := id, result := Victory, popped := true))
    else
      var w := s.world.(troopId := id, enemyParty := Some(id), battleReady := true,
                        tempBackground := if testFlag then testBackground else s.world.tempBackground,
                        testMembers := testFlag || s.world.testMembers);
      s.(world := w, cycle := 0, autoBattle := false, enemyAction := None, state := StateStart,
         background := if w.tempBackground != "" then NamedBackground(w.tempBackground) else TerrainBackground(w.terrainId))
  }

  /** Carrying out a decision: the algorithm replaces whatever the enemy held,
      the enemy joins the back of the queue, and the phase may change. */
  function ApplyDecision(s: Scene, enemy: Battler, d: Decision): (r: Scene)
    ensures d.Deferred? ==> r == s
    ensures d.Act? ==>
      && |r.battleActions| == |s.battleActions| + 1
      && r.battleActions[..|s.battleActions|] == s.battleActions
      && r.battleActions[|s.battleActions|] == enemy
      && AlgorithmOf(r, enemy) == Some(d.algorithm)
      && (forall b :: b != enemy ==> AlgorithmOf(r, b) == AlgorithmOf(s, b))
      && r.state == (if d.selectActor then StateSelectActor else s.state)
      && r.(battleActions := s.battleActions, algorithms := s.algorithms, state := s.state) == s
    ensures d.QueueOnly? ==>
      && |r.battleActions| == |s.battleActions| + 1
      && r.battleActions[..|s.battleActions|] == s.battleActions
      && r.battleActions[|s.battleActions|] == enemy
      && r.(battleActions := s.battleActions) == s
    ensures !d.Deferred? ==> multiset(r.battleActions) == multiset(s.battleActions) + multiset{enemy}
    ensures s.algorithms.Keys <= r.algorithms.Keys
    ensures Consistent(s) ==> (Consistent(r) <==> !d.QueueOnly? || enemy in s.algorithms)
  {
    match d
    case Deferred => s
    case QueueOnly => s.(battleActions := s.battleActions + [enemy])
    case Act(a, selectActor) =>
      s.(algorithms := s.algorithms[enemy := a], battleActions := s.battleActions + [enemy],
         state := if selectActor then StateSelectActor else s.state)
  }

  /** RemoveCurrentAction: the front battler loses its algorithm and leaves
      the queue. The queue must not be empty. */
  function PopAction(s: Scene): (r: Scene)
    requires s.battleActions != []
    ensures [s.battleActions[0]] + r.battleActions == s.battleActions
    ensures AlgorithmOf(r, s.battleActions[0]) == None
    ensures forall b :: b != s.battleActions[0] ==> AlgorithmOf(r, b) == AlgorithmOf(s, b)
    ensures r.(battleActions := s.battleActions, algorithms := s.algorithms) == s
  {
    s.(algorithms := s.algorithms - {s.battleActions[0]}, battleActions := s.battleActions[1..])
  }

  /** NextTurn: automatic battle is switched off. */
  function EndTurn(s: Scene): (r: Scene)
    ensures !r.autoBattle
    ensures r.(autoBattle := s.autoBattle) == s
  {
    s.(autoBattle := false)
  }

  /** UpdateBackground: the battle's background name, when it differs from the
      one last shown, is copied and, unless empty, becomes the background. */
  function SyncBackground(s: Scene): (r: Scene)
    ensures r.world.tempBackground == s.world.backgroundName
    ensures s.world.tempBackground == s.world.backgroundName ==> r == s
    ensures r.background ==
      (if s.world.tempBackground != s.world.backgroundName && s.world.backgroundName != ""
       then NamedBackground(s.world.backgroundName) else s.background)
    ensures r.(background := s.background, world := s.world) == s
    ensures r.world.(tempBackground := s.world.tempBackground) == s.world
  {
    if s.world.tempBackground == s.world.backgroundName then s
    else
      var w := s.world.(tempBackground := s.world.backgroundName);
      if w.tempBackground != "" then s.(world := w, background := NamedBackground(w.tempBackground))
      else s.(world := w)
  }

  lemma SyncBackgroundIdempotent(s: Scene)
    ensures SyncBackground(SyncBackground(s)) == SyncBackground(s)
  {
  }

  /** Removing the front keeps every queued battler holding an algorithm
      exactly when that battler is not queued a second time. */
  lemma PopActionConsistent(s: Scene)
    requires s.battleActions != [] && Consistent(s)
    ensures Consistent(PopAction(s)) <==> s.battleActions[0] !in s.battleActions[1..]
  {
  }

  /** The scene after `n` successive RemoveCurrentAction calls. */
  function Drain(s: Scene, n: nat): Scene
    requires n <= |s.battleActions|
    decreases n
  {
    if n == 0 then s else Drain(PopAction(s), n - 1)
  }

  /** The battlers whose algorithms those `n` calls detach, in call order. */
  function Detached(s: Scene, n: nat): seq<Battler>
    requires n <= |s.battleActions|
    decreases n
  {
    if n == 0 then [] else [s.battleActions[0]] + Detached(PopAction(s), n - 1)
  }

  /** Removal is first in, first out: the calls detach the queue's first `n`
      battlers in queue order, leave the rest queued, empty exactly the slots
      of the detached battlers, and change nothing else. */
  lemma {:induction false} DrainIsFifo(s: Scene, n: nat)
    requires n <= |s.battleActions|
    ensures Detached(s, n) == s.battleActions[..n]
    ensures Drain(s, n).battleActions == s.battleActions[n..]
    ensures forall b :: AlgorithmOf(Drain(s, n), b) == if b in s.battleActions[..n] then None else AlgorithmOf(s, b)
    ensures Drain(s, n).(battleActions := s.battleActions, algorithms := s.algorithms) == s
    decreases n
  {
    if n > 0 {
      var p := PopAction(s);
      DrainIsFifo(p, n - 1);
      assert s.battleActions[..n] == [s.battleActions[0]] + p.battleActions[..n - 1];
      assert p.battleActions[n - 1..] == s.battleActions[n..];
      forall b ensures AlgorithmOf(Drain(s, n), b) == if b in s.battleActions[..n] then None else AlgorithmOf(s, b) {
        assert b in s.battleActions[..n] <==> b == s.battleActions[0] || b in p.battleActions[..n - 1];
      }
    }
  }

  /** One enemy and the decision its action resolved into. */
  datatype Request = Request(enemy: Battler, decision: Decision)

  /** The scene after carrying out `reqs` in order. */
  function ApplyAll(s: Scene, reqs: seq<Request>): Scene
    decreases |reqs|
  {
    if reqs == [] then s else ApplyAll(ApplyDecision(s, reqs[0].enemy, reqs[0].decision), reqs[1..])
  }

  /** The enemies of `reqs` whose decision queued them, in order. */
  function Acting(reqs: seq<Request>): seq<Battler>
    decreases |reqs|
  {
    if reqs == [] then []
    else (if !reqs[0].decision.Deferred? then [reqs[0].enemy] else []) + Acting(reqs[1..])
  }

  /** Decisions queue their enemies behind what was queued already, in the
      order they are taken; deferred ones queue nothing. */
  lemma {:induction false} ApplyAllAppends(s: Scene, reqs: seq<Request>)
    ensures ApplyAll(s, reqs).battleActions == s.battleActions + Acting(reqs)
    decreases |reqs|
  {
    if reqs != [] {
      var t := ApplyDecision(s, reqs[0].enemy, reqs[0].decision);
      ApplyAllAppends(t, reqs[1..]);
      assert t.battleActions == s.battleActions + (if !reqs[0].decision.Deferred? then [reqs[0].enemy] else []);
    }
  }

  /** Enqueues followed by removals: every queued battler is detached once,
      in the order it was queued, and the queue ends empty. */
  lemma {:induction false} EnqueueThenDrain(s: Scene, reqs: seq<Request>)
    ensures |s.battleActions| + |Acting(reqs)| == |ApplyAll(s, reqs).battleActions|
    ensures Detached(ApplyAll(s, reqs), |s.battleActions| + |Acting(reqs)|) == s.battleActions + Acting(reqs)
    ensures Drain(ApplyAll(s, reqs), |s.battleActions| + |Acting(reqs)|).battleActions == []
  {
    ApplyAllAppends(s, reqs);
    EmptiedByFullDrain(ApplyAll(s, reqs));
  }

  /** Removing as many times as there are queued battlers detaches all of
      them in queue order and leaves the queue empty. */
  lemma EmptiedByFullDrain(t: Scene)
    ensures Detached(t, |t.battleActions|) == t.battleActions
    ensures Drain(t, |t.battleActions|).battleActions == []
  {
    DrainIsFifo(t, |t.battleActions|);
    assert t.battleActions[..|t.battleActions|] == t.battleActions;
  }

  /** Every queued battler holds an algorithm after any run of decisions in
      which each enemy that is queued without an assignment already held an
      algorithm at the start. */
  lemma {:induction false} ApplyAllConsistent(s: Scene, reqs: seq<Request>)
    requires Consistent(s)
    requires forall i :: 0 <= i < |reqs| && reqs[i].decision.QueueOnly? ==> reqs[i].enemy in s.algorithms
    ensures Consistent(ApplyAll(s, reqs))
    decreases |reqs|
  {
    if reqs != [] {
      var t := ApplyDecision(s, reqs[0].enemy, reqs[0].decision);
      assert reqs[0].decision.QueueOnly? ==> reqs[0].enemy in s.algorithms;
      forall i | 0 <= i < |reqs[1..]| && reqs[1..][i].decision.QueueOnly?
        ensures reqs[1..][i].enemy in t.algorithms
      {
        assert reqs[i + 1] == reqs[1..][i];
      }
      ApplyAllConsistent(t, reqs[1..]);
    }
  }

  /** An enemy without an algorithm whose basic action carries an unnamed code
      is queued all the same, and the queue then holds a battler with no
      algorithm. */
  lemma UnnamedBasicQueuesEmptySlot(s: Scene, enemy: Battler, code: int, target: Battler)
    requires Consistent(s) && enemy !in s.algorithms
    ensures var r := ApplyDecision(s, enemy, BasicDecision(enemy, EnemyAction(KindBasic, BasicOther(code), 0, 0), target));
      r.battleActions[|s.battleActions|] == enemy && AlgorithmOf(r, enemy) == None && !Consistent(r)
  {
  }

  /** A battler queued twice before its first entry is resolved is left in
      the queue without an algorithm: nothing guards against double queueing. */
  lemma DoubleQueueLeavesEmptySlot(s: Scene, enemy: Battler, a1: Algorithm, a2: Algorithm)
    requires s.battleActions == []
    ensures var t := PopAction(ApplyDecision(ApplyDecision(s, enemy, Act(a1, false)), enemy, Act(a2, false)));
      t.battleActions == [enemy] && AlgorithmOf(t, enemy) == None && !Consistent(t)
  {
  }

  /** The steps of one tick of Update, in the order they run. */
  datatype Step = StepWindows | StepActions | StepInput | StepBackground | StepBattle | StepScreen

  /** Update's schedule: the windows always update first, queued actions are
      processed only while no message is shown, input is read only while no
      message is waiting, and the background sync and the global updates
      always run last. */
  function TickSteps(messageVisible: bool, messageWaiting: bool): (r: seq<Step>)
    ensures StepActions in r <==> !messageVisible
    ensures StepInput in r <==> !messageWaiting
    ensures |r| >= 4 && r[0] == StepWindows
    ensures r[|r| - 3..] == [StepBackground, StepBattle, StepScreen]
    ensures forall i, j :: 0 <= i < j < |r| ==> r[i] != r[j]
    ensures forall i, j :: 0 <= i < |r| && 0 <= j < |r| && r[i] == StepActions && r[j] == StepInput ==> i < j
  {
    [StepWindows]
      + (if !messageVisible then [StepActions] else [])
      + (if !messageWaiting then [StepInput] else [])
      + [StepBackground, StepBattle, StepScreen]
  }
}
