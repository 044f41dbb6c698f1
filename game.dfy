/** The mutable game state of app.js and the operations that update it in
    place: `state.battle`, `state.enemy` and `state.progress` are objects,
    and each operation writes their fields one by one as the source does.
    Every method is proved to leave the state that the matching function of
    module Rules describes. */
module Game {
  import opened Content
  import opened Rules

  /** `state.battle`. */
  class Battle {
    var id: string
    var turn: int
    var maxTurn: int
    var collapse: int
    var collapseLimit: int

    function View(): BattleState
      reads this
    {
      BattleState(id, turn, maxTurn, collapse, collapseLimit)
    }

    constructor (id: string, turn: int, maxTurn: int, collapse: int, collapseLimit: int)
      ensures View() == BattleState(id, turn, maxTurn, collapse, collapseLimit)
    {
      this.id, this.turn, this.maxTurn := id, turn, maxTurn;
      this.collapse, this.collapseLimit := collapse, collapseLimit;
    }
  }

  /** `state.enemy`: the fields the core never writes are constants. */
  class Enemy {
    const id: string
    const name: string
    const maxHp: int
    const enemyType: string
    const basePressure: int
    const patternQueue: seq<string>
    var hp: int
    var patternIndex: nat
    var echoStacks: int
    var seal: Seals

    ghost function View(): EnemyState
      reads this
    {
      EnemyState(id, name, hp, maxHp, enemyType, basePressure, patternQueue, patternIndex, echoStacks, seal)
    }

    /** The object literal of `initEnemy` (app.js:68-84). */
    constructor (id: string, t: EnemyTemplate)
      ensures View() == NewEnemy(id, t)
    {
      this.id, this.name, this.enemyType := id, t.name, t.enemyType;
      this.hp, this.maxHp := t.maxHp, t.maxHp;
      this.basePressure := t.basePressure;
      this.patternQueue := PatternQueue(t.patterns);
      this.patternIndex, this.echoStacks := 0, 0;
      this.seal := Seals(0, 0, 0);
    }
  }

  /** `state.progress`. */
  class Progress {
    var stageIndex: nat

    constructor ()
      ensures stageIndex == 0
    {
      stageIndex := 0;
    }
  }

  /** The whole game state; `enemy` is null until the first enemy is built. */
  class GameState {
    const progress: Progress
    const battle: Battle
    var enemy: Enemy?

    /** The enemy exists and keeps the invariants of `EnemyOk`, and the stage
        index names an entry of the stage order. */
    ghost predicate Valid()
      reads this, progress, enemy
    {
      enemy != null && EnemyOk(enemy.View()) && progress.stageIndex < |StageOrder|
    }

    ghost function View(): World
      requires enemy != null
      reads this, progress, battle, enemy
    {
      World(progress.stageIndex, battle.View(), enemy.View())
    }

    /** `defaultState` (app.js:32-49), without the party. */
    constructor Default()
      ensures fresh(progress) && fresh(battle) && enemy == null
      ensures progress.stageIndex == 0
      ensures battle.View() == BattleState("stage1", 1, 5, 60, 100)
    {
      progress := new Progress();
      battle := new Battle("stage1", 1, 5, 60, 100);
      enemy := null;
    }

    /** `initEnemy` (app.js:64-85): replaces the enemy with a fresh one built
        from its template, or raises on an unknown enemy id and changes
        nothing. */
    method InitEnemy(db: Db, enemyId: string) returns (err: Option<GameError>)
      modifies this
      ensures enemyId in db.enemies ==>
                err == None && enemy != null && fresh(enemy) &&
                enemy.View() == NewEnemy(enemyId, db.enemies[enemyId])
      ensures enemyId !in db.enemies ==> err == Some(UnknownEnemy(enemyId)) && enemy == old(enemy)
    {
      if enemyId !in db.enemies {
        return Some(UnknownEnemy(enemyId));
      }
      enemy := new Enemy(enemyId, db.enemies[enemyId]);
      err := None;
    }

    /** `applyAction` (app.js:102-125): returns the damage dealt. */
    method ApplyAction(a: Attr) returns (dmg: int)
      requires Valid()
      modifies battle, enemy
      ensures Valid()
      ensures View() == AfterAction(old(View()), a)
      ensures dmg == Damage(a)
    {
      dmg := 12;
      if a == Erosion {
        dmg := 16;
        battle.collapse := Min(battle.collapseLimit, battle.collapse + 15);
      } else if a == Anchor {
        dmg := 10;
        battle.collapse := Max(0, battle.collapse - 10);
      } else if a == Echo {
        dmg := 8;
        enemy.echoStacks := enemy.echoStacks + 1;
      }
      enemy.hp := Max(0, enemy.hp - dmg);
    }

    /** `applyEnemyPattern` (app.js:127-160). */
    method ApplyEnemyPattern(patterns: map<string, PatternDef>)
      requires Valid()
      modifies battle, enemy
      ensures Valid()
      ensures View() == AfterPattern(old(View()), patterns)
    {
      if enemy.basePressure > 0 {
        battle.collapse := Min(battle.collapseLimit, battle.collapse + enemy.basePressure);
      }
      ghost var pressed := View();
      assert pressed == Pressure(old(View()));

      var i := enemy.patternIndex;
      if i >= |enemy.patternQueue| || enemy.patternQueue[i] == "" {
        return;
      }
      var pid := enemy.patternQueue[i];
      if pid !in patterns {
        return;
      }
      var p := patterns[pid];
      match p.kind {
        case KindCollapse =>
          battle.collapse := battle.collapse + p.value;
        case KindEcho =>
          enemy.echoStacks := enemy.echoStacks + p.value;
        case KindSeal =>
          enemy.seal := enemy.seal.(anchor := Max(enemy.seal.anchor, p.value));
        case KindOther(_) =>
      }
      enemy.patternIndex := (i + 1) % |enemy.patternQueue|;
    }

    /** `nextTurn` (app.js:162-171). */
    method NextTurn(patterns: map<string, PatternDef>)
      requires Valid()
      modifies battle, enemy
      ensures Valid()
      ensures View() == AfterTurn(old(View()), patterns)
    {
      battle.turn := battle.turn + 1;
      var s := enemy.seal;
      enemy.seal := Seals(Decay(s.erosion), Decay(s.anchor), Decay(s.echo));
      ApplyEnemyPattern(patterns);
    }

    /** `startNextBattle` (app.js:223-240). */
    method StartNextBattle(db: Db) returns (err: Option<GameError>)
      requires Valid() && WellFormed(db)
      modifies this, progress, battle
      ensures Valid()
      ensures View() == AfterStart(old(View()), db).world
      ensures err == ErrorOf(AfterStart(old(View()), db))
      ensures enemy == old(enemy) || fresh(enemy)
    {
      progress.stageIndex := Min(progress.stageIndex + 1, |StageOrder| - 1);
      var nextBattleId := StageOrder[progress.stageIndex];
      battle.id := nextBattleId;
      battle.turn := 1;
      if nextBattleId !in db.battles {
        return Some(UnknownBattle(nextBattleId));
      }
      var b := db.battles[nextBattleId];
      battle.maxTurn := b.maxTurn;
      battle.collapseLimit := b.collapseLimit;
      battle.collapse := StartCollapse;
      err := InitEnemy(db, b.enemyId);
    }

    /** The game logic of `onChooseCard` (app.js:242-264): resolve the card's
        attribute, apply it, check the end, and then start the next battle on
        a win, stop on a collapse or a timeout, or end the turn. */
    method PlayCard(db: Db, card: Card) returns (err: Option<GameError>)
      requires Valid() && WellFormed(db)
      modifies this, progress, battle, enemy
      ensures Valid()
      ensures View() == Play(old(View()), db, card).world
      ensures err == ErrorOf(Play(old(View()), db, card))
    {
      if card.characterId !in db.characters {
        return Some(UnknownCharacter(card.characterId));
      }
      var attitude := db.characters[card.characterId].attitude;
      var attr := ResolveActiveAttr(card.attr1, card.attr2, attitude);
      var _ := ApplyAction(ParseAttr(attr));
      var end := CheckEnd(enemy.hp, battle.View());
      match end {
        case Win =>
          err := StartNextBattle(db);
        case Collapse =>
          err := None;
        case Timeout =>
          err := None;
        case Ongoing =>
          NextTurn(db.patterns);
          err := None;
      }
    }
  }
}
