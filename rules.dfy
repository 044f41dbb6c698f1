/** The rules of an encounter, stated on values: what each step of the
    battle core (app.js) does to the game state. The classes in module Game
    perform the same steps in place and are proved to agree with these
    functions; the lemmas here state what the steps promise. */
module Rules {
  import opened Text
  import opened Content

  /** The fixed order of stages; winning moves one entry forward. */
  const StageOrder: seq<string> := ["stage1", "stage2", "stage3", "stage4", "boss"]

  /** The collapse value every stage after the first starts with. */
  const StartCollapse: int := 40

  function Min(a: int, b: int): int { if a <= b then a else b }
  function Max(a: int, b: int): int { if a >= b then a else b }

  /** One turn of decay of a seal counter: down by one, never below zero. */
  function Decay(s: nat): nat { if s == 0 then 0 else s - 1 }

  /** The remaining turns of the enemy's seal on each attribute. */
  datatype Seals = Seals(erosion: nat, anchor: nat, echo: nat)

  function DecaySeals(s: Seals): Seals {
    Seals(Decay(s.erosion), Decay(s.anchor), Decay(s.echo))
  }

  /** `state.enemy`. */
  datatype EnemyState = EnemyState(
    id: string, name: string, hp: int, maxHp: int, enemyType: string, basePressure: int,
    patternQueue: seq<string>, patternIndex: nat, echoStacks: int, seal: Seals)

  /** `state.battle`. */
  datatype BattleState = BattleState(id: string, turn: int, maxTurn: int, collapse: int, collapseLimit: int)

  /** `state.progress.stageIndex` together with `state.battle` and `state.enemy`. */
  datatype World = World(stageIndex: nat, battle: BattleState, enemy: EnemyState)

  /** What the battle core keeps true of the enemy: hp stays between 0 and
      its maximum, the pattern index is a position of the queue (or 0 when the
      queue is empty), and the queue holds no empty ids. */
  predicate EnemyOk(e: EnemyState) {
    0 <= e.hp <= e.maxHp &&
    (e.patternIndex == 0 || e.patternIndex < |e.patternQueue|) &&
    forall i :: 0 <= i < |e.patternQueue| ==> e.patternQueue[i] != ""
  }

  /** The numeric content the core relies on: no enemy has a negative
      maximum hp. */
  predicate WellFormed(db: Db) {
    forall id :: id in db.enemies ==> db.enemies[id].maxHp >= 0
  }

  // ---------------------------------------------------------------------------
  // Attribute resolution (app.js:90-97)

  /** Which of a card's two attribute texts takes effect for a character with
      the given attitude. A card whose attributes agree (and are not empty)
      is fixed; otherwise the attitude picks, and the first attribute is the
      fallback. */
  function ResolveActiveAttr(attr1: string, attr2: string, attitude: string): (r: string)
    ensures r == attr1 || r == attr2
    ensures attr1 != "" && attr1 == attr2 ==> r == attr1
    ensures attr1 == attitude ==> r == attr1
    ensures attr2 == attitude && attr1 != attitude ==> r == attr2
    ensures attr1 != attitude && attr2 != attitude ==> r == attr1
  {
    if attr1 != "" && attr1 == attr2 then attr1
    else if attr1 == attitude then attr1
    else if attr2 == attitude then attr2
    else attr1
  }

  // ---------------------------------------------------------------------------
  // Action application (app.js:102-125)

  /** The damage table: erosion 16, anchor 10, echo 8, anything else 12. */
  function Damage(a: Attr): (d: int)
    ensures d > 0
  {
    match a
    case Erosion => 16
    case Anchor => 10
    case Echo => 8
    case Other(_) => 12
  }

  /** The effect of the player's action with the resolved attribute `a`. */
  function AfterAction(w: World, a: Attr): (r: World)
    ensures r.stageIndex == w.stageIndex
    ensures r.enemy.hp == Max(0, w.enemy.hp - Damage(a))
    ensures 0 <= r.enemy.hp <= Max(0, w.enemy.hp)
    ensures a == Erosion ==> r.battle.collapse == Min(w.battle.collapseLimit, w.battle.collapse + 15)
    ensures a == Anchor ==> r.battle.collapse == Max(0, w.battle.collapse - 10)
    ensures a != Erosion && a != Anchor ==> r.battle.collapse == w.battle.collapse
    ensures r.enemy.echoStacks == w.enemy.echoStacks + (if a == Echo then 1 else 0)
    ensures r.battle == w.battle.(collapse := r.battle.collapse)
    ensures r.enemy == w.enemy.(hp := r.enemy.hp, echoStacks := r.enemy.echoStacks)
    ensures 0 <= w.battle.collapse <= w.battle.collapseLimit ==>
              0 <= r.battle.collapse <= r.battle.collapseLimit
    ensures EnemyOk(w.enemy) ==> EnemyOk(r.enemy)
  {
    var b, e := w.battle, w.enemy;
    var collapse :=
      match a
      case Erosion => Min(b.collapseLimit, b.collapse + 15)
      case Anchor => Max(0, b.collapse - 10)
      case _ => b.collapse;
    var echoStacks := if a == Echo then e.echoStacks + 1 else e.echoStacks;
    w.(battle := b.(collapse := collapse),
       enemy := e.(hp := Max(0, e.hp - Damage(a)), echoStacks := echoStacks))
  }

  // ---------------------------------------------------------------------------
  // Enemy creation (app.js:64-85)

  /** The pattern queue of an enemy: the pipe-separated ids, trimmed, with
      the empty ones dropped. */
  function PatternQueue(patterns: string): (q: seq<string>)
    ensures forall i :: 0 <= i < |q| ==> q[i] != "" && '|' !in q[i] && Trim(q[i]) == q[i]
    ensures forall x :: x in q <==> x in TrimAll(Split(patterns, '|')) && x != ""
    ensures multiset(q) == multiset(TrimAll(Split(patterns, '|')))["" := 0]
  {
    var pieces := TrimAll(Split(patterns, '|'));
    PiecesAreClean(patterns);
    DropEmpty(pieces)
  }

  /** The queue keeps the order of the list: the queue of two lists joined
      by a pipe is the first list's queue followed by the second's. */
  lemma PatternQueueAppend(a: string, b: string)
    ensures PatternQueue(a + ['|'] + b) == PatternQueue(a) + PatternQueue(b)
  {
    SplitAppend(a, b, '|');
    TrimAllAppend(Split(a, '|'), Split(b, '|'));
    DropEmptyAppend(TrimAll(Split(a, '|')), TrimAll(Split(b, '|')));
  }

  /** A list without a pipe gives its trimmed text as the one entry, or no
      entry when that is empty. */
  lemma PatternQueueOne(a: string)
    requires '|' !in a
    ensures PatternQueue(a) == if Trim(a) == "" then [] else [Trim(a)]
  {
    SplitWhole(a, '|');
    DropEmptyOne(Trim(a));
  }

  /** Repeated ids stay, in their order: "x|y|x" queues x, y and x again. */
  lemma PatternQueueKeepsRepeats(x: string, y: string)
    requires x != "" && '|' !in x && Trim(x) == x
    requires y != "" && '|' !in y && Trim(y) == y
    ensures PatternQueue(x + ['|'] + y + ['|'] + x) == [x, y, x]
  {
    PatternQueueOne(x);
    PatternQueueOne(y);
    assert PatternQueue(x) == [x] && PatternQueue(y) == [y];
    var yx := y + ['|'] + x;
    PatternQueueAppend(y, x);
    assert PatternQueue(yx) == [y, x];
    PatternQueueAppend(x, yx);
    ThreeIds(x, y);
  }

  lemma ThreeIds(x: string, y: string)
    ensures x + ['|'] + (y + ['|'] + x) == x + ['|'] + y + ['|'] + x
    ensures [x] + [y, x] == [x, y, x]
  {
  }

  lemma PiecesAreClean(patterns: string)
    ensures forall x :: x in TrimAll(Split(patterns, '|')) ==> '|' !in x && Trim(x) == x
  {
    var parts := Split(patterns, '|');
    var pieces := TrimAll(parts);
    forall i | 0 <= i < |pieces|
      ensures '|' !in pieces[i] && Trim(pieces[i]) == pieces[i]
    {
      TrimAddsNothing(parts[i], '|');
      TrimIdempotent(parts[i]);
    }
  }

  /** A fresh enemy built from its template: full hp, the first pattern
      next, no echo stacks, no seals. */
  function NewEnemy(id: string, t: EnemyTemplate): (e: EnemyState)
    ensures e.id == id && e.name == t.name && e.enemyType == t.enemyType
    ensures e.hp == e.maxHp == t.maxHp
    ensures e.basePressure == t.basePressure
    ensures e.patternQueue == PatternQueue(t.patterns) && e.patternIndex == 0
    ensures e.echoStacks == 0 && e.seal == Seals(0, 0, 0)
    ensures t.maxHp >= 0 ==> EnemyOk(e)
  {
    EnemyState(id, t.name, t.maxHp, t.maxHp, t.enemyType, t.basePressure,
               PatternQueue(t.patterns), 0, 0, Seals(0, 0, 0))
  }

  // ---------------------------------------------------------------------------
  // Enemy pattern engine (app.js:127-160)

  /** The enemy's constant pressure: added to collapse only when positive,
      and the sum is capped at the collapse limit. */
  function Pressure(w: World): (r: World)
    ensures w.enemy.basePressure > 0 ==>
              r.battle.collapse == Min(w.battle.collapseLimit, w.battle.collapse + w.enemy.basePressure)
    ensures w.enemy.basePressure > 0 ==> r.battle.collapse <= r.battle.collapseLimit
    ensures w.enemy.basePressure <= 0 ==> r == w
    ensures r == w.(battle := w.battle.(collapse := r.battle.collapse))
  {
    if w.enemy.basePressure > 0 then
      w.(battle := w.battle.(collapse := Min(w.battle.collapseLimit, w.battle.collapse + w.enemy.basePressure)))
    else w
  }

  /** The pattern the queue points at, when there is one and its id is in
      the pattern table. */
  function CurrentPattern(e: EnemyState, patterns: map<string, PatternDef>): Option<PatternDef> {
    var i := e.patternIndex;
    if i < |e.patternQueue| && e.patternQueue[i] != "" && e.patternQueue[i] in patterns
    then Some(patterns[e.patternQueue[i]])
    else None
  }

  /** Applying the current pattern by its kind, then advancing the index
      cyclically. With no current pattern nothing happens, the index
      included. A collapse pattern is not capped; a seal pattern only ever
      raises the anchor seal. */
  function RunPattern(w: World, patterns: map<string, PatternDef>): (r: World)
    ensures CurrentPattern(w.enemy, patterns).None? ==> r == w
    ensures CurrentPattern(w.enemy, patterns).Some? ==>
              var p := CurrentPattern(w.enemy, patterns).value;
              var q := w.enemy.patternQueue;
              |q| > 0 &&
              r.enemy.patternIndex == (w.enemy.patternIndex + 1) % |q| &&
              r.battle.collapse == w.battle.collapse + (if p.kind == KindCollapse then p.value else 0) &&
              r.enemy.echoStacks == w.enemy.echoStacks + (if p.kind == KindEcho then p.value else 0) &&
              r.enemy.seal.anchor == (if p.kind == KindSeal then Max(w.enemy.seal.anchor, p.value)
                                      else w.enemy.seal.anchor)
    ensures r.stageIndex == w.stageIndex
    ensures r.battle == w.battle.(collapse := r.battle.collapse)
    ensures r.enemy == w.enemy.(patternIndex := r.enemy.patternIndex, echoStacks := r.enemy.echoStacks,
                                seal := r.enemy.seal)
    ensures r.enemy.seal.erosion == w.enemy.seal.erosion && r.enemy.seal.echo == w.enemy.seal.echo
    ensures r.enemy.seal.anchor >= w.enemy.seal.anchor
    ensures EnemyOk(w.enemy) ==> EnemyOk(r.enemy)
  {
    match CurrentPattern(w.enemy, patterns)
    case None => w
    case Some(p) =>
      var b, e := w.battle, w.enemy;
      var b' := if p.kind == KindCollapse then b.(collapse := b.collapse + p.value) else b;
      var e' :=
        match p.kind
        case KindEcho => e.(echoStacks := e.echoStacks + p.value)
        case KindSeal => e.(seal := e.seal.(anchor := Max(e.seal.anchor, p.value)))
        case _ => e;
      w.(battle := b', enemy := e'.(patternIndex := (e.patternIndex + 1) % |e.patternQueue|))
  }

  /** `applyEnemyPattern`: pressure first, then the queued pattern. */
  function AfterPattern(w: World, patterns: map<string, PatternDef>): (r: World)
    ensures r.stageIndex == w.stageIndex
    ensures r.battle == w.battle.(collapse := r.battle.collapse)
    ensures r.battle.collapse ==
              Pressure(w).battle.collapse +
              match CurrentPattern(w.enemy, patterns)
              case Some(p) => if p.kind == KindCollapse then p.value else 0
              case None => 0
    ensures r.enemy.hp == w.enemy.hp && r.enemy.patternQueue == w.enemy.patternQueue
    ensures CurrentPattern(w.enemy, patterns).None? ==> r.enemy == w.enemy
    ensures EnemyOk(w.enemy) ==> EnemyOk(r.enemy)
  {
    RunPattern(Pressure(w), patterns)
  }

  // ---------------------------------------------------------------------------
  // Turn controller (app.js:162-171)

  /** `nextTurn`: the turn advances by exactly one and every seal decays by
      one before the pattern engine runs, so a seal the pattern sets this turn
      is not decayed this turn. */
  function AfterTurn(w: World, patterns: map<string, PatternDef>): (r: World)
    ensures r.stageIndex == w.stageIndex
    ensures r.battle.turn == w.battle.turn + 1
    ensures r.enemy.hp == w.enemy.hp && r.enemy.patternQueue == w.enemy.patternQueue
    ensures r.enemy.seal.erosion == Decay(w.enemy.seal.erosion)
    ensures r.enemy.seal.echo == Decay(w.enemy.seal.echo)
    ensures r.enemy.seal.anchor ==
              match CurrentPattern(w.enemy, patterns)
              case Some(p) => if p.kind == KindSeal then Max(Decay(w.enemy.seal.anchor), p.value)
                              else Decay(w.enemy.seal.anchor)
              case None => Decay(w.enemy.seal.anchor)
    ensures CurrentPattern(w.enemy, patterns).None? ==>
              r.enemy.patternIndex == w.enemy.patternIndex
    ensures CurrentPattern(w.enemy, patterns).Some? ==>
              |w.enemy.patternQueue| > 0 &&
              r.enemy.patternIndex == (w.enemy.patternIndex + 1) % |w.enemy.patternQueue|
    ensures EnemyOk(w.enemy) ==> EnemyOk(r.enemy)
  {
    var w' := w.(battle := w.battle.(turn := w.battle.turn + 1),
                 enemy := w.enemy.(seal := DecaySeals(w.enemy.seal)));
    assert CurrentPattern(w'.enemy, patterns) == CurrentPattern(w.enemy, patterns);
    AfterPattern(w', patterns)
  }

  // ---------------------------------------------------------------------------
  // End check (app.js:173-178)

  datatype EndState = Win | Collapse | Timeout | Ongoing

  /** `checkEnd`: a defeated enemy wins over a collapsed meter, which wins
      over a timed-out battle. */
  function CheckEnd(hp: int, b: BattleState): (r: EndState)
    ensures r == Win <==> hp <= 0
    ensures r == Collapse <==> hp > 0 && b.collapse >= b.collapseLimit
    ensures r == Timeout <==> hp > 0 && b.collapse < b.collapseLimit && b.turn > b.maxTurn
    ensures r == Ongoing <==> hp > 0 && b.collapse < b.collapseLimit && b.turn <= b.maxTurn
  {
    if hp <= 0 then Win
    else if b.collapse >= b.collapseLimit then Collapse
    else if b.turn > b.maxTurn then Timeout
    else Ongoing
  }

  function EndOf(w: World): EndState {
    CheckEnd(w.enemy.hp, w.battle)
  }

  // ---------------------------------------------------------------------------
  // Progression (app.js:223-240)

  /** The stage after stage `i`; the last stage is never left. */
  function NextStage(i: nat): (j: nat)
    ensures j < |StageOrder|
    ensures i + 1 < |StageOrder| ==> j == i + 1
    ensures i + 1 >= |StageOrder| ==> j == |StageOrder| - 1
  {
    Min(i + 1, |StageOrder| - 1)
  }

  /** The exceptions the core can raise. */
  datatype GameError =
    | UnknownCharacter(characterId: string)  // app.js:244, a TypeError on an undefined character
    | UnknownBattle(battleId: string)         // app.js:234, a TypeError on an undefined battle row
    | UnknownEnemy(enemyId: string)           // app.js:66
    | UndefinedName(name: string)             // app.js:246, a ReferenceError

  /** The state after a step, or the state a raised exception leaves behind
      together with the exception. */
  datatype Outcome = Done(world: World) | Crashed(world: World, error: GameError)

  /** `startNextBattle`. The stage index, battle id and turn are written
      before the stage's row is read, and all battle fields before the enemy
      is built, so a missing row or enemy leaves those writes in place. */
  function AfterStart(w: World, db: Db): (r: Outcome)
    ensures r.world.stageIndex == NextStage(w.stageIndex)
    ensures r.world.battle.id == StageOrder[NextStage(w.stageIndex)] && r.world.battle.turn == 1
    ensures r.world.battle.id !in db.battles ==>
              r == Crashed(w.(stageIndex := r.world.stageIndex,
                              battle := w.battle.(id := r.world.battle.id, turn := 1)),
                           UnknownBattle(r.world.battle.id))
    ensures r.world.battle.id in db.battles ==>
              var b := db.battles[r.world.battle.id];
              r.world.battle == BattleState(r.world.battle.id, 1, b.maxTurn, StartCollapse, b.collapseLimit) &&
              (b.enemyId in db.enemies ==> r == Done(r.world) && r.world.enemy == NewEnemy(b.enemyId, db.enemies[b.enemyId])) &&
              (b.enemyId !in db.enemies ==> r == Crashed(r.world, UnknownEnemy(b.enemyId)) && r.world.enemy == w.enemy)
    ensures EnemyOk(w.enemy) && WellFormed(db) ==> EnemyOk(r.world.enemy)
  {
    var i := NextStage(w.stageIndex);
    var id := StageOrder[i];
    var w1 := w.(stageIndex := i, battle := w.battle.(id := id, turn := 1));
    if id !in db.battles then Crashed(w1, UnknownBattle(id))
    else
      var b := db.battles[id];
      var w2 := w1.(battle := w1.battle.(maxTurn := b.maxTurn, collapseLimit := b.collapseLimit,
                                         collapse := StartCollapse));
      if b.enemyId !in db.enemies then Crashed(w2, UnknownEnemy(b.enemyId))
      else Done(w2.(enemy := NewEnemy(b.enemyId, db.enemies[b.enemyId])))
  }

  // ---------------------------------------------------------------------------
  // Turn pipeline (app.js:242-264, without the log lines)

  /** The attribute a card takes effect with, given its character's attitude. */
  function CardAttr(db: Db, card: Card): Attr
    requires card.characterId in db.characters
  {
    ParseAttr(ResolveActiveAttr(card.attr1, card.attr2, db.characters[card.characterId].attitude))
  }

  /** `onChooseCard`: resolve, apply, check the end; a win starts the next
      battle, a collapse or a timeout stops, anything else ends the turn. */
  function Play(w: World, db: Db, card: Card): (r: Outcome)
    ensures card.characterId !in db.characters ==> r == Crashed(w, UnknownCharacter(card.characterId))
    ensures card.characterId in db.characters && EndOf(AfterAction(w, CardAttr(db, card))) != Win ==>
              r.Done? && r.world.stageIndex == w.stageIndex
    ensures EnemyOk(w.enemy) && WellFormed(db) ==> EnemyOk(r.world.enemy)
  {
    if card.characterId !in db.characters then Crashed(w, UnknownCharacter(card.characterId))
    else
      var w1 := AfterAction(w, CardAttr(db, card));
      match EndOf(w1)
      case Win => AfterStart(w1, db)
      case Collapse => Done(w1)
      case Timeout => Done(w1)
      case Ongoing => Done(AfterTurn(w1, db.patterns))
  }

  /** `onChooseCard` as written: line 246 reads a name no enclosing scope
      declares, so the handler raises once the attitude is looked up, before
      the action is applied. */
  function PlayAsWritten(w: World, db: Db, card: Card): (r: Outcome)
    ensures r.Crashed? && r.world == w
    ensures card.characterId in db.characters ==> r.error == UndefinedName("predicted")
  {
    if card.characterId !in db.characters then Crashed(w, UnknownCharacter(card.characterId))
    else Crashed(w, UndefinedName("predicted"))
  }

  /** As written, no card ever changes the state, while `Play` deals the
      table's damage: a card that does not finish the enemy off shows the
      difference. */
  lemma AsWrittenNoCardHits(w: World, db: Db, card: Card)
    requires card.characterId in db.characters && w.enemy.hp > 0
    requires EndOf(AfterAction(w, CardAttr(db, card))) != Win
    ensures PlayAsWritten(w, db, card).world.enemy.hp == w.enemy.hp
    ensures Play(w, db, card).world.enemy.hp == w.enemy.hp - Damage(CardAttr(db, card)) < w.enemy.hp
  {
    PlayOutcomes(w, db, card);
  }

  /** The error a step raised, if any. */
  function ErrorOf(o: Outcome): Option<GameError> {
    if o.Crashed? then Some(o.error) else None
  }

  /** The three ways a played card can go, once its character is known: a
      win moves to the next battle, a collapse or a timeout leaves the state
      exactly as the action left it (the turn does not advance), and
      otherwise the turn ends. */
  lemma PlayOutcomes(w: World, db: Db, card: Card)
    requires card.characterId in db.characters
    ensures var w1 := AfterAction(w, CardAttr(db, card));
            (EndOf(w1) == Win ==>
               Play(w, db, card) == AfterStart(w1, db) &&
               Play(w, db, card).world.stageIndex == NextStage(w.stageIndex)) &&
            (EndOf(w1) in {Collapse, Timeout} ==>
               Play(w, db, card) == Done(w1) && w1.battle.turn == w.battle.turn) &&
            (EndOf(w1) == Ongoing ==>
               Play(w, db, card) == Done(AfterTurn(w1, db.patterns)) &&
               Play(w, db, card).world.battle.turn == w.battle.turn + 1)
  {
  }

  // ---------------------------------------------------------------------------
  // Several steps in a row

  /** `n` turns ended in a row. */
  function Turns(w: World, patterns: map<string, PatternDef>, n: nat): World
    decreases n
  {
    if n == 0 then w else AfterTurn(Turns(w, patterns, n - 1), patterns)
  }

  /** Every id of the queue names a pattern of the table. */
  predicate AllKnown(q: seq<string>, patterns: map<string, PatternDef>) {
    forall k :: 0 <= k < |q| ==> q[k] != "" && q[k] in patterns
  }

  /** Where the pattern index goes in one turn: one step round the queue when
      the id it points at is known, nowhere otherwise. */
  function NextIndex(q: seq<string>, patterns: map<string, PatternDef>, i: nat): nat {
    if i < |q| && q[i] != "" && q[i] in patterns then (i + 1) % |q| else i
  }

  function IndexAfter(q: seq<string>, patterns: map<string, PatternDef>, i: nat, n: nat): nat
    decreases n
  {
    if n == 0 then i else NextIndex(q, patterns, IndexAfter(q, patterns, i, n - 1))
  }

  /** One turn moves the index as `NextIndex` says and keeps the queue. */
  lemma TurnStep(v: World, patterns: map<string, PatternDef>)
    ensures AfterTurn(v, patterns).enemy.patternQueue == v.enemy.patternQueue
    ensures AfterTurn(v, patterns).enemy.patternIndex ==
              NextIndex(v.enemy.patternQueue, patterns, v.enemy.patternIndex)
    ensures AfterTurn(v, patterns).battle.turn == v.battle.turn + 1
  {
  }

  /** Over several turns the queue stays the same, the turn counter grows by
      one per turn, and the index moves as `NextIndex` says. */
  lemma {:induction false} TurnsIndex(w: World, patterns: map<string, PatternDef>, n: nat)
    ensures Turns(w, patterns, n).enemy.patternQueue == w.enemy.patternQueue
    ensures Turns(w, patterns, n).enemy.patternIndex ==
              IndexAfter(w.enemy.patternQueue, patterns, w.enemy.patternIndex, n)
    ensures Turns(w, patterns, n).battle.turn == w.battle.turn + n
  {
    if n > 0 {
      TurnsIndex(w, patterns, n - 1);
      TurnStep(Turns(w, patterns, n - 1), patterns);
    }
  }

  /** With every id known, the index walks forward one place per turn and
      wraps to 0 at the end of the queue. */
  lemma {:induction false} IndexWalks(q: seq<string>, patterns: map<string, PatternDef>, i: nat, n: nat)
    requires i < |q| && i + n <= |q| && AllKnown(q, patterns)
    ensures IndexAfter(q, patterns, i, n) == if i + n < |q| then i + n else 0
  {
    if n > 0 {
      IndexWalks(q, patterns, i, n - 1);
      Wrap(i + (n - 1), |q|);
    }
  }

  /** The last place of a cycle of length `m` steps to 0, any other to the
      next place. */
  lemma Wrap(j: nat, m: nat)
    requires j < m
    ensures (j + 1) % m == if j + 1 < m then j + 1 else 0
  {
  }

  /** Taking `a` turns and then `b` more is taking `a + b` turns. */
  lemma {:induction false} IndexAfterAdd(q: seq<string>, patterns: map<string, PatternDef>, i: nat, a: nat, b: nat)
    ensures IndexAfter(q, patterns, i, a + b) == IndexAfter(q, patterns, IndexAfter(q, patterns, i, a), b)
    decreases b
  {
    if b > 0 {
      IndexAfterAdd(q, patterns, i, a, b - 1);
    }
  }

  /** With every id known, as many steps as the queue is long bring the
      index back to where it started. */
  lemma IndexCycleReturns(q: seq<string>, patterns: map<string, PatternDef>, i: nat)
    requires i < |q| && AllKnown(q, patterns)
    ensures IndexAfter(q, patterns, i, |q|) == i
  {
    IndexWalks(q, patterns, i, |q| - i);
    if i > 0 {
      IndexWalks(q, patterns, 0, i);
    }
    IndexAfterAdd(q, patterns, i, |q| - i, i);
  }

  /** With every id known, the pattern index is back where it started after
      as many turns as the queue is long. */
  lemma PatternCycleReturns(w: World, patterns: map<string, PatternDef>)
    requires w.enemy.patternIndex < |w.enemy.patternQueue|
    requires AllKnown(w.enemy.patternQueue, patterns)
    ensures Turns(w, patterns, |w.enemy.patternQueue|).enemy.patternIndex == w.enemy.patternIndex
  {
    TurnsIndex(w, patterns, |w.enemy.patternQueue|);
    IndexCycleReturns(w.enemy.patternQueue, patterns, w.enemy.patternIndex);
  }

  /** An id missing from the pattern table (or an empty queue) stops the
      cycle for good: the index never moves again, whatever the number of
      turns. */
  lemma {:induction false} UnknownPatternFreezes(w: World, patterns: map<string, PatternDef>, n: nat)
    requires CurrentPattern(w.enemy, patterns).None?
    ensures Turns(w, patterns, n).enemy.patternQueue == w.enemy.patternQueue
    ensures Turns(w, patterns, n).enemy.patternIndex == w.enemy.patternIndex
    ensures Turns(w, patterns, n).battle.turn == w.battle.turn + n
  {
    if n > 0 {
      UnknownPatternFreezes(w, patterns, n - 1);
      var v := Turns(w, patterns, n - 1);
      assert CurrentPattern(v.enemy, patterns) == CurrentPattern(w.enemy, patterns);
    }
  }

  /** The erosion and echo seals, which no pattern sets, run out one turn at a
      time: after `n` turns each is `max(0, s - n)`. */
  lemma {:induction false} SealsRunOut(w: World, patterns: map<string, PatternDef>, n: nat)
    ensures Turns(w, patterns, n).enemy.seal.erosion == Max(0, w.enemy.seal.erosion - n)
    ensures Turns(w, patterns, n).enemy.seal.echo == Max(0, w.enemy.seal.echo - n)
  {
    if n > 0 {
      SealsRunOut(w, patterns, n - 1);
    }
  }

  /** `n` wins in a row, each followed by `startNextBattle`. */
  function Wins(w: World, db: Db, n: nat): World
    decreases n
  {
    if n == 0 then w else AfterStart(Wins(w, db, n - 1), db).world
  }

  /** Progression moves one stage per win and then holds at the last stage. */
  lemma {:induction false} StageIndexAfterWins(w: World, db: Db, n: nat)
    requires w.stageIndex < |StageOrder|
    ensures Wins(w, db, n).stageIndex == Min(w.stageIndex + n, |StageOrder| - 1)
  {
    if n > 0 {
      StageIndexAfterWins(w, db, n - 1);
    }
  }

  /** `n` actions in a row with the same attribute, with no enemy turn in
      between. */
  function Hits(w: World, a: Attr, n: nat): World
    decreases n
  {
    if n == 0 then w else AfterAction(Hits(w, a, n - 1), a)
  }

  /** Repeated hits wear the enemy down by the table's damage each time,
      and never below zero. */
  lemma {:induction false} RepeatedHits(w: World, a: Attr, n: nat)
    requires w.enemy.hp >= 0
    ensures Hits(w, a, n).enemy.hp == Max(0, w.enemy.hp - n * Damage(a))
  {
    if n > 0 {
      RepeatedHits(w, a, n - 1);
      assert n * Damage(a) == (n - 1) * Damage(a) + Damage(a);
    }
  }

  /** Thirteen erosion hits (16 damage each) defeat an enemy with 200 hp.
      This is the damage arithmetic only: `Hits` checks no end between hits,
      and in play the collapse meter (60 of 100 at the start, +15 per
      erosion) reaches COLLAPSE on the third erosion unless anchors or a
      higher limit intervene. */
  lemma ThirteenErosionsWin(w: World)
    requires w.enemy.hp == 200
    ensures EndOf(Hits(w, Erosion, 13)) == Win
  {
    RepeatedHits(w, Erosion, 13);
  }

  /** Player actions and enemy pressure alone keep collapse within
      `[0, collapseLimit]`. */
  lemma CollapseStaysInRange(w: World, a: Attr)
    requires 0 <= w.battle.collapse <= w.battle.collapseLimit
    ensures 0 <= Pressure(AfterAction(w, a)).battle.collapse <= w.battle.collapseLimit
  {
  }

  /** A collapse pattern is not capped: at the limit, with no pressure, a
      positive collapse pattern pushes collapse past the limit. */
  lemma CollapsePatternExceedsLimit(w: World, patterns: map<string, PatternDef>)
    requires w.enemy.basePressure <= 0 && w.battle.collapse == w.battle.collapseLimit
    requires CurrentPattern(w.enemy, patterns).Some?
    requires CurrentPattern(w.enemy, patterns).value.kind == KindCollapse
    requires CurrentPattern(w.enemy, patterns).value.value > 0
    ensures AfterTurn(w, patterns).battle.collapse > w.battle.collapseLimit
  {
    var w' := w.(battle := w.battle.(turn := w.battle.turn + 1),
                 enemy := w.enemy.(seal := DecaySeals(w.enemy.seal)));
    assert CurrentPattern(w'.enemy, patterns) == CurrentPattern(w.enemy, patterns);
  }
}
