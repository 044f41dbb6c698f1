/** The static content tables the battle core reads: the rows of
    character_cards.csv, characters.csv, battles.csv, enemies.csv and
    enemy_patterns.csv, already keyed by id, with their numeric columns read
    as integers. Attributes and pattern kinds are free text in the tables;
    they are classified here into closed datatypes that keep the unknown
    text. */
module Content {

  datatype Option<+T> = None | Some(value: T)

  /** A card attribute as the action table sees it. Any text other than the
      three known names is `Other`, which the table still handles. */
  datatype Attr = Erosion | Anchor | Echo | Other(tag: string)

  function AttrName(a: Attr): string {
    match a
    case Erosion => "erosion"
    case Anchor => "anchor"
    case Echo => "echo"
    case Other(tag) => tag
  }

  /** Classifies attribute text; no two texts get the same attribute. */
  function ParseAttr(s: string): (a: Attr)
    ensures AttrName(a) == s
    ensures a.Other? <==> s != "erosion" && s != "anchor" && s != "echo"
  {
    if s == "erosion" then Erosion
    else if s == "anchor" then Anchor
    else if s == "echo" then Echo
    else Other(s)
  }

  /** The kind column of enemy_patterns.csv. Any other text is `KindOther`:
      such a pattern has no effect, but still takes its turn in the queue. */
  datatype PatternKind = KindCollapse | KindEcho | KindSeal | KindOther(tag: string)

  function KindName(k: PatternKind): string {
    match k
    case KindCollapse => "collapse"
    case KindEcho => "echo"
    case KindSeal => "seal"
    case KindOther(tag) => tag
  }

  /** How the loader reads the kind column into `PatternDef.kind`; a table
      built from content rows holds only kinds this function produces. */
  function ParseKind(s: string): (k: PatternKind)
    ensures KindName(k) == s
    ensures k.KindOther? <==> s != "collapse" && s != "echo" && s != "seal"
  {
    if s == "collapse" then KindCollapse
    else if s == "echo" then KindEcho
    else if s == "seal" then KindSeal
    else KindOther(s)
  }

  /** A row of character_cards.csv; a missing second attribute is "". */
  datatype Card = Card(characterId: string, cardName: string, desc: string, attr1: string, attr2: string)

  /** A row of characters.csv. */
  datatype Character = Character(id: string, name: string, attitude: string)

  /** A row of battles.csv: one stage. */
  datatype BattleDef = BattleDef(id: string, name: string, maxTurn: int, collapseLimit: int, enemyId: string)

  /** A row of enemies.csv; `patterns` is the raw pipe-separated list of
      pattern ids. */
  datatype EnemyTemplate = EnemyTemplate(
    enemyId: string, name: string, maxHp: int, enemyType: string, basePressure: int, patterns: string)

  /** A row of enemy_patterns.csv, with its kind column already classified
      by `ParseKind`. */
  datatype PatternDef = PatternDef(patternId: string, name: string, desc: string, kind: PatternKind, value: int)

  /** The lookup tables built once at start-up. */
  datatype Db = Db(
    cards: seq<Card>,
    characters: map<string, Character>,
    battles: map<string, BattleDef>,
    enemies: map<string, EnemyTemplate>,
    patterns: map<string, PatternDef>)
}
