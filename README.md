# Battle core of the memory-stage card game

This project models the battle core of `app.js`, a small browser card game. In the game, the player plays cards, one per turn, against an enemy. Each card's attribute (erosion, anchor, echo, or any other text) deals damage. Erosion and anchor also move the *collapse* meter, and echo adds an echo stack to the enemy. The enemy then applies its own constant pressure and the next pattern in its queue. A battle ends in a win, a collapse or a timeout. A win moves play to the next stage of a fixed stage order.

The model has five modules:

- `Text` covers the JavaScript string operations the core relies on: `split` on one character, `trim` with the ECMAScript white-space set, and `filter(Boolean)`.
- `Content` holds the rows of the content tables as datatypes. Attribute and pattern-kind text is classified into closed datatypes that keep unknown text.
- `Rules` states every step of the battle as a function on values (`World`). It also holds the lemmas about sequences of steps:
  - the pattern index cycles;
  - seals run out;
  - stages advance, then hold;
  - repeated hits wear the enemy down.
- `Game` keeps the source's mutable state as classes `Battle`, `Enemy`, `Progress` and `GameState`. Its methods update fields one at a time, in the source's order. Each method is proved to leave exactly the state the matching `Rules` function describes.
- `Csv` models `parseCSV`. Records are filled by a loop, and each one is proved to map every header to its cell.

A JavaScript exception is modelled as the outcome `Crashed(world, error)`. Here `world` is the state the exception leaves behind. The source writes fields before it reads the row that fails. So an unknown stage row leaves the stage index, battle id and turn already changed. An unknown enemy leaves every battle field changed and the old enemy in place.

The code behaves as follows, and the model does the same:

- No seal is ever read by the action or attribute logic, so seals have no effect on attributes.
- Nothing changes when the boss's hp drops; there is no phase change.
- A collapse-kind pattern is not capped at the limit (`Rules.CollapsePatternExceedsLimit`).
- The caps in `min(limit, …)` on erosion and on pressure can lower a collapse that is already over the limit.
- A pattern id missing from the table is not rejected when the enemy is built. Instead it stops the pattern cycle for good (`Rules.UnknownPatternFreezes`), not just for one turn.
- A card is "fixed" only when its first attribute is non-empty and equals the second.

## Model

| member | source | states |
|---|---|---|
| Rules.ResolveActiveAttr | app.js:90-97 | The result is one of the two attributes. A fixed card (non-empty attr1 equal to attr2) gives attr1. Otherwise an attribute equal to the attitude wins, attr1 first. With no match, the result falls back to attr1. |
| Content.ParseAttr | app.js:109-121 | Classifies attribute text into erosion/anchor/echo/other. The classification is lossless (`AttrName` gives the text back), and it is `Other` exactly when the text is none of the three names. |
| Content.ParseKind | app.js:147-156 | The loader's classification of the kind column, which gives `PatternDef.kind`: it classifies pattern-kind text into collapse/echo/seal/other. The classification is lossless, and it is `KindOther` exactly when the text is none of the three names. |
| Rules.Damage | app.js:106-118 | Every entry of the damage table is positive. The entries themselves are fixed by the body, not by the contract. |
| Rules.AfterAction | app.js:102-125 | Enemy hp becomes max(0, hp − damage), so it never rises and never goes negative. Erosion caps collapse+15 at the limit, anchor floors collapse−10 at 0, and echo adds one echo stack. No other field changes. A collapse within [0, limit] stays there, and the enemy invariant is kept. |
| Game.GameState.ApplyAction | app.js:102-125 | The in-place update leaves exactly `AfterAction` of the old state, keeps `Valid`, and returns the table's damage. |
| Rules.Pressure | app.js:131-135 | Base pressure is added only when it is positive, and the sum is capped at the limit. Only collapse changes. |
| Rules.RunPattern | app.js:139-159 | If the queue entry is missing or its id is unknown, nothing changes, the index included. Otherwise the kind's effect is applied: an uncapped collapse add, an echo add, or an anchor seal raised to max(seal, value). Then the index becomes (i+1) mod the queue length, with a non-empty queue. The erosion and echo seals are untouched, and the enemy invariant is kept. |
| Rules.AfterPattern | app.js:127-160 | Collapse is the pressured collapse plus the value of a current collapse pattern, and no other battle field changes. The enemy's hp and queue are kept. With no current pattern the enemy is unchanged. The enemy invariant is kept. |
| Game.GameState.ApplyEnemyPattern | app.js:127-160 | The in-place update leaves exactly pressure followed by the queued pattern, and keeps `Valid`. |
| Rules.AfterTurn | app.js:162-171 | The turn goes up by exactly 1. Every seal decays by one, floored at 0, before the pattern runs. So an anchor seal set this turn is max(decayed, value). The index moves as the pattern engine says. |
| Game.GameState.NextTurn | app.js:162-171 | The in-place update leaves exactly `AfterTurn` of the old state. |
| Rules.CheckEnd | app.js:173-178 | WIN iff hp ≤ 0. COLLAPSE iff hp > 0 and collapse ≥ limit. TIMEOUT iff neither holds and turn > maxTurn. Otherwise the battle is ongoing. |
| Rules.NextStage | app.js:224-227 | The next stage index is the next entry of the five-stage order, clamped at the last. |
| Rules.PatternQueue | app.js:68-71 | Queue entries are non-empty, trimmed and pipe-free. An entry is in the queue iff it is a non-empty trimmed piece of the pattern list. Each non-empty piece occurs in the queue as often as in the list. |
| Rules.PatternQueueAppend | app.js:68-71 | The queue keeps the list's order: the queue of `a|b` is the queue of `a` followed by that of `b`. |
| Rules.PatternQueueOne | app.js:68-71 | A list with no pipe gives its trimmed text as the one entry, or nothing when that is empty. |
| Rules.PatternQueueKeepsRepeats | app.js:68-71 | The list `x|y|x` gives the queue x, y, x: repeats stay, in order. |
| Rules.NewEnemy | app.js:73-84 | A new enemy has hp = maxHp, pattern index 0, no echo stacks, all seals 0 and the parsed queue. With maxHp ≥ 0 it satisfies the enemy invariant. |
| Game.Enemy.constructor | app.js:73-84 | The object built is exactly `NewEnemy` of the template. |
| Game.GameState.InitEnemy | app.js:64-85 | A known enemy id gives a fresh enemy equal to `NewEnemy`. An unknown id raises and leaves the enemy in place. |
| Rules.AfterStart | app.js:223-240 | The stage index becomes `NextStage`, the battle id is that stage's, and the turn is 1. A missing stage row raises after those writes. Otherwise maxTurn and limit come from the row and collapse is 40. Then the enemy is rebuilt, or the call raises on an unknown enemy with the battle fields already written. |
| Game.GameState.StartNextBattle | app.js:223-240 | The in-place update leaves exactly `AfterStart`'s state and reports its error. |
| Rules.Play | app.js:242-264 | An unknown character raises with nothing changed. A known character's card that does not win completes without an error and stays on the same stage. The enemy invariant is kept. What each end state leads to is stated by `PlayOutcomes`. |
| Rules.PlayOutcomes | app.js:254-264 | On a win the next battle starts. On a collapse or a timeout the state stays as the action left it, and the turn does not advance. Otherwise the turn advances by one. |
| Game.GameState.PlayCard | app.js:242-264 | The in-place update leaves exactly `Play`'s state and reports its error. |
| Game.GameState.Default | app.js:32-49 | The initial state is stage index 0 and battle stage1 at turn 1 of 5, with collapse 60 of 100 and no enemy. |
| Rules.TurnsIndex | app.js:158-163 | Over n turns, the queue is kept, the turn grows by n, and the index follows `NextIndex` n times. |
| Rules.IndexWalks | app.js:158-159 | With every id known, the index walks forward one place per turn and wraps to 0 at the end of the queue. |
| Rules.IndexAfterAdd | app.js:158-159 | a index steps followed by b more steps are the same as a+b steps. |
| Rules.IndexCycleReturns | app.js:158-159 | With every id known, as many steps as the queue is long return the index to its start. |
| Rules.PatternCycleReturns | app.js:139-159 | With every id known, the pattern index is back at its start after as many turns as the queue is long. |
| Rules.UnknownPatternFreezes | app.js:139-143 | A missing entry or an unknown id freezes the index for every later turn. |
| Rules.SealsRunOut | app.js:165-168 | After n turns, the erosion and echo seals are max(0, s − n). |
| Rules.StageIndexAfterWins | app.js:224-227 | After n wins, the stage index is min(i + n, 4). |
| Rules.RepeatedHits | app.js:123 | After n hits of one attribute, enemy hp is max(0, hp − n·damage). |
| Rules.ThirteenErosionsWin | app.js:109-123 | Thirteen erosion hits defeat a 200-hp enemy. This is damage arithmetic only: no end check runs between the hits, and in play the third erosion from the default collapse of 60 already reaches COLLAPSE. |
| Rules.CollapseStaysInRange | app.js:111-135 | Player actions and pressure keep collapse within [0, limit]. |
| Rules.CollapsePatternExceedsLimit | app.js:147-148 | At the limit, a positive collapse pattern pushes collapse past the limit. |
| Rules.PlayAsWritten | app.js:242-247 | As written, the handler always raises: on the unknown character, or on the undefined name at line 246. The state is left unchanged. |
| Rules.AsWrittenNoCardHits | app.js:246-252 | For a card that does not end the battle, the handler as written leaves hp as it was, while `Play` lowers it by the table's damage. |
| Text.Trim | app.js:13-16 | The result is the slice of the input between its leading and trailing white space. Both of its ends are non-space. |
| Text.TrimIdempotent | app.js:13-16 | Trimming twice is the same as trimming once. |
| Text.Split | app.js:13-16 | The pieces contain no separator, and there is one more piece than separators. |
| Text.JoinSplit | app.js:13-16 | Joining the pieces of a split with the separator gives the input back. |
| Text.TrimAll | app.js:14-16 | Each piece is trimmed, and the count is kept. |
| Text.DropEmpty | app.js:71 | The empty strings are dropped. Every other string is kept as often as it occurs. |
| Text.DropEmptyAppend | app.js:71 | Filtering a concatenation filters each part, so the kept strings stay in their order. |
| Text.DropEmptyOne | app.js:71 | A single string is kept exactly when it is not empty. |
| Text.SplitAppend | app.js:69 | The pieces of `a`, a separator, then `b` are the pieces of `a` followed by the pieces of `b`. |
| Text.SplitWhole | app.js:69 | A string with no separator is one piece. |
| Text.TrimAllAppend | app.js:70 | Trimming every string of a concatenation trims each part. |
| Csv.FillRecord | app.js:17-18 | Every header is a key and nothing else is. The cell under each header's last occurrence is its value, or "" past the end of a short row. |
| Csv.ParseCsv | app.js:12-21 | There is one record per line after the header line, that is, one per line break of the trimmed text. Each record maps the headers to that line's trimmed cells. |

## Left out

- Rendering and logging (`addLog`, `render`, `$`, and the log lines of every operation) are user-interface work and are not modelled.
- `applyAction` returns its damage and a log-text fragment, and its only caller discards both. `ApplyAction` returns the damage so its contract can state it; nothing in the model uses it, and the log fragment is not modelled.
- Saving to and loading from browser storage (`loadState`, `saveState`, the reset button) is I/O.
- `loadCSV`, the start-up routine and the building of the lookup tables are network I/O. The model takes the tables as a `Db` value.
- The party hit points in the default state are never changed by any game logic, so they are not modelled.
- `Number(...)` coercion and its NaN results on malformed text are not modelled. Numeric columns are integers in `Content`.
- Game.GameState.StartNextBattle: requires that no enemy has a negative maximum hp (`WellFormed`). This keeps the enemy invariant 0 ≤ hp ≤ maxHp, which the source does not check.
- Game.GameState.PlayCard: has the same `WellFormed` requirement, because a win starts the next battle.
- Lines 246-247 of the card handler read names that nothing declares. The model of the game logic (`Play`, `PlayCard`) leaves them out. They are modelled only as written, in `PlayAsWritten`; see Findings.
- `applyAction` never reads its card argument, so `ApplyAction` takes the attribute alone.
- Rules.CurrentPattern, Rules.RunPattern: a pattern id that names a property every plain JavaScript object inherits (`constructor`, `toString`, `__proto__`, …) is treated as absent from the pattern table. In the source the lookup finds the inherited value, so the index advances with no effect; the model freezes the index instead.
- Rules.Play, Game.GameState.PlayCard: a card whose character id names such an inherited property is treated as an unknown character. In the source it is played with an undefined attitude; the model raises `UnknownCharacter`.
- Rules.AfterStart, Game.GameState.InitEnemy, Game.GameState.StartNextBattle: stage and enemy ids that name such inherited properties are likewise treated as absent.
- Csv.FillRecord, Csv.ParseCsv: a header named `__proto__` becomes an ordinary key of the record. In the source, assigning a string to it is ignored, so the record gets no key of its own.
- Aliasing between the game state and the content tables is not modelled. The source never writes to the tables.

## Findings

| source | as written | input that shows it | evidently intended | confidence | as-written member | corrected member |
|---|---|---|---|---|---|---|
| app.js:246-247 | The card handler reads `predicted` and `btn`, which no enclosing scope declares. So it raises a ReferenceError after the attitude lookup, before any action is applied. | Any card whose character exists, played against an enemy that the card does not finish off: hp stays the same. | The handler applies the card, checks the end and moves on (lines 249-264). The two lines are a stray fragment of the button rendering. | medium, not executed: a page element with id `predicted` and one with id `btn` would make both names resolve through the browser's named window access | Rules.PlayAsWritten | Rules.Play |
