# Muuzah match rules engine in Dafny

A model of the rules engine of Muuzah, a two-player hidden-grid game. Each
player secretly places scoring tokens (a shape in a colour) and bombs on an
8-by-8 grid. Then the players take turns revealing cells of the other
player's grid. A token scores its shape's base value times its colour's
multiplier. A bomb costs the attacker a life. The match ends when the
attacker runs out of lives (sudden death, the opponent wins) or when every
token on the attacked grid is revealed (exhaustion, the higher score wins and
player 1 wins ties).

The model is purely functional: grids are `seq<seq<Cell>>` indexed
`g[y][x]`, players and the match are immutable records, and every handler is
a function from state to state.

| file | module | models |
|---|---|---|
| `types.dfy` | `Types` | shapes, colours, tokens, cells, players, tables, phases, match state, constants |
| `grid.dfy` | `GridModel` | empty grid, token and bomb counts, the all-tokens-revealed test, setup validation, single-cell update and reveal |
| `scoring.dfy` | `Scoring` | the shape-value and colour-multiplier tables and the scoring formula |
| `match.dfy` | `Match` | player and match creation; the place, confirm, reset and attack handlers |
| `match_props.dfy` | `MatchProps` | the match invariant and the attack's monotonicity and progress |
| `setup.dfy` | `Setup` | the setup screen's click rule and Confirm gate |
| `picker.dfy` | `Picker` | the token/bomb picker's selection state |
| `scenario.dfy` | `Scenario` | one complete match on a 2-by-2 board |

Modelling choices:

- **Match shape.** The match uses numbered seats (`currentPlayer` is 1 or 2,
  `winner` is 1, 2 or none), as in `src/types/game.ts` and the game
  component. The pure helpers are the ones in `src/utils/gameLogic.ts`.
- **Multipliers.** Each multiplier is stored as twice its value, so 1, 1.5, 2
  and 2.5 become 2, 3, 4 and 5. `Math.round` rounds halves up, so the score
  is `(base * doubled + 1) / 2`. Dafny's `/` with a positive divisor rounds
  down, which makes this exact for every integer. For example 25 × 1.5 = 37.5
  scores 38.
- **Counting.** A count is defined as in the source: filter the flattened
  grid and take the length (`CountIf(Flat(g), p)`). It is proved equal to a
  reference definition, the size of the set of coordinates whose cell
  satisfies `p` (`Positions`). Every other counting fact is stated against
  that set.
- **Randomness.** The shuffle becomes a parameter. Each table is dealt from
  an arbitrary permutation of the indices 0..3. A sort returns a permutation
  of its input whatever its comparator does, so this covers every shuffle.
- **The opponent function.** `getOpponent` is imported by the game component
  but is not defined in `src/utils/gameLogic.ts`. It is modelled as
  "the other seat" (`Match.Opponent`).
- **Attack preconditions.** The attack handler checks neither the phase nor
  the coordinates. An out-of-range row would fail at `grid[y][x]`. Both are
  therefore `requires` of `Match.Attack`: the phase is battle and (x, y) lies
  on the opponent's grid.
- **Confirm precondition.** The confirm handler does not check that setup is
  complete. That condition is `Match.CanConfirm`, a `requires` of
  `ConfirmSetup`. The setup screen's own Confirm gate is computed from the
  grid and quotas it receives. `Setup.ConfirmGateSuffices` shows that the
  gate discharges `CanConfirm` when the screen is given the setup seat's
  grid and the match's quotas. The source does not make that connection
  (see "## Left out").
- **Already-revealed cells.** Attacking one returns the previous state
  unchanged. The model reports this as the outcome `Ignored`.
- **Out-of-range placement.** The place handler rebuilds the grid by mapping
  over its own cells, so coordinates off the grid change nothing. The model
  does the same.
- **Setup outside the setup phases.** The place and reset handlers edit
  player 2's grid in any phase other than setup-p1, including battle. The
  model keeps that. The invariant is only claimed for these handlers during
  the setup phases, the only time the setup screen is shown.

## Model

| member | source | states |
|---|---|---|
| Types.ShapesEnumerated | src/types/game.ts:52 | the shape list has four entries, every shape appears in it, and no shape appears twice |
| Types.ColorsEnumerated | src/types/game.ts:53 | the colour list has four entries, every colour appears in it, and no colour appears twice |
| Types.DefaultQuotasFit | src/types/game.ts:55-57 | 8 tokens plus 3 bombs fit on the 8-by-8 board with 53 cells to spare |
| GridModel.CreateEmptyGrid | src/utils/gameLogic.ts:20-31 | the result is size-by-size and every cell has no token, no bomb and is hidden |
| GridModel.EmptyGridFacts | src/utils/gameLogic.ts:20-31 | a fresh grid has zero tokens and zero bombs, counts as fully revealed, and satisfies the 0-token, 0-bomb setup |
| GridModel.CountIf | src/utils/gameLogic.ts:122 | a filtered length never exceeds the list length, and is zero exactly when no entry passes the filter |
| GridModel.CountIsCardinality | src/utils/gameLogic.ts:121-130 | filtering the flattened grid counts exactly the cells at the coordinates satisfying the filter |
| GridModel.CountTokens | src/utils/gameLogic.ts:121-123 | the token count is the number of coordinates whose cell holds a token |
| GridModel.CountBombs | src/utils/gameLogic.ts:128-130 | the bomb count is the number of coordinates whose cell holds a bomb |
| GridModel.CountsBounded | src/utils/gameLogic.ts:121-130 | on an n-by-n grid both counts are at most n * n |
| GridModel.AllTokensRevealed | src/utils/gameLogic.ts:135-137 | true iff every cell holding a token is revealed, i.e. iff no hidden token is left; empty and bomb cells never make it false |
| GridModel.IsSetupComplete | src/utils/gameLogic.ts:142-150 | true iff the token count equals the required number exactly AND the bomb count equals the required number exactly |
| GridModel.PlaceContent | src/components/game/MuuzahGame.tsx:32-43 | cell (x, y) gets the given token and bomb flag and keeps its reveal flag; every other cell and the grid's shape are unchanged; off-grid coordinates change nothing |
| GridModel.CountsAfterPlace | src/components/game/MuuzahGame.tsx:32-43 | setting a cell moves each count by minus what the cell held plus what it now holds |
| GridModel.RevealCell | src/components/game/MuuzahGame.tsx:105-112 | exactly cell (x, y) becomes revealed, with its token and bomb kept; every other cell is unchanged |
| GridModel.RevealKeepsContents | src/components/game/MuuzahGame.tsx:105-112 | revealing keeps the token and bomb positions and removes exactly (x, y) from the hidden cells and from the hidden tokens |
| GridModel.ExhaustionAtLastToken | src/components/game/MuuzahGame.tsx:145 | after revealing (x, y), all tokens are revealed iff (x, y) was the only hidden token left, or none was |
| Scoring.GenerateShapeValues | src/utils/gameLogic.ts:38-47 | for every shuffle order, the four shapes get pairwise-distinct values that are exactly {10, 25, 50, 100} |
| Scoring.GenerateColorMultipliers | src/utils/gameLogic.ts:53-62 | for every shuffle order, the four colours get pairwise-distinct multipliers that are exactly {1, 1.5, 2, 2.5} |
| Scoring.CalculateTokenScore | src/utils/gameLogic.ts:108-116 | the score r is Math.round of base value × multiplier: r - 1/2 <= base × multiplier < r + 1/2 |
| Scoring.ScoreInRange | src/utils/gameLogic.ts:108-116 | with valid tables every token scores between 10 and 250, so it is always positive |
| Scoring.StarRedExample | src/utils/gameLogic.ts:108-116 | a star worth 100 in red at 2.5 scores 250 |
| Scoring.HalfRoundsUpExample | src/utils/gameLogic.ts:115 | 25 at 1.5 is 37.5, which rounds up to 38 |
| Match.Opponent | src/components/game/MuuzahGame.tsx:141 | the opponent of a seat is the other seat |
| Match.CreatePlayer | src/utils/gameLogic.ts:68-76 | a new player has 3 lives, score 0 and a square grid whose every cell is empty and hidden, so it does not yet pass the default setup check |
| Match.NewGame | src/utils/gameLogic.ts:81-102 | a new match starts in setup-p1 with player 1 to move and no winner; both players have 3 lives, score 0 and an 8-by-8 board of empty, hidden cells; the quotas are the defaults; the match invariant holds |
| Match.PlaceToken | src/components/game/MuuzahGame.tsx:27-51 | only cell (x, y) of the setup seat's grid changes (player 1 in setup-p1, player 2 otherwise); the other player, the phase, the turn and the tables are unchanged |
| Match.ConfirmSetup | src/components/game/MuuzahGame.tsx:58-67 | setup-p1 moves to setup-p2, setup-p2 moves to battle with player 1 to move, other phases are left as they are; nothing else changes |
| Match.ResetGrid | src/components/game/MuuzahGame.tsx:70-82 | the setup seat's grid becomes an empty grid of the match's size; nothing else changes |
| MatchProps.ResetGivesFreshBoard | src/components/game/MuuzahGame.tsx:70-82 | after a reset the setup seat has exactly the board `createPlayer` gives a new player, with its name, lives and score kept |
| Match.Attack | src/components/game/MuuzahGame.tsx:92-176 | a revealed target is a no-op. Otherwise exactly the target is revealed. A bomb costs 1 life, a token adds its score, an empty cell changes neither. Lives at or below 0 end the match for the opponent before the exhaustion check. Exhaustion ends it with player 1 winning iff p1 score >= p2 score. Otherwise the turn passes |
| MatchProps.PlaceTokenPreservesValid | src/components/game/MuuzahGame.tsx:27-51 | placing during setup keeps the match invariant |
| MatchProps.ResetGridPreservesValid | src/components/game/MuuzahGame.tsx:70-82 | resetting during setup keeps the match invariant |
| MatchProps.ConfirmSetupPreservesValid | src/components/game/MuuzahGame.tsx:58-67 | confirming keeps the invariant, and battle begins only when both grids hold their quotas exactly |
| MatchProps.AttackOnlyReveals | src/components/game/MuuzahGame.tsx:105-112 | on both grids an attack keeps every token and bomb in place, never hides a revealed cell, and only shrinks the hidden set |
| MatchProps.AttackProgress | src/components/game/MuuzahGame.tsx:99-112 | every effective attack lowers the number of hidden cells on the two boards by exactly one |
| MatchProps.AttackMonotone | src/components/game/MuuzahGame.tsx:114-133 | with valid tables the attacker's lives drop by at most one and never rise, the attacker's score never falls, and the opponent's lives and score do not change |
| MatchProps.AttackPreservesValid | src/components/game/MuuzahGame.tsx:92-176 | attacks keep the match invariant: a winner exists iff the match is over, lives stay in 0..3, and the battle continues only while both players have a life |
| MatchProps.TieGoesToPlayerOne | src/components/game/MuuzahGame.tsx:145-151 | an exhaustion finish with equal scores is won by player 1 |
| MatchProps.SuddenDeathFirst | src/components/game/MuuzahGame.tsx:139-151 | losing the last life to a bomb ends the match for the opponent, whatever the exhaustion check would say |
| Picker.TokenClick | src/components/game/TokenPicker.tsx:27-38 | a token click drops the bomb; clicking the picked token puts it down, any other token is picked instead |
| Picker.BombClick | src/components/game/TokenPicker.tsx:40-43 | a bomb click drops any token and toggles the bomb, so token and bomb are never both picked |
| Picker.PressTokenButton | src/components/game/TokenPicker.tsx:76-77 | once tokensPlaced >= tokensRequired the button of any unpicked token is disabled and a press on it leaves the selection unchanged, so no new token can be picked up; at the quota a press on the picked token leaves nothing picked; below the quota a press drops the bomb and picks the pressed token, or puts it down if it was already picked |
| Picker.PressBombButton | src/components/game/TokenPicker.tsx:95-96 | once bombsPlaced >= bombsRequired an unpicked bomb button ignores the press, so the bomb cannot be picked up, and a press on the picked bomb leaves nothing picked; below the quota it toggles the bomb and drops the token |
| Picker.BombClickTwice | src/components/game/TokenPicker.tsx:40-43 | two bomb clicks restore the bomb flag and leave no token picked |
| Picker.TokenClickTwice | src/components/game/TokenPicker.tsx:30-37 | with no token picked, two clicks on the same token leave nothing picked |
| Setup.CellClick | src/components/game/SetupPhase.tsx:44-62 | an occupied cell is cleared whatever is picked. On an empty cell the picked token is placed while the token quota is not met; otherwise the bomb is placed if it is picked and the bomb quota is not met; otherwise the click is a no-op |
| Setup.ClickKeepsQuotas | src/components/game/SetupPhase.tsx:55-61 | if both counts start at or below their quotas, they stay there after any click |
| Setup.ClickCountChange | src/components/game/SetupPhase.tsx:47-61 | clearing removes exactly what the cell held; placing the picked token raises the token count by exactly one and leaves the bomb count alone; placing the bomb raises the bomb count by exactly one and leaves the token count alone; an ignored click leaves the grid unchanged |
| Setup.ClickKeepsExclusive | src/components/game/SetupPhase.tsx:47-61 | no click puts a token and a bomb in the same cell |
| Setup.ConfirmEnabled | src/components/game/SetupPhase.tsx:42 | Confirm is enabled iff the token and bomb counts equal their quotas exactly |
| Setup.ConfirmGateSuffices | src/components/game/SetupPhase.tsx:105-108 | given the setup seat's grid and the match's quotas, an enabled Confirm button meets the confirm handler's precondition |
| Scenario.OneTokenReady | src/components/game/MuuzahGame.tsx:27-51 | placing one token on an empty 2-by-2 board gives a board that passes the one-token, zero-bomb setup check |
| Scenario.SetupScenario | src/components/game/MuuzahGame.tsx:25-67 | on a 2-by-2 board with quotas of one token and no bombs, A places and confirms, then B places and confirms, and battle begins with A to move |
| Scenario.BattleScenario | src/components/game/MuuzahGame.tsx:86-176 | A misses B's empty cell and the turn passes. B then hits A's only token, which ends the match by exhaustion with B winning 10 to 0 |

## Left out

- Serialisation (`serializeGameState`, `deserializeGameState`): thin wrappers around JSON encoding, with no rules of their own.
- Timestamps, the game id and the identity-keyed match variant of `initializeGame` (`winnerId`, `winReason`, `currentTurnUserId`, and the player's `user` and `setupComplete` fields): the model follows the numbered-seat state. Time is an input the rules never read.
- The random comparator shuffle: each table takes its permutation as a parameter, and no random source is modelled.
- The `isHit` field of a cell: declared but never set or read by the engine.
- The `lastHit` feedback record and the returned `result` of the attack handler: UI feedback. The attack's `Outcome` carries the same information: miss, bomb, or hit with its token and points.
- The link between the game component and `initializeGame`, including `handlePlayAgain`: the game component creates its first match and every replay by calling `initializeGame` with no arguments. That function takes a game id and two users and reads the first user's id, so the call as written has no users to read. It also returns the identity-keyed state, which has no `currentPlayer` or `winner`. `Match.NewGame` assumes the seat names and both shuffle orders are supplied and builds the numbered-seat state the rest of the game component uses. `handlePlayAgain`'s reset of the hit feedback is UI state.
- Sound, the host message bridge, and every rendering-only component: I/O and presentation, with no rules.
- Colour multipliers that are not multiples of 0.5: the doubled integer representation cannot hold them. The source only ever deals 1, 1.5, 2 and 2.5.
- The link between the game component and the setup screen: the game component renders the setup screen with the whole match state, but the screen reads only separate `grid`, `tokensRequired` and `bombsRequired` inputs, which that call never supplies. The model assumes the screen is given the setup seat's grid and the match's quotas. `Setup.CellClick`, `Setup.ConfirmEnabled` and `Setup.ConfirmGateSuffices` rest on that assumption.
- Default arguments (`size = GRID_SIZE`, `requiredTokens = TOKENS_PER_PLAYER`, ...): every call in the model passes its values explicitly.
- MatchProps.PlaceTokenPreservesValid: stated only for the setup phases. In battle or game over the source's handler would edit player 2's grid, but no screen offers it then.
- MatchProps.ResetGridPreservesValid: stated only for the setup phases, for the same reason.
