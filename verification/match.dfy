/** Match state transitions (src/components/game/MuuzahGame.tsx), with
    player and match creation (src/utils/gameLogic.ts). */
module Match {
  import opened Types
  import opened GridModel
  import opened Scoring

  /** The other seat. */
  function Opponent(p: PlayerId): (q: PlayerId)
    ensures q != p
  {
    if p == One then Two else One
  }

  function PlayerOf(s: GameState, id: PlayerId): Player {
    if id == One then s.player1 else s.player2
  }

  function WithPlayer(s: GameState, id: PlayerId, p: Player): GameState {
    if id == One then s.(player1 := p) else s.(player2 := p)
  }

  /** The seat whose grid the setup handlers edit: player 1 in setup-p1,
      player 2 in every other phase. */
  function SetupSeat(s: GameState): PlayerId {
    if s.phase == SetupP1 then One else Two
  }

  /** `r` agrees with `s` on everything but the player in seat `id`, and
      that player keeps everything but the grid. */
  ghost predicate OnlyGridOf(s: GameState, r: GameState, id: PlayerId) {
    && PlayerOf(r, Opponent(id)) == PlayerOf(s, Opponent(id))
    && PlayerOf(r, id).(grid := PlayerOf(s, id).grid) == PlayerOf(s, id)
    && r.(player1 := s.player1, player2 := s.player2) == s
  }

  /** The seat's grid holds exactly the match's token and bomb quotas. */
  predicate SeatReady(s: GameState, id: PlayerId) {
    IsSetupComplete(PlayerOf(s, id).grid, s.tokensPerPlayer, s.bombsPerPlayer)
  }

  /** The state invariant every reachable match keeps. */
  ghost predicate Valid(s: GameState) {
    && IsSquare(s.player1.grid, s.gridSize)
    && IsSquare(s.player2.grid, s.gridSize)
    && ValidShapeValues(s.shapeValues)
    && ValidColorMultipliers(s.colorMultipliers)
    && (s.winner.Some? <==> s.phase == GameOver)
    && (s.phase != SetupP1 ==> SeatReady(s, One))
    && (s.phase == Battle || s.phase == GameOver ==> SeatReady(s, Two))
    && (s.phase == SetupP1 || s.phase == SetupP2 ==>
          && s.player1.lives == InitialLives && s.player1.score == 0
          && s.player2.lives == InitialLives && s.player2.score == 0)
    && 0 <= s.player1.lives <= InitialLives && 0 <= s.player1.score
    && 0 <= s.player2.lives <= InitialLives && 0 <= s.player2.score
    && (s.phase == Battle ==> s.player1.lives >= 1 && s.player2.lives >= 1)
  }

  /** `createPlayer`: three lives, no points and an empty grid. */
  function CreatePlayer(name: string, gridSize: nat): (p: Player)
    ensures p.name == name
    ensures p.lives == InitialLives && p.score == 0
    ensures IsSquare(p.grid, gridSize)
    ensures forall y, x | InBounds(p.grid, x, y) :: p.grid[y][x] == EmptyCell
    ensures CountTokens(p.grid) == 0 && CountBombs(p.grid) == 0
    ensures !IsSetupComplete(p.grid, TokensPerPlayer, BombsPerPlayer)
  {
    EmptyGridFacts(gridSize);
    Player(name, CreateEmptyGrid(gridSize), InitialLives, 0)
  }

  /** `initializeGame`, in the numbered-seat shape: player 1 sets up first,
      the tables are dealt once from the two shuffles, and the default board
      and quotas apply. */
  function NewGame(name1: string, name2: string, shapeOrder: seq<int>, colorOrder: seq<int>): (s: GameState)
    requires IsPermutation(shapeOrder, 4) && IsPermutation(colorOrder, 4)
    ensures s.phase == SetupP1 && s.currentPlayer == One && s.winner == None
    ensures s.gridSize == DefaultGridSize
    ensures s.tokensPerPlayer == TokensPerPlayer && s.bombsPerPlayer == BombsPerPlayer
    ensures s.player1.name == name1 && s.player2.name == name2
    // both seats start with full lives, no points and an empty, hidden board
    ensures forall q: PlayerId ::
              var p := PlayerOf(s, q);
              && p.lives == InitialLives && p.score == 0
              && IsSquare(p.grid, DefaultGridSize)
              && forall y, x | InBounds(p.grid, x, y) :: p.grid[y][x] == EmptyCell
    ensures Valid(s)
  {
    GameState(
      SetupP1, One,
      CreatePlayer(name1, DefaultGridSize), CreatePlayer(name2, DefaultGridSize),
      GenerateShapeValues(shapeOrder), GenerateColorMultipliers(colorOrder),
      None, DefaultGridSize, TokensPerPlayer, BombsPerPlayer)
  }

  /** `handlePlaceToken`: sets the token and bomb flag of cell (x, y) on the
      setup seat's grid. Nothing else in the match changes. */
  function PlaceToken(s: GameState, x: int, y: int, token: Option<Token>, isBomb: bool): (r: GameState)
    ensures OnlyGridOf(s, r, SetupSeat(s))
    ensures var g, h := PlayerOf(s, SetupSeat(s)).grid, PlayerOf(r, SetupSeat(s)).grid;
            && SameShape(g, h)
            && (InBounds(g, x, y) ==> h[y][x] == Cell(token, isBomb, g[y][x].isRevealed))
            && (forall j, i | InBounds(g, i, j) && (i != x || j != y) :: h[j][i] == g[j][i])
  {
    var seat := SetupSeat(s);
    var p := PlayerOf(s, seat);
    WithPlayer(s, seat, p.(grid := PlaceContent(p.grid, x, y, token, isBomb)))
  }

  /** What the confirm handler relies on without checking: the setup screen
      only enables Confirm once the setup seat's grid is complete. */
  predicate CanConfirm(s: GameState) {
    s.phase == SetupP1 || s.phase == SetupP2 ==> SeatReady(s, SetupSeat(s))
  }

  /** `handleConfirmSetup`: setup-p1 moves to setup-p2, setup-p2 moves to
      battle with player 1 to move, and any other phase is left alone. */
  function ConfirmSetup(s: GameState): (r: GameState)
    requires CanConfirm(s)
    ensures r.(phase := s.phase, currentPlayer := s.currentPlayer) == s
    ensures s.phase == SetupP1 ==> r.phase == SetupP2 && r.currentPlayer == s.currentPlayer
    ensures s.phase == SetupP2 ==> r.phase == Battle && r.currentPlayer == One
    ensures s.phase == Battle || s.phase == GameOver ==> r == s
  {
    if s.phase == SetupP1 then s.(phase := SetupP2)
    else if s.phase == SetupP2 then s.(phase := Battle, currentPlayer := One)
    else s
  }

  /** `handleResetGrid`: the setup seat gets a fresh empty grid of the
      match's size. Nothing else changes. */
  function ResetGrid(s: GameState): (r: GameState)
    ensures OnlyGridOf(s, r, SetupSeat(s))
    ensures var h := PlayerOf(r, SetupSeat(s)).grid;
            && IsSquare(h, s.gridSize)
            && (forall y, x | InBounds(h, x, y) :: h[y][x] == EmptyCell)
  {
    var seat := SetupSeat(s);
    WithPlayer(s, seat, PlayerOf(s, seat).(grid := CreateEmptyGrid(s.gridSize)))
  }

  /** The kind of an attack: the source's 'hit' | 'miss' | 'bomb', plus the
      early return on an already revealed cell. */
  datatype Outcome = Ignored | Miss | Bomb | Hit(token: Token, points: int)

  datatype AttackResult = AttackResult(state: GameState, outcome: Outcome)

  /** The cell under attack: (x, y) on the grid of the player not to move. */
  function Target(s: GameState, x: int, y: int): Cell
    requires InBounds(PlayerOf(s, Opponent(s.currentPlayer)).grid, x, y)
  {
    PlayerOf(s, Opponent(s.currentPlayer)).grid[y][x]
  }

  /** `handleAttack`: the player to move attacks cell (x, y) of the other
      player's grid. */
  function Attack(s: GameState, x: int, y: int): (r: AttackResult)
    requires s.phase == Battle
    requires InBounds(PlayerOf(s, Opponent(s.currentPlayer)).grid, x, y)
    // an already revealed cell is a no-op
    ensures r.outcome.Ignored? <==> Target(s, x, y).isRevealed
    ensures r.outcome.Ignored? ==> r.state == s
    // tables, sizes and names never change; the grids of the attacker and
    // the lives and score of the opponent are untouched
    ensures r.state.(phase := s.phase, currentPlayer := s.currentPlayer, winner := s.winner,
                     player1 := s.player1, player2 := s.player2) == s
    ensures var foe := Opponent(s.currentPlayer);
            PlayerOf(r.state, foe).(grid := PlayerOf(s, foe).grid) == PlayerOf(s, foe)
    ensures var me := s.currentPlayer;
            PlayerOf(r.state, me).(lives := PlayerOf(s, me).lives, score := PlayerOf(s, me).score)
              == PlayerOf(s, me)
    // exactly the target cell is revealed
    ensures var foe := Opponent(s.currentPlayer);
            !r.outcome.Ignored? ==> RevealsOnly(PlayerOf(s, foe).grid, PlayerOf(r.state, foe).grid, x, y)
    // bomb, then token, then miss
    ensures var a, a' := PlayerOf(s, s.currentPlayer), PlayerOf(r.state, s.currentPlayer);
            var c := Target(s, x, y);
            !c.isRevealed && c.isBomb ==>
              r.outcome == Bomb && a'.lives == a.lives - 1 && a'.score == a.score
    ensures var a, a' := PlayerOf(s, s.currentPlayer), PlayerOf(r.state, s.currentPlayer);
            var c := Target(s, x, y);
            !c.isRevealed && !c.isBomb && c.token.Some? ==>
              var pts := CalculateTokenScore(c.token.value, s.shapeValues, s.colorMultipliers);
              r.outcome == Hit(c.token.value, pts) && a'.score == a.score + pts && a'.lives == a.lives
    ensures var a, a' := PlayerOf(s, s.currentPlayer), PlayerOf(r.state, s.currentPlayer);
            var c := Target(s, x, y);
            !c.isRevealed && !c.isBomb && c.token.None? ==>
              r.outcome == Miss && a' == a
    // sudden death is checked first, then exhaustion
    ensures var a' := PlayerOf(r.state, s.currentPlayer);
            !r.outcome.Ignored? && a'.lives <= 0 ==>
              r.state.phase == GameOver && r.state.winner == Some(Opponent(s.currentPlayer))
    ensures var a' := PlayerOf(r.state, s.currentPlayer);
            var h := PlayerOf(r.state, Opponent(s.currentPlayer)).grid;
            !r.outcome.Ignored? && a'.lives > 0 && AllTokensRevealed(h) ==>
              && r.state.phase == GameOver
              && r.state.winner.Some?
              && (r.state.winner == Some(One) <==> r.state.player1.score >= r.state.player2.score)
    ensures var a' := PlayerOf(r.state, s.currentPlayer);
            var h := PlayerOf(r.state, Opponent(s.currentPlayer)).grid;
            !r.outcome.Ignored? && a'.lives > 0 && !AllTokensRevealed(h) ==>
              r.state.phase == Battle && r.state.winner == None
    // the turn passes unless the match is over
    ensures !r.outcome.Ignored? ==>
              r.state.currentPlayer
                == if r.state.phase == GameOver then s.currentPlayer else Opponent(s.currentPlayer)
  {
    var me := s.currentPlayer;
    var foe := Opponent(me);
    var attacker := PlayerOf(s, me);
    var opponent := PlayerOf(s, foe);
    var cell := opponent.grid[y][x];
    if cell.isRevealed then AttackResult(s, Ignored)
    else
      var grid' := RevealCell(opponent.grid, x, y);
      var outcome :=
        if cell.isBomb then Bomb
        else if cell.token.Some? then
          Hit(cell.token.value, CalculateTokenScore(cell.token.value, s.shapeValues, s.colorMultipliers))
        else Miss;
      var lives' := if outcome.Bomb? then attacker.lives - 1 else attacker.lives;
      var score' := if outcome.Hit? then attacker.score + outcome.points else attacker.score;
      var p1Score := if me == One then score' else s.player1.score;
      var p2Score := if me == Two then score' else s.player2.score;
      var winner :=
        if lives' <= 0 then Some(foe)
        else if AllTokensRevealed(grid') then Some(if p1Score >= p2Score then One else Two)
        else None;
      var phase := if winner.Some? then GameOver else s.phase;
      var s1 := WithPlayer(s, foe, opponent.(grid := grid'));
      var s2 := WithPlayer(s1, me, attacker.(lives := lives', score := score'));
      AttackResult(s2.(phase := phase, winner := winner,
                       currentPlayer := if phase == GameOver then me else foe),
                   outcome)
  }
}
