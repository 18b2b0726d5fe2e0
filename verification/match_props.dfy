/** Properties of the match transitions (src/components/game/MuuzahGame.tsx):
    the state invariant is kept by every handler, and an attack only ever
    reveals, only ever moves the attacker's lives down and score up, and
    brings the match one hidden cell closer to its end. */
module MatchProps {
  import opened Types
  import opened GridModel
  import opened Scoring
  import opened Match

  /** Cells still hidden on both boards. Every effective attack lowers it
      by one, so a match on n-by-n boards ends after at most 2 * n * n
      effective attacks. */
  ghost function HiddenCells(s: GameState): nat {
    |Positions(s.player1.grid, Hidden)| + |Positions(s.player2.grid, Hidden)|
  }

  lemma SquareKept(g: Grid, h: Grid, n: nat)
    requires IsSquare(g, n) && SameShape(g, h)
    ensures IsSquare(h, n)
  {
  }

  lemma PlaceTokenPreservesValid(s: GameState, x: int, y: int, token: Option<Token>, isBomb: bool)
    requires Valid(s)
    requires s.phase == SetupP1 || s.phase == SetupP2
    ensures Valid(PlaceToken(s, x, y, token, isBomb))
  {
    var r := PlaceToken(s, x, y, token, isBomb);
    var seat := SetupSeat(s);
    SquareKept(PlayerOf(s, seat).grid, PlayerOf(r, seat).grid, s.gridSize);
    assert PlayerOf(r, Opponent(seat)) == PlayerOf(s, Opponent(seat));
  }

  /** Resetting gives the setup seat exactly the board a newly created
      player starts with, and keeps that seat's name, lives and score. */
  lemma ResetGivesFreshBoard(s: GameState)
    ensures var seat := SetupSeat(s);
            var p, p' := PlayerOf(s, seat), PlayerOf(ResetGrid(s), seat);
            p' == CreatePlayer(p.name, s.gridSize).(lives := p.lives, score := p.score)
  {
    var seat := SetupSeat(s);
    var h := PlayerOf(ResetGrid(s), seat).grid;
    var e := CreatePlayer(PlayerOf(s, seat).name, s.gridSize).grid;
    assert |h| == |e|;
    forall y | 0 <= y < |h| ensures h[y] == e[y] {
      assert |h[y]| == |e[y]|;
      forall x | 0 <= x < |h[y]| ensures h[y][x] == e[y][x] {
        assert InBounds(h, x, y) && InBounds(e, x, y);
      }
    }
  }

  lemma ResetGridPreservesValid(s: GameState)
    requires Valid(s)
    requires s.phase == SetupP1 || s.phase == SetupP2
    ensures Valid(ResetGrid(s))
  {
    var r := ResetGrid(s);
    var seat := SetupSeat(s);
    assert PlayerOf(r, Opponent(seat)) == PlayerOf(s, Opponent(seat));
  }

  /** Battle starts only once both grids hold exactly their quotas. */
  lemma ConfirmSetupPreservesValid(s: GameState)
    requires Valid(s) && CanConfirm(s)
    ensures Valid(ConfirmSetup(s))
    ensures ConfirmSetup(s).phase == Battle ==> SeatReady(s, One) && SeatReady(s, Two)
  {
  }

  /** An attack keeps every token and bomb where it was, never hides a
      revealed cell, and reveals at most the target cell. */
  lemma AttackOnlyReveals(s: GameState, x: int, y: int, id: PlayerId)
    requires s.phase == Battle
    requires InBounds(PlayerOf(s, Opponent(s.currentPlayer)).grid, x, y)
    ensures var g, h := PlayerOf(s, id).grid, PlayerOf(Attack(s, x, y).state, id).grid;
            && SameShape(g, h)
            && Positions(h, HasToken) == Positions(g, HasToken)
            && Positions(h, HasBomb) == Positions(g, HasBomb)
            && Positions(h, Hidden) <= Positions(g, Hidden)
            && (forall j, i | InBounds(g, i, j) && g[j][i].isRevealed :: h[j][i].isRevealed)
  {
    var r := Attack(s, x, y);
    var foe := Opponent(s.currentPlayer);
    if !r.outcome.Ignored? && id == foe {
      var g := PlayerOf(s, foe).grid;
      RevealsOnlyDetermines(g, PlayerOf(r.state, foe).grid, x, y);
      RevealKeepsContents(g, x, y);
    } else if !r.outcome.Ignored? {
      assert id == s.currentPlayer;
    }
  }

  /** Each effective attack reveals exactly one more cell. */
  lemma AttackProgress(s: GameState, x: int, y: int)
    requires s.phase == Battle
    requires InBounds(PlayerOf(s, Opponent(s.currentPlayer)).grid, x, y)
    requires !Attack(s, x, y).outcome.Ignored?
    ensures HiddenCells(Attack(s, x, y).state) == HiddenCells(s) - 1
  {
    var r := Attack(s, x, y);
    var foe := Opponent(s.currentPlayer);
    var g := PlayerOf(s, foe).grid;
    RevealsOnlyDetermines(g, PlayerOf(r.state, foe).grid, x, y);
    RevealKeepsContents(g, x, y);
    assert (x, y) in Positions(g, Hidden);
    assert PlayerOf(r.state, s.currentPlayer).grid == PlayerOf(s, s.currentPlayer).grid;
  }

  /** With valid tables the attacker's lives only go down (by at most one),
      the attacker's score only goes up, and the opponent's lives and score
      do not move. */
  lemma AttackMonotone(s: GameState, x: int, y: int)
    requires Valid(s) && s.phase == Battle
    requires InBounds(PlayerOf(s, Opponent(s.currentPlayer)).grid, x, y)
    ensures var a, a' := PlayerOf(s, s.currentPlayer), PlayerOf(Attack(s, x, y).state, s.currentPlayer);
            a.lives - 1 <= a'.lives <= a.lives && a.score <= a'.score
    ensures var foe := Opponent(s.currentPlayer);
            var o, o' := PlayerOf(s, foe), PlayerOf(Attack(s, x, y).state, foe);
            o'.lives == o.lives && o'.score == o.score
  {
    var c := Target(s, x, y);
    if c.token.Some? {
      ScoreInRange(c.token.value, s.shapeValues, s.colorMultipliers);
    }
  }

  /** Attacks keep the state invariant; in particular a finished match
      always names a winner and the battle goes on only while both players
      have a life left. */
  lemma AttackPreservesValid(s: GameState, x: int, y: int)
    requires Valid(s) && s.phase == Battle
    requires InBounds(PlayerOf(s, Opponent(s.currentPlayer)).grid, x, y)
    ensures Valid(Attack(s, x, y).state)
  {
    var r := Attack(s, x, y);
    AttackOnlyReveals(s, x, y, One);
    AttackOnlyReveals(s, x, y, Two);
    AttackMonotone(s, x, y);
    SquareKept(s.player1.grid, r.state.player1.grid, s.gridSize);
    SquareKept(s.player2.grid, r.state.player2.grid, s.gridSize);
  }

  /** An exhaustion finish with equal scores goes to player 1. */
  lemma TieGoesToPlayerOne(s: GameState, x: int, y: int)
    requires s.phase == Battle
    requires InBounds(PlayerOf(s, Opponent(s.currentPlayer)).grid, x, y)
    requires var r := Attack(s, x, y);
             && !r.outcome.Ignored?
             && PlayerOf(r.state, s.currentPlayer).lives > 0
             && AllTokensRevealed(PlayerOf(r.state, Opponent(s.currentPlayer)).grid)
             && r.state.player1.score == r.state.player2.score
    ensures Attack(s, x, y).state.winner == Some(One)
  {
  }

  /** Sudden death wins over exhaustion: losing the last life on a move
      that also leaves no hidden token still hands the match to the
      opponent. */
  lemma SuddenDeathFirst(s: GameState, x: int, y: int)
    requires s.phase == Battle
    requires InBounds(PlayerOf(s, Opponent(s.currentPlayer)).grid, x, y)
    requires PlayerOf(s, s.currentPlayer).lives == 1
    requires Target(s, x, y) == Cell(None, true, false)
    ensures Attack(s, x, y).state.phase == GameOver
    ensures Attack(s, x, y).state.winner == Some(Opponent(s.currentPlayer))
  {
  }
}
