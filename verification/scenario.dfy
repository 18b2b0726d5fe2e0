/** A whole match on a 2-by-2 board with one token and no bombs per player,
    driven through the handlers of src/components/game/MuuzahGame.tsx. */
module Scenario {
  import opened Types
  import opened GridModel
  import opened Scoring
  import opened Match

  const Values: ShapeValues := ShapeValues(10, 25, 50, 100)
  const Multipliers: ColorMultipliers := ColorMultipliers(2, 3, 4, 5)
  const RedCircle: Token := Token(Circle, Red)

  /** A 2-by-2 board with a red circle at (x, y), every cell hidden. */
  function OneToken(x: int, y: int): Grid {
    seq(2, j => seq(2, i => if i == x && j == y then Cell(Some(RedCircle), false, false) else EmptyCell))
  }

  function Start(): GameState {
    GameState(SetupP1, One,
              Player("A", CreateEmptyGrid(2), InitialLives, 0),
              Player("B", CreateEmptyGrid(2), InitialLives, 0),
              Values, Multipliers, None, 2, 1, 0)
  }

  /** Both boards set, battle begun. */
  function Battle0(): GameState {
    GameState(Battle, One,
              Player("A", OneToken(0, 0), InitialLives, 0),
              Player("B", OneToken(1, 1), InitialLives, 0),
              Values, Multipliers, None, 2, 1, 0)
  }

  /** Placing a red circle on an empty 2-by-2 board gives a one-token board,
      which satisfies the one-token, zero-bomb setup. */
  lemma OneTokenReady(x: int, y: int)
    requires 0 <= x < 2 && 0 <= y < 2
    ensures PlaceContent(CreateEmptyGrid(2), x, y, Some(RedCircle), false) == OneToken(x, y)
    ensures IsSetupComplete(OneToken(x, y), 1, 0)
  {
    var e := CreateEmptyGrid(2);
    EmptyGridFacts(2);
    CountsAfterPlace(e, x, y, Some(RedCircle), false);
    var g := PlaceContent(e, x, y, Some(RedCircle), false);
    assert g == OneToken(x, y) by {
      forall j | 0 <= j < 2 ensures g[j] == OneToken(x, y)[j] {
        assert forall i | 0 <= i < 2 :: g[j][i] == OneToken(x, y)[j][i] by {
          forall i | 0 <= i < 2 ensures g[j][i] == OneToken(x, y)[j][i] {
            assert InBounds(e, i, j);
          }
        }
      }
    }
  }

  /** A places a red circle at (0, 0) and confirms; B places one at (1, 1)
      and confirms; battle begins with A to move. */
  lemma SetupScenario()
    ensures var s1 := PlaceToken(Start(), 0, 0, Some(RedCircle), false);
            CanConfirm(s1) &&
            var s3 := PlaceToken(ConfirmSetup(s1), 1, 1, Some(RedCircle), false);
            CanConfirm(s3) && ConfirmSetup(s3) == Battle0()
  {
    OneTokenReady(0, 0);
    OneTokenReady(1, 1);
    var s1 := PlaceToken(Start(), 0, 0, Some(RedCircle), false);
    assert s1.player1.grid == OneToken(0, 0);
    var s3 := PlaceToken(ConfirmSetup(s1), 1, 1, Some(RedCircle), false);
    assert s3.player2.grid == OneToken(1, 1);
  }

  /** A misses B's empty (0, 0) and the turn passes to B; B then hits A's
      only token, which ends the match by exhaustion with B ahead 10 to 0. */
  lemma BattleScenario()
    ensures var a1 := Attack(Battle0(), 0, 0);
            a1.outcome == Miss && a1.state.phase == Battle && a1.state.currentPlayer == Two &&
            var a2 := Attack(a1.state, 0, 0);
            && a2.outcome == Hit(RedCircle, 10)
            && a2.state.phase == GameOver
            && a2.state.winner == Some(Two)
            && a2.state.player2.score == 10
            && a2.state.player1.score == 0
  {
    var a1 := Attack(Battle0(), 0, 0);
    var g: Grid := a1.state.player2.grid;
    assert g[1][1].token.Some? && !g[1][1].isRevealed;
    var a2 := Attack(a1.state, 0, 0);
    var h: Grid := a2.state.player1.grid;
    forall y, x | InBounds(h, x, y) && HasToken(h[y][x]) ensures h[y][x].isRevealed {
      assert x == 0 && y == 0;
    }
  }
}
