/** Data types and constants of the Muuzah rules engine (src/types/game.ts). */
module Types {

  datatype Option<+T> = None | Some(value: T)

  datatype Shape = Circle | Square | Triangle | Star

  datatype TokenColor = Red | Blue | Green | Yellow

  /** A scoring marker: one shape in one colour. */
  datatype Token = Token(shape: Shape, color: TokenColor)

  /** One grid position: an optional token, a bomb flag and a reveal flag. */
  datatype Cell = Cell(token: Option<Token>, isBomb: bool, isRevealed: bool)

  /** Row-major grid: `g[y][x]` is the cell in row y, column x. */
  type Grid = seq<seq<Cell>>

  datatype Player = Player(name: string, grid: Grid, lives: int, score: int)

  /** Base point value of each shape. */
  datatype ShapeValues = ShapeValues(circle: int, square: int, triangle: int, star: int)
  {
    function Of(s: Shape): int {
      match s
      case Circle => circle
      case Square => square
      case Triangle => triangle
      case Star => star
    }
  }

  /** Colour multipliers, each stored as TWICE its value so that the
      multipliers 1, 1.5, 2 and 2.5 are the integers 2, 3, 4 and 5. */
  datatype ColorMultipliers = ColorMultipliers(red: int, blue: int, green: int, yellow: int)
  {
    function TwiceOf(c: TokenColor): int {
      match c
      case Red => red
      case Blue => blue
      case Green => green
      case Yellow => yellow
    }
  }

  datatype Phase = SetupP1 | SetupP2 | Battle | GameOver

  /** The two seats of a match, `1 | 2` in the source. */
  datatype PlayerId = One | Two

  datatype GameState = GameState(
    phase: Phase,
    currentPlayer: PlayerId,
    player1: Player,
    player2: Player,
    shapeValues: ShapeValues,
    colorMultipliers: ColorMultipliers,
    winner: Option<PlayerId>,
    gridSize: nat,
    tokensPerPlayer: nat,
    bombsPerPlayer: nat)

  const Shapes: seq<Shape> := [Circle, Square, Triangle, Star]
  const Colors: seq<TokenColor> := [Red, Blue, Green, Yellow]

  const DefaultGridSize: nat := 8
  const TokensPerPlayer: nat := 8
  const BombsPerPlayer: nat := 3
  const InitialLives: int := 3

  /** Every shape is listed exactly once. */
  lemma ShapesEnumerated()
    ensures |Shapes| == 4
    ensures forall s: Shape :: s in Shapes
    ensures forall i, j | 0 <= i < j < |Shapes| :: Shapes[i] != Shapes[j]
  {
    forall s: Shape ensures s in Shapes {
      match s
      case Circle => assert Shapes[0] == s;
      case Square => assert Shapes[1] == s;
      case Triangle => assert Shapes[2] == s;
      case Star => assert Shapes[3] == s;
    }
  }

  /** Every colour is listed exactly once. */
  lemma ColorsEnumerated()
    ensures |Colors| == 4
    ensures forall c: TokenColor :: c in Colors
    ensures forall i, j | 0 <= i < j < |Colors| :: Colors[i] != Colors[j]
  {
    forall c: TokenColor ensures c in Colors {
      match c
      case Red => assert Colors[0] == c;
      case Blue => assert Colors[1] == c;
      case Green => assert Colors[2] == c;
      case Yellow => assert Colors[3] == c;
    }
  }

  /** The default quotas fit on the default board, leaving cells empty. */
  lemma DefaultQuotasFit()
    ensures TokensPerPlayer + BombsPerPlayer < DefaultGridSize * DefaultGridSize
    ensures DefaultGridSize * DefaultGridSize - (TokensPerPlayer + BombsPerPlayer) == 53
  {
  }
}
