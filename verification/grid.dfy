/** The grid model and its pure helpers (src/utils/gameLogic.ts). */
module GridModel {
  import opened Types

  const EmptyCell: Cell := Cell(None, false, false)

  predicate InBounds(g: Grid, x: int, y: int) {
    0 <= y < |g| && 0 <= x < |g[y]|
  }

  /** `g` is an n-by-n square. */
  predicate IsSquare(g: Grid, n: nat) {
    |g| == n && forall y | 0 <= y < |g| :: |g[y]| == n
  }

  /** `h` has the same number of rows as `g`, and rows of the same lengths. */
  predicate SameShape(g: Grid, h: Grid) {
    |g| == |h| && forall y | 0 <= y < |g| :: |g[y]| == |h[y]|
  }

  predicate HasToken(c: Cell) { c.token.Some? }
  predicate HasBomb(c: Cell) { c.isBomb }
  predicate Hidden(c: Cell) { !c.isRevealed }
  predicate HiddenToken(c: Cell) { c.token.Some? && !c.isRevealed }

  /** No cell holds both a token and a bomb. */
  ghost predicate Exclusive(g: Grid) {
    forall y, x | InBounds(g, x, y) :: !(HasToken(g[y][x]) && HasBomb(g[y][x]))
  }

  /** Reference definition of a count: the coordinates (x, y) of the cells
      that satisfy p. */
  ghost function Positions(g: Grid, p: Cell -> bool): set<(int, int)>
  {
    set y, x | 0 <= y < |g| && 0 <= x < |g[y]| && p(g[y][x]) :: (x, y)
  }

  ghost function RowPositions(row: seq<Cell>, y: int, p: Cell -> bool): set<(int, int)>
  {
    set x | 0 <= x < |row| && p(row[x]) :: (x, y)
  }

  /** `createEmptyGrid`: size rows of size cleared cells. */
  function CreateEmptyGrid(size: nat): (g: Grid)
    ensures IsSquare(g, size)
    ensures forall y, x | InBounds(g, x, y) :: g[y][x] == EmptyCell
  {
    seq(size, _ => seq(size, _ => EmptyCell))
  }

  /** The cells of `g` row after row, as `grid.flat()` lists them. */
  function Flat(g: Grid): seq<Cell>
  {
    if |g| == 0 then [] else Flat(g[..|g| - 1]) + g[|g| - 1]
  }

  /** The number of entries of `cells` that satisfy p, as `filter(p).length`. */
  function CountIf(cells: seq<Cell>, p: Cell -> bool): (n: nat)
    ensures n <= |cells|
    ensures n == 0 <==> forall i | 0 <= i < |cells| :: !p(cells[i])
  {
    if |cells| == 0 then 0
    else CountIf(cells[..|cells| - 1], p) + (if p(cells[|cells| - 1]) then 1 else 0)
  }

  lemma {:induction false} CountIfAppend(a: seq<Cell>, b: seq<Cell>, p: Cell -> bool)
    ensures CountIf(a + b, p) == CountIf(a, p) + CountIf(b, p)
  {
    if |b| == 0 {
      assert a + b == a;
    } else {
      var k := |b| - 1;
      CountIfAppend(a, b[..k], p);
      assert (a + b)[..|a + b| - 1] == a + b[..k];
    }
  }

  lemma {:induction false} RowCardinality(row: seq<Cell>, y: int, p: Cell -> bool)
    ensures CountIf(row, p) == |RowPositions(row, y, p)|
  {
    if |row| == 0 {
      assert RowPositions(row, y, p) == {};
    } else {
      var k := |row| - 1;
      RowCardinality(row[..k], y, p);
      if p(row[k]) {
        assert RowPositions(row, y, p) == RowPositions(row[..k], y, p) + {(k, y)};
      } else {
        assert RowPositions(row, y, p) == RowPositions(row[..k], y, p);
      }
    }
  }

  /** Counting over the flattened grid counts exactly the cells at the
      positions that satisfy p. */
  lemma {:induction false} CountIsCardinality(g: Grid, p: Cell -> bool)
    ensures CountIf(Flat(g), p) == |Positions(g, p)|
  {
    if |g| == 0 {
      assert Positions(g, p) == {};
    } else {
      var k := |g| - 1;
      var init := g[..k];
      CountIsCardinality(init, p);
      CountIfAppend(Flat(init), g[k], p);
      RowCardinality(g[k], k, p);
      assert Positions(g, p) == Positions(init, p) + RowPositions(g[k], k, p);
      assert Positions(init, p) !! RowPositions(g[k], k, p);
    }
  }

  lemma {:induction false} FlatLength(g: Grid, n: nat)
    requires forall y | 0 <= y < |g| :: |g[y]| == n
    ensures |Flat(g)| == |g| * n
  {
    if |g| > 0 {
      FlatLength(g[..|g| - 1], n);
    }
  }

  /** `countTokens`: the number of cells holding a token. */
  function CountTokens(g: Grid): (n: nat)
    ensures n == |Positions(g, HasToken)|
  {
    CountIsCardinality(g, HasToken);
    CountIf(Flat(g), HasToken)
  }

  /** `countBombs`: the number of cells holding a bomb. */
  function CountBombs(g: Grid): (n: nat)
    ensures n == |Positions(g, HasBomb)|
  {
    CountIsCardinality(g, HasBomb);
    CountIf(Flat(g), HasBomb)
  }

  /** On an n-by-n grid both counts lie between 0 and n * n. */
  lemma CountsBounded(g: Grid, n: nat)
    requires IsSquare(g, n)
    ensures CountTokens(g) <= n * n
    ensures CountBombs(g) <= n * n
  {
    FlatLength(g, n);
    CountIsCardinality(g, HasToken);
    CountIsCardinality(g, HasBomb);
  }

  lemma NoPositionsIffNone(g: Grid, p: Cell -> bool)
    ensures Positions(g, p) == {} <==> forall y, x | InBounds(g, x, y) :: !p(g[y][x])
  {
    if !(forall y, x | InBounds(g, x, y) :: !p(g[y][x])) {
      var y, x :| InBounds(g, x, y) && p(g[y][x]);
      assert (x, y) in Positions(g, p);
    }
  }

  /** `allTokensRevealed`: every cell of the flattened grid is token-free or
      revealed, which is the same as every token-bearing cell being revealed. */
  function AllTokensRevealed(g: Grid): (r: bool)
    ensures r <==> forall y, x | InBounds(g, x, y) :: HasToken(g[y][x]) ==> g[y][x].isRevealed
    ensures r <==> Positions(g, HiddenToken) == {}
  {
    var cells := Flat(g);
    CountIsCardinality(g, HiddenToken);
    NoPositionsIffNone(g, HiddenToken);
    assert (forall c | c in cells :: !HasToken(c) || c.isRevealed)
       <==> (forall i | 0 <= i < |cells| :: !HiddenToken(cells[i]));
    forall c | c in cells :: !HasToken(c) || c.isRevealed
  }

  /** `isSetupComplete`: exactly the required number of tokens AND exactly
      the required number of bombs, neither more nor fewer. */
  function IsSetupComplete(g: Grid, requiredTokens: int, requiredBombs: int): (r: bool)
    ensures r <==> |Positions(g, HasToken)| == requiredTokens
                   && |Positions(g, HasBomb)| == requiredBombs
  {
    CountTokens(g) == requiredTokens && CountBombs(g) == requiredBombs
  }

  /** `g` with the cell at (x, y) replaced by c. The source rebuilds the grid
      by mapping over its existing cells, so coordinates outside the grid
      change nothing. */
  function UpdateCell(g: Grid, x: int, y: int, c: Cell): (h: Grid)
    ensures SameShape(g, h)
    ensures InBounds(g, x, y) ==> h[y][x] == c
    ensures forall j, i | InBounds(g, i, j) && (i != x || j != y) :: h[j][i] == g[j][i]
  {
    if InBounds(g, x, y) then g[y := g[y][x := c]] else g
  }

  /** Setting the content of cell (x, y): its token and bomb flag are
      overwritten, its reveal flag kept. */
  function PlaceContent(g: Grid, x: int, y: int, token: Option<Token>, isBomb: bool): (h: Grid)
    ensures SameShape(g, h)
    ensures InBounds(g, x, y) ==> h[y][x] == Cell(token, isBomb, g[y][x].isRevealed)
    ensures forall j, i | InBounds(g, i, j) && (i != x || j != y) :: h[j][i] == g[j][i]
  {
    if InBounds(g, x, y) then UpdateCell(g, x, y, g[y][x].(token := token, isBomb := isBomb)) else g
  }

  /** `h` is `g` with cell (x, y) revealed and nothing else changed. */
  ghost predicate RevealsOnly(g: Grid, h: Grid, x: int, y: int) {
    && SameShape(g, h)
    && InBounds(g, x, y)
    && h[y][x] == g[y][x].(isRevealed := true)
    && forall j, i | InBounds(g, i, j) && (i != x || j != y) :: h[j][i] == g[j][i]
  }

  /** Revealing cell (x, y). */
  function RevealCell(g: Grid, x: int, y: int): (h: Grid)
    requires InBounds(g, x, y)
    ensures RevealsOnly(g, h, x, y)
  {
    UpdateCell(g, x, y, g[y][x].(isRevealed := true))
  }

  /** RevealsOnly pins the new grid down completely. */
  lemma RevealsOnlyDetermines(g: Grid, h: Grid, x: int, y: int)
    requires RevealsOnly(g, h, x, y)
    ensures h == RevealCell(g, x, y)
  {
    var h' := RevealCell(g, x, y);
    forall j | 0 <= j < |h| ensures h[j] == h'[j] {
      forall i | 0 <= i < |h[j]| ensures h[j][i] == h'[j][i] {
        assert InBounds(g, i, j);
      }
    }
  }

  lemma PositionsAfterUpdate(g: Grid, x: int, y: int, c: Cell, p: Cell -> bool)
    requires InBounds(g, x, y)
    ensures Positions(UpdateCell(g, x, y, c), p)
         == (Positions(g, p) - {(x, y)}) + (if p(c) then {(x, y)} else {})
  {
    var h := UpdateCell(g, x, y, c);
    var lhs := Positions(h, p);
    var rhs := (Positions(g, p) - {(x, y)}) + (if p(c) then {(x, y)} else {});
    forall q | q in lhs ensures q in rhs {
      var i, j := q.0, q.1;
      assert InBounds(h, i, j) && p(h[j][i]);
    }
    forall q | q in rhs ensures q in lhs {
      var i, j := q.0, q.1;
      if q != (x, y) {
        assert InBounds(g, i, j) && p(g[j][i]);
      }
    }
  }

  /** A single-cell update moves a count by the old and new cell's share. */
  lemma CountAfterUpdate(g: Grid, x: int, y: int, c: Cell, p: Cell -> bool)
    requires InBounds(g, x, y)
    ensures CountIf(Flat(UpdateCell(g, x, y, c)), p)
         == CountIf(Flat(g), p) - (if p(g[y][x]) then 1 else 0) + (if p(c) then 1 else 0)
  {
    CountIsCardinality(g, p);
    CountIsCardinality(UpdateCell(g, x, y, c), p);
    PositionsAfterUpdate(g, x, y, c, p);
    assert (x, y) in Positions(g, p) <==> p(g[y][x]);
  }

  /** Setting the content of an in-range cell moves each count by what the
      cell held before and what it holds after. */
  lemma CountsAfterPlace(g: Grid, x: int, y: int, token: Option<Token>, isBomb: bool)
    requires InBounds(g, x, y)
    ensures CountTokens(PlaceContent(g, x, y, token, isBomb))
         == CountTokens(g) - (if HasToken(g[y][x]) then 1 else 0) + (if token.Some? then 1 else 0)
    ensures CountBombs(PlaceContent(g, x, y, token, isBomb))
         == CountBombs(g) - (if HasBomb(g[y][x]) then 1 else 0) + (if isBomb then 1 else 0)
  {
    var c := g[y][x].(token := token, isBomb := isBomb);
    CountAfterUpdate(g, x, y, c, HasToken);
    CountAfterUpdate(g, x, y, c, HasBomb);
  }

  /** Revealing a cell changes no token or bomb, and removes exactly (x, y)
      from the hidden cells and from the hidden tokens. */
  lemma RevealKeepsContents(g: Grid, x: int, y: int)
    requires InBounds(g, x, y)
    ensures Positions(RevealCell(g, x, y), HasToken) == Positions(g, HasToken)
    ensures Positions(RevealCell(g, x, y), HasBomb) == Positions(g, HasBomb)
    ensures Positions(RevealCell(g, x, y), HiddenToken) == Positions(g, HiddenToken) - {(x, y)}
    ensures Positions(RevealCell(g, x, y), Hidden) == Positions(g, Hidden) - {(x, y)}
  {
    var c := g[y][x].(isRevealed := true);
    PositionsAfterUpdate(g, x, y, c, HasToken);
    PositionsAfterUpdate(g, x, y, c, HasBomb);
    PositionsAfterUpdate(g, x, y, c, HiddenToken);
    PositionsAfterUpdate(g, x, y, c, Hidden);
    assert (x, y) in Positions(g, HasToken) <==> HasToken(g[y][x]);
    assert (x, y) in Positions(g, HasBomb) <==> HasBomb(g[y][x]);
  }

  /** The last hidden token: once (x, y) is revealed every token is revealed
      exactly when (x, y) was the only hidden token left (or none was). */
  lemma ExhaustionAtLastToken(g: Grid, x: int, y: int)
    requires InBounds(g, x, y)
    ensures AllTokensRevealed(RevealCell(g, x, y)) <==> Positions(g, HiddenToken) <= {(x, y)}
  {
    RevealKeepsContents(g, x, y);
  }

  /** A fresh grid holds nothing, so it is trivially fully revealed and its
      counts are zero. */
  lemma EmptyGridFacts(size: nat)
    ensures CountTokens(CreateEmptyGrid(size)) == 0
    ensures CountBombs(CreateEmptyGrid(size)) == 0
    ensures AllTokensRevealed(CreateEmptyGrid(size))
    ensures Exclusive(CreateEmptyGrid(size))
    ensures IsSetupComplete(CreateEmptyGrid(size), 0, 0)
  {
    var g := CreateEmptyGrid(size);
    NoPositionsIffNone(g, HasToken);
    NoPositionsIffNone(g, HasBomb);
  }
}
