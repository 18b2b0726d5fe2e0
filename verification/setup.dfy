/** The placement rule of the setup screen
    (src/components/game/SetupPhase.tsx). */
module Setup {
  import opened Types
  import opened GridModel
  import opened Picker
  import opened Match

  /** The `onPlaceToken(x, y, token, isBomb)` call a click issues. */
  datatype Placement = Placement(x: int, y: int, token: Option<Token>, isBomb: bool)

  predicate Occupied(c: Cell) {
    c.token.Some? || c.isBomb
  }

  /** `handleCellClick`: an occupied cell is cleared whatever is picked; on
      an empty cell the picked token is placed while the token quota is not
      met, otherwise the bomb is placed while the bomb quota is not met, and
      otherwise nothing happens. */
  function CellClick(g: Grid, x: int, y: int, sel: Selection,
                     tokensRequired: int, bombsRequired: int): (r: Option<Placement>)
    requires InBounds(g, x, y)
    ensures r.Some? ==> r.value.x == x && r.value.y == y
    ensures r.Some? ==> !(r.value.token.Some? && r.value.isBomb)
    ensures Occupied(g[y][x]) ==> r == Some(Placement(x, y, None, false))
    ensures !Occupied(g[y][x]) ==>
              (r.Some? <==> (sel.token.Some? && CountTokens(g) < tokensRequired)
                            || (sel.bomb && CountBombs(g) < bombsRequired))
    // what an empty cell receives: the picked token first, else the bomb
    ensures !Occupied(g[y][x]) && sel.token.Some? && CountTokens(g) < tokensRequired ==>
              r == Some(Placement(x, y, sel.token, false))
    ensures !Occupied(g[y][x]) && !(sel.token.Some? && CountTokens(g) < tokensRequired)
              && sel.bomb && CountBombs(g) < bombsRequired ==>
              r == Some(Placement(x, y, None, true))
    ensures !Occupied(g[y][x]) && r.Some? && r.value.token.Some? ==>
              r.value.token == sel.token && CountTokens(g) < tokensRequired
    ensures !Occupied(g[y][x]) && r.Some? && r.value.isBomb ==>
              sel.bomb && CountBombs(g) < bombsRequired
                && !(sel.token.Some? && CountTokens(g) < tokensRequired)
  {
    if Occupied(g[y][x]) then Some(Placement(x, y, None, false))
    else if sel.token.Some? && CountTokens(g) < tokensRequired then Some(Placement(x, y, sel.token, false))
    else if sel.bomb && CountBombs(g) < bombsRequired then Some(Placement(x, y, None, true))
    else None
  }

  /** The setup seat's grid after a click, the placement applied as
      `handlePlaceToken` applies it. */
  function ClickGrid(g: Grid, x: int, y: int, sel: Selection,
                     tokensRequired: int, bombsRequired: int): Grid
    requires InBounds(g, x, y)
  {
    match CellClick(g, x, y, sel, tokensRequired, bombsRequired)
    case None => g
    case Some(p) => PlaceContent(g, p.x, p.y, p.token, p.isBomb)
  }

  /** Clicks alone never push a count past its quota, never put a token and
      a bomb in one cell, and touch no cell but the one clicked. */
  lemma ClickKeepsQuotas(g: Grid, x: int, y: int, sel: Selection,
                         tokensRequired: int, bombsRequired: int)
    requires InBounds(g, x, y)
    requires CountTokens(g) <= tokensRequired && CountBombs(g) <= bombsRequired
    ensures var h := ClickGrid(g, x, y, sel, tokensRequired, bombsRequired);
            CountTokens(h) <= tokensRequired && CountBombs(h) <= bombsRequired
  {
    var r := CellClick(g, x, y, sel, tokensRequired, bombsRequired);
    if r.Some? {
      CountsAfterPlace(g, x, y, r.value.token, r.value.isBomb);
    }
  }

  /** A click keeps every cell free of token-and-bomb. */
  lemma ClickKeepsExclusive(g: Grid, x: int, y: int, sel: Selection,
                            tokensRequired: int, bombsRequired: int)
    requires InBounds(g, x, y) && Exclusive(g)
    ensures Exclusive(ClickGrid(g, x, y, sel, tokensRequired, bombsRequired))
  {
  }

  /** Each click moves the token count and the bomb count by at most one,
      in the direction the click meant: clearing removes what the cell held,
      placing the picked token raises the token count by exactly one, placing
      the bomb raises the bomb count by exactly one, and an ignored click
      changes nothing. */
  lemma ClickCountChange(g: Grid, x: int, y: int, sel: Selection,
                         tokensRequired: int, bombsRequired: int)
    requires InBounds(g, x, y)
    ensures var h := ClickGrid(g, x, y, sel, tokensRequired, bombsRequired);
            var c := g[y][x];
            && (Occupied(c) ==>
                  && CountTokens(h) == CountTokens(g) - (if HasToken(c) then 1 else 0)
                  && CountBombs(h) == CountBombs(g) - (if HasBomb(c) then 1 else 0))
            && (!Occupied(c) ==>
                  && CountTokens(g) <= CountTokens(h) <= CountTokens(g) + 1
                  && CountBombs(g) <= CountBombs(h) <= CountBombs(g) + 1
                  && CountTokens(h) + CountBombs(h) <= CountTokens(g) + CountBombs(g) + 1)
    ensures var h := ClickGrid(g, x, y, sel, tokensRequired, bombsRequired);
            var placeToken := sel.token.Some? && CountTokens(g) < tokensRequired;
            var placeBomb := !placeToken && sel.bomb && CountBombs(g) < bombsRequired;
            && (!Occupied(g[y][x]) && placeToken ==>
                  CountTokens(h) == CountTokens(g) + 1 && CountBombs(h) == CountBombs(g))
            && (!Occupied(g[y][x]) && placeBomb ==>
                  CountBombs(h) == CountBombs(g) + 1 && CountTokens(h) == CountTokens(g))
            && (!Occupied(g[y][x]) && !placeToken && !placeBomb ==> h == g)
  {
    var r := CellClick(g, x, y, sel, tokensRequired, bombsRequired);
    if r.Some? {
      CountsAfterPlace(g, x, y, r.value.token, r.value.isBomb);
    }
  }

  /** `setupComplete`: the Confirm button is enabled exactly when the grid
      holds the quotas exactly. */
  function ConfirmEnabled(g: Grid, tokensRequired: int, bombsRequired: int): (r: bool)
    ensures r <==> CountTokens(g) == tokensRequired && CountBombs(g) == bombsRequired
  {
    IsSetupComplete(g, tokensRequired, bombsRequired)
  }

  /** The Confirm gate discharges what the confirm handler relies on. */
  lemma ConfirmGateSuffices(s: GameState)
    requires s.phase == SetupP1 || s.phase == SetupP2
    requires ConfirmEnabled(PlayerOf(s, SetupSeat(s)).grid, s.tokensPerPlayer, s.bombsPerPlayer)
    ensures CanConfirm(s)
  {
  }
}
