/** The selection state of the token/bomb picker
    (src/components/game/TokenPicker.tsx). */
module Picker {
  import opened Types

  /** What the setup screen has picked to place: a token, the bomb, or
      nothing. */
  datatype Selection = Selection(token: Option<Token>, bomb: bool)

  const NothingSelected: Selection := Selection(None, false)

  /** A token and the bomb are never picked together. */
  predicate SingleSelection(sel: Selection) {
    !(sel.token.Some? && sel.bomb)
  }

  /** `handleTokenClick`: drops the bomb; picking the token already picked
      puts it down, any other token is picked instead. */
  function TokenClick(sel: Selection, shape: Shape, color: TokenColor): (r: Selection)
    ensures !r.bomb && SingleSelection(r)
    ensures sel.token == Some(Token(shape, color)) ==> r.token == None
    ensures sel.token != Some(Token(shape, color)) ==> r.token == Some(Token(shape, color))
  {
    var t := Token(shape, color);
    Selection(if sel.token == Some(t) then None else Some(t), false)
  }

  /** `handleBombClick`: drops any token and toggles the bomb. */
  function BombClick(sel: Selection): (r: Selection)
    ensures r.token == None && SingleSelection(r)
    ensures r.bomb == !sel.bomb
  {
    Selection(None, !sel.bomb)
  }

  /** `tokensComplete` and `bombsComplete`: the quota is met or passed. */
  predicate QuotaMet(placed: int, required: int) {
    placed >= required
  }

  /** A token button is disabled once the token quota is met, except for the
      token currently picked, which can still be put down. */
  predicate TokenButtonDisabled(sel: Selection, shape: Shape, color: TokenColor, tokensComplete: bool) {
    tokensComplete && sel.token != Some(Token(shape, color))
  }

  /** The bomb button is disabled once the bomb quota is met, unless the bomb
      is picked. */
  predicate BombButtonDisabled(sel: Selection, bombsComplete: bool) {
    bombsComplete && !sel.bomb
  }

  /** Pressing a token button: a disabled button ignores the press. Once the
      quota is met no new token can be picked up. */
  function PressTokenButton(sel: Selection, shape: Shape, color: TokenColor,
                            tokensPlaced: int, tokensRequired: int): (r: Selection)
    ensures QuotaMet(tokensPlaced, tokensRequired) ==> r.token == None || r.token == sel.token
    ensures TokenButtonDisabled(sel, shape, color, QuotaMet(tokensPlaced, tokensRequired)) ==> r == sel
    ensures QuotaMet(tokensPlaced, tokensRequired) && sel.token == Some(Token(shape, color)) ==> r == NothingSelected
    ensures !QuotaMet(tokensPlaced, tokensRequired) ==>
              !r.bomb && (r.token == None <==> sel.token == Some(Token(shape, color)))
    ensures !QuotaMet(tokensPlaced, tokensRequired) ==>
              r.token == (if sel.token == Some(Token(shape, color)) then None else Some(Token(shape, color)))
    ensures SingleSelection(sel) ==> SingleSelection(r)
  {
    if TokenButtonDisabled(sel, shape, color, QuotaMet(tokensPlaced, tokensRequired)) then sel
    else TokenClick(sel, shape, color)
  }

  /** Pressing the bomb button: a disabled button ignores the press. Once the
      bomb quota is met the bomb can only be put down, never picked up. */
  function PressBombButton(sel: Selection, bombsPlaced: int, bombsRequired: int): (r: Selection)
    ensures QuotaMet(bombsPlaced, bombsRequired) ==> !r.bomb
    ensures QuotaMet(bombsPlaced, bombsRequired) && !sel.bomb ==> r == sel
    ensures QuotaMet(bombsPlaced, bombsRequired) && sel.bomb ==> r == NothingSelected
    ensures !QuotaMet(bombsPlaced, bombsRequired) ==> r.bomb == !sel.bomb && r.token == None
    ensures SingleSelection(sel) ==> SingleSelection(r)
  {
    if BombButtonDisabled(sel, QuotaMet(bombsPlaced, bombsRequired)) then sel
    else BombClick(sel)
  }

  /** Two bomb clicks restore the bomb flag and leave no token picked. */
  lemma BombClickTwice(sel: Selection)
    ensures BombClick(BombClick(sel)) == sel.(token := None)
  {
  }

  /** From no token picked, two clicks on the same token put it back down. */
  lemma TokenClickTwice(sel: Selection, shape: Shape, color: TokenColor)
    requires sel.token == None
    ensures TokenClick(TokenClick(sel, shape, color), shape, color) == NothingSelected
  {
  }
}
