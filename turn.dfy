/** The turn state machine: whose turn it is, which phase of the turn is
    active and the current roll. One call of `Step` is one pass through the
    body of the game loop; the roll the random source would produce is a
    parameter. */
module Turn {
  import opened Movement

  const MaxPlayers: nat := 4

  datatype Phase = Rolling | Moving | Waiting

  /** Rust's `GameState`, updated in place by the game loop. */
  class GameState {
    var playerIndex: nat
    var phase: Phase
    var diceRoll: int

    /** `GameState::new`: the first player's turn, waiting, no roll. */
    constructor ()
      ensures playerIndex == 0 && phase == Waiting && diceRoll == 0
    {
      playerIndex := 0;
      phase := Waiting;
      diceRoll := 0;
    }
  }

  /** The colour of each seat, which is also the turn order. */
  function SeatColor(i: nat): Color
    requires i < MaxPlayers
  {
    [Red, Green, Yellow, Blue][i]
  }

  /** The roster `[Player; 4]`: four players seated in colour order, each with
      four pieces of its own. */
  ghost predicate RosterValid(players: array<Player>)
    reads players
  {
    && players.Length == MaxPlayers
    && (forall i :: 0 <= i < MaxPlayers ==> players[i].color == SeatColor(i))
    && (forall i :: 0 <= i < MaxPlayers ==> players[i].pieces.Length == PiecesPerPlayer)
    && (forall i, j :: 0 <= i < j < MaxPlayers ==> players[i].pieces != players[j].pieces)
  }

  /** What the game loop keeps true between steps: the index names a seat,
      the roll is 0 outside the Moving phase, and in the Moving phase it is a
      die value with which the current player can move; every piece is well
      formed. */
  ghost predicate Consistent(state: GameState, players: array<Player>)
    reads state, players, set i | 0 <= i < players.Length :: players[i].pieces
  {
    && RosterValid(players)
    && state.playerIndex < MaxPlayers
    && (forall i :: 0 <= i < MaxPlayers ==> AllWellFormed(players[i].pieces[..]))
    && (state.phase != Moving ==> state.diceRoll == 0)
    && (state.phase == Moving ==>
          1 <= state.diceRoll <= 6 && CanMove(players[state.playerIndex].pieces[..], state.diceRoll))
  }

  /** The set-up at the top of `main`: Red, Green, Yellow and Blue with all
      pieces at home, and a fresh game state. */
  method Initialize() returns (state: GameState, players: array<Player>)
    ensures fresh(state) && fresh(players)
    ensures Consistent(state, players)
    ensures forall i :: 0 <= i < MaxPlayers ==> fresh(players[i].pieces)
    ensures state.playerIndex == 0 && state.phase == Waiting
    ensures forall i, k :: 0 <= i < MaxPlayers && 0 <= k < PiecesPerPlayer ==>
              players[i].pieces[k] == NewPiece()
  {
    var red := new Player(Red);
    var green := new Player(Green);
    var yellow := new Player(Yellow);
    var blue := new Player(Blue);
    assert AllWellFormed(red.pieces[..]) && AllWellFormed(green.pieces[..]);
    assert AllWellFormed(yellow.pieces[..]) && AllWellFormed(blue.pieces[..]);
    players := new Player[MaxPlayers][red, green, yellow, blue];
    state := new GameState();
    assert players[0] == red && players[1] == green && players[2] == yellow && players[3] == blue;
  }

  /** `next_turn`: the next seat in turn order, back to waiting, roll reset. */
  method NextTurn(state: GameState)
    modifies state
    ensures state.playerIndex == (old(state.playerIndex) + 1) % MaxPlayers
    ensures state.phase == Waiting && state.diceRoll == 0
  {
    state.playerIndex := (state.playerIndex + 1) % MaxPlayers;
    state.phase := Waiting;
    state.diceRoll := 0;
  }

  /** One pass through the game loop's `match` on the phase, with `roll` the
      value the die gives if this pass rolls it. Only the current player's
      pieces may change. Returns true when the loop breaks because the
      current player has won. */
  method Step(state: GameState, players: array<Player>, roll: int) returns (over: bool)
    requires RosterValid(players) && state.playerIndex < MaxPlayers
    requires 1 <= roll <= 6
    modifies state, players[state.playerIndex].pieces
    ensures state.playerIndex < MaxPlayers
    // Waiting: announce the turn and go on to roll.
    ensures old(state.phase) == Waiting ==>
              && !over
              && state.playerIndex == old(state.playerIndex)
              && state.phase == Rolling && state.diceRoll == 0
              && unchanged(players[state.playerIndex].pieces)
    // Rolling: keep the roll and move if the player can; otherwise pass the turn.
    ensures old(state.phase) == Rolling ==>
              var ps := players[old(state.playerIndex)].pieces[..];
              && !over
              && unchanged(players[old(state.playerIndex)].pieces)
              && (CanMove(ps, roll) ==>
                    state.playerIndex == old(state.playerIndex) && state.phase == Moving && state.diceRoll == roll)
              && (!CanMove(ps, roll) ==>
                    state.playerIndex == (old(state.playerIndex) + 1) % MaxPlayers
                    && state.phase == Waiting && state.diceRoll == 0)
    // Moving: move the first eligible piece with the stored roll; stop on a
    // win, otherwise pass the turn (a 6 earns no extra turn).
    ensures old(state.phase) == Moving ==>
              var ps := players[old(state.playerIndex)].pieces;
              && ps[..] == Moved(old(ps[..]), old(state.diceRoll))
              && over == (CanMove(old(ps[..]), old(state.diceRoll)) && HasWon(ps[..]))
              && (over ==> state.playerIndex == old(state.playerIndex) && state.phase == Moving
                             && state.diceRoll == old(state.diceRoll))
              && (!over ==> state.playerIndex == (old(state.playerIndex) + 1) % MaxPlayers
                              && state.phase == Waiting && state.diceRoll == 0)
    // The loop's invariant survives every step that does not end the game,
    // and in a consistent state a step ends the game only when the current
    // player's pieces are all finished.
    ensures old(Consistent(state, players)) && !over ==> Consistent(state, players)
    ensures old(Consistent(state, players)) && over ==>
              old(state.phase) == Moving && HasWon(players[state.playerIndex].pieces[..])
  {
    var current := players[state.playerIndex];
    over := false;
    match state.phase
    case Waiting =>
      state.diceRoll := 0;
      state.phase := Rolling;
    case Rolling =>
      state.diceRoll := roll;
      if CanMove(current.pieces[..], state.diceRoll) {
        state.phase := Moving;
      } else {
        NextTurn(state);
      }
    case Moving =>
      ghost var before := current.pieces[..];
      var moved := current.MovePiece(state.diceRoll);
      if moved && HasWon(current.pieces[..]) {
        over := true;
      } else {
        NextTurn(state);
      }
      if old(Consistent(state, players)) {
        MovedPreserves(before, old(state.diceRoll));
      }
  }

  /** The opening of a game: Red rolls a 3 with every piece at home and
      passes; Green rolls a 6, enters its first piece on cell 0, and the turn
      still passes on to Yellow. */
  method OpeningScenario()
  {
    var state, players := Initialize();
    var over := Step(state, players, 1);
    assert state.phase == Rolling && state.playerIndex == 0;
    assert !CanMove(players[0].pieces[..], 3);
    over := Step(state, players, 3);
    assert state.playerIndex == 1 && state.phase == Waiting;
    over := Step(state, players, 1);
    assert CanMove(players[1].pieces[..], 6);
    over := Step(state, players, 6);
    assert state.phase == Moving && state.diceRoll == 6;
    over := Step(state, players, 1);
    assert !over;
    assert players[1].pieces[0] == Piece(0, false, false);
    assert players[1].pieces[1] == NewPiece();
    assert state.playerIndex == 2 && state.phase == Waiting && state.diceRoll == 0;
  }
}
