# Ludo turn engine in Dafny

A model of the turn engine of `rust_ludo_game`. It has four players: Red,
Green, Yellow and Blue, in that turn order. Each player has four pieces on a
circular track of ten cells.

The model has two modules:

- `Movement` (`movement.dfy`) holds the rules for one player's pieces.
  - A piece waits at home (position -1). It enters cell 0 only on a 6.
  - On the track a piece advances by the roll, modulo 10. A piece that lands
    exactly on cell 0 again is finished and never moves again.
  - `can_move` and `has_won` are pure predicates over the pieces.
  - `move_piece` is a method on the `Player` class. It updates the pieces
    array in place, with a loop that stops at the first eligible piece. Its
    contract ties the new array to the specification function `Moved`.
- `Turn` (`turn.dfy`) holds the turn state machine.
  - `GameState` is a class with the fields `playerIndex`, `phase` and
    `diceRoll`.
  - `NextTurn` passes the turn to the next seat.
  - `Step` is one pass through the `match` in the game loop. The roll the
    random source would give is a parameter in 1..6.
  - `Consistent` is the invariant the loop keeps. `Step` preserves it on
    every step that does not end the game. In a consistent state the Moving
    phase always moves a piece. The game ends only when the current player
    has finished all four pieces.
  - `OpeningScenario` plays the first steps of a game from `Initialize`.

The source decides eligibility on `position == -1` alone and never reads
`at_home`; the model does the same. Rust's `%` truncates toward zero; the
model writes that out as `BoardRem`. For well-formed pieces the dividend is
never negative, so it agrees with Dafny's `%` there.

## Model

| member | source | states |
|---|---|---|
| Movement.NewPiece | rust_ludo_game.rs:47-54 | a new piece is at home, not finished, and satisfies the piece invariant |
| Movement.BoardRem | rust_ludo_game.rs:96 | Rust's `% BOARD_SIZE`: the remainder has the sign of the dividend, its magnitude is below 10, and it differs from the dividend by a multiple of 10; for non-negative dividends it equals the Euclidean remainder |
| Movement.CanMove | rust_ludo_game.rs:71-83 | `can_move` (front-to-back `any`) holds iff some piece is not finished and is either at home with a 6 rolled or on the track |
| Movement.HasWon | rust_ludo_game.rs:108-110 | `has_won` (`all`) holds iff every piece is finished |
| Movement.FirstEligible | rust_ludo_game.rs:87-95 | the scan of `move_piece` stops at the lowest eligible piece; no earlier piece is eligible; it runs off the end iff `can_move` is false |
| Movement.Moved | rust_ludo_game.rs:85-106 | after `move_piece` the lowest eligible piece is advanced and every other piece is exactly as before |
| Movement.EnterFromHome | rust_ludo_game.rs:91-94 | a home piece is eligible iff the roll is 6, and then it enters on cell 0, off home, not finished |
| Movement.AdvanceOnTrack | rust_ludo_game.rs:95-102 | a track piece moves to `(position + roll) % 10` and finishes exactly when `position + roll == 10` |
| Movement.FinishingExamples | rust_ludo_game.rs:96-99 | 7 with a 3 and 4 with a 6 both finish on cell 0; 4 with a 5 goes to 9 unfinished |
| Movement.AdvancePreserves | rust_ludo_game.rs:91-101 | with a roll in 1..6 a move keeps a piece well formed (home iff position -1, position in -1..9, finished only on cell 0), and it always changes the piece |
| Movement.MovedFreezesFinished | rust_ludo_game.rs:87-90 | a finished piece is never changed by a move |
| Movement.MovedChangesAtMostOne | rust_ludo_game.rs:87-105 | a move changes at most one piece |
| Movement.MovedPreserves | rust_ludo_game.rs:85-106 | from well-formed pieces and a roll in 1..6, a move leaves all pieces well formed and changes them exactly when `can_move` holds |
| Movement.CanMoveByRoll | rust_ludo_game.rs:71-83 | with a 6 a player can move iff some piece is unfinished; with another roll iff some unfinished piece is on the track |
| Movement.Player.constructor | rust_ludo_game.rs:64-69 | a new player has the given colour and four fresh pieces, all at home |
| Movement.Player.MovePiece | rust_ludo_game.rs:85-106 | returns exactly `can_move` for the same roll; the pieces array becomes `Moved` of its old contents |
| Turn.GameState.constructor | rust_ludo_game.rs:31-37 | the game starts at seat 0, in Waiting, with roll 0 |
| Turn.Initialize | rust_ludo_game.rs:125-131 | the roster seats Red, Green, Yellow and Blue, each with four fresh pieces at home; the state is consistent |
| Turn.NextTurn | rust_ludo_game.rs:118-122 | the index advances modulo 4, the phase becomes Waiting and the roll 0 |
| Turn.Step | rust_ludo_game.rs:133-170 | Waiting goes to Rolling with roll 0. Rolling stores the roll and goes to Moving iff `can_move`, else passes the turn. Moving applies `Moved` and stops iff a piece moved and the player has won, else passes the turn (no extra turn on a 6). Only the current player's pieces change. The loop invariant is kept on every non-final step. |

## Left out

- `roll_dice` (rust_ludo_game.rs:113-116) uses the external `rand` crate; `Step` takes the roll as a parameter required to be in 1..6.
- All `println!` output: it never affects control flow.
- The unbounded `loop` of `main`: only one pass (`Step`) is modelled. The game need not terminate, for example when no 6 is ever rolled.
- Movement.Player.MovePiece: positions and rolls are unbounded integers, so the `i32` overflow of `position + roll` is not modelled. It cannot happen for well-formed pieces and rolls in 1..6.
- Turn.NextTurn: `player_index` is a `nat`, so the `usize` overflow of `player_index + 1` is not modelled. The index is always below 4.
- `PlayerColor` is only a tag: it is kept as the player's fixed colour and the seat order, and is otherwise used only in messages.
