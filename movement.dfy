/** Movement rules for one player's pieces on the ten-cell circular track.
    A piece waits at home (position -1) until a 6 brings it onto cell 0; from
    there every move advances it by the roll, modulo the board size, and a
    piece that lands exactly on cell 0 again is finished and never moves. */
module Movement {

  const BoardSize: int := 10
  const WinningPosition: int := 0
  const HomePosition: int := -1
  const PiecesPerPlayer: nat := 4

  datatype Color = Red | Green | Yellow | Blue

  datatype Piece = Piece(position: int, atHome: bool, atEnd: bool)

  /** The shape every piece keeps from its creation on, as long as the rolls
      stay in 1..6: home is position -1 and nothing else, a piece on the track
      sits on one of the cells 0..9, and a finished piece sits on cell 0. */
  predicate WellFormed(p: Piece) {
    && (p.position == HomePosition || 0 <= p.position < BoardSize)
    && (p.atHome <==> p.position == HomePosition)
    && (p.atEnd ==> p.position == WinningPosition)
  }

  predicate AllWellFormed(ps: seq<Piece>) {
    forall i :: 0 <= i < |ps| ==> WellFormed(ps[i])
  }

  /** A fresh piece waits at home. */
  function NewPiece(): (p: Piece)
    ensures WellFormed(p) && p.atHome && !p.atEnd
  {
    Piece(HomePosition, true, false)
  }

  /** Rust's `a % BOARD_SIZE` on `i32`: the remainder truncates toward zero,
      so it takes the sign of the dividend (Dafny's `%` is Euclidean). */
  function BoardRem(a: int): (r: int)
    ensures a >= 0 ==> 0 <= r < BoardSize && r == a % BoardSize
    ensures a < 0 ==> -BoardSize < r <= 0
    ensures (a - r) % BoardSize == 0
  {
    if a >= 0 then a % BoardSize else -((-a) % BoardSize)
  }

  /** The test both `can_move` and `move_piece` apply to a piece: it is not
      finished, and it is either at home with a 6 rolled or already on the
      track. */
  predicate Eligible(p: Piece, roll: int) {
    !p.atEnd && ((p.position == HomePosition && roll == 6) || p.position != HomePosition)
  }

  /** `can_move`: some piece passes the eligibility test (Rust's `any`, which
      looks at the pieces front to back). */
  predicate CanMove(ps: seq<Piece>, roll: int)
    ensures CanMove(ps, roll) <==> exists i :: 0 <= i < |ps| && Eligible(ps[i], roll)
  {
    |ps| > 0 && (Eligible(ps[0], roll) || CanMove(ps[1..], roll))
  }

  /** `has_won`: every piece is finished (Rust's `all`). */
  predicate HasWon(ps: seq<Piece>)
    ensures HasWon(ps) <==> forall i :: 0 <= i < |ps| ==> ps[i].atEnd
  {
    |ps| == 0 || (ps[0].atEnd && HasWon(ps[1..]))
  }

  /** Piece `i` is the one `move_piece` picks: eligible, and no piece before it is. */
  predicate IsFirstEligible(ps: seq<Piece>, roll: int, i: int) {
    && 0 <= i < |ps|
    && Eligible(ps[i], roll)
    && forall j :: 0 <= j < i ==> !Eligible(ps[j], roll)
  }

  /** The index of the piece `move_piece` scans to: the lowest eligible one,
      or `|ps|` when no piece is eligible. */
  function FirstEligible(ps: seq<Piece>, roll: int): (k: nat)
    ensures k <= |ps|
    ensures k < |ps| <==> CanMove(ps, roll)
    ensures k < |ps| ==> IsFirstEligible(ps, roll, k)
    ensures forall j :: 0 <= j < k ==> !Eligible(ps[j], roll)
  {
    if |ps| == 0 then 0
    else if Eligible(ps[0], roll) then 0
    else 1 + FirstEligible(ps[1..], roll)
  }

  /** What `move_piece` does to the piece it picks. */
  function Advance(p: Piece, roll: int): Piece
    requires Eligible(p, roll)
  {
    if p.position == HomePosition && roll == 6 then
      p.(position := 0, atHome := false)
    else
      var pos := BoardRem(p.position + roll);
      if pos == WinningPosition then p.(position := pos, atEnd := true) else p.(position := pos)
  }

  /** The pieces after `move_piece`: the lowest eligible piece advanced, every
      other piece as it was. */
  function Moved(ps: seq<Piece>, roll: int): (r: seq<Piece>)
    ensures |r| == |ps|
    ensures forall i :: 0 <= i < |ps| && IsFirstEligible(ps, roll, i) ==> r[i] == Advance(ps[i], roll)
    ensures forall i :: 0 <= i < |ps| && !IsFirstEligible(ps, roll, i) ==> r[i] == ps[i]
  {
    var k := FirstEligible(ps, roll);
    if k < |ps| then ps[k := Advance(ps[k], roll)] else ps
  }

  /** Leaving home: with a 6 a home piece enters the track at cell 0 and is
      not finished; with any other roll it cannot move at all. */
  lemma EnterFromHome(p: Piece, roll: int)
    requires WellFormed(p) && p.atHome
    ensures Eligible(p, roll) <==> roll == 6
    ensures roll == 6 ==> Advance(p, roll) == Piece(0, false, false)
  {
  }

  /** On the track a piece moves `roll` cells forward around the ten cells,
      and it finishes exactly when the roll takes it to cell 10, that is back
      onto cell 0; a roll past that wraps round and the piece keeps going. */
  lemma AdvanceOnTrack(p: Piece, roll: int)
    requires WellFormed(p) && !p.atHome && !p.atEnd
    requires 1 <= roll <= 6
    ensures Eligible(p, roll)
    ensures Advance(p, roll).position == (p.position + roll) % BoardSize
    ensures !Advance(p, roll).atHome
    ensures Advance(p, roll).atEnd <==> p.position + roll == BoardSize
  {
  }

  /** Two finishing moves: 7 with a 3, and 4 with a 6, both end on cell 0. */
  lemma FinishingExamples()
    ensures Advance(Piece(7, false, false), 3) == Piece(0, false, true)
    ensures Advance(Piece(4, false, false), 6) == Piece(0, false, true)
    ensures Advance(Piece(4, false, false), 5) == Piece(9, false, false)
  {
  }

  /** A move keeps a piece well formed, and it always changes the piece. */
  lemma AdvancePreserves(p: Piece, roll: int)
    requires WellFormed(p) && Eligible(p, roll)
    requires 1 <= roll <= 6
    ensures WellFormed(Advance(p, roll))
    ensures Advance(p, roll) != p
  {
    if p.position != HomePosition {
      AdvanceOnTrack(p, roll);
    }
  }

  /** A finished piece is frozen: no move touches it. */
  lemma MovedFreezesFinished(ps: seq<Piece>, roll: int, i: int)
    requires 0 <= i < |ps| && ps[i].atEnd
    ensures Moved(ps, roll)[i] == ps[i]
  {
  }

  /** At most one piece changes per move. */
  lemma MovedChangesAtMostOne(ps: seq<Piece>, roll: int, i: int, j: int)
    requires 0 <= i < |ps| && 0 <= j < |ps|
    requires Moved(ps, roll)[i] != ps[i] && Moved(ps, roll)[j] != ps[j]
    ensures i == j
  {
  }

  /** Starting from well-formed pieces, a move with a roll in 1..6 leaves them
      well formed, and it changes the pieces exactly when `can_move` holds. */
  lemma MovedPreserves(ps: seq<Piece>, roll: int)
    requires AllWellFormed(ps)
    requires 1 <= roll <= 6
    ensures AllWellFormed(Moved(ps, roll))
    ensures Moved(ps, roll) != ps <==> CanMove(ps, roll)
  {
    var k := FirstEligible(ps, roll);
    if k < |ps| {
      AdvancePreserves(ps[k], roll);
      assert Moved(ps, roll)[k] != ps[k];
    }
  }

  /** With a 6 a player can move whenever some piece is not finished; with
      any other roll only when some unfinished piece is already on the track. */
  lemma CanMoveByRoll(ps: seq<Piece>, roll: int)
    ensures roll == 6 ==> (CanMove(ps, roll) <==> exists i :: 0 <= i < |ps| && !ps[i].atEnd)
    ensures roll != 6 ==> (CanMove(ps, roll) <==> exists i :: 0 <= i < |ps| && !ps[i].atEnd && ps[i].position != HomePosition)
  {
  }

  /** A player, Rust's `Player`: a fixed colour and four pieces updated in place. */
  class Player {
    const color: Color
    const pieces: array<Piece>

    /** `Player::new`: four pieces, all at home. */
    constructor (color: Color)
      ensures this.color == color
      ensures fresh(pieces)
      ensures pieces.Length == PiecesPerPlayer
      ensures forall i :: 0 <= i < pieces.Length ==> pieces[i] == NewPiece()
    {
      this.color := color;
      pieces := new Piece[PiecesPerPlayer](_ => NewPiece());
    }

    /** `move_piece`: scans the pieces in order, advances the first eligible
        one and reports whether it found one. */
    method MovePiece(roll: int) returns (moved: bool)
      modifies pieces
      ensures moved == CanMove(old(pieces[..]), roll)
      ensures pieces[..] == Moved(old(pieces[..]), roll)
    {
      var i := 0;
      while i < pieces.Length
        invariant 0 <= i <= pieces.Length
        invariant forall j :: 0 <= j < i ==> !Eligible(pieces[j], roll)
        invariant pieces[..] == old(pieces[..])
      {
        var p := pieces[i];
        if p.atEnd {
          i := i + 1;
          continue;
        }
        if p.position == HomePosition && roll == 6 {
          pieces[i] := p.(position := 0, atHome := false);
          return true;
        } else if p.position != HomePosition {
          var pos := BoardRem(p.position + roll);
          if pos == WinningPosition {
            pieces[i] := p.(position := pos, atEnd := true);
          } else {
            pieces[i] := p.(position := pos);
          }
          return true;
        }
        i := i + 1;
      }
      return false;
    }
  }
}
