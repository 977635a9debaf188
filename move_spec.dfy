/** What ChessBoard.movePiece does to the piece list, stated on snapshots:
    the destination is checked against freshly generated moves, a piece on
    the destination is captured, the en-passant branch is tried otherwise,
    and the mover is relocated and marked as moved. */
module MoveSpec {
  import opened Wrappers
  import opened Position
  import opened Rules
  import opened RulesFacts

  /** The piece list after a move, the index (in the list before the move)
      of the captured piece, and whether the capture was en passant. */
  datatype Applied = Applied(pieces: seq<PieceState>, captured: Option<nat>, enPassant: bool)

  function RemoveAt<T>(s: seq<T>, k: nat): (r: seq<T>)
    requires k < |s|
    ensures |r| == |s| - 1
    ensures forall j :: 0 <= j < k ==> r[j] == s[j]
    ensures forall j :: k <= j < |r| ==> r[j] == s[j + 1]
  {
    s[..k] + s[k + 1..]
  }

  /** Dropping a later index of a list keeps its head in front. */
  lemma RemoveAtCons<T>(s: seq<T>, k: nat)
    requires 0 < k < |s|
    ensures RemoveAt(s, k) == [s[0]] + RemoveAt(s[1..], k - 1)
  {
    var shorter, rest := RemoveAt(s, k), RemoveAt(s[1..], k - 1);
    forall j | 0 <= j < |shorter| ensures shorter[j] == ([s[0]] + rest)[j] {
      if j > 0 {
        assert ([s[0]] + rest)[j] == rest[j - 1];
      }
    }
  }

  /** The mover after the move. */
  function Relocated(me: PieceState, to: Pos): PieceState
  {
    me.(pos := to, hasMoved := true)
  }

  /** The square beside the pawn's origin, on the destination's column. */
  function PassedSquare(me: PieceState, to: Pos): Pos
  {
    Pos(me.pos.x + (to.x - me.pos.x), me.pos.y)
  }

  /** movePiece for the piece at index i, moving to `to`; None when `to`
      is not among its valid moves. */
  function Apply(b: BoardView, i: nat, to: Pos): (r: Option<Applied>)
    requires i < |b.pieces|
    ensures r.None? <==> to !in ValidMoves(b.pieces[i], b)
  {
    var me := b.pieces[i];
    if to !in ValidMoves(me, b) then None
    else
      var after := b.pieces[i := Relocated(me, to)];
      match FirstIndexAt(b.pieces, to)
      case Some(c) => Some(Applied(RemoveAt(after, c), Some(c), false))
      case None =>
        if me.kind == Pawn && Abs(to.x - me.pos.x) == 1 && Abs(to.y - me.pos.y) == 1 then
          match FirstIndexAt(b.pieces, PassedSquare(me, to))
          case Some(e) =>
            if b.pieces[e].kind == Pawn && b.pieces[e].color != me.color then
              Some(Applied(RemoveAt(after, e), Some(e), true))
            else Some(Applied(after, None, false))
          case None => Some(Applied(after, None, false))
        else Some(Applied(after, None, false))
  }

  /** The en-passant branch never fires: a pawn is only offered a diagonal
      square that an enemy occupies, so the ordinary capture is taken. */
  lemma EnPassantUnreachable(b: BoardView, i: nat, to: Pos)
    requires i < |b.pieces|
    ensures Apply(b, i, to).Some? ==> !Apply(b, i, to).value.enPassant
  {
    var me := b.pieces[i];
    if to in ValidMoves(me, b) && me.kind == Pawn {
      PawnMovesForward(me, b, to);
    }
  }

  /** The move with the en-passant branch taken out: capture whatever
      stands on the destination, then relocate the mover. */
  function Ordinary(b: BoardView, i: nat, to: Pos): Applied
    requires i < |b.pieces|
  {
    var after := b.pieces[i := Relocated(b.pieces[i], to)];
    match FirstIndexAt(b.pieces, to)
    case Some(c) => Applied(RemoveAt(after, c), Some(c), false)
    case None => Applied(after, None, false)
  }

  lemma ApplyIsOrdinary(b: BoardView, i: nat, to: Pos)
    requires i < |b.pieces|
    ensures Apply(b, i, to).Some? ==> Apply(b, i, to).value == Ordinary(b, i, to)
  {
    EnPassantUnreachable(b, i, to);
  }

  /** A successful move captures exactly the piece found on the destination
      (an enemy), keeps every other piece as it was, and relocates the
      mover with its moved flag set. */
  lemma ApplyEffect(b: BoardView, i: nat, to: Pos)
    requires i < |b.pieces|
    requires Apply(b, i, to).Some?
    ensures var a := Apply(b, i, to).value;
      && a.captured == FirstIndexAt(b.pieces, to)
      && (a.captured.Some? ==> a.captured.value != i && b.pieces[a.captured.value].color != b.pieces[i].color)
      && |a.pieces| == |b.pieces| - (if a.captured.Some? then 1 else 0)
      && Relocated(b.pieces[i], to) in a.pieces
      && (forall j :: 0 <= j < |b.pieces| && j != i && Some(j) != a.captured ==> b.pieces[j] in a.pieces)
  {
    var me := b.pieces[i];
    ApplyIsOrdinary(b, i, to);
    ValidMovesSafe(me, b, to);
    OrdinaryEffect(b, i, to);
  }

  lemma OrdinaryEffect(b: BoardView, i: nat, to: Pos)
    requires i < |b.pieces|
    requires Open(b.pieces[i], b, to) && to != b.pieces[i].pos
    ensures var a := Ordinary(b, i, to);
      && a.captured == FirstIndexAt(b.pieces, to)
      && (a.captured.Some? ==> a.captured.value != i && b.pieces[a.captured.value].color != b.pieces[i].color)
      && |a.pieces| == |b.pieces| - (if a.captured.Some? then 1 else 0)
      && Relocated(b.pieces[i], to) in a.pieces
      && (forall j :: 0 <= j < |b.pieces| && j != i && Some(j) != a.captured ==> b.pieces[j] in a.pieces)
  {
    var me := b.pieces[i];
    var a := Ordinary(b, i, to);
    var after := b.pieces[i := Relocated(me, to)];
    match FirstIndexAt(b.pieces, to)
    case None =>
      assert after[i] == Relocated(me, to);
      forall j | 0 <= j < |b.pieces| && j != i ensures b.pieces[j] in a.pieces {
        assert after[j] == b.pieces[j];
      }
    case Some(c) =>
      assert c != i;
      var idx := if i < c then i else i - 1;
      assert a.pieces[idx] == Relocated(me, to);
      forall j | 0 <= j < |b.pieces| && j != i && j != c
        ensures b.pieces[j] in a.pieces
      {
        var k := if j < c then j else j - 1;
        assert a.pieces[k] == b.pieces[j];
      }
  }

  /** A successful move keeps every piece on the board and no two pieces on
      one square, provided the board has at least four rows (see
      DoubleStepUncheckedOnShortBoard for why). */
  lemma ApplyKeepsPlaced(b: BoardView, i: nat, to: Pos)
    requires i < |b.pieces|
    requires Placed(b) && b.height >= 4
    requires Apply(b, i, to).Some?
    ensures Placed(BoardView(b.width, b.height, Apply(b, i, to).value.pieces))
  {
    ApplyIsOrdinary(b, i, to);
    ValidMovesSafe(b.pieces[i], b, to);
    OrdinaryKeepsPlaced(b, i, to);
  }

  lemma OrdinaryKeepsPlaced(b: BoardView, i: nat, to: Pos)
    requires i < |b.pieces|
    requires Placed(b) && InBounds(b, to)
    ensures Placed(BoardView(b.width, b.height, Ordinary(b, i, to).pieces))
  {
    var a := Ordinary(b, i, to);
    var after := b.pieces[i := Relocated(b.pieces[i], to)];
    match FirstIndexAt(b.pieces, to)
    case None =>
      assert forall j :: 0 <= j < |b.pieces| ==> b.pieces[j].pos != to;
    case Some(c) =>
      assert forall j :: 0 <= j < |b.pieces| && j != c ==> b.pieces[j].pos != to;
      forall k, l | 0 <= k < l < |a.pieces|
        ensures a.pieces[k].pos != a.pieces[l].pos
      {
        var k' := if k < c then k else k + 1;
        var l' := if l < c then l else l + 1;
        assert a.pieces[k] == after[k'] && a.pieces[l] == after[l'];
      }
  }
}
