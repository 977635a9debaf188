/** ChessPiece and ChessBoard as objects. A piece's position and moved
    flag change in place; the board keeps a list of piece objects, appends
    to it while laying out the start position, and filters captured pieces
    out of it by identity. Each generator builds its list with the loops
    of the source and is proved equal to the matching function of Rules. */
module Chess {
  import opened Wrappers
  import opened Position
  import opened Rules
  import opened RulesFacts
  import opened Layout
  import opened MoveSpec

  /** What a successful movePiece reports. */
  datatype MoveInfo = MoveInfo(piece: Piece, fromPos: Pos, toPos: Pos, capturedPiece: Piece?, isEnPassant: bool)

  /** movePiece returns false or the move's information. */
  datatype MoveResult = Rejected | Moved(info: MoveInfo)

  /** The states of a list of pieces, in list order. */
  function States(ps: seq<Piece>): (r: seq<PieceState>)
    reads ps
    ensures |r| == |ps|
    ensures forall k :: 0 <= k < |ps| ==> r[k] == ps[k].State()
  {
    if ps == [] then [] else States(ps[..|ps| - 1]) + [ps[|ps| - 1].State()]
  }

  /** moves.some(m => m.equals(to)). */
  function SomeEquals(moves: seq<Pos>, to: Pos): (r: bool)
    ensures r <==> to in moves
  {
    if moves == [] then false
    else Equals(moves[0], to) || SomeEquals(moves[1..], to)
  }

  /** No piece object appears twice in the list. */
  ghost predicate Distinct(ps: seq<Piece>)
  {
    forall k, l :: 0 <= k < l < |ps| ==> ps[k] != ps[l]
  }

  /** The position of a piece object in a list that holds it. */
  function IndexOf(ps: seq<Piece>, p: Piece): (k: nat)
    requires p in ps
    ensures k < |ps| && ps[k] == p
  {
    if ps[0] == p then 0 else 1 + IndexOf(ps[1..], p)
  }

  /** pieces.filter(q => q !== p). */
  function Without(ps: seq<Piece>, p: Piece): (r: seq<Piece>)
    ensures forall k :: 0 <= k < |r| ==> r[k] in ps && r[k] != p
    ensures forall k :: 0 <= k < |ps| && ps[k] != p ==> ps[k] in r
  {
    if ps == [] then []
    else if ps[0] == p then Without(ps[1..], p)
    else [ps[0]] + Without(ps[1..], p)
  }

  /** In a list without repeats, filtering out the object at index c removes
      that index and nothing else. */
  lemma {:induction false} WithoutDistinct(ps: seq<Piece>, c: nat)
    requires Distinct(ps) && c < |ps|
    ensures Without(ps, ps[c]) == RemoveAt(ps, c)
    decreases |ps|
  {
    if c == 0 {
      assert ps[0] !in ps[1..];
      WithoutAbsent(ps[1..], ps[0]);
    } else {
      var tail := ps[1..];
      DistinctTail(ps);
      WithoutDistinct(tail, c - 1);
      assert tail[c - 1] == ps[c] && ps[0] != ps[c];
      assert Without(ps, ps[c]) == [ps[0]] + Without(tail, ps[c]);
      RemoveAtCons(ps, c);
    }
  }

  lemma DistinctTail(ps: seq<Piece>)
    requires Distinct(ps) && ps != []
    ensures Distinct(ps[1..])
  {
    var tail := ps[1..];
    forall k, l | 0 <= k < l < |tail| ensures tail[k] != tail[l] {
      assert tail[k] == ps[k + 1] && tail[l] == ps[l + 1];
    }
  }

  lemma {:induction false} WithoutAbsent(ps: seq<Piece>, p: Piece)
    requires p !in ps
    ensures Without(ps, p) == ps
    decreases |ps|
  {
    if ps != [] {
      assert p !in ps[1..];
      WithoutAbsent(ps[1..], p);
      assert ps == [ps[0]] + ps[1..];
    }
  }

  /** The list and the piece states after movePiece has filtered out the
      piece at index `removed` (if any) of a list without repeats and
      relocated the mover at index i, every other piece keeping its state:
      the snapshot is the old one with the mover relocated and that index
      dropped, and the list still has no repeats. */
  lemma MovedStates(oldPieces: seq<Piece>, oldStates: seq<PieceState>, i: nat, toPos: Pos,
                    removed: Option<nat>, pieces: seq<Piece>)
    requires Distinct(oldPieces) && |oldStates| == |oldPieces| && i < |oldPieces|
    requires removed.Some? ==> removed.value < |oldPieces| && removed.value != i
    requires pieces == if removed.Some? then RemoveAt(oldPieces, removed.value) else oldPieces
    requires oldPieces[i].State() == Relocated(oldStates[i], toPos)
    requires forall j :: 0 <= j < |oldPieces| && oldPieces[j] != oldPieces[i] ==> oldPieces[j].State() == oldStates[j]
    ensures Distinct(pieces)
    ensures
      var after := oldStates[i := Relocated(oldStates[i], toPos)];
      States(pieces) == if removed.Some? then RemoveAt(after, removed.value) else after
  {
    var after := oldStates[i := Relocated(oldStates[i], toPos)];
    var expected := if removed.Some? then RemoveAt(after, removed.value) else after;
    forall k | 0 <= k < |pieces| ensures pieces[k].State() == expected[k] {
      var m := if removed.Some? && k >= removed.value then k + 1 else k;
      assert pieces[k] == oldPieces[m];
    }
    forall k, l | 0 <= k < l < |pieces| ensures pieces[k] != pieces[l] {
      var mk := if removed.Some? && k >= removed.value then k + 1 else k;
      var ml := if removed.Some? && l >= removed.value then l + 1 else l;
      assert pieces[k] == oldPieces[mk] && pieces[l] == oldPieces[ml];
    }
  }

  class Piece {
    const kind: Kind
    const color: Color
    var position: Pos
    var hasMoved: bool

    constructor (kind: Kind, color: Color, position: Pos)
      ensures State() == PieceState(kind, color, position, false)
    {
      this.kind := kind;
      this.color := color;
      this.position := position;
      hasMoved := false;
    }

    function State(): PieceState
      reads this
    {
      PieceState(kind, color, position, hasMoved)
    }

    /** getValidMoves: dispatch on the type. */
    method GetValidMoves(board: Board) returns (moves: seq<Pos>)
      ensures moves == ValidMoves(State(), board.View())
    {
      match kind
      case Pawn => moves := GetPawnMoves(board);
      case Rook => moves := GetRookMoves(board);
      case Bishop => moves := GetBishopMoves(board);
      case Knight => moves := GetKnightMoves(board);
      case Queen => moves := GetQueenMoves(board);
      case King => moves := GetKingMoves(board);
      case Unrecognized => moves := [];
    }

    method GetPawnMoves(board: Board) returns (moves: seq<Pos>)
      ensures moves == PawnMoves(State(), board.View())
    {
      ghost var me, b := State(), board.View();
      moves := [];
      var direction := if color == White then -1 else 1;
      var startRow := if color == White then 6 else 1;
      assert me.pos == position && direction == Forward(me.color) && startRow == StartRow(me.color);
      ghost var diagonals := Diagonals(me);

      var oneForward := Pos(position.x, position.y + direction);
      if board.IsWithinBounds(oneForward) && board.GetPieceAt(oneForward) == null {
        moves := moves + [oneForward];
        if position.y == startRow {
          var twoForward := Pos(position.x, position.y + 2 * direction);
          if board.GetPieceAt(twoForward) == null {
            moves := moves + [twoForward];
          }
        }
      }
      assert moves == Advances(me, b);

      var captures := [Pos(position.x - 1, position.y + direction), Pos(position.x + 1, position.y + direction)];
      assert captures == diagonals;
      moves := PushCaptures(board, moves, captures);
    }

    /** The capture loop of getPawnMoves: push each candidate square that
        is on the board and holds an enemy, in order. */
    method PushCaptures(board: Board, moves0: seq<Pos>, captures: seq<Pos>) returns (moves: seq<Pos>)
      ensures moves == moves0 + Captures(State(), board.View(), captures)
    {
      ghost var me, b := State(), board.View();
      moves := moves0;
      for k := 0 to |captures|
        invariant moves == moves0 + Captures(me, b, captures[..k])
      {
        var capturePos := captures[k];
        ghost var taken := Captures(me, b, captures[..k]);
        assert captures[..k + 1][..k] == captures[..k];
        assert Captures(me, b, captures[..k + 1])
          == taken + (if InBounds(b, capturePos) && Enemy(me, b, capturePos) then [capturePos] else []);
        if board.IsWithinBounds(capturePos) {
          var target := board.GetPieceAt(capturePos);
          if target != null && target.color != color {
            assert moves + [capturePos] == moves0 + (taken + [capturePos]);
            moves := moves + [capturePos];
          }
        }
      }
      assert captures[..|captures|] == captures;
    }

    method GetRookMoves(board: Board) returns (moves: seq<Pos>)
      ensures moves == LineMoves(State(), board.View(), RookDirs)
    {
      var directions := [Offset(0, -1), Offset(0, 1), Offset(-1, 0), Offset(1, 0)];
      moves := GetLineMoves(board, directions);
    }

    method GetBishopMoves(board: Board) returns (moves: seq<Pos>)
      ensures moves == LineMoves(State(), board.View(), BishopDirs)
    {
      var directions := [Offset(1, 1), Offset(1, -1), Offset(-1, 1), Offset(-1, -1)];
      moves := GetLineMoves(board, directions);
    }

    method GetQueenMoves(board: Board) returns (moves: seq<Pos>)
      ensures moves == LineMoves(State(), board.View(), QueenDirs)
    {
      var directions :=
        [Offset(0, -1), Offset(0, 1), Offset(-1, 0), Offset(1, 0),
         Offset(1, 1), Offset(1, -1), Offset(-1, 1), Offset(-1, -1)];
      moves := GetLineMoves(board, directions);
    }

    /** getLineMoves: for each direction, walk from the neighbouring square
        while on the board, taking empty squares, taking an enemy's square
        and stopping, or stopping at an own piece. */
    method GetLineMoves(board: Board, directions: seq<Offset>) returns (moves: seq<Pos>)
      requires forall i :: 0 <= i < |directions| ==> UnitDir(directions[i])
      ensures moves == LineMoves(State(), board.View(), directions)
    {
      ghost var me, b := State(), board.View();
      moves := [];
      for i := 0 to |directions|
        invariant moves == LineMoves(me, b, directions[..i])
      {
        var dir := directions[i];
        assert directions[..i + 1][..i] == directions[..i];
        ghost var start := moves;
        var x := position.x + dir.dx;
        var y := position.y + dir.dy;
        while board.IsWithinBounds(Pos(x, y))
          invariant moves + Ray(me, b, Pos(x, y), dir) == start + Ray(me, b, Shift(me.pos, dir), dir)
          decreases Reach(b, Pos(x, y), dir)
        {
          var pos := Pos(x, y);
          var target := board.GetPieceAt(pos);
          if target == null {
            assert Ray(me, b, pos, dir) == [pos] + Ray(me, b, Shift(pos, dir), dir);
            assert (moves + [pos]) + Ray(me, b, Shift(pos, dir), dir) == moves + Ray(me, b, pos, dir);
            moves := moves + [pos];
          } else if target.color != color {
            assert Ray(me, b, pos, dir) == [pos];
            moves := moves + [pos];
            break;
          } else {
            assert Ray(me, b, pos, dir) == [];
            break;
          }
          x := x + dir.dx;
          y := y + dir.dy;
        }
      }
      assert directions[..|directions|] == directions;
    }

    method GetKnightMoves(board: Board) returns (moves: seq<Pos>)
      ensures moves == OffsetMoves(State(), board.View(), KnightOffsets)
    {
      ghost var me, b := State(), board.View();
      var offsets :=
        [Offset(1, 2), Offset(1, -2), Offset(-1, 2), Offset(-1, -2),
         Offset(2, 1), Offset(2, -1), Offset(-2, 1), Offset(-2, -1)];
      moves := [];
      for i := 0 to |offsets|
        invariant moves == OffsetMoves(me, b, offsets[..i])
      {
        var offset := offsets[i];
        assert offsets[..i + 1][..i] == offsets[..i];
        var newPos := Pos(position.x + offset.dx, position.y + offset.dy);
        assert OffsetMoves(me, b, offsets[..i + 1])
          == OffsetMoves(me, b, offsets[..i]) + (if InBounds(b, newPos) && Open(me, b, newPos) then [newPos] else []);
        if board.IsWithinBounds(newPos) {
          var target := board.GetPieceAt(newPos);
          if target == null || target.color != color {
            moves := moves + [newPos];
          }
        }
      }
      assert offsets[..|offsets|] == offsets;
    }

    method GetKingMoves(board: Board) returns (moves: seq<Pos>)
      ensures moves == OffsetMoves(State(), board.View(), KingOffsets)
    {
      ghost var me, b := State(), board.View();
      var offsets :=
        [Offset(-1, -1), Offset(0, -1), Offset(1, -1),
         Offset(-1, 0), Offset(1, 0),
         Offset(-1, 1), Offset(0, 1), Offset(1, 1)];
      moves := [];
      for i := 0 to |offsets|
        invariant moves == OffsetMoves(me, b, offsets[..i])
      {
        var offset := offsets[i];
        assert offsets[..i + 1][..i] == offsets[..i];
        var newPos := Pos(position.x + offset.dx, position.y + offset.dy);
        assert OffsetMoves(me, b, offsets[..i + 1])
          == OffsetMoves(me, b, offsets[..i]) + (if InBounds(b, newPos) && Open(me, b, newPos) then [newPos] else []);
        if board.IsWithinBounds(newPos) {
          var target := board.GetPieceAt(newPos);
          if target == null || target.color != color {
            moves := moves + [newPos];
          }
        }
      }
      assert offsets[..|offsets|] == offsets;
    }
  }

  class Board {
    const width: int
    const height: int
    var pieces: seq<Piece>

    /** The board invariant: at least 8x8, no piece object listed twice,
        every piece on the board and no two on one square. */
    ghost predicate Valid()
      reads this, pieces
    {
      && width >= 8 && height >= 8
      && Distinct(pieces)
      && Placed(View())
    }

    function View(): BoardView
      reads this, pieces
    {
      BoardView(width, height, States(pieces))
    }

    /** The board starts in the standard position. Its size must be at
        least 8x8: the layout is written for columns and rows 0 to 7. */
    constructor (width: int, height: int)
      requires width >= 8 && height >= 8
      ensures this.width == width && this.height == height
      ensures Valid() && View().pieces == Initial()
      ensures forall p :: p in pieces ==> fresh(p)
    {
      this.width := width;
      this.height := height;
      pieces := [];
      new;
      InitializeBoard();
    }

    function IsWithinBounds(pos: Pos): (r: bool)
      reads this
      ensures r <==> InBounds(BoardView(width, height, []), pos)
    {
      pos.x >= 0 && pos.x < width && pos.y >= 0 && pos.y < height
    }

    /** getPieceAt: the first piece of the list standing on pos, or null. */
    function GetPieceAt(pos: Pos): (r: Piece?)
      reads this, pieces
      ensures r == null <==> Empty(View(), pos)
      ensures r != null ==> r in pieces && Occupant(View(), pos) == Some(r.State())
    {
      match FirstIndexAt(States(pieces), pos)
      case None => null
      case Some(k) => pieces[k]
    }

    /** addPiece: append a new, unmoved piece. */
    method AddPiece(kind: Kind, color: Color, x: int, y: int)
      modifies this
      ensures |pieces| == |old(pieces)| + 1 && pieces == old(pieces) + [pieces[|old(pieces)|]]
      ensures fresh(pieces[|old(pieces)|])
      ensures States(pieces) == old(States(pieces)) + [PieceState(kind, color, Pos(x, y), false)]
      ensures Distinct(old(pieces)) ==> Distinct(pieces)
    {
      var piece := new Piece(kind, color, Pos(x, y));
      pieces := pieces + [piece];
      assert pieces[..|pieces| - 1] == old(pieces);
    }

    /** initializeBoard: empty the list and append the 32 pieces. */
    method InitializeBoard()
      requires width >= 8 && height >= 8
      modifies this
      ensures Valid() && View().pieces == Initial()
      ensures forall p :: p in pieces ==> fresh(p)
    {
      pieces := [];
      assert States(pieces) == [] && Distinct(pieces);
      ghost var prev: seq<Piece>;
      prev := pieces;
      AddBackRank(Black, 0);
      assert forall p :: p in pieces ==> fresh(p) by {
        forall p | p in pieces ensures fresh(p) {
          if p in prev { }
        }
      }
      assert States(pieces) == BackRank(Black, 0) && Distinct(pieces);
      prev := pieces;
      AddPawnRank(Black, 1);
      assert forall p :: p in pieces ==> fresh(p) by {
        forall p | p in pieces ensures fresh(p) {
          if p in prev { }
        }
      }
      assert States(pieces) == BackRank(Black, 0) + PawnRank(Black, 1) && Distinct(pieces);
      prev := pieces;
      AddPawnRank(White, 6);
      assert forall p :: p in pieces ==> fresh(p) by {
        forall p | p in pieces ensures fresh(p) {
          if p in prev { }
        }
      }
      assert States(pieces) == BackRank(Black, 0) + PawnRank(Black, 1) + PawnRank(White, 6) && Distinct(pieces);
      prev := pieces;
      AddBackRank(White, 7);
      assert forall p :: p in pieces ==> fresh(p) by {
        forall p | p in pieces ensures fresh(p) {
          if p in prev { }
        }
      }
      assert States(pieces) == Initial() && Distinct(pieces);
      InitialPlaced(width, height);
    }

    /** The loop of initializeBoard that adds a pawn on each of the eight
        columns of one row. */
    method AddPawnRank(color: Color, row: int)
      modifies this
      ensures |pieces| == |old(pieces)| + 8 && old(pieces) <= pieces
      ensures States(pieces) == old(States(pieces)) + PawnRank(color, row)
      ensures Distinct(old(pieces)) ==> Distinct(pieces)
      ensures forall p :: p in pieces ==> p in old(pieces) || fresh(p)
    {
      ghost var start := States(pieces);
      for i := 0 to 8
        invariant |pieces| == |old(pieces)| + i && old(pieces) <= pieces
        invariant States(pieces) == start + PawnRank(color, row)[..i]
        invariant Distinct(old(pieces)) ==> Distinct(pieces)
        invariant forall p :: p in pieces ==> p in old(pieces) || fresh(p)
      {
        AddPiece(Pawn, color, i, row);
        PawnRankSnoc(start, color, row, i);
      }
      assert PawnRank(color, row)[..8] == PawnRank(color, row);
    }

    /** The eight addPiece calls of one back rank, made in the order of
        BackRankOrder: rook, knight, bishop, queen, king, bishop, knight,
        rook, on columns 0 to 7. */
    method AddBackRank(color: Color, row: int)
      modifies this
      ensures |pieces| == |old(pieces)| + 8 && old(pieces) <= pieces
      ensures States(pieces) == old(States(pieces)) + BackRank(color, row)
      ensures Distinct(old(pieces)) ==> Distinct(pieces)
      ensures forall p :: p in pieces ==> p in old(pieces) || fresh(p)
    {
      ghost var start := States(pieces);
      for i := 0 to 8
        invariant |pieces| == |old(pieces)| + i && old(pieces) <= pieces
        invariant States(pieces) == start + BackRank(color, row)[..i]
        invariant Distinct(old(pieces)) ==> Distinct(pieces)
        invariant forall p :: p in pieces ==> p in old(pieces) || fresh(p)
      {
        AddPiece(BackRankOrder[i], color, i, row);
        BackRankSnoc(start, color, row, i);
      }
      assert BackRank(color, row)[..8] == BackRank(color, row);
    }

    /** movePiece: reject a destination that is not among the piece's
        freshly generated moves; otherwise take off the captured piece,
        move the piece and mark it as moved. */
    method MovePiece(piece: Piece, toPos: Pos) returns (result: MoveResult)
      requires Valid() && piece in pieces
      modifies this, piece
      ensures Valid()
      ensures result.Rejected? <==> toPos !in old(ValidMoves(piece.State(), View()))
      ensures result.Rejected? ==> pieces == old(pieces) && piece.State() == old(piece.State())
      ensures result.Moved? ==>
        && result.info == MoveInfo(piece, old(piece.position), toPos, old(GetPieceAt(toPos)), false)
        && piece.State() == Relocated(old(piece.State()), toPos)
        && pieces == if result.info.capturedPiece == null then old(pieces) else Without(old(pieces), result.info.capturedPiece)
      ensures result.Moved? ==>
        && Apply(old(View()), IndexOf(old(pieces), piece), toPos).Some?
        && View().pieces == Apply(old(View()), IndexOf(old(pieces), piece), toPos).value.pieces
    {
      ghost var i := IndexOf(pieces, piece);
      ghost var before := View();
      ghost var oldPieces := pieces;

      var validMoves := piece.GetValidMoves(this);
      if !SomeEquals(validMoves, toPos) {
        return Rejected;
      }

      var fromPos := Pos(piece.position.x, piece.position.y);
      var captured, isEnPassant, removed := TakeCaptured(piece, toPos);

      piece.position := toPos;
      piece.hasMoved := true;
      result := Moved(MoveInfo(piece, fromPos, toPos, captured, isEnPassant));

      assert Apply(before, i, toPos) == Some(Ordinary(before, i, toPos)) by {
        ApplyIsOrdinary(before, i, toPos);
      }
      assert Placed(BoardView(width, height, Ordinary(before, i, toPos).pieces)) by {
        ApplyKeepsPlaced(before, i, toPos);
      }
      MovedStates(oldPieces, before.pieces, i, toPos, removed, pieces);
      assert View().pieces == Ordinary(before, i, toPos).pieces;
      assert Placed(View());
    }

    /** The capture step of movePiece, for a destination already found
        valid: filter out the piece on the destination; failing that, for a
        pawn moving one square diagonally, an enemy pawn on the passed
        square. The second branch never fires (see EnPassantUnreachable),
        so the piece removed is always the one found on the destination,
        an enemy, and `removed` is its index in the old list. */
    method TakeCaptured(piece: Piece, toPos: Pos) returns (captured: Piece?, isEnPassant: bool, ghost removed: Option<nat>)
      requires Valid() && piece in pieces
      requires toPos in ValidMoves(piece.State(), View())
      modifies this
      ensures !isEnPassant && captured == old(GetPieceAt(toPos))
      ensures removed == FirstIndexAt(old(View()).pieces, toPos)
      ensures removed.Some? ==>
        && removed.value != IndexOf(old(pieces), piece)
        && captured == old(pieces)[removed.value] && captured.color != piece.color
        && pieces == RemoveAt(old(pieces), removed.value) == Without(old(pieces), captured)
      ensures removed.None? ==> captured == null && pieces == old(pieces)
    {
      ghost var i := IndexOf(pieces, piece);
      ghost var before := View();
      ghost var me := before.pieces[i];
      captured := null;
      isEnPassant := false;
      removed := None;

      var capturedPiece := GetPieceAt(toPos);
      if capturedPiece != null {
        removed := FirstIndexAt(before.pieces, toPos);
        assert capturedPiece == pieces[removed.value];
        ValidMovesSafe(me, before, toPos);
        WithoutDistinct(pieces, removed.value);
        pieces := Without(pieces, capturedPiece);
        captured := capturedPiece;
      } else if piece.kind == Pawn {
        var deltaX := toPos.x - piece.position.x;
        var deltaY := toPos.y - piece.position.y;
        if Abs(deltaX) == 1 && Abs(deltaY) == 1 {
          var capturePos := Pos(piece.position.x + deltaX, piece.position.y);
          var enPassantPiece := GetPieceAt(capturePos);
          if enPassantPiece != null && enPassantPiece.kind == Pawn && enPassantPiece.color != piece.color {
            pieces := Without(pieces, enPassantPiece);
            captured := enPassantPiece;
            isEnPassant := true;
          }
        }
      }
      if me.kind == Pawn {
        PawnMovesForward(me, before, toPos);
      }
    }
  }
}
