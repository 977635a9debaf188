/** The movement rules of ChessPiece, stated as functions of a snapshot of
    the board. Each generator lists destinations in the order the source
    pushes them; the lemmas below say which squares those are. */
module Rules {
  import opened Wrappers
  import opened Position

  /** The six piece types ('peon', 'torre', 'alfil', 'caballo', 'reina',
      'rey') and any other type string, for which no move is generated. */
  datatype Kind = Pawn | Rook | Bishop | Knight | Queen | King | Unrecognized

  /** 'blanca' moves up the board (towards row 0), 'negra' moves down. */
  datatype Color = White | Black

  datatype PieceState = PieceState(kind: Kind, color: Color, pos: Pos, hasMoved: bool)

  /** What a generator may look at: the board size and the piece list. */
  datatype BoardView = BoardView(width: int, height: int, pieces: seq<PieceState>)

  /** A step or a direction, { x, y } in the source's tables. */
  datatype Offset = Offset(dx: int, dy: int)

  predicate InBounds(b: BoardView, p: Pos)
  {
    0 <= p.x < b.width && 0 <= p.y < b.height
  }

  /** Every piece on the board and no two on one square. */
  ghost predicate Placed(b: BoardView)
  {
    && (forall i :: 0 <= i < |b.pieces| ==> InBounds(b, b.pieces[i].pos))
    && (forall i, j :: 0 <= i < j < |b.pieces| ==> b.pieces[i].pos != b.pieces[j].pos)
  }

  /** Array.prototype.find on the piece list: the first piece standing on p. */
  function FirstIndexAt(ps: seq<PieceState>, p: Pos): (r: Option<nat>)
    ensures r.Some? ==> r.value < |ps| && ps[r.value].pos == p
    ensures r.Some? ==> forall j :: 0 <= j < r.value ==> ps[j].pos != p
    ensures r.None? <==> forall j :: 0 <= j < |ps| ==> ps[j].pos != p
  {
    if ps == [] then None
    else if ps[0].pos == p then Some(0)
    else match FirstIndexAt(ps[1..], p)
      case None => None
      case Some(k) => Some(k + 1)
  }

  /** getPieceAt on a snapshot. */
  function Occupant(b: BoardView, p: Pos): Option<PieceState>
  {
    match FirstIndexAt(b.pieces, p)
    case None => None
    case Some(k) => Some(b.pieces[k])
  }

  predicate Empty(b: BoardView, p: Pos)
  {
    Occupant(b, p).None?
  }

  predicate Enemy(me: PieceState, b: BoardView, p: Pos)
  {
    Occupant(b, p).Some? && Occupant(b, p).value.color != me.color
  }

  /** Empty or held by the other colour: a square a piece may land on. */
  predicate Open(me: PieceState, b: BoardView, p: Pos)
  {
    Empty(b, p) || Enemy(me, b, p)
  }

  function Shift(p: Pos, d: Offset): Pos
  {
    Pos(p.x + d.dx, p.y + d.dy)
  }

  /** The k-th square from p along d (k = 0 is p itself). */
  function Walk(p: Pos, d: Offset, k: nat): Pos
  {
    Pos(p.x + k * d.dx, p.y + k * d.dy)
  }

  // ---------------------------------------------------------------- pawn

  /** -1 for 'blanca' (up the board), +1 otherwise. */
  function Forward(c: Color): int
  {
    if c == White then -1 else 1
  }

  /** Hard-coded rows from which the double step is offered. */
  function StartRow(c: Color): int
  {
    if c == White then 6 else 1
  }

  function OneForward(me: PieceState): Pos
  {
    Pos(me.pos.x, me.pos.y + Forward(me.color))
  }

  function TwoForward(me: PieceState): Pos
  {
    Pos(me.pos.x, me.pos.y + 2 * Forward(me.color))
  }

  /** The two forward diagonals, left one first. */
  function Diagonals(me: PieceState): seq<Pos>
  {
    [Pos(me.pos.x - 1, me.pos.y + Forward(me.color)), Pos(me.pos.x + 1, me.pos.y + Forward(me.color))]
  }

  /** Single and double step. The double step is offered from the start row
      when the square in between is empty; its own square is tested for a
      piece but never for bounds. */
  function Advances(me: PieceState, b: BoardView): seq<Pos>
  {
    if InBounds(b, OneForward(me)) && Empty(b, OneForward(me)) then
      [OneForward(me)]
      + (if me.pos.y == StartRow(me.color) && Empty(b, TwoForward(me)) then [TwoForward(me)] else [])
    else []
  }

  /** The capture loop over a list of candidate squares. */
  function Captures(me: PieceState, b: BoardView, cs: seq<Pos>): seq<Pos>
    decreases |cs|
  {
    if cs == [] then []
    else
      var last := cs[|cs| - 1];
      Captures(me, b, cs[..|cs| - 1]) + (if InBounds(b, last) && Enemy(me, b, last) then [last] else [])
  }

  function PawnMoves(me: PieceState, b: BoardView): seq<Pos>
  {
    Advances(me, b) + Captures(me, b, Diagonals(me))
  }

  // ------------------------------------------------------- sliding pieces

  predicate UnitDir(d: Offset)
  {
    -1 <= d.dx <= 1 && -1 <= d.dy <= 1 && d != Offset(0, 0)
  }

  const RookDirs: seq<Offset> := [Offset(0, -1), Offset(0, 1), Offset(-1, 0), Offset(1, 0)]
  const BishopDirs: seq<Offset> := [Offset(1, 1), Offset(1, -1), Offset(-1, 1), Offset(-1, -1)]
  const QueenDirs: seq<Offset> :=
    [Offset(0, -1), Offset(0, 1), Offset(-1, 0), Offset(1, 0),
     Offset(1, 1), Offset(1, -1), Offset(-1, 1), Offset(-1, -1)]

  /** How many squares remain from p to the edge of the board along d. */
  function Reach(b: BoardView, p: Pos, d: Offset): int
  {
    (if d.dx > 0 then b.width - p.x else if d.dx < 0 then p.x + 1 else 0)
    + (if d.dy > 0 then b.height - p.y else if d.dy < 0 then p.y + 1 else 0)
  }

  /** The inner while loop of getLineMoves, started at square p: empty
      squares are taken and the scan goes on; the first occupied square is
      taken when it holds an enemy, and the scan stops there. */
  function Ray(me: PieceState, b: BoardView, p: Pos, d: Offset): seq<Pos>
    requires UnitDir(d)
    decreases if InBounds(b, p) then Reach(b, p, d) else 0
  {
    if !InBounds(b, p) then []
    else match Occupant(b, p)
      case None => [p] + Ray(me, b, Shift(p, d), d)
      case Some(t) => if t.color != me.color then [p] else []
  }

  /** getLineMoves: the rays of the directions, in the order given. */
  function LineMoves(me: PieceState, b: BoardView, dirs: seq<Offset>): seq<Pos>
    requires forall i :: 0 <= i < |dirs| ==> UnitDir(dirs[i])
    decreases |dirs|
  {
    if dirs == [] then []
    else
      var d := dirs[|dirs| - 1];
      LineMoves(me, b, dirs[..|dirs| - 1]) + Ray(me, b, Shift(me.pos, d), d)
  }

  // --------------------------------------------------------- knight, king

  const KnightOffsets: seq<Offset> :=
    [Offset(1, 2), Offset(1, -2), Offset(-1, 2), Offset(-1, -2),
     Offset(2, 1), Offset(2, -1), Offset(-2, 1), Offset(-2, -1)]

  const KingOffsets: seq<Offset> :=
    [Offset(-1, -1), Offset(0, -1), Offset(1, -1),
     Offset(-1, 0), Offset(1, 0),
     Offset(-1, 1), Offset(0, 1), Offset(1, 1)]

  /** The offset loop of getKnightMoves and getKingMoves. */
  function OffsetMoves(me: PieceState, b: BoardView, offs: seq<Offset>): seq<Pos>
    decreases |offs|
  {
    if offs == [] then []
    else
      var q := Shift(me.pos, offs[|offs| - 1]);
      OffsetMoves(me, b, offs[..|offs| - 1]) + (if InBounds(b, q) && Open(me, b, q) then [q] else [])
  }

  // ------------------------------------------------------------ dispatch

  /** getValidMoves: dispatch on the piece type. */
  function ValidMoves(me: PieceState, b: BoardView): seq<Pos>
  {
    match me.kind
    case Pawn => PawnMoves(me, b)
    case Rook => LineMoves(me, b, RookDirs)
    case Bishop => LineMoves(me, b, BishopDirs)
    case Knight => OffsetMoves(me, b, KnightOffsets)
    case Queen => LineMoves(me, b, QueenDirs)
    case King => OffsetMoves(me, b, KingOffsets)
    case Unrecognized => []
  }
}
