/** What the move generators of Rules promise: ray blocking, the exact
    knight and king patterns, forward-only pawns, and that no generator
    offers a square held by the mover's own colour. */
module RulesFacts {
  import opened Position
  import opened Rules

  function Abs(n: int): nat
  {
    if n < 0 then -n else n
  }

  // ------------------------------------------------------------ walking

  lemma WalkNext(p: Pos, d: Offset, k: nat)
    ensures Walk(Shift(p, d), d, k) == Walk(p, d, k + 1)
    ensures Walk(p, d, 0) == p
  {
    assert (k + 1) * d.dx == k * d.dx + d.dx;
    assert (k + 1) * d.dy == k * d.dy + d.dy;
  }

  /** Along a direction no square is visited twice. */
  lemma WalkInjective(p: Pos, d: Offset, i: nat, j: nat)
    requires UnitDir(d)
    ensures Walk(p, d, i) == Walk(p, d, j) <==> i == j
  {
    if d.dx != 0 {
      assert d.dx == 1 || d.dx == -1;
    } else {
      assert d.dy == 1 || d.dy == -1;
    }
  }

  // ---------------------------------------------------------------- rays

  /** Every square of a ray is the i-th square along the direction, lies on
      the board, is empty or an enemy's, and all squares before it are
      empty: the scan never passes an occupied square. */
  lemma {:induction false} RayElements(me: PieceState, b: BoardView, p: Pos, d: Offset)
    requires UnitDir(d)
    ensures forall i :: 0 <= i < |Ray(me, b, p, d)| ==>
      && Ray(me, b, p, d)[i] == Walk(p, d, i)
      && InBounds(b, Walk(p, d, i))
      && Open(me, b, Walk(p, d, i))
      && (forall j :: 0 <= j < i ==> Empty(b, Walk(p, d, j)))
    decreases if InBounds(b, p) then Reach(b, p, d) else 0
  {
    var r := Ray(me, b, p, d);
    WalkNext(p, d, 0);
    if InBounds(b, p) && Occupant(b, p).None? {
      var q := Shift(p, d);
      RayElements(me, b, q, d);
      var rest := Ray(me, b, q, d);
      assert r == [p] + rest;
      forall i | 1 <= i < |r|
        ensures r[i] == Walk(p, d, i) && InBounds(b, Walk(p, d, i)) && Open(me, b, Walk(p, d, i))
        ensures forall j :: 0 <= j < i ==> Empty(b, Walk(p, d, j))
      {
        WalkNext(p, d, i - 1);
        assert r[i] == rest[i - 1];
        forall j | 0 <= j < i ensures Empty(b, Walk(p, d, j)) {
          if j > 0 {
            WalkNext(p, d, j - 1);
          }
        }
      }
    }
  }

  /** If the first k squares along the direction are on the board and
      empty, and the next one is on the board, the ray reaches that square
      exactly when a piece may land on it. */
  lemma {:induction false} RayComplete(me: PieceState, b: BoardView, p: Pos, d: Offset, k: nat)
    requires UnitDir(d)
    requires forall j :: 0 <= j < k ==> InBounds(b, Walk(p, d, j)) && Empty(b, Walk(p, d, j))
    requires InBounds(b, Walk(p, d, k))
    ensures k < |Ray(me, b, p, d)| <==> Open(me, b, Walk(p, d, k))
    decreases k
  {
    WalkNext(p, d, 0);
    if k > 0 {
      assert InBounds(b, Walk(p, d, 0)) && Empty(b, Walk(p, d, 0));
      var q := Shift(p, d);
      assert Ray(me, b, p, d) == [p] + Ray(me, b, q, d);
      forall j | 0 <= j < k - 1
        ensures InBounds(b, Walk(q, d, j)) && Empty(b, Walk(q, d, j))
      {
        WalkNext(p, d, j);
      }
      WalkNext(p, d, k - 1);
      RayComplete(me, b, q, d, k - 1);
    }
  }

  /** The ray-blocking rule: take the first occupied square along a
      direction (all squares before it on the board and empty). It is
      offered exactly when it holds an enemy, and no square beyond it is
      ever offered. */
  lemma RayStopsAtFirstBlocker(me: PieceState, b: BoardView, p: Pos, d: Offset, k: nat)
    requires UnitDir(d)
    requires forall j :: 0 <= j < k ==> InBounds(b, Walk(p, d, j)) && Empty(b, Walk(p, d, j))
    requires InBounds(b, Walk(p, d, k)) && !Empty(b, Walk(p, d, k))
    ensures Walk(p, d, k) in Ray(me, b, p, d) <==> Enemy(me, b, Walk(p, d, k))
    ensures forall m: nat :: m > k ==> Walk(p, d, m) !in Ray(me, b, p, d)
  {
    var r := Ray(me, b, p, d);
    RayElements(me, b, p, d);
    RayComplete(me, b, p, d, k);
    if Walk(p, d, k) in r {
      var i :| 0 <= i < |r| && r[i] == Walk(p, d, k);
      WalkInjective(p, d, i, k);
    }
    forall m: nat | m > k ensures Walk(p, d, m) !in r {
      if Walk(p, d, m) in r {
        var i :| 0 <= i < |r| && r[i] == Walk(p, d, m);
        WalkInjective(p, d, i, m);
        assert false;
      }
    }
  }

  /** A ray started one step away from the piece never returns its own
      square. */
  lemma RayAvoidsOrigin(me: PieceState, b: BoardView, d: Offset, q: Pos)
    requires UnitDir(d)
    requires q in Ray(me, b, Shift(me.pos, d), d)
    ensures q != me.pos && InBounds(b, q) && Open(me, b, q)
  {
    var r := Ray(me, b, Shift(me.pos, d), d);
    RayElements(me, b, Shift(me.pos, d), d);
    var i :| 0 <= i < |r| && r[i] == q;
    WalkNext(me.pos, d, i);
    WalkNext(me.pos, d, 0);
    WalkInjective(me.pos, d, i + 1, 0);
  }

  /** getLineMoves offers exactly the union of its rays. */
  lemma {:induction false} LineMovesMember(me: PieceState, b: BoardView, dirs: seq<Offset>, q: Pos)
    requires forall i :: 0 <= i < |dirs| ==> UnitDir(dirs[i])
    ensures q in LineMoves(me, b, dirs) <==>
      exists i :: 0 <= i < |dirs| && q in Ray(me, b, Shift(me.pos, dirs[i]), dirs[i])
    decreases |dirs|
  {
    if dirs != [] {
      var n := |dirs| - 1;
      var front := dirs[..n];
      LineMovesMember(me, b, front, q);
      if q in LineMoves(me, b, dirs) {
        if q in LineMoves(me, b, front) {
          var i :| 0 <= i < |front| && q in Ray(me, b, Shift(me.pos, front[i]), front[i]);
          assert dirs[i] == front[i];
        }
      } else {
        forall i | 0 <= i < |dirs|
          ensures q !in Ray(me, b, Shift(me.pos, dirs[i]), dirs[i])
        {
          if i < n {
            assert dirs[i] == front[i];
          }
        }
      }
    }
  }

  /** Squares from the sliding generator are on the board, not the piece's
      own square, and not held by its own colour. */
  lemma LineMovesSafe(me: PieceState, b: BoardView, dirs: seq<Offset>, q: Pos)
    requires forall i :: 0 <= i < |dirs| ==> UnitDir(dirs[i])
    requires q in LineMoves(me, b, dirs)
    ensures InBounds(b, q) && Open(me, b, q) && q != me.pos
  {
    LineMovesMember(me, b, dirs, q);
    var i :| 0 <= i < |dirs| && q in Ray(me, b, Shift(me.pos, dirs[i]), dirs[i]);
    RayAvoidsOrigin(me, b, dirs[i], q);
  }

  /** The queen's directions are the rook's followed by the bishop's. */
  lemma QueenIsRookAndBishop()
    ensures QueenDirs == RookDirs + BishopDirs
    ensures |RookDirs| == 4 && |BishopDirs| == 4
    ensures forall i :: 0 <= i < |RookDirs| ==> RookDirs[i].dx == 0 || RookDirs[i].dy == 0
    ensures forall i :: 0 <= i < |BishopDirs| ==> Abs(BishopDirs[i].dx) == 1 && Abs(BishopDirs[i].dy) == 1
    ensures forall i :: 0 <= i < |QueenDirs| ==> UnitDir(QueenDirs[i])
  {
  }

  // ------------------------------------------------------ knight and king

  /** The offset loop offers exactly the shifted squares that lie on the
      board and are empty or an enemy's, at most one per offset. */
  lemma {:induction false} OffsetMovesMember(me: PieceState, b: BoardView, offs: seq<Offset>, q: Pos)
    ensures |OffsetMoves(me, b, offs)| <= |offs|
    ensures q in OffsetMoves(me, b, offs) <==>
      exists i :: 0 <= i < |offs| && q == Shift(me.pos, offs[i]) && InBounds(b, q) && Open(me, b, q)
    decreases |offs|
  {
    if offs != [] {
      var n := |offs| - 1;
      var front := offs[..n];
      OffsetMovesMember(me, b, front, q);
      if q in OffsetMoves(me, b, offs) {
        if q in OffsetMoves(me, b, front) {
          var i :| 0 <= i < |front| && q == Shift(me.pos, front[i]) && InBounds(b, q) && Open(me, b, q);
          assert offs[i] == front[i];
        }
      } else {
        forall i | 0 <= i < |offs|
          ensures !(q == Shift(me.pos, offs[i]) && InBounds(b, q) && Open(me, b, q))
        {
          if i < n {
            assert offs[i] == front[i];
          }
        }
      }
    }
  }

  predicate KnightJump(o: Offset)
  {
    (Abs(o.dx) == 1 && Abs(o.dy) == 2) || (Abs(o.dx) == 2 && Abs(o.dy) == 1)
  }

  predicate KingStep(o: Offset)
  {
    Abs(o.dx) <= 1 && Abs(o.dy) <= 1 && o != Offset(0, 0)
  }

  /** The knight table is the L-shaped jumps, each once; the king table is
      the eight neighbours, each once. */
  lemma OffsetTablesExact(o: Offset)
    ensures o in KnightOffsets <==> KnightJump(o)
    ensures o in KingOffsets <==> KingStep(o)
    ensures |KnightOffsets| == 8 && |KingOffsets| == 8
    ensures forall i, j :: 0 <= i < j < 8 ==> KnightOffsets[i] != KnightOffsets[j] && KingOffsets[i] != KingOffsets[j]
  {
  }

  /** Knight moves: at most eight, and exactly the squares a knight's jump
      away that are on the board and empty or an enemy's. */
  lemma KnightMovesSpec(me: PieceState, b: BoardView, q: Pos)
    requires me.kind == Knight
    ensures |ValidMoves(me, b)| <= 8
    ensures q in ValidMoves(me, b) <==>
      KnightJump(Offset(q.x - me.pos.x, q.y - me.pos.y)) && InBounds(b, q) && Open(me, b, q)
  {
    var o := Offset(q.x - me.pos.x, q.y - me.pos.y);
    OffsetMovesMember(me, b, KnightOffsets, q);
    OffsetTablesExact(o);
    assert q == Shift(me.pos, o);
    if q in ValidMoves(me, b) {
      var i :| 0 <= i < 8 && q == Shift(me.pos, KnightOffsets[i]) && InBounds(b, q) && Open(me, b, q);
      assert KnightOffsets[i] == o;
    }
    if KnightJump(o) && InBounds(b, q) && Open(me, b, q) {
      var i :| 0 <= i < 8 && KnightOffsets[i] == o;
    }
  }

  /** King moves: at most eight, and exactly the neighbouring squares that
      are on the board and empty or an enemy's. */
  lemma KingMovesSpec(me: PieceState, b: BoardView, q: Pos)
    requires me.kind == King
    ensures |ValidMoves(me, b)| <= 8
    ensures q in ValidMoves(me, b) <==>
      KingStep(Offset(q.x - me.pos.x, q.y - me.pos.y)) && InBounds(b, q) && Open(me, b, q)
  {
    var o := Offset(q.x - me.pos.x, q.y - me.pos.y);
    OffsetMovesMember(me, b, KingOffsets, q);
    OffsetTablesExact(o);
    assert q == Shift(me.pos, o);
    if q in ValidMoves(me, b) {
      var i :| 0 <= i < 8 && q == Shift(me.pos, KingOffsets[i]) && InBounds(b, q) && Open(me, b, q);
      assert KingOffsets[i] == o;
    }
    if KingStep(o) && InBounds(b, q) && Open(me, b, q) {
      var i :| 0 <= i < 8 && KingOffsets[i] == o;
    }
  }

  // ---------------------------------------------------------------- pawn

  lemma {:induction false} CapturesMember(me: PieceState, b: BoardView, cs: seq<Pos>, q: Pos)
    ensures q in Captures(me, b, cs) <==> q in cs && InBounds(b, q) && Enemy(me, b, q)
    decreases |cs|
  {
    if cs != [] {
      var front := cs[..|cs| - 1];
      CapturesMember(me, b, front, q);
      assert cs == front + [cs[|cs| - 1]];
    }
  }

  /** Pawn moves, exactly: the single step onto an empty square on the
      board; the double step from the start row when the square in between
      and the target are empty; a forward diagonal held by an enemy. */
  lemma PawnMovesMember(me: PieceState, b: BoardView, q: Pos)
    requires me.kind == Pawn
    ensures q in ValidMoves(me, b) <==>
      || (q == OneForward(me) && InBounds(b, q) && Empty(b, q))
      || (&& q == TwoForward(me) && me.pos.y == StartRow(me.color)
          && InBounds(b, OneForward(me)) && Empty(b, OneForward(me)) && Empty(b, q))
      || (q in Diagonals(me) && InBounds(b, q) && Enemy(me, b, q))
  {
    CapturesMember(me, b, Diagonals(me), q);
    assert OneForward(me) != TwoForward(me);
  }

  /** Pawns only move forward: one row ahead, or two rows ahead straight
      from the start row; straight moves land on empty squares and
      diagonal ones on enemy pieces. */
  lemma PawnMovesForward(me: PieceState, b: BoardView, q: Pos)
    requires me.kind == Pawn
    requires q in ValidMoves(me, b)
    ensures q.y == me.pos.y + Forward(me.color)
      || (q.y == me.pos.y + 2 * Forward(me.color) && me.pos.y == StartRow(me.color) && q.x == me.pos.x)
    ensures q.x == me.pos.x ==> Empty(b, q) && Empty(b, OneForward(me))
    ensures q.x != me.pos.x ==> Abs(q.x - me.pos.x) == 1 && q.y == me.pos.y + Forward(me.color) && Enemy(me, b, q)
  {
    PawnMovesMember(me, b, q);
  }

  // ------------------------------------------------------------ all kinds

  /** No generator offers the piece's own square or a square held by its
      own colour. Every offered square is on the board, except that the
      pawn's double step is only known to be when the board has at least
      four rows. */
  lemma ValidMovesSafe(me: PieceState, b: BoardView, q: Pos)
    requires q in ValidMoves(me, b)
    ensures Open(me, b, q)
    ensures !(Occupant(b, q).Some? && Occupant(b, q).value.color == me.color)
    ensures q != me.pos
    ensures me.kind != Pawn || b.height >= 4 ==> InBounds(b, q)
  {
    QueenIsRookAndBishop();
    match me.kind
    case Pawn => PawnMovesMember(me, b, q);
    case Rook => LineMovesSafe(me, b, RookDirs, q);
    case Bishop => LineMovesSafe(me, b, BishopDirs, q);
    case Queen => LineMovesSafe(me, b, QueenDirs, q);
    case Knight => KnightMovesSpec(me, b, q);
    case King => KingMovesSpec(me, b, q);
  }

  /** Without a bounds test the double step can leave a board of three
      rows: a black pawn on row 1 of an otherwise empty 8x3 board is
      offered row 3. */
  lemma DoubleStepUncheckedOnShortBoard()
    ensures var me := PieceState(Pawn, Black, Pos(0, 1), false);
            var b := BoardView(8, 3, [me]);
            Pos(0, 3) in ValidMoves(me, b) && !InBounds(b, Pos(0, 3))
  {
    var me := PieceState(Pawn, Black, Pos(0, 1), false);
    var b := BoardView(8, 3, [me]);
    assert Empty(b, Pos(0, 2)) && Empty(b, Pos(0, 3));
    PawnMovesMember(me, b, Pos(0, 3));
  }
}
