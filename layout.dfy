/** The starting position that ChessBoard.initializeBoard lays out, in the
    order its addPiece calls append the pieces: the black back rank on
    row 0, black pawns on row 1, white pawns on row 6, the white back rank
    on row 7. */
module Layout {
  import opened Position
  import opened Rules

  const BackRankOrder: seq<Kind> := [Rook, Knight, Bishop, Queen, King, Bishop, Knight, Rook]

  function BackRank(c: Color, row: int): seq<PieceState>
  {
    seq(8, i requires 0 <= i < 8 => PieceState(BackRankOrder[i], c, Pos(i, row), false))
  }

  function PawnRank(c: Color, row: int): seq<PieceState>
  {
    seq(8, i requires 0 <= i < 8 => PieceState(Pawn, c, Pos(i, row), false))
  }

  function Initial(): seq<PieceState>
  {
    BackRank(Black, 0) + PawnRank(Black, 1) + PawnRank(White, 6) + BackRank(White, 7)
  }

  /** Appending the piece on column i extends the back rank laid so far. */
  lemma BackRankSnoc(s: seq<PieceState>, c: Color, row: int, i: nat)
    requires i < 8
    ensures s + BackRank(c, row)[..i] + [PieceState(BackRankOrder[i], c, Pos(i, row), false)] == s + BackRank(c, row)[..i + 1]
  {
    assert BackRank(c, row)[..i + 1] == BackRank(c, row)[..i] + [BackRank(c, row)[i]];
  }

  /** Appending the pawn on column i extends the pawn rank laid so far. */
  lemma PawnRankSnoc(s: seq<PieceState>, c: Color, row: int, i: nat)
    requires i < 8
    ensures s + PawnRank(c, row)[..i] + [PieceState(Pawn, c, Pos(i, row), false)] == s + PawnRank(c, row)[..i + 1]
  {
    assert PawnRank(c, row)[..i + 1] == PawnRank(c, row)[..i] + [PawnRank(c, row)[i]];
  }

  function CountColor(ps: seq<PieceState>, c: Color): nat
  {
    if ps == [] then 0
    else CountColor(ps[..|ps| - 1], c) + (if ps[|ps| - 1].color == c then 1 else 0)
  }

  lemma {:induction false} CountColorAppend(a: seq<PieceState>, b: seq<PieceState>, c: Color)
    ensures CountColor(a + b, c) == CountColor(a, c) + CountColor(b, c)
    decreases |b|
  {
    if b != [] {
      var b' := b[..|b| - 1];
      assert (a + b)[..|a + b| - 1] == a + b';
      CountColorAppend(a, b', c);
    } else {
      assert a + b == a;
    }
  }

  /** A rank of eight pieces of one colour counts eight for that colour and
      none for the other. */
  lemma {:induction false} CountColorUniform(ps: seq<PieceState>, c: Color)
    requires forall i :: 0 <= i < |ps| ==> ps[i].color == c
    ensures CountColor(ps, c) == |ps|
    ensures CountColor(ps, if c == White then Black else White) == 0
    decreases |ps|
  {
    if ps != [] {
      CountColorUniform(ps[..|ps| - 1], c);
    }
  }

  /** Thirty-two unmoved pieces: black on rows 0 and 1, white on rows 6 and
      7, the back ranks reading rook, knight, bishop, queen, king, bishop,
      knight, rook from column 0, and a pawn on every column of rows 1
      and 6. */
  lemma InitialLayout()
    ensures |Initial()| == 32
    ensures forall i :: 0 <= i < 32 ==> !Initial()[i].hasMoved
    ensures forall i :: 0 <= i < 16 ==> Initial()[i].color == Black && 0 <= Initial()[i].pos.y <= 1
    ensures forall i :: 16 <= i < 32 ==> Initial()[i].color == White && 6 <= Initial()[i].pos.y <= 7
    ensures forall i :: 0 <= i < 8 ==>
      && Initial()[i] == PieceState(BackRankOrder[i], Black, Pos(i, 0), false)
      && Initial()[8 + i] == PieceState(Pawn, Black, Pos(i, 1), false)
      && Initial()[16 + i] == PieceState(Pawn, White, Pos(i, 6), false)
      && Initial()[24 + i] == PieceState(BackRankOrder[i], White, Pos(i, 7), false)
  {
  }

  /** Sixteen pieces of each colour. */
  lemma InitialColorCounts()
    ensures CountColor(Initial(), White) == 16
    ensures CountColor(Initial(), Black) == 16
  {
    var br0, pr1, pr6, br7 := BackRank(Black, 0), PawnRank(Black, 1), PawnRank(White, 6), BackRank(White, 7);
    CountColorUniform(br0, Black);
    CountColorUniform(pr1, Black);
    CountColorUniform(pr6, White);
    CountColorUniform(br7, White);
    CountColorAppend(br0, pr1, White);
    CountColorAppend(br0, pr1, Black);
    CountColorAppend(br0 + pr1, pr6, White);
    CountColorAppend(br0 + pr1, pr6, Black);
    CountColorAppend(br0 + pr1 + pr6, br7, White);
    CountColorAppend(br0 + pr1 + pr6, br7, Black);
  }

  /** The square of the k-th piece laid out. */
  function InitialSquare(k: int): Pos
  {
    if k < 8 then Pos(k, 0)
    else if k < 16 then Pos(k - 8, 1)
    else if k < 24 then Pos(k - 16, 6)
    else Pos(k - 24, 7)
  }

  lemma InitialSquares()
    ensures forall k :: 0 <= k < 32 ==> Initial()[k].pos == InitialSquare(k)
  {
    InitialLayout();
    forall k | 0 <= k < 32 ensures Initial()[k].pos == InitialSquare(k) {
      if k < 8 {
        assert Initial()[0 + k] == Initial()[k];
      } else if k < 16 {
        assert Initial()[8 + (k - 8)] == Initial()[k];
      } else if k < 24 {
        assert Initial()[16 + (k - 16)] == Initial()[k];
      } else {
        assert Initial()[24 + (k - 24)] == Initial()[k];
      }
    }
  }

  /** On a board of at least 8x8 every starting piece is on the board and
      no two share a square. */
  lemma InitialPlaced(width: int, height: int)
    requires width >= 8 && height >= 8
    ensures Placed(BoardView(width, height, Initial()))
  {
    InitialSquares();
    assert |Initial()| == 32;
    forall i, j | 0 <= i < j < 32 ensures InitialSquare(i) != InitialSquare(j) {
    }
  }
}
