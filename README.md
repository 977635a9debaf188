# Chess rule engine — Dafny model

This project models the rule engine of a browser chess game, `js/physics-engine.js`:

- `ChessPosition`: squares, their equality and their algebraic names.
- `ChessPiece`: the move generators of the six piece types.
- `ChessBoard`: bounds checking, lookup by square, the starting layout and `movePiece`.

The model keeps the source's form:

- `Chess.Piece` and `Chess.Board` are classes whose fields the methods update in place: a piece's square and moved flag, and the board's piece list.
- Every generator loop is a `method` with its loop. It is proved equal to a pure specification function in `Rules` over a value snapshot of the board (`Rules.BoardView`).
- `RulesFacts`, `Layout` and `MoveSpec` prove what those specification functions mean:
  - rays stop at the first blocker;
  - the knight and king patterns are exact;
  - pawns move forward only;
  - no generator offers a square held by the mover's own colour;
  - the starting layout is the standard one;
  - a move captures only the piece on its destination.

Modules:

- `Wrappers`: `Option`.
- `Position`: squares (`Pos`), `equals`, `fromNotation` and `toNotation`. Strings are sequences of UTF-16 code units, so `String.fromCharCode` wraps modulo 2^16 exactly as in JavaScript.
- `Rules`: piece states, the board snapshot, `find` on the piece list and the generator specifications.
- `RulesFacts`: lemmas about the generators.
- `Layout`: the starting position and its properties.
- `MoveSpec`: `movePiece` on snapshots, including its en-passant branch.
- `Chess`: the classes `Piece` and `Board`.

Two observations about the code:

1. **En passant is never performed.** The en-passant branch of `movePiece` (lines 311-326) is only reached when the destination is empty. A pawn's generator (lines 61-96), however, offers a diagonal square only when an enemy stands on it. `movePiece` rejects every destination its generator does not offer. So the branch never fires: a pawn on d5 cannot move to an empty e6 even with an enemy pawn on e5. The model keeps the branch as written (`MoveSpec.Apply`, `Chess.Board.TakeCaptured`) and proves it dead (`MoveSpec.EnPassantUnreachable`). Every `isEnPassant` returned is `false`.
2. **The double step has no bounds test.** The double step (lines 72-76) checks that the target square is empty but not that it is on the board. On a board at least four rows high the step always stays on the board. On a shorter board it can leave it (`RulesFacts.DoubleStepUncheckedOnShortBoard`).

## Model

| member | source | states |
|---|---|---|
| Position.Equals | js/physics-engine.js:12-14 | equals holds exactly when both coordinates agree, that is, when the squares are the same value |
| Position.FromCharCode | js/physics-engine.js:27 | String.fromCharCode reduces its argument modulo 2^16 and is the identity on 0..65535 |
| Position.FromNotation | js/physics-engine.js:20-24 | fromNotation yields a square exactly when the string has at least two units and the second is a digit (parseInt of one unit is NaN otherwise); the square is (code(s[0]) - 97, 8 - digit) and only the first two units are read |
| Position.ToNotation | js/physics-engine.js:26-30 | toNotation is at least two units long and starts with fromCharCode(x + 97); on a nameable square it is exactly the column letter followed by the single digit 8 - y, so column 0 is 'a' and row 0 is rank '8' |
| Position.NotationRoundTrip | js/physics-engine.js:20-30 | fromNotation(toNotation(p)) == p holds if and only if p's column letter does not wrap past U+FFFF and its rank number 8 - y is a single digit |
| Position.BoardSquareRoundTrip | js/physics-engine.js:20-30 | every square of the 8x8 board survives toNotation then fromNotation, compared with equals |
| Position.NameRoundTrip | js/physics-engine.js:20-30 | every name "a1".."h8" parses to a square of the 8x8 board whose toNotation is the same name |
| Rules.FirstIndexAt | js/physics-engine.js:238-240 | the find used by getPieceAt returns the first index whose piece stands on the square, and none exactly when no piece does |
| RulesFacts.WalkInjective | js/physics-engine.js:138-160 | a line walk in a unit direction never visits a square twice |
| RulesFacts.RayElements | js/physics-engine.js:142-160 | every square a line walk offers is the i-th step along the direction, on the board, empty or an enemy's, and every step before it is empty |
| RulesFacts.RayComplete | js/physics-engine.js:142-160 | after k empty on-board steps, the next on-board step is offered exactly when it is empty or holds an enemy |
| RulesFacts.RayStopsAtFirstBlocker | js/physics-engine.js:142-160 | the first occupied square along a direction is offered if and only if it holds an enemy, and no square beyond it is ever offered |
| RulesFacts.RayAvoidsOrigin | js/physics-engine.js:139-142 | a line walk, which starts one step away from the piece, never offers the piece's own square |
| RulesFacts.LineMovesMember | js/physics-engine.js:135-164 | getLineMoves offers exactly the squares on the rays of its directions |
| RulesFacts.LineMovesSafe | js/physics-engine.js:135-164 | a sliding move is on the board, not the piece's own square, and empty or an enemy's |
| RulesFacts.QueenIsRookAndBishop | js/physics-engine.js:99-132 | the queen's eight directions are the rook's four orthogonal ones followed by the bishop's four diagonal ones, all unit steps |
| RulesFacts.OffsetMovesMember | js/physics-engine.js:177-191 | the offset loop offers at most one square per offset: exactly the shifted squares that are on the board and empty or an enemy's |
| RulesFacts.OffsetTablesExact | js/physics-engine.js:168-200 | the knight table holds each of the eight L-shaped jumps once, and the king table holds each of the eight neighbouring steps once |
| RulesFacts.KnightMovesSpec | js/physics-engine.js:167-192 | a knight gets at most 8 moves, exactly the squares a knight's jump away that are on the board and empty or an enemy's |
| RulesFacts.KingMovesSpec | js/physics-engine.js:195-219 | a king gets at most 8 moves, exactly the neighbouring squares that are on the board and empty or an enemy's |
| RulesFacts.CapturesMember | js/physics-engine.js:86-93 | the pawn's capture loop offers exactly the candidate diagonals that are on the board and hold an enemy |
| RulesFacts.PawnMovesMember | js/physics-engine.js:61-96 | a pawn is offered exactly: the empty on-board square ahead; from its start row, the square two ahead when both are empty; a forward diagonal held by an enemy |
| RulesFacts.PawnMovesForward | js/physics-engine.js:61-96 | a pawn never moves backwards or sideways: straight moves land on empty squares, and diagonal ones are one column aside, one row forward, onto an enemy |
| RulesFacts.ValidMovesSafe | js/physics-engine.js:41-219 | no generator offers the piece's own square or one held by its own colour, and every move is on the board, for pawns once the board has four rows |
| RulesFacts.DoubleStepUncheckedOnShortBoard | js/physics-engine.js:72-76 | on an 8x3 board a black pawn on its start row is offered row 3, which is off the board |
| Layout.InitialLayout | js/physics-engine.js:242-276 | initializeBoard lays out 32 unmoved pieces: 16 black on rows 0-1 and 16 white on rows 6-7. Each back rank is rook, knight, bishop, queen, king, bishop, knight, rook on columns 0-7, and each pawn rank has eight pawns |
| Layout.InitialColorCounts | js/physics-engine.js:242-276 | the starting position has 16 white and 16 black pieces |
| Layout.InitialSquares | js/physics-engine.js:245-275 | the k-th piece added stands on column k mod 8 of rows 0, 1, 6 and 7 in turn |
| Layout.InitialPlaced | js/physics-engine.js:242-276 | on a board of at least 8x8 every starting piece is on the board and no two share a square |
| MoveSpec.RemoveAt | js/physics-engine.js:309 | filtering one piece out of the list keeps the others in order |
| MoveSpec.Apply | js/physics-engine.js:288-337 | movePiece on a snapshot fails exactly when the destination is not among the piece's generated moves |
| MoveSpec.EnPassantUnreachable | js/physics-engine.js:311-326 | the en-passant branch never fires on a move that succeeds |
| MoveSpec.ApplyIsOrdinary | js/physics-engine.js:306-330 | a successful move captures whatever stands on the destination and otherwise nothing, then relocates the mover |
| MoveSpec.ApplyEffect | js/physics-engine.js:288-337 | a successful move removes exactly the first piece on the destination, always an enemy and never the mover. Every other piece stays, the mover is relocated with its moved flag set, and the list shrinks by one exactly on a capture |
| MoveSpec.OrdinaryEffect | js/physics-engine.js:306-330 | the capture-then-relocate step has the same effect when the destination is open and not the mover's own square |
| MoveSpec.ApplyKeepsPlaced | js/physics-engine.js:288-337 | on a board of at least four rows, a successful move keeps every piece on the board and no two on one square |
| MoveSpec.OrdinaryKeepsPlaced | js/physics-engine.js:306-330 | the capture-then-relocate step to an on-board square keeps every piece on the board and no two on one square |
| Chess.SomeEquals | js/physics-engine.js:293 | validMoves.some(m => m.equals(toPos)) holds exactly when toPos is among the moves |
| Chess.Without | js/physics-engine.js:309 | filter(p => p !== captured) keeps exactly the other piece objects |
| Chess.WithoutDistinct | js/physics-engine.js:309 | in a list without repeats, filtering out the object at index c is removing index c |
| Chess.WithoutAbsent | js/physics-engine.js:309 | filtering out an object that is not listed changes nothing |
| Chess.MovedStates | js/physics-engine.js:306-330 | after the filter and the relocation, the list has no repeats and its states are the old ones with the mover relocated and the captured index removed |
| Chess.Piece.constructor | js/physics-engine.js:34-39 | a new piece has the given type, colour and square and has not moved |
| Chess.Piece.GetValidMoves | js/physics-engine.js:41-58 | getValidMoves returns the generator of the piece's type, and no moves for an unknown type |
| Chess.Piece.GetPawnMoves | js/physics-engine.js:61-96 | getPawnMoves returns the advances followed by the captures, as characterised by RulesFacts.PawnMovesMember |
| Chess.Piece.PushCaptures | js/physics-engine.js:86-93 | the capture loop appends, in order, the candidates that are on the board and hold an enemy |
| Chess.Piece.GetRookMoves | js/physics-engine.js:99-108 | getRookMoves is the line walk over the four orthogonal directions |
| Chess.Piece.GetBishopMoves | js/physics-engine.js:111-120 | getBishopMoves is the line walk over the four diagonal directions |
| Chess.Piece.GetQueenMoves | js/physics-engine.js:123-132 | getQueenMoves is the line walk over the eight directions |
| Chess.Piece.GetLineMoves | js/physics-engine.js:135-164 | the nested loop returns the concatenation of the rays of the directions, as characterised by RulesFacts.RayStopsAtFirstBlocker |
| Chess.Piece.GetKnightMoves | js/physics-engine.js:167-192 | the offset loop over the knight table returns the knight's moves, as characterised by RulesFacts.KnightMovesSpec |
| Chess.Piece.GetKingMoves | js/physics-engine.js:195-219 | the offset loop over the king table returns the king's moves, as characterised by RulesFacts.KingMovesSpec |
| Chess.Board.constructor | js/physics-engine.js:223-232 | a new board of at least 8x8 holds the standard starting position, made of newly created pieces, and satisfies the board invariant |
| Chess.Board.IsWithinBounds | js/physics-engine.js:234-236 | a square is within bounds exactly when 0 <= x < width and 0 <= y < height |
| Chess.Board.GetPieceAt | js/physics-engine.js:238-240 | getPieceAt is null exactly when the square is empty; otherwise it is a listed piece, the first one standing on the square |
| Chess.Board.AddPiece | js/physics-engine.js:278-281 | addPiece appends one new unmoved piece with the given type, colour and square, and keeps the list free of repeats |
| Chess.Board.InitializeBoard | js/physics-engine.js:242-276 | initializeBoard replaces the list with the standard starting position, made of newly created pieces, and establishes the board invariant |
| Chess.Board.AddPawnRank | js/physics-engine.js:257-264 | the pawn loop appends eight newly created unmoved pawns of one colour on columns 0-7 of one row, after the old pieces, which keep their places |
| Chess.Board.AddBackRank | js/physics-engine.js:247-254 | the eight addPiece calls append newly created pieces after the old ones, which keep their places: rook, knight, bishop, queen, king, bishop, knight, rook on columns 0-7 of one row |
| Chess.Board.MovePiece | js/physics-engine.js:288-337 | movePiece rejects exactly the destinations the piece's generator does not offer, and then nothing changes. Otherwise the piece moves and is marked moved, the piece found on the destination is filtered out, the move information records it with isEnPassant false, the new list is the one MoveSpec.Apply describes, and the board invariant is kept |
| Chess.Board.TakeCaptured | js/physics-engine.js:306-326 | the capture step removes the piece found on the destination (an enemy, never the mover) and nothing else. The en-passant branch is run but takes nothing |

## Left out

- `ChessPosition.toString`, `ChessBoard.selectPiece`, `getAllPieces`, `getPieceInfo` and the `window` export are not modelled. They are display helpers with no rule logic.
- The `selectedPiece` and `validMoves` fields and the cell size are not modelled. They only record what the view layer shows and are cleared by `movePiece`. `js/simulator.js` and the rendering code are not part of this model.
- Chess.Board.constructor: requires a board of at least 8x8. The source accepts any width and height (default 8x8), but `initializeBoard` writes columns and rows 0-7, so a smaller board would hold pieces off the board.
- Chess.Board.AddBackRank: the eight `addPiece` calls are made by a loop over the back-rank order rather than written out. They are the same calls in the same order.
- Chess.Board.MovePiece: requires the piece to be on this board, as every caller's piece is. It does not model a piece from another board.
- Chess.Board.TakeCaptured: the pawn capture loop and the capture step of `movePiece` are separate methods (`Chess.Piece.PushCaptures` and this one). They contain the same code in the same order.
- MoveSpec.ApplyKeepsPlaced: requires a board at least four rows high, because the unchecked double step can leave a shorter board.
- Position.FromNotation: a NaN coordinate (a string shorter than two units, or a non-digit second unit) is modelled as None, since a NaN square equals no square.
- Integers are unbounded. JavaScript numbers are doubles, so coordinates beyond 2^53 are not modelled. Coordinates on a board never come close.
- Positions are modelled as values. `movePiece` stores the caller's `toPos` object in the piece, so later mutation of that object by the caller would move the piece. The source never mutates a position, and the model does not capture that aliasing.
