/** The game: the globals of the page script (`boardSquaresArray`, `isWhiteTurn`, the two
    tracked king squares, the check-detection switch) and the event handlers that change
    them — the drag that computes a piece's candidates and the drop that plays a move. */
module Game {
  import opened Results
  import opened Board
  import opened Seqs
  import opened Moves
  import opened Attack
  import opened Filter
  import opened Mate

  /** A snapshot of the globals. `movesDisabled` stands for `disableAllMoves()` having made
      every piece undraggable. */
  datatype GameState = GameState(
    board: seq<Entry>,
    isWhiteTurn: bool,
    whiteKingSquare: Square,
    blackKingSquare: Square,
    checkDetectionEnabled: bool,
    movesDisabled: bool)

  ghost predicate ValidState(s: GameState) {
    WellFormed(s.board) && OnBoard(s.whiteKingSquare) && OnBoard(s.blackKingSquare)
  }

  function TurnColor(isWhiteTurn: bool): Color {
    if isWhiteTurn then White else Black
  }

  /** `isWhiteTurn ? whiteKingSquare : blackKingSquare`. */
  function KingSquare(s: GameState): Square {
    if s.isWhiteTurn then s.whiteKingSquare else s.blackKingSquare
  }

  /** The tracked squares hold the two kings. */
  ghost predicate KingsTracked(s: GameState)
    requires ValidState(s)
  {
    At(s.board, s.whiteKingSquare).pieceType == King && At(s.board, s.whiteKingSquare).pieceColor == White &&
    At(s.board, s.blackKingSquare).pieceType == King && At(s.board, s.blackKingSquare).pieceColor == Black
  }

  /** What a drop ends in. `Crashed`: the handler aborted with an exception, before it had
      changed anything. `Moved` carries the outcome of `checkForCheckmate`, `Ok(true)`
      being the checkmate announcement. */
  datatype DropOutcome =
    | Ignored
    | CheckAlert
    | KingBlocked
    | Crashed
    | Moved(checkmate: Result<bool>)
    | KingCaptured(winner: Color)

  // ---------------------------------------------------------------------------
  // The handlers as functions of the state
  // ---------------------------------------------------------------------------

  /** `drag`: `None` when the drag is blocked (a piece of the side not to move, or every
      piece made undraggable); otherwise the candidates sent along with the drag. */
  function DragStep(s: GameState, start: Square): Option<Result<seq<Square>>>
    requires ValidState(s) && OnBoard(start) && !IsBlank(At(s.board, start))
  {
    var piece := At(s.board, start);
    assert Consistent(PieceOf(s.board[IndexOf(start)]));
    if s.movesDisabled || piece.pieceColor != TurnColor(s.isWhiteTurn) then None
    else Some(PossibleMoves(s.board, start, piece))
  }

  /** `drop` of the piece on `start` onto `dest`, where `legalSquaresJson` is the candidate
      list the drag sent (`None` when it sent nothing). */
  function DropStep(s: GameState, start: Square, dest: Square, legalSquaresJson: Option<seq<Square>>)
    : (GameState, DropOutcome)
    requires ValidState(s) && OnBoard(start) && OnBoard(dest) && !IsBlank(At(s.board, start))
    requires legalSquaresJson.Some? ==> AllOnBoard(legalSquaresJson.value)
  {
    if legalSquaresJson.None? then (s, Ignored)
    else
      var piece := At(s.board, start);
      var squareContent := At(s.board, dest);
      if dest == start then (s, Ignored)
      else if squareContent.pieceColor == piece.pieceColor then (s, Ignored)
      else
        var legal :=
          if s.checkDetectionEnabled
          then Survivors(s.board, start, legalSquaresJson.value, piece.pieceColor, piece.pieceType, KingSquare(s))
          else Ok(legalSquaresJson.value);
        if legal.Throws? then (s, Crashed)
        else if s.checkDetectionEnabled && dest !in legal.value then (s, CheckAlert)
        else
          var kingMove := piece.pieceType == King && s.checkDetectionEnabled;
          var isCheck := if kingMove then Attacked(s.board, dest, piece.pieceColor) else Ok(false);
          if isCheck.Throws? then (s, Crashed)
          else if isCheck.value then (s, KingBlocked)
          else if dest !in legal.value then (Track(s, piece, dest), Ignored)
          else Land(Track(s, piece, dest), start, dest, squareContent, piece.pieceColor)
  }

  /** The king step of `drop`: with check detection on, the tracked square of the side to move
      follows its king. */
  function Track(s: GameState, piece: Piece, dest: Square): GameState {
    if piece.pieceType == King && s.checkDetectionEnabled then
      if s.isWhiteTurn then s.(whiteKingSquare := dest) else s.(blackKingSquare := dest)
    else s
  }

  /** The end of an accepted `drop`: the turn passes; capturing a king ends the game,
      anything else is played on the board and followed by the checkmate test. */
  function Land(t: GameState, start: Square, dest: Square, squareContent: Piece, pieceColor: Color)
    : (GameState, DropOutcome)
    requires ValidState(t) && OnBoard(start) && OnBoard(dest)
  {
    var flipped := t.(isWhiteTurn := !t.isWhiteTurn);
    if !IsBlank(squareContent) && squareContent.pieceType == King then
      (flipped.(movesDisabled := true), KingCaptured(pieceColor))
    else
      var after := flipped.(board := Apply(t.board, start, dest));
      (after, Moved(Checkmate(after.board, KingSquare(after), TurnColor(after.isWhiteTurn))))
  }

  /** A drop whose destination passes every test ends in `Land`. */
  lemma DropStepLands(s: GameState, start: Square, dest: Square, legalSquaresJson: Option<seq<Square>>,
                      legal: seq<Square>)
    requires ValidState(s) && OnBoard(start) && OnBoard(dest) && !IsBlank(At(s.board, start))
    requires legalSquaresJson.Some? && AllOnBoard(legalSquaresJson.value)
    requires dest != start && At(s.board, dest).pieceColor != At(s.board, start).pieceColor
    requires s.checkDetectionEnabled ==>
               Survivors(s.board, start, legalSquaresJson.value, At(s.board, start).pieceColor,
                         At(s.board, start).pieceType, KingSquare(s)) == Ok(legal)
    requires !s.checkDetectionEnabled ==> legal == legalSquaresJson.value
    requires At(s.board, start).pieceType == King && s.checkDetectionEnabled ==>
               Attacked(s.board, dest, At(s.board, start).pieceColor) == Ok(false)
    requires dest in legal
    ensures DropStep(s, start, dest, legalSquaresJson) ==
            Land(Track(s, At(s.board, start), dest), start, dest, At(s.board, dest), At(s.board, start).pieceColor)
  {
  }

  // ---------------------------------------------------------------------------
  // What a drag and a drop promise
  // ---------------------------------------------------------------------------

  /** A drag goes ahead exactly for a piece of the side to move while moves are enabled,
      and its candidates are board squares free of the mover's own pieces. */
  lemma DragMeaning(s: GameState, start: Square)
    requires ValidState(s) && OnBoard(start) && !IsBlank(At(s.board, start))
    ensures DragStep(s, start).Some? <==>
            !s.movesDisabled && At(s.board, start).pieceColor == TurnColor(s.isWhiteTurn)
    ensures DragStep(s, start).Some? && DragStep(s, start).value.Ok? ==>
            forall sq :: sq in DragStep(s, start).value.value ==>
              OnBoard(sq) && !Friendly(s.board, sq, At(s.board, start).pieceColor)
    ensures DragStep(s, start) == Some(Throws) ==> At(s.board, start).pieceType == Pawn
  {
  }

  /** The turn passes exactly when a move is played or a king is captured. */
  lemma DropTurn(s: GameState, start: Square, dest: Square, legalSquaresJson: Option<seq<Square>>)
    requires ValidState(s) && OnBoard(start) && OnBoard(dest) && !IsBlank(At(s.board, start))
    requires legalSquaresJson.Some? ==> AllOnBoard(legalSquaresJson.value)
    ensures var (s', outcome) := DropStep(s, start, dest, legalSquaresJson);
            s'.isWhiteTurn == (if outcome.Moved? || outcome.KingCaptured? then !s.isWhiteTurn else s.isWhiteTurn)
  {
  }

  /** A drop that is ignored, refused or aborted leaves every global as it was. */
  lemma DropRefusedUnchanged(s: GameState, start: Square, dest: Square, legalSquaresJson: Option<seq<Square>>)
    requires ValidState(s) && OnBoard(start) && OnBoard(dest) && !IsBlank(At(s.board, start))
    requires legalSquaresJson.Some? ==> AllOnBoard(legalSquaresJson.value)
    ensures var (s', outcome) := DropStep(s, start, dest, legalSquaresJson);
            outcome.Ignored? || outcome.CheckAlert? || outcome.KingBlocked? || outcome.Crashed? ==> s' == s
  {
  }

  /** A played move is one of the dragged candidates onto an empty or enemy square other than
      a king's; the board is then the move applied, and the checkmate test runs for the side
      now to move. */
  lemma DropMoved(s: GameState, start: Square, dest: Square, legalSquaresJson: Option<seq<Square>>)
    requires ValidState(s) && OnBoard(start) && OnBoard(dest) && !IsBlank(At(s.board, start))
    requires legalSquaresJson.Some? ==> AllOnBoard(legalSquaresJson.value)
    ensures var (s', outcome) := DropStep(s, start, dest, legalSquaresJson);
            outcome.Moved? ==>
              legalSquaresJson.Some? && dest in legalSquaresJson.value && dest != start &&
              !Friendly(s.board, dest, At(s.board, start).pieceColor) &&
              (IsBlank(At(s.board, dest)) || At(s.board, dest).pieceType != King) &&
              s'.board == Apply(s.board, start, dest) &&
              s'.checkDetectionEnabled == s.checkDetectionEnabled && s'.movesDisabled == s.movesDisabled &&
              ValidState(s') &&
              outcome.checkmate == Checkmate(s'.board, KingSquare(s'), TurnColor(s'.isWhiteTurn))
  {
    var (s', outcome) := DropStep(s, start, dest, legalSquaresJson);
    if outcome.Moved? && s.checkDetectionEnabled {
      var piece := At(s.board, start);
      SurvivorsMeaning(s.board, start, legalSquaresJson.value, piece.pieceColor, piece.pieceType, KingSquare(s));
    }
  }

  /** Capturing a king ends the game: the board is left as it was (the captured king is not
      removed from the records), every piece is made undraggable and the mover's side wins. */
  lemma DropKingCaptured(s: GameState, start: Square, dest: Square, legalSquaresJson: Option<seq<Square>>)
    requires ValidState(s) && OnBoard(start) && OnBoard(dest) && !IsBlank(At(s.board, start))
    requires legalSquaresJson.Some? ==> AllOnBoard(legalSquaresJson.value)
    ensures var (s', outcome) := DropStep(s, start, dest, legalSquaresJson);
            outcome.KingCaptured? ==>
              s'.board == s.board && s'.movesDisabled &&
              At(s.board, dest).pieceType == King &&
              At(s.board, dest).pieceColor != At(s.board, start).pieceColor &&
              outcome.winner == At(s.board, start).pieceColor
  {
  }

  /** A tracked king square changes only when check detection is on and the king of the side
      to move is dropped; it then becomes the destination. */
  lemma DropKingSquares(s: GameState, start: Square, dest: Square, legalSquaresJson: Option<seq<Square>>)
    requires ValidState(s) && OnBoard(start) && OnBoard(dest) && !IsBlank(At(s.board, start))
    requires legalSquaresJson.Some? ==> AllOnBoard(legalSquaresJson.value)
    ensures var (s', outcome) := DropStep(s, start, dest, legalSquaresJson);
            (s'.whiteKingSquare != s.whiteKingSquare ==>
               s.checkDetectionEnabled && s.isWhiteTurn && At(s.board, start).pieceType == King &&
               s'.whiteKingSquare == dest) &&
            (s'.blackKingSquare != s.blackKingSquare ==>
               s.checkDetectionEnabled && !s.isWhiteTurn && At(s.board, start).pieceType == King &&
               s'.blackKingSquare == dest)
  {
  }

  /** A drop that plays a move went through every test, the self-check filter included,
      and ended in `Land`. */
  lemma DropMovedLands(s: GameState, start: Square, dest: Square, legalSquaresJson: Option<seq<Square>>)
    requires ValidState(s) && OnBoard(start) && OnBoard(dest) && !IsBlank(At(s.board, start))
    requires legalSquaresJson.Some? ==> AllOnBoard(legalSquaresJson.value)
    ensures DropStep(s, start, dest, legalSquaresJson).1.Moved? ==>
              legalSquaresJson.Some? && dest != start &&
              (s.checkDetectionEnabled ==>
                 Survivors(s.board, start, legalSquaresJson.value, At(s.board, start).pieceColor,
                           At(s.board, start).pieceType, KingSquare(s)).Ok? &&
                 dest in Survivors(s.board, start, legalSquaresJson.value, At(s.board, start).pieceColor,
                                   At(s.board, start).pieceType, KingSquare(s)).value) &&
              (!s.checkDetectionEnabled ==> dest in legalSquaresJson.value) &&
              DropStep(s, start, dest, legalSquaresJson) ==
              Land(Track(s, At(s.board, start), dest), start, dest, At(s.board, dest), At(s.board, start).pieceColor)
  {
  }

  /** A move the filter let through, landed: the square guarded for the mover is not attacked
      on the new board. */
  lemma LandLeavesKingSafe(s: GameState, start: Square, dest: Square, piece: Piece, squareContent: Piece)
    requires ValidState(s) && OnBoard(start) && OnBoard(dest) && s.checkDetectionEnabled
    requires Exposes(s.board, start, dest, piece.pieceColor, piece.pieceType, KingSquare(s)) == Ok(false)
    ensures var (s', outcome) := Land(Track(s, piece, dest), start, dest, squareContent, piece.pieceColor);
            outcome.Moved? ==>
              Attacked(s'.board, if s.isWhiteTurn then s'.whiteKingSquare else s'.blackKingSquare,
                       piece.pieceColor) == Ok(false)
  {
  }

  /** With check detection on, a played move never leaves the square tracked for the mover's
      king under attack by the mover's opponent. */
  lemma DropLeavesKingSafe(s: GameState, start: Square, dest: Square, legalSquaresJson: Option<seq<Square>>)
    requires ValidState(s) && OnBoard(start) && OnBoard(dest) && !IsBlank(At(s.board, start))
    requires legalSquaresJson.Some? ==> AllOnBoard(legalSquaresJson.value)
    ensures var (s', outcome) := DropStep(s, start, dest, legalSquaresJson);
            s.checkDetectionEnabled && outcome.Moved? ==>
              Attacked(s'.board, if s.isWhiteTurn then s'.whiteKingSquare else s'.blackKingSquare,
                       At(s.board, start).pieceColor) == Ok(false)
  {
    DropMovedLands(s, start, dest, legalSquaresJson);
    if s.checkDetectionEnabled && DropStep(s, start, dest, legalSquaresJson).1.Moved? {
      var piece := At(s.board, start);
      SurvivorsMeaning(s.board, start, legalSquaresJson.value, piece.pieceColor, piece.pieceType, KingSquare(s));
      LandLeavesKingSafe(s, start, dest, piece, At(s.board, dest));
    }
  }

  /** A landed move of the side to move onto an empty or enemy square other than a king's
      keeps the tracked squares on the two kings. */
  lemma LandKeepsKingsTracked(s: GameState, start: Square, dest: Square)
    requires ValidState(s) && OnBoard(start) && OnBoard(dest) && s.checkDetectionEnabled
    requires KingsTracked(s) && dest != start
    requires At(s.board, start).pieceColor == TurnColor(s.isWhiteTurn)
    requires At(s.board, dest).pieceColor != At(s.board, start).pieceColor
    ensures var (s', outcome) := Land(Track(s, At(s.board, start), dest), start, dest, At(s.board, dest),
                                      At(s.board, start).pieceColor);
            ValidState(s') && (outcome.Moved? ==> KingsTracked(s'))
  {
    var piece, content := At(s.board, start), At(s.board, dest);
    var (s', outcome) := Land(Track(s, piece, dest), start, dest, content, piece.pieceColor);
    if outcome.Moved? {
      var b, b' := s.board, s'.board;
      assert b' == Apply(b, start, dest);
      if s.isWhiteTurn {
        assert start != s.blackKingSquare && dest != s.blackKingSquare;
        assert At(b', s.blackKingSquare) == At(b, s.blackKingSquare);
        if piece.pieceType == King {
          assert At(b', dest) == At(b, start);
        } else {
          assert start != s.whiteKingSquare && dest != s.whiteKingSquare;
          assert At(b', s.whiteKingSquare) == At(b, s.whiteKingSquare);
        }
      } else {
        assert start != s.whiteKingSquare && dest != s.whiteKingSquare;
        assert At(b', s.whiteKingSquare) == At(b, s.whiteKingSquare);
        if piece.pieceType == King {
          assert At(b', dest) == At(b, start);
        } else {
          assert start != s.blackKingSquare && dest != s.blackKingSquare;
          assert At(b', s.blackKingSquare) == At(b, s.blackKingSquare);
        }
      }
    }
  }

  /** With check detection on, a drop by the side to move keeps the tracked squares on the
      two kings, unless it captures a king and so ends the game. */
  lemma DropKeepsKingsTracked(s: GameState, start: Square, dest: Square, legalSquaresJson: Option<seq<Square>>)
    requires ValidState(s) && OnBoard(start) && OnBoard(dest) && !IsBlank(At(s.board, start))
    requires legalSquaresJson.Some? ==> AllOnBoard(legalSquaresJson.value)
    requires s.checkDetectionEnabled && At(s.board, start).pieceColor == TurnColor(s.isWhiteTurn)
    requires KingsTracked(s)
    ensures var (s', outcome) := DropStep(s, start, dest, legalSquaresJson);
            ValidState(s') && (outcome.KingCaptured? || KingsTracked(s'))
  {
    DropRefusedUnchanged(s, start, dest, legalSquaresJson);
    DropMovedLands(s, start, dest, legalSquaresJson);
    DropKingCaptured(s, start, dest, legalSquaresJson);
    if DropStep(s, start, dest, legalSquaresJson).1.Moved? {
      LandKeepsKingsTracked(s, start, dest);
    }
  }

  // ---------------------------------------------------------------------------
  // The page script's globals and handlers
  // ---------------------------------------------------------------------------

  class ChessGame {
    var board: array<Entry>
    var isWhiteTurn: bool
    var whiteKingSquare: Square
    var blackKingSquare: Square
    var checkDetectionEnabled: bool
    var movesDisabled: bool

    ghost predicate Valid()
      reads this, board
    {
      ValidState(State())
    }

    ghost function State(): GameState
      reads this, board
    {
      GameState(board[..], isWhiteTurn, whiteKingSquare, blackKingSquare, checkDetectionEnabled, movesDisabled)
    }

    /** The page load: `fillBoardSquaresArray` over the pieces found on the 64 squares, white
        to move, the kings tracked on `e1` and `e8`, check detection off. */
    constructor(placement: seq<Piece>)
      requires |placement| == 64 && forall i :: 0 <= i < 64 ==> Consistent(placement[i])
      ensures Valid() && fresh(board)
      ensures State() == GameState(Fill(placement), true, Square(4, 1), Square(4, 8), false, false)
    {
      board := new Entry[64](i requires 0 <= i < 64 =>
        Entry(SquareAt(i), placement[i].pieceColor, placement[i].pieceType, placement[i].pieceId));
      isWhiteTurn := true;
      whiteKingSquare := Square(4, 1);
      blackKingSquare := Square(4, 8);
      checkDetectionEnabled := false;
      movesDisabled := false;
      new;
      assert board[..] == Fill(placement);
    }

    /** The "checkBtn" click handler. */
    method ToggleCheckDetection()
      requires Valid()
      modifies this
      ensures Valid()
      ensures State() == old(State()).(checkDetectionEnabled := !old(checkDetectionEnabled))
    {
      checkDetectionEnabled := !checkDetectionEnabled;
    }

    /** `drag` of the piece on `start`. */
    method Drag(start: Square) returns (legalSquares: Option<Result<seq<Square>>>)
      requires Valid() && OnBoard(start) && !IsBlank(At(board[..], start))
      ensures legalSquares == DragStep(State(), start)
    {
      if movesDisabled {
        return None;
      }
      var piece := GetPieceAtSquare(board[..], start).value;
      if (isWhiteTurn && piece.pieceColor == White) || (!isWhiteTurn && piece.pieceColor == Black) {
        var moves := GetPossibleMoves(start, piece, board);
        return Some(moves);
      }
      return None;
    }

    /** The `forEach` callback of `isMoveValidAgainstCheck`: plays `startingSquareId` to
        `destinationId` on a fresh copy of the live board and asks whether the guarded square
        is then attacked. It changes nothing. */
    method TryCandidate(startingSquareId: Square, destinationId: Square, pieceColor: Color, pieceType: PieceType,
                        kingSquare: Square)
      returns (inCheck: Result<bool>)
      requires Valid() && OnBoard(startingSquareId) && OnBoard(destinationId) && OnBoard(kingSquare)
      ensures inCheck == Exposes(board[..], startingSquareId, destinationId, pieceColor, pieceType, kingSquare)
    {
      var boardSquaresArrayCopy := DeepCopyArray(board);
      UpdateBoardSquaresArray(startingSquareId, destinationId, boardSquaresArrayCopy);
      if pieceType != King {
        inCheck := IsKingInCheck(kingSquare, pieceColor, boardSquaresArrayCopy);
      } else {
        inCheck := IsKingInCheck(destinationId, pieceColor, boardSquaresArrayCopy);
      }
    }

    /** `isMoveValidAgainstCheck`: each candidate is played on a fresh copy of the live board
        and dropped, with all its copies, when the guarded square is then attacked. It
        changes nothing. */
    method IsMoveValidAgainstCheck(legalSquares: seq<Square>, startingSquareId: Square, pieceColor: Color,
                                   pieceType: PieceType)
      returns (r: Result<seq<Square>>)
      requires Valid() && OnBoard(startingSquareId) && AllOnBoard(legalSquares)
      ensures r == Survivors(board[..], startingSquareId, legalSquares, pieceColor, pieceType, if isWhiteTurn then whiteKingSquare else blackKingSquare)
    {
      ghost var b := board[..];
      var kingSquare := if isWhiteTurn then whiteKingSquare else blackKingSquare;
      var legalSquaresCopy := legalSquares;
      var kept := legalSquares;
      ghost var rejected: set<Square> := {};
      WithoutNothing(legalSquares);
      for i := 0 to |legalSquaresCopy|
        invariant Rejected(b, startingSquareId, legalSquares[..i], pieceColor, pieceType, kingSquare) == Ok(rejected)
        invariant kept == Without(legalSquares, rejected)
      {
        var destinationId := legalSquaresCopy[i];
        assert destinationId in legalSquares;
        var inCheck := TryCandidate(startingSquareId, destinationId, pieceColor, pieceType, kingSquare);
        RejectedNext(b, startingSquareId, legalSquares, i, pieceColor, pieceType, kingSquare, rejected, inCheck);
        if inCheck.Throws? {
          return Throws;
        }
        if inCheck.value {
          WithoutWithout(legalSquares, rejected, {destinationId});
          kept := Without(kept, {destinationId});
          rejected := rejected + {destinationId};
        }
      }
      assert legalSquares[..|legalSquares|] == legalSquares;
      r := Ok(kept);
    }

    /** Record `i` through the `filter` on colour and the `flatMap` callback of
        `getAllPossibleMoves`. It changes nothing. */
    method MovesOfRecord(squaresArray: array<Entry>, i: int, color: Color) returns (r: Result<seq<Square>>)
      requires Valid() && WellFormed(squaresArray[..]) && 0 <= i < 64
      ensures r == PieceMoves(squaresArray[..], board[..], color,
                              if isWhiteTurn then whiteKingSquare else blackKingSquare, i)
    {
      var square := squaresArray[i];
      if square.pieceColor != color {
        return Ok([]);
      }
      WellFormedAt(squaresArray[..], i);
      var piece := GetPieceAtSquare(squaresArray[..], square.squareId).value;
      if piece.pieceId == BLANK_ID {
        return Ok([]);
      }
      assert Consistent(PieceOf(squaresArray[i]));
      var squaresArrayCopy := DeepCopyArray(squaresArray);
      var legalSquares := GetPossibleMoves(square.squareId, piece, squaresArrayCopy);
      if legalSquares.Throws? {
        return Throws;
      }
      r := IsMoveValidAgainstCheck(legalSquares.value, square.squareId, piece.pieceColor, piece.pieceType);
    }

    /** `getAllPossibleMoves(squaresArray, color)`: the filtered candidates of every piece of
        colour `color` on `squaresArray`, in page order. It changes nothing. */
    method GetAllPossibleMoves(squaresArray: array<Entry>, color: Color) returns (r: Result<seq<Square>>)
      requires Valid() && WellFormed(squaresArray[..])
      ensures r == AllPossibleMoves(squaresArray[..], board[..], color,
                                    if isWhiteTurn then whiteKingSquare else blackKingSquare)
    {
      ghost var parts :=
        Contributions(squaresArray[..], board[..], color, if isWhiteTurn then whiteKingSquare else blackKingSquare);
      var moves: seq<Square> := [];
      for i := 0 to 64
        invariant Collect(parts[..i]) == Ok(moves)
      {
        CollectStep(parts, i);
        var mine := MovesOfRecord(squaresArray, i, color);
        if mine.Throws? {
          CollectPrefix(parts, i + 1);
          return Throws;
        }
        moves := moves + mine.value;
      }
      assert parts[..64] == parts;
      r := Ok(moves);
    }

    /** `checkForCheckmate`, with `highlightCheckedKing` dropped: whether checkmate is
        announced for the side to move. It changes nothing. */
    method CheckForCheckmate() returns (r: Result<bool>)
      requires Valid()
      ensures r == Checkmate(board[..], if isWhiteTurn then whiteKingSquare else blackKingSquare, TurnColor(isWhiteTurn))
    {
      var kingSquare := if isWhiteTurn then whiteKingSquare else blackKingSquare;
      var pieceColor := if isWhiteTurn then White else Black;
      var boardSquaresArrayCopy := DeepCopyArray(board);
      var kingIsCheck := IsKingInCheck(kingSquare, pieceColor, boardSquaresArrayCopy);
      if kingIsCheck.Throws? {
        return Throws;
      }
      if !kingIsCheck.value {
        return Ok(false);
      }
      var possibleMoves := GetAllPossibleMoves(boardSquaresArrayCopy, pieceColor);
      if possibleMoves.Throws? {
        return Throws;
      }
      if |possibleMoves.value| > 0 {
        return Ok(false);
      }
      return Ok(true);
    }

    /** The two closing branches of `drop`, for a destination that passed every test: the move
        onto an empty square, and the capture. */
    method LandDrop(start: Square, dest: Square, squareContent: Piece, pieceColor: Color) returns (outcome: DropOutcome)
      requires Valid() && OnBoard(start) && OnBoard(dest)
      modifies this, board
      ensures Valid()
      ensures (State(), outcome) == Land(old(State()), start, dest, squareContent, pieceColor)
    {
      if squareContent.pieceColor == BlankColor {
        isWhiteTurn := !isWhiteTurn;
        UpdateBoardSquaresArray(start, dest, board);
        var checkmate := CheckForCheckmate();
        return Moved(checkmate);
      }
      isWhiteTurn := !isWhiteTurn;
      if squareContent.pieceType == King {
        movesDisabled := true;
        return KingCaptured(pieceColor);
      }
      UpdateBoardSquaresArray(start, dest, board);
      var checkmate := CheckForCheckmate();
      return Moved(checkmate);
    }

    /** `drop` of the piece on `start` onto `dest`, with the candidate list the drag sent. */
    method Drop(start: Square, dest: Square, legalSquaresJson: Option<seq<Square>>) returns (outcome: DropOutcome)
      requires Valid() && OnBoard(start) && OnBoard(dest) && !IsBlank(At(board[..], start))
      requires legalSquaresJson.Some? ==> AllOnBoard(legalSquaresJson.value)
      modifies this, board
      ensures Valid()
      ensures (State(), outcome) == DropStep(old(State()), start, dest, legalSquaresJson)
    {
      ghost var s := State();
      if legalSquaresJson.None? {
        return Ignored;
      }
      var legalSquares := legalSquaresJson.value;
      var piece := GetPieceAtSquare(board[..], start).value;
      var pieceColor, pieceType := piece.pieceColor, piece.pieceType;
      var squareContent := GetPieceAtSquare(board[..], dest).value;
      if dest == start {
        return Ignored;
      }
      if squareContent.pieceColor == pieceColor {
        return Ignored;
      }
      if checkDetectionEnabled {
        var filtered := IsMoveValidAgainstCheck(legalSquares, start, pieceColor, pieceType);
        if filtered.Throws? {
          return Crashed;
        }
        legalSquares := filtered.value;
        if dest !in legalSquares {
          return CheckAlert;
        }
      }
      if pieceType == King && checkDetectionEnabled {
        var isCheck := IsKingInCheck(dest, pieceColor, board);
        if isCheck.Throws? {
          return Crashed;
        }
        if isCheck.value {
          return KingBlocked;
        }
        if isWhiteTurn {
          whiteKingSquare := dest;
        } else {
          blackKingSquare := dest;
        }
      }
      if dest !in legalSquares {
        return Ignored;
      }
      DropStepLands(s, start, dest, legalSquaresJson, legalSquares);
      assert State() == Track(s, piece, dest);
      outcome := LandDrop(start, dest, squareContent, pieceColor);
    }
  }
}
