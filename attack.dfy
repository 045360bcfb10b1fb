/** Attack detection (`isKingInCheck`): a hypothetical piece of the defender's colour is put
    on the square, the rook, bishop, pawn-capture, knight and king generators are rerun from
    there, and each scan looks for an enemy piece of the kind that moves that way. */
module Attack {
  import opened Results
  import opened Board
  import opened Moves

  const ROOK_ATTACKERS: set<PieceType> := {Rook, Queen}
  const BISHOP_ATTACKERS: set<PieceType> := {Bishop, Queen}
  const PAWN_ATTACKERS: set<PieceType> := {Pawn}
  const KNIGHT_ATTACKERS: set<PieceType> := {Knight}
  const KING_ATTACKERS: set<PieceType> := {King}

  /** A board square holding a piece of one of `kinds` whose colour differs from `c`. */
  predicate Threatens(b: seq<Entry>, sq: Square, kinds: set<PieceType>, c: Color)
    requires WellFormed(b)
  {
    OnBoard(sq) && At(b, sq).pieceType in kinds && At(b, sq).pieceColor != c
  }

  /** What one scan of `isKingInCheck` looks for among a generator's squares. */
  predicate HasAttacker(b: seq<Entry>, squares: seq<Square>, kinds: set<PieceType>, c: Color)
    requires WellFormed(b)
  {
    exists sq :: sq in squares && Threatens(b, sq, kinds, c)
  }

  /** `isKingInCheck(sq, c, b)`, scan by scan and in the source's order. Only the pawn
      scan can throw, and only when no rook or bishop scan has already answered. */
  function Attacked(b: seq<Entry>, sq: Square, c: Color): Result<bool>
    requires WellFormed(b) && OnBoard(sq)
  {
    if HasAttacker(b, RookMoves(b, sq, c), ROOK_ATTACKERS, c) then Ok(true)
    else if HasAttacker(b, BishopMoves(b, sq, c), BISHOP_ATTACKERS, c) then Ok(true)
    else
      var pawnSquares :- PawnDiagonal(b, sq, c);
      if HasAttacker(b, pawnSquares, PAWN_ATTACKERS, c) then Ok(true)
      else if HasAttacker(b, KnightMoves(b, sq, c), KNIGHT_ATTACKERS, c) then Ok(true)
      else Ok(HasAttacker(b, KingMoves(b, sq, c), KING_ATTACKERS, c))
  }

  /** The six ways out of `isKingInCheck`, one per early `return` and the final one. */
  lemma AttackedExits(b: seq<Entry>, sq: Square, c: Color)
    requires WellFormed(b) && OnBoard(sq)
    ensures var rook := HasAttacker(b, RookMoves(b, sq, c), ROOK_ATTACKERS, c);
            var bishop := HasAttacker(b, BishopMoves(b, sq, c), BISHOP_ATTACKERS, c);
            var diagonal := PawnDiagonal(b, sq, c);
            var knight := HasAttacker(b, KnightMoves(b, sq, c), KNIGHT_ATTACKERS, c);
            var king := HasAttacker(b, KingMoves(b, sq, c), KING_ATTACKERS, c);
            && (rook ==> Attacked(b, sq, c) == Ok(true))
            && (!rook && bishop ==> Attacked(b, sq, c) == Ok(true))
            && (!rook && !bishop && diagonal.Throws? ==> Attacked(b, sq, c) == Throws)
            && (!rook && !bishop && diagonal.Ok? ==>
                  if HasAttacker(b, diagonal.value, PAWN_ATTACKERS, c) || knight then Attacked(b, sq, c) == Ok(true)
                  else Attacked(b, sq, c) == Ok(king))
  {
  }

  /** One `for (let squareId of legalSquares)` scan with its early `return true`. */
  method ScanFor(board: array<Entry>, legalSquares: seq<Square>, kinds: set<PieceType>, pieceColor: Color)
    returns (found: bool)
    requires WellFormed(board[..]) && forall sq :: sq in legalSquares ==> OnBoard(sq)
    ensures found == HasAttacker(board[..], legalSquares, kinds, pieceColor)
  {
    for i := 0 to |legalSquares|
      invariant forall k :: 0 <= k < i ==> !Threatens(board[..], legalSquares[k], kinds, pieceColor)
    {
      var pieceProperties := GetPieceAtSquare(board[..], legalSquares[i]);
      if pieceProperties.value.pieceType in kinds && pieceColor != pieceProperties.value.pieceColor {
        assert legalSquares[i] in legalSquares && Threatens(board[..], legalSquares[i], kinds, pieceColor);
        return true;
      }
    }
    return false;
  }

  /** `isKingInCheck`. It has no `modifies` clause: the board it inspects is left as it was. */
  method IsKingInCheck(squareId: Square, pieceColor: Color, board: array<Entry>) returns (r: Result<bool>)
    requires WellFormed(board[..]) && OnBoard(squareId)
    ensures r == Attacked(board[..], squareId, pieceColor)
  {
    AttackedExits(board[..], squareId, pieceColor);
    var legalSquares := GetRookMoves(board, squareId, pieceColor);
    var found := ScanFor(board, legalSquares, ROOK_ATTACKERS, pieceColor);
    if found {
      return Ok(true);
    }
    legalSquares := GetBishopMoves(board, squareId, pieceColor);
    found := ScanFor(board, legalSquares, BISHOP_ATTACKERS, pieceColor);
    if found {
      return Ok(true);
    }
    var diagonal := CheckPawnDiagonalCaptures(board, squareId, pieceColor);
    if diagonal.Throws? {
      return Throws;
    }
    found := ScanFor(board, diagonal.value, PAWN_ATTACKERS, pieceColor);
    if found {
      return Ok(true);
    }
    legalSquares := GetKnightMoves(board, squareId, pieceColor);
    found := ScanFor(board, legalSquares, KNIGHT_ATTACKERS, pieceColor);
    if found {
      return Ok(true);
    }
    legalSquares := GetKingMoves(board, squareId, pieceColor);
    found := ScanFor(board, legalSquares, KING_ATTACKERS, pieceColor);
    return Ok(found);
  }

  // ---------------------------------------------------------------------------
  // What the scans amount to, in terms of lines of sight and offsets
  // ---------------------------------------------------------------------------

  /** An enemy piece of one of `kinds` is in line of sight from `from` along `d`. */
  ghost predicate DirectionThreat(b: seq<Entry>, from: Square, d: Direction, kinds: set<PieceType>, c: Color)
    requires WellFormed(b)
  {
    exists n :: Reaches(b, from, d, n, c) && Threatens(b, Offset(from, d, n), kinds, c)
  }

  /** An enemy rook or queen is in line of sight along the rank or the file. */
  ghost predicate RookLineThreat(b: seq<Entry>, from: Square, c: Color)
    requires WellFormed(b)
  {
    DirectionThreat(b, from, ToEighthRank, ROOK_ATTACKERS, c) ||
    DirectionThreat(b, from, ToFirstRank, ROOK_ATTACKERS, c) ||
    DirectionThreat(b, from, ToAFile, ROOK_ATTACKERS, c) ||
    DirectionThreat(b, from, ToHFile, ROOK_ATTACKERS, c)
  }

  /** An enemy bishop or queen is in line of sight along a diagonal. */
  ghost predicate BishopLineThreat(b: seq<Entry>, from: Square, c: Color)
    requires WellFormed(b)
  {
    DirectionThreat(b, from, ToEighthRankAFile, BISHOP_ATTACKERS, c) ||
    DirectionThreat(b, from, ToEighthRankHFile, BISHOP_ATTACKERS, c) ||
    DirectionThreat(b, from, ToFirstRankAFile, BISHOP_ATTACKERS, c) ||
    DirectionThreat(b, from, ToFirstRankHFile, BISHOP_ATTACKERS, c)
  }

  /** An enemy pawn stands diagonally forward of `from`, forward being the direction a pawn
      of colour `c` moves. */
  predicate PawnThreat(b: seq<Entry>, from: Square, c: Color)
    requires WellFormed(b)
  {
    Threatens(b, Square(from.file - 1, from.rank + Forward(c)), PAWN_ATTACKERS, c) ||
    Threatens(b, Square(from.file + 1, from.rank + Forward(c)), PAWN_ATTACKERS, c)
  }

  /** An enemy piece of one of `kinds` stands one listed offset away from `from`. */
  predicate HopThreat(b: seq<Entry>, from: Square, offsets: seq<(int, int)>, kinds: set<PieceType>, c: Color)
    requires WellFormed(b)
  {
    exists k :: 0 <= k < |offsets| && Threatens(b, Shift(from, offsets[k]), kinds, c)
  }

  lemma RayThreat(b: seq<Entry>, from: Square, d: Direction, kinds: set<PieceType>, c: Color)
    requires WellFormed(b) && OnBoard(from)
    ensures HasAttacker(b, Ray(b, from, d, c), kinds, c) <==> DirectionThreat(b, from, d, kinds, c)
  {
    if HasAttacker(b, Ray(b, from, d, c), kinds, c) {
      var sq :| sq in Ray(b, from, d, c) && Threatens(b, sq, kinds, c);
      RayMembers(b, from, d, c, sq);
    }
    if n :| Reaches(b, from, d, n, c) && Threatens(b, Offset(from, d, n), kinds, c) {
      RayMembers(b, from, d, c, Offset(from, d, n));
    }
  }

  /** A scan over concatenated generator results finds an attacker exactly when a scan
      over one of the parts does. */
  lemma HasAttackerAppend(b: seq<Entry>, s: seq<Square>, t: seq<Square>, kinds: set<PieceType>, c: Color)
    requires WellFormed(b)
    ensures HasAttacker(b, s + t, kinds, c) <==> HasAttacker(b, s, kinds, c) || HasAttacker(b, t, kinds, c)
  {
    if HasAttacker(b, s + t, kinds, c) {
      var sq :| sq in s + t && Threatens(b, sq, kinds, c);
    }
  }

  /** The rook scan finds an attacker exactly when an enemy rook or queen is in line of sight
      along the rank or the file. */
  lemma RookScan(b: seq<Entry>, from: Square, c: Color)
    requires WellFormed(b) && OnBoard(from)
    ensures HasAttacker(b, RookMoves(b, from, c), ROOK_ATTACKERS, c) <==>
            RookLineThreat(b, from, c)
  {
    var r8, r1 := Ray(b, from, ToEighthRank, c), Ray(b, from, ToFirstRank, c);
    var ra, rh := Ray(b, from, ToAFile, c), Ray(b, from, ToHFile, c);
    assert RookMoves(b, from, c) == ((r8 + r1) + ra) + rh;
    HasAttackerAppend(b, (r8 + r1) + ra, rh, ROOK_ATTACKERS, c);
    HasAttackerAppend(b, r8 + r1, ra, ROOK_ATTACKERS, c);
    HasAttackerAppend(b, r8, r1, ROOK_ATTACKERS, c);
    RayThreat(b, from, ToEighthRank, ROOK_ATTACKERS, c);
    RayThreat(b, from, ToFirstRank, ROOK_ATTACKERS, c);
    RayThreat(b, from, ToAFile, ROOK_ATTACKERS, c);
    RayThreat(b, from, ToHFile, ROOK_ATTACKERS, c);
  }

  /** The bishop scan finds an attacker exactly when an enemy bishop or queen is in line of
      sight along a diagonal. */
  lemma BishopScan(b: seq<Entry>, from: Square, c: Color)
    requires WellFormed(b) && OnBoard(from)
    ensures HasAttacker(b, BishopMoves(b, from, c), BISHOP_ATTACKERS, c) <==>
            BishopLineThreat(b, from, c)
  {
    var r8a, r8h := Ray(b, from, ToEighthRankAFile, c), Ray(b, from, ToEighthRankHFile, c);
    var r1a, r1h := Ray(b, from, ToFirstRankAFile, c), Ray(b, from, ToFirstRankHFile, c);
    assert BishopMoves(b, from, c) == ((r8a + r8h) + r1a) + r1h;
    HasAttackerAppend(b, (r8a + r8h) + r1a, r1h, BISHOP_ATTACKERS, c);
    HasAttackerAppend(b, r8a + r8h, r1a, BISHOP_ATTACKERS, c);
    HasAttackerAppend(b, r8a, r8h, BISHOP_ATTACKERS, c);
    RayThreat(b, from, ToEighthRankAFile, BISHOP_ATTACKERS, c);
    RayThreat(b, from, ToEighthRankHFile, BISHOP_ATTACKERS, c);
    RayThreat(b, from, ToFirstRankAFile, BISHOP_ATTACKERS, c);
    RayThreat(b, from, ToFirstRankHFile, BISHOP_ATTACKERS, c);
  }

  /** The knight and king scans find an attacker exactly when one stands a listed offset away. */
  lemma HopScan(b: seq<Entry>, from: Square, offsets: seq<(int, int)>, kinds: set<PieceType>, c: Color)
    requires WellFormed(b)
    ensures HasAttacker(b, Hops(b, from, offsets, c), kinds, c) <==> HopThreat(b, from, offsets, kinds, c)
  {
    if HasAttacker(b, Hops(b, from, offsets, c), kinds, c) {
      var sq :| sq in Hops(b, from, offsets, c) && Threatens(b, sq, kinds, c);
      HopsMembers(b, from, offsets, c, sq);
    }
    if HopThreat(b, from, offsets, kinds, c) {
      var k :| 0 <= k < |offsets| && Threatens(b, Shift(from, offsets[k]), kinds, c);
      HopsMembers(b, from, offsets, c, Shift(from, offsets[k]));
    }
  }

  /** The pawn scan, when the forward rank exists, finds an attacker exactly when an enemy
      pawn stands diagonally forward. */
  lemma PawnScan(b: seq<Entry>, from: Square, c: Color)
    requires WellFormed(b) && OnBoard(from) && 1 <= from.rank + Forward(c) <= 8
    ensures PawnDiagonal(b, from, c).Ok?
    ensures HasAttacker(b, PawnDiagonal(b, from, c).value, PAWN_ATTACKERS, c) <==> PawnThreat(b, from, c)
  {
    var r := PawnDiagonal(b, from, c);
    assert r.Ok?;
    var p := r.value;
    var left := Square(from.file - 1, from.rank + Forward(c));
    var right := Square(from.file + 1, from.rank + Forward(c));
    assert p == IfHostile(b, left, c) + IfHostile(b, right, c);
    HasAttackerAppend(b, IfHostile(b, left, c), IfHostile(b, right, c), PAWN_ATTACKERS, c);
    HostileScan(b, left, PAWN_ATTACKERS, c);
    HostileScan(b, right, PAWN_ATTACKERS, c);
  }

  /** A piece that is not blank is hostile exactly when its colour differs. */
  lemma HostileScan(b: seq<Entry>, sq: Square, kinds: set<PieceType>, c: Color)
    requires WellFormed(b) && BlankType !in kinds
    ensures HasAttacker(b, IfHostile(b, sq, c), kinds, c) <==> Threatens(b, sq, kinds, c)
  {
    if OnBoard(sq) {
      assert Consistent(PieceOf(b[IndexOf(sq)]));
    }
    if Threatens(b, sq, kinds, c) {
      assert sq in IfHostile(b, sq, c);
    }
  }

  /** What `isKingInCheck` decides: an enemy rook or queen in line of sight along a rank or
      file, or an enemy bishop or queen in line of sight along a diagonal, answers `true`;
      failing that, a square on the last rank for colour `c` makes the pawn scan throw;
      otherwise the answer is whether an enemy pawn stands diagonally forward, an enemy
      knight a knight's jump away, or the enemy king next to the square. */
  lemma AttackedMeaning(b: seq<Entry>, sq: Square, c: Color)
    requires WellFormed(b) && OnBoard(sq)
    ensures Attacked(b, sq, c) ==
            if RookLineThreat(b, sq, c) ||
               BishopLineThreat(b, sq, c) then Ok(true)
            else if !(1 <= sq.rank + Forward(c) <= 8) then Throws
            else Ok(PawnThreat(b, sq, c) ||
                    HopThreat(b, sq, KNIGHT_OFFSETS, KNIGHT_ATTACKERS, c) ||
                    HopThreat(b, sq, KING_OFFSETS, KING_ATTACKERS, c))
  {
    RookScan(b, sq, c);
    BishopScan(b, sq, c);
    AttackedExits(b, sq, c);
    if !RookLineThreat(b, sq, c) && !BishopLineThreat(b, sq, c) && 1 <= sq.rank + Forward(c) <= 8 {
      PawnScan(b, sq, c);
      HopScan(b, sq, KNIGHT_OFFSETS, KNIGHT_ATTACKERS, c);
      HopScan(b, sq, KING_OFFSETS, KING_ATTACKERS, c);
    }
  }
}
