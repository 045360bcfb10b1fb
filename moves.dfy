/** Pseudo-legal move generation: the eight ray walks, the knight and king offset
    tables, the two pawn sub-generators, and the dispatch on the piece type. */
module Moves {
  import opened Results
  import opened Board
  import opened Seqs

  // ---------------------------------------------------------------------------
  // Ray walks (rook and bishop)
  // ---------------------------------------------------------------------------

  /** The eight walks: `moveToEighthRank`, `moveToFirstRank`, `moveToAFile`,
      `moveToHFile` and the four diagonal `moveTo...Rank...File` walks. */
  datatype Direction =
    | ToEighthRank | ToFirstRank | ToAFile | ToHFile
    | ToEighthRankAFile | ToEighthRankHFile | ToFirstRankAFile | ToFirstRankHFile

  const ROOK_DIRECTIONS: seq<Direction> := [ToEighthRank, ToFirstRank, ToAFile, ToHFile]
  const BISHOP_DIRECTIONS: seq<Direction> :=
    [ToEighthRankAFile, ToEighthRankHFile, ToFirstRankAFile, ToFirstRankHFile]

  function FileStep(d: Direction): int {
    match d
    case ToAFile | ToEighthRankAFile | ToFirstRankAFile => -1
    case ToHFile | ToEighthRankHFile | ToFirstRankHFile => 1
    case ToEighthRank | ToFirstRank => 0
  }

  function RankStep(d: Direction): int {
    match d
    case ToEighthRank | ToEighthRankAFile | ToEighthRankHFile => 1
    case ToFirstRank | ToFirstRankAFile | ToFirstRankHFile => -1
    case ToAFile | ToHFile => 0
  }

  /** `n` steps of size `step` (which is -1, 0 or 1). */
  function Scale(step: int, n: int): int {
    if step > 0 then n else if step < 0 then -n else 0
  }

  /** The square `n` steps from `sq` in direction `d`. */
  function Offset(sq: Square, d: Direction, n: int): Square {
    Square(sq.file + Scale(FileStep(d), n), sq.rank + Scale(RankStep(d), n))
  }

  /** The negation of each walk's `while` guard: `currentRank != 8`, `currentFile != "a"`,
      `!(currentFile == "a" || currentRank == 8)`, and so on. */
  predicate AtEdge(sq: Square, d: Direction) {
    match d
    case ToEighthRank => sq.rank == 8
    case ToFirstRank => sq.rank == 1
    case ToAFile => sq.file == 0
    case ToHFile => sq.file == 7
    case ToEighthRankAFile => sq.file == 0 || sq.rank == 8
    case ToEighthRankHFile => sq.file == 7 || sq.rank == 8
    case ToFirstRankAFile => sq.file == 0 || sq.rank == 1
    case ToFirstRankHFile => sq.file == 7 || sq.rank == 1
  }

  /** Room left towards the edges the walk heads for; it shrinks with every step. */
  function Slack(sq: Square, d: Direction): int {
    (if FileStep(d) > 0 then 7 - sq.file else if FileStep(d) < 0 then sq.file else 0) +
    (if RankStep(d) > 0 then 8 - sq.rank else if RankStep(d) < 0 then sq.rank - 1 else 0)
  }

  /** From a board square, a walk's guard stops it exactly when the next step leaves the board. */
  lemma AtEdgeLeavesBoard(sq: Square, d: Direction)
    requires OnBoard(sq)
    ensures AtEdge(sq, d) <==> !OnBoard(Offset(sq, d, 1))
    ensures !AtEdge(sq, d) ==> 0 <= Slack(Offset(sq, d, 1), d) < Slack(sq, d)
  {
  }

  lemma OffsetAdd(sq: Square, d: Direction, m: int, n: int)
    ensures Offset(Offset(sq, d, m), d, n) == Offset(sq, d, m + n)
  {
  }

  /** What one walk returns: step after step while the square is blank; an enemy
      square is added and ends the walk; an own piece ends it without being added. */
  function Ray(b: seq<Entry>, from: Square, d: Direction, c: Color): seq<Square>
    requires WellFormed(b) && OnBoard(from)
    decreases Slack(from, d)
  {
    AtEdgeLeavesBoard(from, d);
    if AtEdge(from, d) then []
    else
      var next := Offset(from, d, 1);
      if Friendly(b, next, c) then []
      else if At(b, next).pieceColor != BlankColor then [next]
      else [next] + Ray(b, next, d, c)
  }

  /** A walk returns squares in step order along its direction; none holds a piece of
      the mover's colour, and every one but the last is blank. */
  lemma {:induction false} RaySquares(b: seq<Entry>, from: Square, d: Direction, c: Color)
    requires WellFormed(b) && OnBoard(from)
    ensures forall k :: 0 <= k < |Ray(b, from, d, c)| ==>
              Ray(b, from, d, c)[k] == Offset(from, d, k + 1) && OnBoard(Ray(b, from, d, c)[k]) &&
              !Friendly(b, Ray(b, from, d, c)[k], c)
    ensures forall k :: 0 <= k < |Ray(b, from, d, c)| - 1 ==>
              At(b, Ray(b, from, d, c)[k]).pieceColor == BlankColor
    decreases Slack(from, d)
  {
    AtEdgeLeavesBoard(from, d);
    if !AtEdge(from, d) {
      var next := Offset(from, d, 1);
      if !Friendly(b, next, c) && At(b, next).pieceColor == BlankColor {
        RaySquares(b, next, d, c);
        var rest := Ray(b, next, d, c);
        var r := Ray(b, from, d, c);
        assert r == [next] + rest;
        forall k | 0 <= k < |r|
          ensures r[k] == Offset(from, d, k + 1) && OnBoard(r[k]) && !Friendly(b, r[k], c)
        {
          if k > 0 {
            assert r[k] == rest[k - 1];
            assert rest[k - 1] == Offset(next, d, k) && OnBoard(rest[k - 1]) && !Friendly(b, rest[k - 1], c);
            OffsetAdd(from, d, 1, k);
          }
        }
        forall k | 0 <= k < |r| - 1 ensures At(b, r[k]).pieceColor == BlankColor {
          if k > 0 {
            assert r[k] == rest[k - 1];
            assert At(b, rest[k - 1]).pieceColor == BlankColor;
          }
        }
      }
    }
  }

  /** One step of a walk, as the loops take it: what has been collected so far, followed
      by the rest of the walk, is the whole walk. */
  lemma WalkStep(b: seq<Entry>, start: Square, current: Square, d: Direction, c: Color, collected: seq<Square>)
    requires WellFormed(b) && OnBoard(start) && OnBoard(current) && !AtEdge(current, d)
    requires collected + Ray(b, current, d, c) == Ray(b, start, d, c)
    ensures OnBoard(Offset(current, d, 1))
    ensures var next := Offset(current, d, 1);
            && (Friendly(b, next, c) ==> collected == Ray(b, start, d, c))
            && (!Friendly(b, next, c) && At(b, next).pieceColor != BlankColor ==>
                  collected + [next] == Ray(b, start, d, c))
            && (At(b, next).pieceColor == BlankColor ==>
                  (collected + [next]) + Ray(b, next, d, c) == Ray(b, start, d, c))
  {
    AtEdgeLeavesBoard(current, d);
    var next := Offset(current, d, 1);
    if Friendly(b, next, c) {
      assert Ray(b, current, d, c) == [];
      assert collected + [] == collected;
    } else if At(b, next).pieceColor != BlankColor {
      assert Ray(b, current, d, c) == [next];
    } else {
      var rest := Ray(b, next, d, c);
      assert Ray(b, current, d, c) == [next] + rest;
      assert (collected + [next]) + rest == collected + ([next] + rest);
    }
  }

  /** One square of a walk: on the board, not the start, not of the mover's colour,
      and on the line the direction names. */
  lemma RayMember(b: seq<Entry>, from: Square, d: Direction, c: Color, sq: Square)
    requires WellFormed(b) && OnBoard(from) && sq in Ray(b, from, d, c)
    ensures OnBoard(sq) && !Friendly(b, sq, c) && sq != from
    ensures FileStep(d) == 0 ==> sq.file == from.file
    ensures RankStep(d) == 0 ==> sq.rank == from.rank
    ensures FileStep(d) != 0 && RankStep(d) != 0 ==>
              sq.file - from.file == sq.rank - from.rank || sq.file - from.file == from.rank - sq.rank
  {
    RaySquares(b, from, d, c);
    var r := Ray(b, from, d, c);
    var k :| 0 <= k < |r| && r[k] == sq;
  }

  /** Where a walk stops when its last square is blank (or it returned nothing): at the
      board edge, or in front of a piece of the mover's colour. */
  lemma {:induction false} RayStop(b: seq<Entry>, from: Square, d: Direction, c: Color)
    requires WellFormed(b) && OnBoard(from)
    ensures var r := Ray(b, from, d, c);
            var last := Offset(from, d, |r|);
            OnBoard(last) &&
            ((|r| == 0 || At(b, last).pieceColor == BlankColor) ==>
               AtEdge(last, d) ||
               (OnBoard(Offset(from, d, |r| + 1)) && Friendly(b, Offset(from, d, |r| + 1), c)))
    decreases Slack(from, d)
  {
    AtEdgeLeavesBoard(from, d);
    assert Offset(from, d, 0) == from;
    if !AtEdge(from, d) {
      var next := Offset(from, d, 1);
      if Friendly(b, next, c) {
        assert Ray(b, from, d, c) == [];
      } else if At(b, next).pieceColor != BlankColor {
        assert Ray(b, from, d, c) == [next];
      } else {
        RayStop(b, next, d, c);
        var rest := Ray(b, next, d, c);
        assert Ray(b, from, d, c) == [next] + rest;
        var n := |rest|;
        OffsetAdd(from, d, 1, n);
        OffsetAdd(from, d, 1, n + 1);
        assert Offset(from, d, n + 1) == Offset(next, d, n);
        assert Offset(from, d, n + 2) == Offset(next, d, n + 1);
      }
    }
  }

  /** Every square strictly between `from` and `Offset(from, d, n)` is on the board and blank. */
  predicate ClearPath(b: seq<Entry>, from: Square, d: Direction, n: int)
    requires WellFormed(b)
  {
    forall k :: 1 <= k < n ==>
      OnBoard(Offset(from, d, k)) && At(b, Offset(from, d, k)).pieceColor == BlankColor
  }

  /** Line of sight: `n` steps away along `d` is a board square, the path to it is
      clear, and it does not hold a piece of colour `c`. */
  predicate Reaches(b: seq<Entry>, from: Square, d: Direction, n: int, c: Color)
    requires WellFormed(b)
  {
    1 <= n && OnBoard(Offset(from, d, n)) && ClearPath(b, from, d, n) &&
    !Friendly(b, Offset(from, d, n), c)
  }

  lemma RayMembersSound(b: seq<Entry>, from: Square, d: Direction, c: Color, k: int)
    requires WellFormed(b) && OnBoard(from) && 0 <= k < |Ray(b, from, d, c)|
    ensures Reaches(b, from, d, k + 1, c) && Ray(b, from, d, c)[k] == Offset(from, d, k + 1)
  {
    var r := Ray(b, from, d, c);
    RaySquares(b, from, d, c);
    assert r[k] == Offset(from, d, k + 1) && OnBoard(r[k]) && !Friendly(b, r[k], c);
    forall j | 1 <= j < k + 1
      ensures OnBoard(Offset(from, d, j)) && At(b, Offset(from, d, j)).pieceColor == BlankColor
    {
      assert r[j - 1] == Offset(from, d, j);
    }
  }

  lemma RayMembersComplete(b: seq<Entry>, from: Square, d: Direction, c: Color, n: int)
    requires WellFormed(b) && OnBoard(from) && Reaches(b, from, d, n, c)
    ensures Offset(from, d, n) in Ray(b, from, d, c)
  {
    var r := Ray(b, from, d, c);
    RaySquares(b, from, d, c);
    RayStop(b, from, d, c);
    var m := |r|;
    if n > m {
      if m >= 1 {
        assert r[m - 1] == Offset(from, d, m);
      }
      AtEdgeLeavesBoard(Offset(from, d, m), d);
      OffsetAdd(from, d, m, 1);
    }
    assert r[n - 1] == Offset(from, d, n);
  }

  /** A walk returns exactly the squares in line of sight in its direction. */
  lemma RayMembers(b: seq<Entry>, from: Square, d: Direction, c: Color, q: Square)
    requires WellFormed(b) && OnBoard(from)
    ensures q in Ray(b, from, d, c) <==> exists n :: Reaches(b, from, d, n, c) && q == Offset(from, d, n)
  {
    var r := Ray(b, from, d, c);
    if q in r {
      var k :| 0 <= k < |r| && r[k] == q;
      RayMembersSound(b, from, d, c, k);
    }
    if n :| Reaches(b, from, d, n, c) && q == Offset(from, d, n) {
      RayMembersComplete(b, from, d, c, n);
    }
  }

  /** `getRookMoves`: the rank-8, rank-1, a-file and h-file walks, concatenated. */
  function RookMoves(b: seq<Entry>, from: Square, c: Color): (r: seq<Square>)
    requires WellFormed(b) && OnBoard(from)
    ensures forall sq :: sq in r ==>
              OnBoard(sq) && !Friendly(b, sq, c) && sq != from &&
              (sq.file == from.file || sq.rank == from.rank)
  {
    var r8, r1 := Ray(b, from, ToEighthRank, c), Ray(b, from, ToFirstRank, c);
    var ra, rh := Ray(b, from, ToAFile, c), Ray(b, from, ToHFile, c);
    assert forall sq :: sq in r8 + r1 + ra + rh ==>
             OnBoard(sq) && !Friendly(b, sq, c) && sq != from &&
             (sq.file == from.file || sq.rank == from.rank) by {
      forall sq | sq in r8 + r1 + ra + rh
        ensures OnBoard(sq) && !Friendly(b, sq, c) && sq != from &&
                (sq.file == from.file || sq.rank == from.rank)
      {
        if sq in r8 { RayMember(b, from, ToEighthRank, c, sq); }
        else if sq in r1 { RayMember(b, from, ToFirstRank, c, sq); }
        else if sq in ra { RayMember(b, from, ToAFile, c, sq); }
        else { RayMember(b, from, ToHFile, c, sq); }
      }
    }
    r8 + r1 + ra + rh
  }

  /** `getBishopMoves`: the four diagonal walks, concatenated. */
  function BishopMoves(b: seq<Entry>, from: Square, c: Color): (r: seq<Square>)
    requires WellFormed(b) && OnBoard(from)
    ensures forall sq :: sq in r ==>
              OnBoard(sq) && !Friendly(b, sq, c) && sq != from &&
              (sq.file - from.file == sq.rank - from.rank || sq.file - from.file == from.rank - sq.rank)
  {
    var r8a, r8h := Ray(b, from, ToEighthRankAFile, c), Ray(b, from, ToEighthRankHFile, c);
    var r1a, r1h := Ray(b, from, ToFirstRankAFile, c), Ray(b, from, ToFirstRankHFile, c);
    assert forall sq :: sq in r8a + r8h + r1a + r1h ==>
             OnBoard(sq) && !Friendly(b, sq, c) && sq != from &&
             (sq.file - from.file == sq.rank - from.rank || sq.file - from.file == from.rank - sq.rank) by {
      forall sq | sq in r8a + r8h + r1a + r1h
        ensures OnBoard(sq) && !Friendly(b, sq, c) && sq != from &&
                (sq.file - from.file == sq.rank - from.rank || sq.file - from.file == from.rank - sq.rank)
      {
        if sq in r8a { RayMember(b, from, ToEighthRankAFile, c, sq); }
        else if sq in r8h { RayMember(b, from, ToEighthRankHFile, c, sq); }
        else if sq in r1a { RayMember(b, from, ToFirstRankAFile, c, sq); }
        else { RayMember(b, from, ToFirstRankHFile, c, sq); }
      }
    }
    r8a + r8h + r1a + r1h
  }

  /** `getQueenMoves`: the bishop moves followed by the rook moves. */
  function QueenMoves(b: seq<Entry>, from: Square, c: Color): (r: seq<Square>)
    requires WellFormed(b) && OnBoard(from)
    ensures forall sq :: sq in r <==> sq in BishopMoves(b, from, c) || sq in RookMoves(b, from, c)
  {
    BishopMoves(b, from, c) + RookMoves(b, from, c)
  }

  /** One ray walk over the live array, as the source's `while` loops do it. */
  method Walk(board: array<Entry>, start: Square, d: Direction, pieceColor: Color)
    returns (legalSquares: seq<Square>)
    requires WellFormed(board[..]) && OnBoard(start)
    ensures legalSquares == Ray(board[..], start, d, pieceColor)
  {
    ghost var b := board[..];
    legalSquares := [];
    var current := start;
    while !AtEdge(current, d)
      invariant OnBoard(current)
      invariant legalSquares + Ray(b, current, d, pieceColor) == Ray(b, start, d, pieceColor)
      decreases Slack(current, d)
    {
      WalkStep(b, start, current, d, pieceColor, legalSquares);
      current := Offset(current, d, 1);
      var squareContent := board[IndexOf(current)].pieceColor;
      if squareContent != BlankColor && squareContent == pieceColor {
        return;
      }
      legalSquares := legalSquares + [current];
      if squareContent != BlankColor && squareContent != pieceColor {
        return;
      }
    }
  }

  method GetRookMoves(board: array<Entry>, start: Square, pieceColor: Color)
    returns (legalSquares: seq<Square>)
    requires WellFormed(board[..]) && OnBoard(start)
    ensures legalSquares == RookMoves(board[..], start, pieceColor)
  {
    var toEighthRank := Walk(board, start, ToEighthRank, pieceColor);
    var toFirstRank := Walk(board, start, ToFirstRank, pieceColor);
    var toAFile := Walk(board, start, ToAFile, pieceColor);
    var toHFile := Walk(board, start, ToHFile, pieceColor);
    legalSquares := toEighthRank + toFirstRank + toAFile + toHFile;
  }

  method GetBishopMoves(board: array<Entry>, start: Square, pieceColor: Color)
    returns (legalSquares: seq<Square>)
    requires WellFormed(board[..]) && OnBoard(start)
    ensures legalSquares == BishopMoves(board[..], start, pieceColor)
  {
    var toEighthRankAFile := Walk(board, start, ToEighthRankAFile, pieceColor);
    var toEighthRankHFile := Walk(board, start, ToEighthRankHFile, pieceColor);
    var toFirstRankAFile := Walk(board, start, ToFirstRankAFile, pieceColor);
    var toFirstRankHFile := Walk(board, start, ToFirstRankHFile, pieceColor);
    legalSquares := toEighthRankAFile + toEighthRankHFile + toFirstRankAFile + toFirstRankHFile;
  }

  method GetQueenMoves(board: array<Entry>, start: Square, pieceColor: Color)
    returns (legalSquares: seq<Square>)
    requires WellFormed(board[..]) && OnBoard(start)
    ensures legalSquares == QueenMoves(board[..], start, pieceColor)
  {
    var bishopMoves := GetBishopMoves(board, start, pieceColor);
    var rookMoves := GetRookMoves(board, start, pieceColor);
    legalSquares := bishopMoves + rookMoves;
  }

  // ---------------------------------------------------------------------------
  // Offset tables (knight and king)
  // ---------------------------------------------------------------------------

  const KNIGHT_OFFSETS: seq<(int, int)> :=
    [(-2, 1), (-1, 2), (1, 2), (2, 1), (2, -1), (1, -2), (-1, -2), (-2, -1)]
  const KING_OFFSETS: seq<(int, int)> :=
    [(0, 1), (0, -1), (1, 1), (1, -1), (-1, 0), (-1, -1), (-1, 1), (1, 0)]

  function Shift(sq: Square, offset: (int, int)): Square {
    Square(sq.file + offset.0, sq.rank + offset.1)
  }

  /** The start shifted by each offset, in table order. */
  function Targets(from: Square, offsets: seq<(int, int)>): seq<Square> {
    if offsets == [] then [] else [Shift(from, offsets[0])] + Targets(from, offsets[1..])
  }

  /** The offset-table loop: each shifted square that is on the board and does not hold
      a piece of the mover's colour, kept in table order. */
  function Hops(b: seq<Entry>, from: Square, offsets: seq<(int, int)>, c: Color): seq<Square>
    requires WellFormed(b)
  {
    if offsets == [] then []
    else
      var t := Shift(from, offsets[0]);
      if OnBoard(t) && !Friendly(b, t, c) then [t] + Hops(b, from, offsets[1..], c)
      else Hops(b, from, offsets[1..], c)
  }

  /** The offset-table results are board squares free of the mover's pieces, and they
      come in table order. */
  lemma {:induction false} HopsSquares(b: seq<Entry>, from: Square, offsets: seq<(int, int)>, c: Color)
    requires WellFormed(b)
    ensures forall sq :: sq in Hops(b, from, offsets, c) ==> OnBoard(sq) && !Friendly(b, sq, c)
    ensures IsSubsequence(Hops(b, from, offsets, c), Targets(from, offsets))
  {
    if offsets != [] {
      HopsSquares(b, from, offsets[1..], c);
      var t := Shift(from, offsets[0]);
      var rest := Hops(b, from, offsets[1..], c);
      if OnBoard(t) && !Friendly(b, t, c) {
        assert ([t] + rest)[1..] == rest;
      }
    }
  }

  /** A square is an offset-table result exactly when it is the start plus a listed offset,
      on the board, and not occupied by the mover's colour. */
  lemma {:induction false} HopsMembers(b: seq<Entry>, from: Square, offsets: seq<(int, int)>, c: Color, q: Square)
    requires WellFormed(b)
    ensures q in Hops(b, from, offsets, c) <==>
            exists k :: 0 <= k < |offsets| && q == Shift(from, offsets[k]) && OnBoard(q) && !Friendly(b, q, c)
  {
    if offsets != [] {
      HopsMembers(b, from, offsets[1..], c, q);
      if exists k :: 0 <= k < |offsets| && q == Shift(from, offsets[k]) && OnBoard(q) && !Friendly(b, q, c) {
        var k :| 0 <= k < |offsets| && q == Shift(from, offsets[k]) && OnBoard(q) && !Friendly(b, q, c);
        if k > 0 {
          assert offsets[1..][k - 1] == offsets[k];
        }
      }
      if exists k :: 0 <= k < |offsets[1..]| && q == Shift(from, offsets[1..][k]) && OnBoard(q) && !Friendly(b, q, c) {
        var k :| 0 <= k < |offsets[1..]| && q == Shift(from, offsets[1..][k]) && OnBoard(q) && !Friendly(b, q, c);
        assert offsets[k + 1] == offsets[1..][k];
      }
    }
  }

  /** `getKnightMoves`. */
  function KnightMoves(b: seq<Entry>, from: Square, c: Color): seq<Square>
    requires WellFormed(b)
  {
    Hops(b, from, KNIGHT_OFFSETS, c)
  }

  /** `getKingMoves`. */
  function KingMoves(b: seq<Entry>, from: Square, c: Color): seq<Square>
    requires WellFormed(b)
  {
    Hops(b, from, KING_OFFSETS, c)
  }

  /** The `forEach` over an offset table; `return legalSquares` inside the callback only
      skips the current offset, which is what `continue` does here. */
  method HopMoves(board: array<Entry>, start: Square, moves: seq<(int, int)>, pieceColor: Color)
    returns (legalSquares: seq<Square>)
    requires WellFormed(board[..])
    ensures legalSquares == Hops(board[..], start, moves, pieceColor)
  {
    ghost var b := board[..];
    legalSquares := [];
    for i := 0 to |moves|
      invariant legalSquares + Hops(b, start, moves[i..], pieceColor) == Hops(b, start, moves, pieceColor)
    {
      var currentFile := start.file + moves[i].0;
      var currentRank := start.rank + moves[i].1;
      assert moves[i..][0] == moves[i] && moves[i..][1..] == moves[i + 1..];
      assert Hops(b, start, moves[i..], pieceColor) ==
             var t := Square(currentFile, currentRank);
             if OnBoard(t) && !Friendly(b, t, pieceColor) then [t] + Hops(b, start, moves[i + 1..], pieceColor)
             else Hops(b, start, moves[i + 1..], pieceColor);
      if 0 <= currentFile <= 7 && 0 < currentRank <= 8 {
        var squareContent := board[IndexOf(Square(currentFile, currentRank))].pieceColor;
        assert squareContent == At(b, Square(currentFile, currentRank)).pieceColor;
        if squareContent != BlankColor && squareContent == pieceColor {
          continue;
        }
        legalSquares := legalSquares + [Square(currentFile, currentRank)];
      }
    }
  }

  method GetKnightMoves(board: array<Entry>, start: Square, pieceColor: Color)
    returns (legalSquares: seq<Square>)
    requires WellFormed(board[..])
    ensures legalSquares == KnightMoves(board[..], start, pieceColor)
    ensures forall sq :: sq in legalSquares ==> OnBoard(sq) && !Friendly(board[..], sq, pieceColor)
    ensures IsSubsequence(legalSquares, Targets(start, KNIGHT_OFFSETS))
  {
    legalSquares := HopMoves(board, start, KNIGHT_OFFSETS, pieceColor);
    HopsSquares(board[..], start, KNIGHT_OFFSETS, pieceColor);
  }

  method GetKingMoves(board: array<Entry>, start: Square, pieceColor: Color)
    returns (legalSquares: seq<Square>)
    requires WellFormed(board[..])
    ensures legalSquares == KingMoves(board[..], start, pieceColor)
    ensures forall sq :: sq in legalSquares ==> OnBoard(sq) && !Friendly(board[..], sq, pieceColor)
    ensures IsSubsequence(legalSquares, Targets(start, KING_OFFSETS))
  {
    legalSquares := HopMoves(board, start, KING_OFFSETS, pieceColor);
    HopsSquares(board[..], start, KING_OFFSETS, pieceColor);
  }

  // ---------------------------------------------------------------------------
  // Pawns
  // ---------------------------------------------------------------------------

  /** `pieceColor == "white" ? 1 : -1`. */
  function Forward(c: Color): int {
    if c == White then 1 else -1
  }

  /** `[sq]` when `sq` is a board square holding a piece of another colour than `c`, else `[]`. */
  function IfHostile(b: seq<Entry>, sq: Square, c: Color): seq<Square>
    requires WellFormed(b)
  {
    if OnBoard(sq) && Hostile(b, sq, c) then [sq] else []
  }

  /** One pass of the capture loop, for file offset `i`: a square outside files a..h is
      skipped; otherwise the record is looked up, and the lookup of a rank beyond the
      board yields `undefined`, whose `pieceColor` throws. */
  function DiagonalCandidate(b: seq<Entry>, from: Square, c: Color, i: int): (r: Result<seq<Square>>)
    requires WellFormed(b)
    ensures r.Throws? <==> 0 <= from.file + i <= 7 && !(1 <= from.rank + Forward(c) <= 8)
  {
    var sq := Square(from.file + i, from.rank + Forward(c));
    if !(0 <= sq.file <= 7) then Ok([])
    else if !OnBoard(sq) then Throws
    else Ok(IfHostile(b, sq, c))
  }

  /** `checkPawnDiagonalCaptures`: of the two squares diagonally forward, left first, those
      that hold a piece of another colour; it throws when the forward rank is off the board. */
  function PawnDiagonal(b: seq<Entry>, from: Square, c: Color): (r: Result<seq<Square>>)
    requires WellFormed(b) && OnBoard(from)
    ensures r.Throws? <==> !(1 <= from.rank + Forward(c) <= 8)
    ensures r.Ok? ==>
              r.value == IfHostile(b, Square(from.file - 1, from.rank + Forward(c)), c) +
                         IfHostile(b, Square(from.file + 1, from.rank + Forward(c)), c)
    ensures r.Ok? ==> forall sq :: sq in r.value ==> OnBoard(sq) && Hostile(b, sq, c)
  {
    var left := DiagonalCandidate(b, from, c, -1);
    var right := DiagonalCandidate(b, from, c, 1);
    if left.Throws? || right.Throws? then Throws else Ok(left.value + right.value)
  }

  /** The capture squares are exactly the board squares one rank forward, one file to either
      side, holding a piece of another colour. */
  lemma PawnDiagonalMembers(b: seq<Entry>, from: Square, c: Color, sq: Square)
    requires WellFormed(b) && OnBoard(from) && PawnDiagonal(b, from, c).Ok?
    ensures sq in PawnDiagonal(b, from, c).value <==>
              OnBoard(sq) && sq.rank == from.rank + Forward(c) &&
              (sq.file == from.file - 1 || sq.file == from.file + 1) && Hostile(b, sq, c)
  {
  }

  /** What one pass of the capture loop finds, read off the record the lookup returns. */
  lemma CandidateByLookup(b: seq<Entry>, from: Square, c: Color, i: int)
    requires WellFormed(b) && OnBoard(from) && (i == -1 || i == 1) && 0 <= from.file + i <= 7
    ensures var sq := Square(from.file + i, from.rank + Forward(c));
            match Lookup(b, sq)
            case None => PawnDiagonal(b, from, c).Throws?
            case Some(e) =>
              DiagonalCandidate(b, from, c, i) ==
                Ok(if e.pieceColor != BlankColor && e.pieceColor != c then [sq] else [])
  {
  }

  /** `checkPawnDiagonalCaptures`, with the source's `for (i = -1; i <= 1; i += 2)` loop. */
  method CheckPawnDiagonalCaptures(board: array<Entry>, start: Square, pieceColor: Color)
    returns (r: Result<seq<Square>>)
    requires WellFormed(board[..]) && OnBoard(start)
    ensures r == PawnDiagonal(board[..], start, pieceColor)
  {
    ghost var b := board[..];
    var legalSquares := [];
    var currentRank := start.rank + Forward(pieceColor);
    var i := -1;
    while i <= 1
      invariant i == -1 || i == 1 || i == 3
      invariant i == -1 ==> legalSquares == []
      invariant i == 1 ==> DiagonalCandidate(b, start, pieceColor, -1) == Ok(legalSquares)
      invariant i == 3 ==> PawnDiagonal(b, start, pieceColor) == Ok(legalSquares)
      decreases 3 - i
    {
      ghost var before := legalSquares;
      ghost var added: seq<Square> := [];
      var currentFile := start.file + i;
      if 0 <= currentFile <= 7 {
        var currentSquareId := Square(currentFile, currentRank);
        CandidateByLookup(b, start, pieceColor, i);
        var currentSquare := Lookup(board[..], currentSquareId);
        if currentSquare.None? {
          return Throws;
        }
        var squareContent := currentSquare.value.pieceColor;
        if squareContent != BlankColor && squareContent != pieceColor {
          legalSquares := legalSquares + [currentSquareId];
          added := [currentSquareId];
        }
      }
      assert DiagonalCandidate(b, start, pieceColor, i) == Ok(added);
      assert legalSquares == before + added;
      if i == -1 {
        assert legalSquares == added;
      }
      i := i + 2;
    }
    r := Ok(legalSquares);
  }

  /** `checkPawnForwardMoves`: nothing when the square ahead is occupied; otherwise that
      square, followed by the square two ahead when the pawn stands on rank 2 or 7 (for
      either colour) and that square is blank too. A lookup beyond the board throws. */
  function PawnForward(b: seq<Entry>, from: Square, c: Color): (r: Result<seq<Square>>)
    requires WellFormed(b) && OnBoard(from)
    ensures var one := Square(from.file, from.rank + Forward(c));
            var two := Square(from.file, from.rank + 2 * Forward(c));
            && (r.Throws? <==>
                 !OnBoard(one) ||
                 (IsBlank(At(b, one)) && (from.rank == 2 || from.rank == 7) && !OnBoard(two)))
            && (r.Ok? && !IsBlank(At(b, one)) ==> r.value == [])
            && (r.Ok? && IsBlank(At(b, one)) ==> |r.value| >= 1 && r.value[0] == one)
            && (r.Ok? ==> forall sq :: sq in r.value ==>
                 (sq == one || sq == two) && OnBoard(sq) && IsBlank(At(b, sq)))
            && (r.Ok? ==> (two in r.value <==>
                 (from.rank == 2 || from.rank == 7) && IsBlank(At(b, one)) &&
                 OnBoard(two) && IsBlank(At(b, two))))
            && (r.Ok? ==>
                 r.value == (if !IsBlank(At(b, one)) then []
                             else [one] + (if (from.rank == 2 || from.rank == 7) && OnBoard(two) && IsBlank(At(b, two))
                                           then [two] else [])))
  {
    var one := Square(from.file, from.rank + Forward(c));
    match Lookup(b, one)
    case None => Throws
    case Some(e) =>
      if e.pieceColor != BlankColor then Ok([])
      else if from.rank != 2 && from.rank != 7 then Ok([one])
      else
        var two := Square(from.file, from.rank + 2 * Forward(c));
        match Lookup(b, two)
        case None => Throws
        case Some(e2) => if e2.pieceColor != BlankColor then Ok([one]) else Ok([one, two])
  }

  /** `getPawnMoves`: the diagonal captures followed by the forward moves. */
  function PawnMoves(b: seq<Entry>, from: Square, c: Color): Result<seq<Square>>
    requires WellFormed(b) && OnBoard(from)
  {
    var diagonalSquares :- PawnDiagonal(b, from, c);
    var forwardSquares :- PawnForward(b, from, c);
    Ok(diagonalSquares + forwardSquares)
  }

  method GetPawnMoves(board: array<Entry>, start: Square, pieceColor: Color)
    returns (r: Result<seq<Square>>)
    requires WellFormed(board[..]) && OnBoard(start)
    ensures r == PawnMoves(board[..], start, pieceColor)
  {
    var diagonalSquares := CheckPawnDiagonalCaptures(board, start, pieceColor);
    if diagonalSquares.Throws? {
      return Throws;
    }
    var forwardSquares := PawnForward(board[..], start, pieceColor);
    if forwardSquares.Throws? {
      return Throws;
    }
    r := Ok(diagonalSquares.value + forwardSquares.value);
  }

  // ---------------------------------------------------------------------------
  // Dispatch
  // ---------------------------------------------------------------------------

  /** `getPossibleMoves`: the generator of the piece's type. Only the pawn generator can
      throw; every candidate is a board square other than the start that does not hold
      a piece of the mover's colour. */
  function PossibleMoves(b: seq<Entry>, from: Square, piece: Piece): (r: Result<seq<Square>>)
    requires WellFormed(b) && OnBoard(from) && piece.pieceType != BlankType
    ensures r.Throws? ==> piece.pieceType == Pawn
    ensures r.Ok? ==> forall sq :: sq in r.value ==> OnBoard(sq) && !Friendly(b, sq, piece.pieceColor)
  {
    match piece.pieceType
    case Pawn => PawnMoves(b, from, piece.pieceColor)
    case Knight =>
      HopsSquares(b, from, KNIGHT_OFFSETS, piece.pieceColor);
      Ok(KnightMoves(b, from, piece.pieceColor))
    case Rook => Ok(RookMoves(b, from, piece.pieceColor))
    case Bishop => Ok(BishopMoves(b, from, piece.pieceColor))
    case Queen => Ok(QueenMoves(b, from, piece.pieceColor))
    case King =>
      HopsSquares(b, from, KING_OFFSETS, piece.pieceColor);
      Ok(KingMoves(b, from, piece.pieceColor))
  }

  method GetPossibleMoves(start: Square, piece: Piece, board: array<Entry>)
    returns (r: Result<seq<Square>>)
    requires WellFormed(board[..]) && OnBoard(start) && piece.pieceType != BlankType
    ensures r == PossibleMoves(board[..], start, piece)
  {
    match piece.pieceType {
      case Pawn =>
        r := GetPawnMoves(board, start, piece.pieceColor);
      case Knight =>
        var legalSquares := GetKnightMoves(board, start, piece.pieceColor);
        r := Ok(legalSquares);
      case Rook =>
        var legalSquares := GetRookMoves(board, start, piece.pieceColor);
        r := Ok(legalSquares);
      case Bishop =>
        var legalSquares := GetBishopMoves(board, start, piece.pieceColor);
        r := Ok(legalSquares);
      case Queen =>
        var legalSquares := GetQueenMoves(board, start, piece.pieceColor);
        r := Ok(legalSquares);
      case King =>
        var legalSquares := GetKingMoves(board, start, piece.pieceColor);
        r := Ok(legalSquares);
    }
  }
}
