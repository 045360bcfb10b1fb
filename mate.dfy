/** `getAllPossibleMoves` and the decision `checkForCheckmate` makes. */
module Mate {
  import opened Results
  import opened Board
  import opened Moves
  import opened Attack
  import opened Filter

  /** What `getAllPossibleMoves` contributes for record `i` of `gen`: nothing unless the
      record holds a piece of colour `c`; otherwise that piece's candidates on `gen`,
      filtered against the live board `live` with the tracked king square `kingSquare`. */
  function PieceMoves(gen: seq<Entry>, live: seq<Entry>, c: Color, kingSquare: Square, i: int)
    : Result<seq<Square>>
    requires WellFormed(gen) && WellFormed(live) && OnBoard(kingSquare) && 0 <= i < 64
  {
    var square := gen[i];
    if square.pieceColor != c then Ok([])
    else
      WellFormedAt(gen, i);
      var piece := At(gen, square.squareId);
      if piece.pieceId == BLANK_ID then Ok([])
      else
        assert Consistent(PieceOf(gen[i]));
        var moves :- PossibleMoves(gen, square.squareId, piece);
        Survivors(live, square.squareId, moves, piece.pieceColor, piece.pieceType, kingSquare)
  }

  /** The contributions of all 64 records, in page order. */
  function Contributions(gen: seq<Entry>, live: seq<Entry>, c: Color, kingSquare: Square)
    : (parts: seq<Result<seq<Square>>>)
    requires WellFormed(gen) && WellFormed(live) && OnBoard(kingSquare)
    ensures |parts| == 64
    ensures forall i :: 0 <= i < 64 ==> parts[i] == PieceMoves(gen, live, c, kingSquare, i)
  {
    seq(64, i requires 0 <= i < 64 => PieceMoves(gen, live, c, kingSquare, i))
  }

  /** `flatMap`: the contributions concatenated in order, evaluated front to back, so the
      first one that throws aborts the whole. */
  function Collect<T>(parts: seq<Result<seq<T>>>): Result<seq<T>>
    decreases |parts|
  {
    if parts == [] then Ok([])
    else
      var earlier :- Collect(parts[..|parts| - 1]);
      var mine :- parts[|parts| - 1];
      Ok(earlier + mine)
  }

  /** `getAllPossibleMoves(gen, c)`, run while the live board is `live`. */
  function AllPossibleMoves(gen: seq<Entry>, live: seq<Entry>, c: Color, kingSquare: Square): Result<seq<Square>>
    requires WellFormed(gen) && WellFormed(live) && OnBoard(kingSquare)
  {
    Collect(Contributions(gen, live, c, kingSquare))
  }

  /** The concatenation throws exactly when one contribution does; otherwise it holds
      exactly the members of the contributions, and it is empty exactly when every
      contribution is. */
  lemma {:induction false} CollectMeaning<T>(parts: seq<Result<seq<T>>>)
    ensures Collect(parts).Throws? <==> exists i :: 0 <= i < |parts| && parts[i].Throws?
    ensures Collect(parts).Ok? ==>
            forall x :: x in Collect(parts).value ==> exists i :: 0 <= i < |parts| && parts[i].Ok? && x in parts[i].value
    ensures Collect(parts).Ok? ==>
            forall i, x :: 0 <= i < |parts| && parts[i].Ok? && x in parts[i].value ==> x in Collect(parts).value
    ensures Collect(parts) == Ok([]) <==> forall i :: 0 <= i < |parts| ==> parts[i] == Ok([])
    decreases |parts|
  {
    if parts != [] {
      var n := |parts| - 1;
      var front := parts[..n];
      CollectMeaning(front);
      assert forall i :: 0 <= i < n ==> front[i] == parts[i];
      var r := Collect(parts);
      if r.Ok? {
        var earlier := Collect(front).value;
        var mine := parts[n].value;
        assert r.value == earlier + mine;
        forall x | x in r.value
          ensures exists i :: 0 <= i < |parts| && parts[i].Ok? && x in parts[i].value
        {
          if x in mine {
            assert parts[n].Ok? && x in parts[n].value;
          } else {
            assert x in Collect(front).value;
            var i :| 0 <= i < n && front[i].Ok? && x in front[i].value;
            assert parts[i] == front[i];
          }
        }
        OkEmpty(r);
        OkEmpty(Collect(front));
        OkEmpty(parts[n]);
        assert r.value == [] <==> earlier == [] && mine == [];
      }
    }
  }

  /** One more contribution: the concatenation of the first `i + 1` extends that of the
      first `i`. */
  lemma CollectStep<T>(parts: seq<Result<seq<T>>>, i: nat)
    requires i < |parts|
    ensures Collect(parts[..i + 1]) ==
            match Collect(parts[..i])
            case Throws => Throws
            case Ok(earlier) =>
              match parts[i]
              case Throws => Throws
              case Ok(mine) => Ok(earlier + mine)
  {
    assert parts[..i + 1][..i] == parts[..i];
  }

  /** A concatenation that throws on a prefix of the contributions throws on all of them. */
  lemma {:induction false} CollectPrefix<T>(parts: seq<Result<seq<T>>>, i: nat)
    requires i <= |parts| && Collect(parts[..i]).Throws?
    ensures Collect(parts).Throws?
    decreases |parts| - i
  {
    if i < |parts| {
      assert parts[..i + 1][..i] == parts[..i];
      CollectPrefix(parts, i + 1);
    } else {
      assert parts[..i] == parts;
    }
  }

  lemma OkEmpty<T>(x: Result<seq<T>>)
    requires x.Ok?
    ensures x == Ok([]) <==> x.value == []
  {
    if x.value == [] {
      assert x == Ok([]);
    }
  }

  /** A record contributes exactly the candidates of its piece that survive the filter. */
  lemma PieceMovesMeaning(gen: seq<Entry>, live: seq<Entry>, c: Color, kingSquare: Square, i: int, sq: Square)
    requires WellFormed(gen) && WellFormed(live) && OnBoard(kingSquare) && 0 <= i < 64
    requires PieceMoves(gen, live, c, kingSquare, i).Ok?
    ensures sq in PieceMoves(gen, live, c, kingSquare, i).value <==>
            gen[i].pieceColor == c && gen[i].pieceId != BLANK_ID && gen[i].pieceType != BlankType &&
            PossibleMoves(gen, SquareAt(i), PieceOf(gen[i])).Ok? &&
            sq in PossibleMoves(gen, SquareAt(i), PieceOf(gen[i])).value &&
            Exposes(live, SquareAt(i), sq, c, gen[i].pieceType, kingSquare) == Ok(false)
  {
    WellFormedAt(gen, i);
    var from := SquareAt(i);
    IndexOfSquareAt(i);
    assert At(gen, gen[i].squareId) == PieceOf(gen[i]);
    if gen[i].pieceColor == c && gen[i].pieceId != BLANK_ID {
      assert Consistent(PieceOf(gen[i]));
      var moves := PossibleMoves(gen, from, PieceOf(gen[i]));
      assert moves.Ok?;
      assert PieceMoves(gen, live, c, kingSquare, i) ==
             Survivors(live, from, moves.value, c, gen[i].pieceType, kingSquare);
      SurvivorsMeaning(live, from, moves.value, c, gen[i].pieceType, kingSquare);
    }
  }

  /** The whole side throws exactly when one record's computation throws; otherwise its
      moves are exactly the squares some record contributes, and it has none exactly when
      no record contributes one. */
  lemma AllPossibleMovesMeaning(gen: seq<Entry>, live: seq<Entry>, c: Color, kingSquare: Square)
    requires WellFormed(gen) && WellFormed(live) && OnBoard(kingSquare)
    ensures AllPossibleMoves(gen, live, c, kingSquare).Throws? <==>
            exists i :: 0 <= i < 64 && PieceMoves(gen, live, c, kingSquare, i).Throws?
    ensures AllPossibleMoves(gen, live, c, kingSquare).Ok? ==>
            forall sq :: sq in AllPossibleMoves(gen, live, c, kingSquare).value <==>
              exists i :: 0 <= i < 64 && PieceMoves(gen, live, c, kingSquare, i).Ok? &&
                          sq in PieceMoves(gen, live, c, kingSquare, i).value
    ensures AllPossibleMoves(gen, live, c, kingSquare) == Ok([]) <==>
            forall i :: 0 <= i < 64 ==> PieceMoves(gen, live, c, kingSquare, i) == Ok([])
  {
    CollectMeaning(Contributions(gen, live, c, kingSquare));
  }

  /** Whether `checkForCheckmate` announces checkmate for the side `c` whose king is tracked
      on `kingSquare`: `Throws` when one of its checks throws. */
  function Checkmate(b: seq<Entry>, kingSquare: Square, c: Color): Result<bool>
    requires WellFormed(b) && OnBoard(kingSquare)
  {
    var inCheck :- Attacked(b, kingSquare, c);
    if !inCheck then Ok(false)
    else
      var moves :- AllPossibleMoves(b, b, c, kingSquare);
      Ok(moves == [])
  }

  /** Checkmate is announced exactly when the tracked king square is attacked and no piece
      of the side to move has a move that survives the filter. */
  lemma CheckmateMeaning(b: seq<Entry>, kingSquare: Square, c: Color)
    requires WellFormed(b) && OnBoard(kingSquare)
    ensures Checkmate(b, kingSquare, c) == Ok(true) <==>
            Attacked(b, kingSquare, c) == Ok(true) &&
            forall i :: 0 <= i < 64 ==> PieceMoves(b, b, c, kingSquare, i) == Ok([])
    ensures Checkmate(b, kingSquare, c) == Ok(false) <==>
            Attacked(b, kingSquare, c) == Ok(false) ||
            (Attacked(b, kingSquare, c) == Ok(true) && AllPossibleMoves(b, b, c, kingSquare).Ok? &&
             AllPossibleMoves(b, b, c, kingSquare) != Ok([]))
  {
    AllPossibleMovesMeaning(b, b, c, kingSquare);
    var a := Attacked(b, kingSquare, c);
    if a.Ok? {
      Decided(a);
      var m := AllPossibleMoves(b, b, c, kingSquare);
      if a.value && m.Ok? {
        assert m == Ok([]) <==> m.value == [];
      }
    }
  }

  /** `checkForCheckmate` as written: once the king is found in check it calls
      `highlightCheckedKing`, whose definition is commented out, so the handler aborts with
      a `ReferenceError` before the moves are counted. */
  function CheckmateAsWritten(b: seq<Entry>, kingSquare: Square, c: Color): Result<bool>
    requires WellFormed(b) && OnBoard(kingSquare)
  {
    var inCheck :- Attacked(b, kingSquare, c);
    if !inCheck then Ok(false)
    else Throws
  }

  /** As written, checkmate is never announced: in every position the corrected decision
      calls mate, the written one aborts instead. */
  lemma MateLostAsWritten(b: seq<Entry>, kingSquare: Square, c: Color)
    requires WellFormed(b) && OnBoard(kingSquare)
    ensures CheckmateAsWritten(b, kingSquare, c) != Ok(true)
    ensures Attacked(b, kingSquare, c) == Ok(true) ==> CheckmateAsWritten(b, kingSquare, c) == Throws
    ensures Checkmate(b, kingSquare, c) == Ok(true) ==> CheckmateAsWritten(b, kingSquare, c) == Throws
    ensures Attacked(b, kingSquare, c) != Ok(true) ==> CheckmateAsWritten(b, kingSquare, c) == Checkmate(b, kingSquare, c)
  {
    var a := Attacked(b, kingSquare, c);
    if a.Ok? {
      Decided(a);
    }
  }
}
