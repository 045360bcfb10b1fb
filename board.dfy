/** The board store: the 64 records of `boardSquaresArray`, the lookup `Array.find`
    performs on them, `getPieceAtSquare`, `updateBoardSquaresArray` and `deepCopyArray`. */
module Board {
  import opened Results

  datatype Color = White | Black | BlankColor
  datatype PieceType = Pawn | Knight | Bishop | Rook | Queen | King | BlankType

  /** A square id: `file` 0..7 stands for the letters `a`..`h`, `rank` for the digit.
      The engine also builds ids one rank beyond the board (`e9`, `e0`), so the
      type admits any integers and `OnBoard` says which ones name a board square. */
  datatype Square = Square(file: int, rank: int)

  /** The `{pieceColor, pieceType, pieceId}` object of the engine. */
  datatype Piece = Piece(pieceColor: Color, pieceType: PieceType, pieceId: string)

  /** One record of `boardSquaresArray`. */
  datatype Entry = Entry(squareId: Square, pieceColor: Color, pieceType: PieceType, pieceId: string)

  const BLANK_ID := "blank"
  const BLANK_PIECE := Piece(BlankColor, BlankType, BLANK_ID)

  predicate OnBoard(sq: Square) {
    0 <= sq.file <= 7 && 1 <= sq.rank <= 8
  }

  /** The two-character id string: the file letter followed by the rank digit. */
  function SquareId(sq: Square): (id: string)
    requires 0 <= sq.file <= 7 && 0 <= sq.rank <= 9
    ensures |id| == 2 && 'a' <= id[0] <= 'h' && '0' <= id[1] <= '9'
  {
    [(97 + sq.file) as char, (48 + sq.rank) as char]
  }

  /** Comparing id strings, as the engine does, is comparing squares. */
  lemma SquareIdInjective(s: Square, t: Square)
    requires 0 <= s.file <= 7 && 0 <= s.rank <= 9
    requires 0 <= t.file <= 7 && 0 <= t.rank <= 9
    ensures SquareId(s) == SquareId(t) <==> s == t
  {
    if SquareId(s) == SquareId(t) {
      assert SquareId(s)[0] == SquareId(t)[0] && SquareId(s)[1] == SquareId(t)[1];
    }
  }

  /** The square of record `i`: file `'a'+i%8`, rank `8-floor(i/8)`. */
  function SquareAt(i: int): (sq: Square)
    requires 0 <= i < 64
    ensures OnBoard(sq)
  {
    Square(i % 8, 8 - i / 8)
  }

  /** The record index of a board square: the inverse of `SquareAt`. */
  function IndexOf(sq: Square): (i: int)
    requires OnBoard(sq)
    ensures 0 <= i < 64
  {
    (8 - sq.rank) * 8 + sq.file
  }

  lemma SquareAtIndexOf(sq: Square)
    requires OnBoard(sq)
    ensures SquareAt(IndexOf(sq)) == sq
  {
  }

  /** Record `j` is the record of `sq` only at `IndexOf(sq)`. */
  lemma SquareAtInjective(j: int, sq: Square)
    requires 0 <= j < 64 && OnBoard(sq) && SquareAt(j) == sq
    ensures j == IndexOf(sq)
  {
  }

  predicate IsBlank(p: Piece) {
    p.pieceColor == BlankColor
  }

  /** A record is either all `"blank"` or describes a real piece. */
  predicate Consistent(p: Piece) {
    (p.pieceColor == BlankColor <==> p.pieceType == BlankType) &&
    (p.pieceColor == BlankColor <==> p.pieceId == BLANK_ID)
  }

  function PieceOf(e: Entry): Piece {
    Piece(e.pieceColor, e.pieceType, e.pieceId)
  }

  /** 64 consistent records in page order: the record of square `sq` is record `IndexOf(sq)`,
      so record `i` is that of `SquareAt(i)`. */
  ghost predicate WellFormed(b: seq<Entry>) {
    |b| == 64 &&
    (forall i {:trigger Consistent(PieceOf(b[i]))} :: 0 <= i < 64 ==> Consistent(PieceOf(b[i]))) &&
    (forall sq {:trigger b[IndexOf(sq)].squareId} :: OnBoard(sq) ==> b[IndexOf(sq)].squareId == sq)
  }

  lemma WellFormedAt(b: seq<Entry>, i: int)
    requires WellFormed(b) && 0 <= i < 64
    ensures b[i].squareId == SquareAt(i)
  {
    IndexOfSquareAt(i);
  }

  lemma IndexOfSquareAt(i: int)
    requires 0 <= i < 64
    ensures IndexOf(SquareAt(i)) == i
  {
  }

  /** The records built from the pieces found on the page's squares, in page order. */
  function Fill(placement: seq<Piece>): (b: seq<Entry>)
    requires |placement| == 64 && forall i :: 0 <= i < 64 ==> Consistent(placement[i])
    ensures WellFormed(b)
    ensures forall i :: 0 <= i < 64 ==> PieceOf(b[i]) == placement[i] && b[i].squareId == SquareAt(i)
  {
    var b := seq(64, i requires 0 <= i < 64 =>
      Entry(SquareAt(i), placement[i].pieceColor, placement[i].pieceType, placement[i].pieceId));
    assert forall sq :: OnBoard(sq) ==> b[IndexOf(sq)].squareId == sq by {
      forall sq | OnBoard(sq) { SquareAtIndexOf(sq); }
    }
    b
  }

  /** `Array.find(e => e.squareId === id)` started at index `k`. */
  function FindFrom(b: seq<Entry>, id: Square, k: nat): Option<Entry>
    decreases |b| - k
  {
    if k >= |b| then None
    else if b[k].squareId == id then Some(b[k])
    else FindFrom(b, id, k + 1)
  }

  function Find(b: seq<Entry>, id: Square): Option<Entry> {
    FindFrom(b, id, 0)
  }

  lemma {:induction false} FindFromWellFormed(b: seq<Entry>, id: Square, k: nat)
    requires WellFormed(b) && k <= 64
    ensures FindFrom(b, id, k) ==
            if OnBoard(id) && k <= IndexOf(id) then Some(b[IndexOf(id)]) else None
    decreases 64 - k
  {
    if k < 64 {
      FindFromWellFormed(b, id, k + 1);
      WellFormedAt(b, k);
      if OnBoard(id) && b[k].squareId == id {
        SquareAtInjective(k, id);
      }
    }
  }

  /** The record of a square, found by its position: exactly the board squares have one. */
  function Lookup(b: seq<Entry>, id: Square): (r: Option<Entry>)
    requires WellFormed(b)
    ensures r.Some? <==> OnBoard(id)
    ensures r.Some? ==> r.value == b[IndexOf(id)] && r.value.squareId == id
  {
    if OnBoard(id) then Some(b[IndexOf(id)]) else None
  }

  /** On a well-formed board, the linear search `Array.find` finds exactly the record `Lookup`
      picks, and finds nothing for an id off the board. */
  lemma LookupIsFind(b: seq<Entry>, id: Square)
    requires WellFormed(b)
    ensures Find(b, id) == Lookup(b, id)
  {
    FindFromWellFormed(b, id, 0);
  }

  /** The piece on a board square (`getPieceAtSquare`). */
  function At(b: seq<Entry>, sq: Square): Piece
    requires WellFormed(b) && OnBoard(sq)
  {
    PieceOf(b[IndexOf(sq)])
  }

  /** `getPieceAtSquare`: copies the three piece fields of the record found; throws
      when the search finds nothing. */
  function GetPieceAtSquare(b: seq<Entry>, id: Square): (r: Result<Piece>)
    requires WellFormed(b)
    ensures r.Ok? <==> OnBoard(id)
    ensures r.Ok? ==> r.value == At(b, id) && Consistent(r.value)
  {
    FindFromWellFormed(b, id, 0);
    match Find(b, id)
    case None => Throws
    case Some(e) => Ok(Piece(e.pieceColor, e.pieceType, e.pieceId))
  }

  /** The condition every generator uses to stop before its own pieces:
      `squareContent != "blank" && squareContent == pieceColor`. */
  predicate Friendly(b: seq<Entry>, sq: Square, c: Color)
    requires WellFormed(b) && OnBoard(sq)
  {
    At(b, sq).pieceColor != BlankColor && At(b, sq).pieceColor == c
  }

  /** The pawn capture condition: `squareContent != "blank" && squareContent != pieceColor`. */
  predicate Hostile(b: seq<Entry>, sq: Square, c: Color)
    requires WellFormed(b) && OnBoard(sq)
  {
    At(b, sq).pieceColor != BlankColor && At(b, sq).pieceColor != c
  }

  /** The board after `updateBoardSquaresArray(from, to, b)`: the destination record takes
      the start record's colour, type and id, then the start record is set to "blank"
      (so a move onto its own square leaves that square blank). */
  function Apply(b: seq<Entry>, from: Square, to: Square): (r: seq<Entry>)
    requires WellFormed(b) && OnBoard(from) && OnBoard(to)
    ensures WellFormed(r)
    ensures from != to ==> At(r, to) == At(b, from)
    ensures At(r, from) == BLANK_PIECE
    ensures forall i :: 0 <= i < 64 && i != IndexOf(from) && i != IndexOf(to) ==> r[i] == b[i]
    ensures forall i :: 0 <= i < 64 ==> r[i].squareId == b[i].squareId
  {
    var s, d := IndexOf(from), IndexOf(to);
    var moved := b[d := b[d].(pieceColor := b[s].pieceColor, pieceType := b[s].pieceType, pieceId := b[s].pieceId)];
    var r := moved[s := moved[s].(pieceColor := BlankColor, pieceType := BlankType, pieceId := BLANK_ID)];
    assert forall i :: 0 <= i < 64 ==> Consistent(PieceOf(r[i])) by {
      forall i | 0 <= i < 64 ensures Consistent(PieceOf(r[i])) {
        assert Consistent(PieceOf(b[i])) && Consistent(PieceOf(b[s]));
      }
    }
    r
  }

  /** `deepCopyArray`: a fresh array holding the same records. */
  method DeepCopyArray(board: array<Entry>) returns (copy: array<Entry>)
    ensures fresh(copy)
    ensures copy[..] == board[..]
  {
    copy := new Entry[board.Length](i requires 0 <= i < board.Length reads board => board[i]);
  }

  /** `updateBoardSquaresArray`, in place. */
  method UpdateBoardSquaresArray(start: Square, dest: Square, board: array<Entry>)
    requires WellFormed(board[..]) && OnBoard(start) && OnBoard(dest)
    modifies board
    ensures board[..] == Apply(old(board[..]), start, dest)
    ensures start != dest ==> At(board[..], dest) == At(old(board[..]), start)
    ensures At(board[..], start) == BLANK_PIECE
    ensures forall i :: 0 <= i < 64 && i != IndexOf(start) && i != IndexOf(dest) ==> board[i] == old(board[i])
  {
    var current := board[IndexOf(start)];
    var d := IndexOf(dest);
    board[d] := board[d].(pieceColor := current.pieceColor, pieceType := current.pieceType, pieceId := current.pieceId);
    var s := IndexOf(start);
    board[s] := board[s].(pieceColor := BlankColor, pieceType := BlankType, pieceId := BLANK_ID);
  }
}
