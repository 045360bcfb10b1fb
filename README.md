# Chess rule engine of `main.js`, modelled in Dafny

The page script `main.js` holds a chess rule engine. Its parts are:

- a board store of 64 records, `boardSquaresArray`;
- pseudo-legal move generators for each piece type;
- an attack detector, `isKingInCheck`;
- a self-check filter, `isMoveValidAgainstCheck`, which plays each candidate on a copy of the board;
- a checkmate probe (`getAllPossibleMoves`, `checkForCheckmate`);
- the `drag` and `drop` handlers, which drive all of this from the globals `isWhiteTurn`, `whiteKingSquare`, `blackKingSquare` and `checkDetectionEnabled`.

This project models that engine and proves what its parts compute.

Modules, in dependency order:

- `Results` (`results.dfy`): `Result<T> = Ok(value) | Throws`. `Throws` stands for a JavaScript handler that aborts with an exception. That happens when code reads `.pieceColor` of the `undefined` that `Array.find` returns for an id off the board, or calls a function that is not defined. `Option<T>` is also here.
- `Seqs` (`seqs.dfy`): subsequences, and `Without`, the "remove every occurrence" that `Array.filter` performs.
- `Board` (`board.dfy`): squares, records, page order, the linear `Array.find` search, and `getPieceAtSquare`. It also has `updateBoardSquaresArray` (an in-place method on an `array`, proved against the function `Apply`) and `deepCopyArray`.
- `Moves` (`moves.dfy`): the eight ray walks as one `while`-loop method `Walk`, proved against the recursive function `Ray`. It also has the rook, bishop and queen concatenations, the knight and king offset-table loops, the two pawn sub-generators, and the `getPossibleMoves` dispatch.
- `Attack` (`attack.dfy`): `isKingInCheck` as five scans in the source's order, proved against the function `Attacked`. `AttackedMeaning` restates it in chess terms: lines of sight, pawn diagonals, knight and king offsets.
- `Filter` (`filter.dfy`): what `isMoveValidAgainstCheck` returns, as the functions `Rejected` and `Survivors`, with their meaning proved.
- `Mate` (`mate.dfy`): `getAllPossibleMoves` as a concatenation of per-record contributions, and the `checkForCheckmate` decision, both as written and corrected.
- `Game` (`game.dfy`): the globals as the class `ChessGame`, whose methods mirror the handlers and helpers that read the globals. Each method is proved equal to a pure function of a `GameState` snapshot (`DragStep`, `DropStep`, `Survivors`, `AllPossibleMoves`, `Checkmate`). The promises of a drop are lemmas about `DropStep`.

Square ids such as `"e4"` are modelled as `Square(file, rank)` with file 0..7 for `a`..`h`. `Board.SquareIdInjective` shows that comparing ids, as the engine does, is comparing squares.

The engine's known quirks are preserved, not repaired:

- An off-board lookup in the pawn code throws. This covers a pawn on the far rank, and `isKingInCheck` for a white king on rank 8 or a black king on rank 1.
- In chess the two-step pawn move is allowed only from each colour's home rank; the code tries it from rank 2 or rank 7 for either colour (main.js:386), and the model follows the code. So a white pawn on rank 7 with a blank square ahead makes `checkPawnForwardMoves` throw when it looks up rank 9.
- The offset-table loops `return` from the callback, which only skips that offset.
- The filter removes every copy of a rejected square.
- A king capture ends the game without updating the board.
- The king squares move only while check detection is on.
- In chess, checkmate ends the game; the code only shows a message (main.js:765-772) and leaves the pieces draggable, and the model follows the code.

## Model

| member | source | states |
|---|---|---|
| Board.SquareAt | main.js:50-51 | record `i` is the board square with file `i%8` and rank `8-floor(i/8)` |
| Board.SquareIdInjective | main.js:53 | two square ids built as letter plus digit are equal exactly when the squares are |
| Board.Fill | main.js:45-75 | the records built in page order are well formed; record `i` holds square `i`'s piece and id |
| Board.LookupIsFind | main.js:312-320 | on a well-formed board the linear `find` by square id returns exactly the record at that square's index, and nothing for an id off the board |
| Board.GetPieceAtSquare | main.js:312-320 | the lookup succeeds exactly for board squares and returns that square's colour, type and id; an id off the board throws |
| Board.Apply | main.js:254-266 | after the update the destination holds the start's former piece (start and destination distinct), the start is all blank, every other record is unchanged, and no square id changes |
| Board.UpdateBoardSquaresArray | main.js:254-266 | the in-place update leaves the array equal to `Apply` of its old contents, with the same frame facts |
| Board.DeepCopyArray | main.js:34-43 | the copy is a fresh array with the same records |
| Moves.RaySquares | main.js:439-460 | a walk returns squares in step order along its direction, never one of the mover's colour, and every one but the last is blank |
| Moves.RayStop | main.js:439-460 | a walk whose last square is blank, or that returns nothing, stopped at the board edge or in front of a piece of the mover's colour |
| Moves.RayMembers | main.js:542-566 | a square is returned by a walk exactly when it is in line of sight along that direction: on the board, clear path, not the mover's colour |
| Moves.RayMember | main.js:485-508 | every square of a walk is on the board, differs from the start, and lies on the walk's rank, file or diagonal |
| Moves.Walk | main.js:439-644 | each of the eight `while` walks returns exactly `Ray` for its direction |
| Moves.RookMoves | main.js:430-437 | rook candidates are board squares other than the start, free of the mover's pieces, on the start's file or rank |
| Moves.GetRookMoves | main.js:430-437 | the method returns the four rank/file walks concatenated in source order |
| Moves.BishopMoves | main.js:533-540 | bishop candidates are board squares other than the start, free of the mover's pieces, on a diagonal through the start |
| Moves.GetBishopMoves | main.js:533-540 | the method returns the four diagonal walks concatenated in source order |
| Moves.QueenMoves | main.js:646-655 | a queen candidate is exactly a bishop candidate or a rook candidate |
| Moves.GetQueenMoves | main.js:646-655 | the method returns the bishop moves followed by the rook moves |
| Moves.HopsSquares | main.js:401-428 | offset-table results are board squares free of the mover's pieces, in the order of the offset table |
| Moves.HopsMembers | main.js:657-685 | a square is an offset-table result exactly when it is the start plus a listed offset, on the board, and not of the mover's colour |
| Moves.HopMoves | main.js:412-426 | the `forEach` loop, where `return` skips an offset, computes exactly `Hops` |
| Moves.GetKnightMoves | main.js:401-428 | knight moves are on the board, free of the mover's pieces, and a subsequence of the start plus the eight knight offsets |
| Moves.GetKingMoves | main.js:657-685 | king moves are on the board, free of the mover's pieces, and a subsequence of the start plus the eight king offsets |
| Moves.DiagonalCandidate | main.js:345-356 | one pass of the capture loop throws exactly when its file is inside a..h and the forward rank is off the board |
| Moves.PawnDiagonal | main.js:331-358 | the captures throw exactly when the forward rank is off the board; otherwise they are the left then the right diagonal square when it holds a piece of another colour |
| Moves.PawnDiagonalMembers | main.js:331-358 | a capture square is exactly a board square one rank forward and one file aside holding a piece of another colour |
| Moves.CheckPawnDiagonalCaptures | main.js:331-358 | the two-pass `for` loop over the live array returns exactly `PawnDiagonal` |
| Moves.PawnForward | main.js:362-399 | the result is exactly `[]` when the square ahead is occupied, otherwise the square ahead followed by the square two ahead exactly when the pawn stands on rank 2 or 7 and both squares are blank; an off-board lookup throws |
| Moves.GetPawnMoves | main.js:322-327 | the pawn moves are the captures followed by the forward moves, and throw when either part does |
| Moves.PossibleMoves | main.js:268-299 | only the pawn generator can throw; every candidate is a board square free of the mover's pieces |
| Moves.GetPossibleMoves | main.js:268-299 | the dispatch over the live array returns exactly `PossibleMoves` for the piece's type |
| Attack.ScanFor | main.js:692-696 | one `for ... of` scan with its early `return true` finds an attacker exactly when one of the listed squares holds an enemy piece of the wanted kinds |
| Attack.IsKingInCheck | main.js:688-727 | the five scans, in source order and with their early returns, compute exactly `Attacked` and leave the board unchanged |
| Attack.RookScan | main.js:691-696 | the rook scan finds an attacker exactly when an enemy rook or queen is in line of sight along the rank or file |
| Attack.BishopScan | main.js:698-703 | the bishop scan finds an attacker exactly when an enemy bishop or queen is in line of sight along a diagonal |
| Attack.PawnScan | main.js:705-710 | when the forward rank exists, the pawn scan finds an attacker exactly when an enemy pawn stands diagonally forward |
| Attack.HopScan | main.js:712-724 | the knight and king scans find an attacker exactly when an enemy knight, or king, stands one listed offset away |
| Attack.AttackedMeaning | main.js:688-727 | the check answer is `true` for an enemy rook or queen, or bishop or queen, in line of sight; failing that it throws when the forward rank is off the board; otherwise it is whether an enemy pawn, knight or king stands where it could capture |
| Filter.RejectedMeaning | main.js:732-750 | a pass rejects exactly the candidates whose move leaves the guarded square attacked, and throws exactly when one check throws |
| Filter.RejectedNext | main.js:737-747 | each candidate's verdict extends the verdicts on the candidates before it; a throwing check makes the pass throw |
| Filter.RejectedPrefix | main.js:736-747 | a pass that throws on a prefix of the candidates throws on all of them |
| Filter.SurvivorsMeaning | main.js:732-750 | the filtered list is a subsequence of the input; it contains exactly the candidates whose move, played on a copy, leaves the guarded square unattacked (the destination for a king, else the tracked king square); it throws exactly when a check throws |
| Filter.SurvivorsCounts | main.js:732-750 | every copy of a candidate whose move leaves the guarded square unattacked stays in the filtered list |
| Mate.CollectMeaning | main.js:796-804 | the `flatMap` concatenation throws exactly when one part does; otherwise its members are exactly the parts' members, and it is empty exactly when every part is |
| Mate.PieceMovesMeaning | main.js:796-804 | a record contributes exactly the candidates of its piece, if its colour is the side's and it is not blank, that survive the filter |
| Mate.AllPossibleMovesMeaning | main.js:795-805 | all moves of a side throw exactly when one record's computation throws; otherwise they are exactly the squares some record contributes, and empty exactly when every record contributes nothing |
| Mate.CheckmateMeaning | main.js:754-773 | checkmate is announced exactly when the tracked king square is attacked and no record of the side to move contributes a move; it is denied exactly when the king is safe or a move exists |
| Mate.MateLostAsWritten | main.js:754-773 | as written, checkmate is never announced: whenever the king is in check the handler throws, in every position where the corrected decision calls mate; otherwise both decisions agree |
| Seqs.Without | main.js:741 | removing every occurrence of a set of squares keeps exactly the other members, in order |
| Seqs.WithoutWithout | main.js:741-745 | removing in two rounds removes the union |
| Seqs.WithoutCounts | main.js:741-745 | every copy of a square that is not removed is kept, so the number of occurrences is unchanged |
| Game.DragMeaning | main.js:117-147 | a drag goes ahead exactly for a piece of the side to move while moves are enabled; its candidates are board squares free of the mover's pieces, and only a pawn's drag can throw |
| Game.DropTurn | main.js:197-249 | the turn passes exactly when a move is played or a king is captured |
| Game.DropRefusedUnchanged | main.js:150-190 | a drop that is ignored, refused by the filter or the king check, or aborted leaves every global as it was |
| Game.DropMovedLands | main.js:168-249 | a played move went through the filter, which kept the destination, and ended in the landing branch |
| Game.DropMoved | main.js:197-249 | a played move is a dragged candidate, distinct from the start, onto an empty or enemy non-king square; the board becomes the move applied, the switch and the disabled flag are kept, and the checkmate test runs for the side now to move |
| Game.DropKingCaptured | main.js:208-246 | a king capture leaves the board as it was, disables all moves and names the mover's side as winner |
| Game.DropKingSquares | main.js:190-195 | a tracked king square changes only with check detection on, when the side to move drops its king, and it becomes the destination |
| Game.LandLeavesKingSafe | main.js:197-249 | a landed move that the filter let through leaves the mover's guarded square unattacked on the new board |
| Game.DropLeavesKingSafe | main.js:168-249 | with check detection on, a played move never leaves the mover's tracked king square attacked |
| Game.LandKeepsKingsTracked | main.js:197-249 | a landed move of the side to move onto an empty or enemy non-king square keeps the tracked squares on the two kings |
| Game.DropKeepsKingsTracked | main.js:168-249 | with check detection on, a drop by the side to move keeps the tracked squares on the two kings, unless it captures a king |
| Game.ChessGame.constructor | main.js:2-7 | the page load: the records in page order, white to move, kings tracked on e1 and e8, check detection off |
| Game.ChessGame.ToggleCheckDetection | main.js:14-17 | the check button flips the switch and changes nothing else |
| Game.ChessGame.Drag | main.js:117-147 | the drag handler returns exactly `DragStep` of the globals |
| Game.ChessGame.TryCandidate | main.js:738-746 | playing one candidate on a fresh copy and checking the guarded square gives exactly `Exposes` on the live board |
| Game.ChessGame.IsMoveValidAgainstCheck | main.js:732-750 | the loop over a copy of the candidates returns exactly `Survivors` for the live board, the turn and the tracked king square |
| Game.ChessGame.MovesOfRecord | main.js:796-804 | the `filter` and `flatMap` callback for one record returns exactly `PieceMoves` |
| Game.ChessGame.GetAllPossibleMoves | main.js:795-805 | the method returns exactly `AllPossibleMoves` of its array against the live board |
| Game.ChessGame.CheckForCheckmate | main.js:754-773 | the decision, with the call to the missing `highlightCheckedKing` dropped, returns exactly `Checkmate` for the side to move |
| Game.ChessGame.LandDrop | main.js:197-249 | the two closing branches of `drop` change the globals exactly as `Land` says |
| Game.ChessGame.Drop | main.js:150-249 | the drop handler changes the globals and ends exactly as `DropStep` says, and keeps the state valid |

## Left out

- The DOM is not modelled: `querySelector` reads, element ids, `appendChild`/`removeChild`, the captured-piece `<img>`, alerts and `setTimeout`, and the highlight helpers (`highlightActivePieces`, `highlightLegalSquares`, `clearHighlightedSquares`, the "highlightBtn" switch). These are presentation only. `Fill` takes the pieces found on the 64 squares as a parameter.
- The drag-and-drop transport is not modelled: `dataTransfer`, the `"pieceId|squareId"` text, and `JSON.stringify`/`JSON.parse`. The candidate list reaches `Drop` as an `Option`. `None` stands for an empty JSON payload: no drag, or a drag that was blocked or threw before it sent the list.
- Drag, Drop, DragStep, DropStep: read the mover's colour and type from the board record at the start square, not from the dragged element's `color` attribute and class (main.js:120-122, 162-163). The two agree after every move. They part only after a king capture, which moves the element (main.js:213-216) and leaves the array as it was (main.js:234-245), and from then on every piece is undraggable.
- `disableAllMoves` is the flag `movesDisabled`, which `Drag` consults in place of the `draggable` attribute.
- The restart button (`location.reload`) is not modelled; it rebuilds the page, which is the constructor again.
- Castling, en passant and promotion are absent from the code and not added.
- Moves.PossibleMoves: requires a piece that is not blank. The source's dispatch falls through and returns `undefined` for a blank record, but neither caller ever passes one. Its promise does not state that the start square is never a candidate; `RookMoves` and `BishopMoves` state it for the sliding pieces.
- Filter.Survivors, Game.ChessGame.IsMoveValidAgainstCheck: require candidates on the board. Every list the engine builds holds only board squares (`PossibleMoves` proves it), and the JSON transport is not modelled.
- Game.DropKeepsKingsTracked: holds only with check detection on and for a piece of the side to move. With detection off, the king squares are not updated (main.js:190-195), so the invariant is not kept.
- Game.ChessGame.CheckForCheckmate: models the decision with `highlightCheckedKing` treated as doing nothing. The as-written behaviour is `Mate.CheckmateAsWritten` (see Findings).
- Stalemate is not distinguished from a game that goes on, as in the source.

## Findings

| source | as written | input that shows it | evidently intended | confidence | as-written member | corrected member |
|---|---|---|---|---|---|---|
| main.js:760 | `checkForCheckmate` calls `highlightCheckedKing()`, whose definition at main.js:775-788 is commented out, so the call throws a `ReferenceError` as soon as the side to move is found in check | any move after which the side to move is in check, for example a mate position such as a white king on h1, black king on h3 and black queen on g2, white to move | skip or perform the highlight, then count the moves and announce mate when there are none | not executed | Mate.MateLostAsWritten | Mate.CheckmateMeaning |
