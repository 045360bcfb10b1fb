/** The self-check filter (`isMoveValidAgainstCheck`): each candidate destination is played
    on a fresh copy of the live board, and it is dropped when the square to guard is then
    attacked. The square to guard is the destination when the mover is a king, and the
    tracked king square of the side to move otherwise. */
module Filter {
  import opened Results
  import opened Board
  import opened Seqs
  import opened Attack

  predicate AllOnBoard(squares: seq<Square>) {
    forall sq :: sq in squares ==> OnBoard(sq)
  }

  /** Whether playing `start` to `dest` leaves the guarded square attacked. */
  function Exposes(b: seq<Entry>, start: Square, dest: Square, c: Color, t: PieceType, kingSquare: Square): Result<bool>
    requires WellFormed(b) && OnBoard(start) && OnBoard(dest) && OnBoard(kingSquare)
  {
    var after := Apply(b, start, dest);
    if t != King then Attacked(after, kingSquare, c) else Attacked(after, dest, c)
  }

  /** The destinations among `candidates` that a pass of the filter rejects, in the order
      the pass meets them; `Throws` when one of the checks throws. */
  function Rejected(b: seq<Entry>, start: Square, candidates: seq<Square>, c: Color, t: PieceType, kingSquare: Square)
    : Result<set<Square>>
    requires WellFormed(b) && OnBoard(start) && OnBoard(kingSquare) && AllOnBoard(candidates)
    decreases |candidates|
  {
    if candidates == [] then Ok({})
    else
      var last := candidates[|candidates| - 1];
      var earlier :- Rejected(b, start, candidates[..|candidates| - 1], c, t, kingSquare);
      var exposed :- Exposes(b, start, last, c, t, kingSquare);
      Ok(if exposed then earlier + {last} else earlier)
  }

  /** What `isMoveValidAgainstCheck` returns: the input with every occurrence of each
      rejected destination removed. */
  function Survivors(b: seq<Entry>, start: Square, candidates: seq<Square>, c: Color, t: PieceType, kingSquare: Square)
    : Result<seq<Square>>
    requires WellFormed(b) && OnBoard(start) && OnBoard(kingSquare) && AllOnBoard(candidates)
  {
    var rejected :- Rejected(b, start, candidates, c, t, kingSquare);
    Ok(Without(candidates, rejected))
  }

  /** A pass rejects exactly the candidates whose move exposes the guarded square, and it
      throws exactly when one of the checks throws. */
  lemma {:induction false} RejectedMeaning(b: seq<Entry>, start: Square, candidates: seq<Square>, c: Color,
                                           t: PieceType, kingSquare: Square)
    requires WellFormed(b) && OnBoard(start) && OnBoard(kingSquare) && AllOnBoard(candidates)
    ensures Rejected(b, start, candidates, c, t, kingSquare).Throws? <==>
            exists sq :: sq in candidates && Exposes(b, start, sq, c, t, kingSquare).Throws?
    ensures Rejected(b, start, candidates, c, t, kingSquare).Ok? ==>
            forall sq :: sq in Rejected(b, start, candidates, c, t, kingSquare).value <==>
              sq in candidates && Exposes(b, start, sq, c, t, kingSquare) == Ok(true)
    decreases |candidates|
  {
    if candidates != [] {
      var n := |candidates| - 1;
      var front, last := candidates[..n], candidates[n];
      assert candidates == front + [last];
      assert forall sq :: sq in candidates <==> sq in front || sq == last;
      RejectedMeaning(b, start, front, c, t, kingSquare);
      var earlier := Rejected(b, start, front, c, t, kingSquare);
      var exposed := Exposes(b, start, last, c, t, kingSquare);
      if earlier.Ok? && exposed.Ok? {
        var r := Rejected(b, start, candidates, c, t, kingSquare);
        assert r == Ok(if exposed.value then earlier.value + {last} else earlier.value);
        Decided(exposed);
      }
    }
  }

  /** One more step of the pass: the verdict on candidate `i` extends the verdicts on the
      ones before it, and a check that throws makes the whole pass throw. */
  lemma RejectedNext(b: seq<Entry>, start: Square, candidates: seq<Square>, i: nat,
                     c: Color, t: PieceType, kingSquare: Square, rejected: set<Square>, verdict: Result<bool>)
    requires WellFormed(b) && OnBoard(start) && OnBoard(kingSquare) && AllOnBoard(candidates)
    requires i < |candidates| && Rejected(b, start, candidates[..i], c, t, kingSquare) == Ok(rejected)
    requires OnBoard(candidates[i]) && verdict == Exposes(b, start, candidates[i], c, t, kingSquare)
    ensures verdict.Throws? ==> Rejected(b, start, candidates, c, t, kingSquare).Throws?
    ensures verdict.Ok? ==>
              Rejected(b, start, candidates[..i + 1], c, t, kingSquare) ==
              Ok(if verdict.value then rejected + {candidates[i]} else rejected)
  {
    assert candidates[..i + 1][..i] == candidates[..i];
    if verdict.Throws? {
      RejectedPrefix(b, start, candidates, i + 1, c, t, kingSquare);
    }
  }

  /** A pass that throws on a prefix of the candidates throws on all of them. */
  lemma {:induction false} RejectedPrefix(b: seq<Entry>, start: Square, candidates: seq<Square>, i: nat,
                                          c: Color, t: PieceType, kingSquare: Square)
    requires WellFormed(b) && OnBoard(start) && OnBoard(kingSquare) && AllOnBoard(candidates)
    requires i <= |candidates| && Rejected(b, start, candidates[..i], c, t, kingSquare).Throws?
    ensures Rejected(b, start, candidates, c, t, kingSquare).Throws?
    decreases |candidates| - i
  {
    if i < |candidates| {
      var longer := candidates[..i + 1];
      assert longer[..i] == candidates[..i];
      assert Rejected(b, start, longer, c, t, kingSquare).Throws?;
      RejectedPrefix(b, start, candidates, i + 1, c, t, kingSquare);
    } else {
      assert candidates[..i] == candidates;
    }
  }

  /** The filter keeps its input's order and drops nothing else: the result lists exactly
      the candidates whose move leaves the guarded square unattacked, and the filter throws
      exactly when one of its checks does. */
  lemma SurvivorsMeaning(b: seq<Entry>, start: Square, candidates: seq<Square>, c: Color, t: PieceType,
                         kingSquare: Square)
    requires WellFormed(b) && OnBoard(start) && OnBoard(kingSquare) && AllOnBoard(candidates)
    ensures Survivors(b, start, candidates, c, t, kingSquare).Throws? <==>
            exists sq :: sq in candidates && Exposes(b, start, sq, c, t, kingSquare).Throws?
    ensures Survivors(b, start, candidates, c, t, kingSquare).Ok? ==>
            var kept := Survivors(b, start, candidates, c, t, kingSquare).value;
            IsSubsequence(kept, candidates) &&
            forall sq :: sq in kept <==> sq in candidates && Exposes(b, start, sq, c, t, kingSquare) == Ok(false)
  {
    RejectedMeaning(b, start, candidates, c, t, kingSquare);
    var r := Rejected(b, start, candidates, c, t, kingSquare);
    if r.Ok? {
      forall sq | sq in candidates
        ensures sq !in r.value <==> Exposes(b, start, sq, c, t, kingSquare) == Ok(false)
      {
        Decided(Exposes(b, start, sq, c, t, kingSquare));
      }
    }
  }

  /** The filter keeps every copy of a candidate whose move leaves the guarded square
      unattacked. */
  lemma SurvivorsCounts(b: seq<Entry>, start: Square, candidates: seq<Square>, c: Color, t: PieceType,
                        kingSquare: Square, sq: Square)
    requires WellFormed(b) && OnBoard(start) && OnBoard(kingSquare) && AllOnBoard(candidates)
    requires OnBoard(sq)
    ensures Survivors(b, start, candidates, c, t, kingSquare).Ok? && Exposes(b, start, sq, c, t, kingSquare) == Ok(false) ==>
              multiset(Survivors(b, start, candidates, c, t, kingSquare).value)[sq] == multiset(candidates)[sq]
  {
    RejectedMeaning(b, start, candidates, c, t, kingSquare);
    var r := Rejected(b, start, candidates, c, t, kingSquare);
    if r.Ok? && Exposes(b, start, sq, c, t, kingSquare) == Ok(false) {
      assert sq !in r.value;
      WithoutCounts(candidates, r.value, sq);
    }
  }

  /** A check that finishes answers either `true` or `false`. */
  lemma Decided(x: Result<bool>)
    requires x.Ok?
    ensures x != Ok(true) <==> x == Ok(false)
  {
    if x.value { assert x == Ok(true); } else { assert x == Ok(false); }
  }
}
