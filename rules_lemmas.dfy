/**
  Properties of the Dots and Boxes rules in module Rules: the starting
  position, what a move changes and what it leaves alone, the invariant tying
  scores and owners to the drawn segments, and the end of the game.
 */
module RulesLemmas {
  import opened Grid
  import opened Rules

  /** The boxes whose fourth side is drawn in `t` but not yet in `s`. */
  ghost function NewlyClosed(s: State, t: State): set<(int, int)>
    requires Shaped(s) && Shaped(t) && SameBoard(s, t)
  {
    set r, c | 0 <= r < s.rows - 1 && 0 <= c < s.cols - 1 && BoxClosed(t, r, c) && !BoxClosed(s, r, c) :: (r, c)
  }

  /** Moves applied one after another, as a caller of `make_move` would. */
  function Play(s: State, moves: seq<(LineType, int, int)>): (t: State)
    requires Shaped(s)
    ensures Shaped(t) && SameBoard(s, t)
    decreases |moves|
  {
    if moves == [] then s
    else Play(Move(s, moves[0].0, moves[0].1, moves[0].2).0, moves[1..])
  }

  /**
    The constructor leaves every segment undrawn, every box unowned, both
    scores 0 and player 1 to move; the invariant holds, and the game is over
    from the start only on the board with a single dot.
   */
  lemma InitialState(rows: int, cols: int)
    requires rows >= 1 && cols >= 1
    ensures var s := Init(rows, cols);
      && (forall i, j :: 0 <= i < rows && 0 <= j < cols - 1 ==> !s.h[i][j])
      && (forall i, j :: 0 <= i < rows - 1 && 0 <= j < cols ==> !s.v[i][j])
      && (forall r, c :: IsBox(s, r, c) ==> s.owners[r][c] == NoOwner)
      && s.scores[1] == 0 && s.scores[2] == 0 && s.current == 1
      && Inv(s)
      && (IsGameOver(s) <==> rows == 1 && cols == 1)
  {
    var s := Init(rows, cols);
    CountAbsent(s.owners, 1);
    CountAbsent(s.owners, 2);
    if cols > 1 {
      assert !s.h[0][0];
    } else if rows > 1 {
      assert !s.v[0][0];
    }
  }

  /**
    Any move, accepted or not, leaves every segment as it was except the one
    it names, which is drawn afterwards when it is in bounds.
   */
  lemma SegmentsAfterMove(s: State, lt: LineType, row: int, col: int)
    requires Shaped(s)
    ensures var t := Move(s, lt, row, col).0;
      && (forall i, j :: 0 <= i < s.rows && 0 <= j < s.cols - 1 ==>
            t.h[i][j] == (s.h[i][j] || (lt == H && i == row && j == col)))
      && (forall i, j :: 0 <= i < s.rows - 1 && 0 <= j < s.cols ==>
            t.v[i][j] == (s.v[i][j] || (lt == V && i == row && j == col)))
  {
  }

  /** Repeating a move has no effect: the segment is drawn or the move was never legal. */
  lemma RepeatIsRejected(s: State, lt: LineType, row: int, col: int)
    requires Shaped(s)
    ensures var t := Move(s, lt, row, col).0;
      !Legal(t, lt, row, col) && Move(t, lt, row, col) == (t, false)
  {
    SegmentsAfterMove(s, lt, row, col);
  }

  /** Drawing a segment can close only the boxes beside it, and those were open before. */
  lemma DrawClosesOnlyAdjacent(s: State, lt: LineType, row: int, col: int)
    requires Shaped(s) && Legal(s, lt, row, col)
    ensures var d := Draw(s, lt, row, col);
      && (forall r, c :: IsBox(s, r, c) && !Adjacent(lt, row, col, r, c) ==>
            (BoxClosed(d, r, c) <==> BoxClosed(s, r, c)))
      && (forall r, c :: IsBox(s, r, c) && Adjacent(lt, row, col, r, c) ==> !BoxClosed(s, r, c))
  {
  }

  /** One box test, seen at one box: only the tested box can change, and it goes to the mover. */
  lemma ClaimIfOwnerAt(s: State, cond: bool, r: int, c: int, i: int, j: int)
    requires Shaped(s) && (cond ==> IsBox(s, r, c)) && IsBox(s, i, j)
    ensures ClaimIf(s, cond, r, c).0.owners[i][j]
            == if cond && i == r && j == c then s.current else s.owners[i][j]
  {
  }

  /** One box test: the mover gains a point per claimed box, and scores still count boxes. */
  lemma ClaimIfScores(s: State, cond: bool, r: int, c: int)
    requires Shaped(s) && (cond ==> IsBox(s, r, c) && s.owners[r][c] == NoOwner)
    ensures var t := ClaimIf(s, cond, r, c).0;
      && t.scores[s.current] == s.scores[s.current] + (if cond then 1 else 0)
      && t.scores[3 - s.current] == s.scores[3 - s.current]
      && (ScoresMatch(s) ==> ScoresMatch(t))
  {
    if cond {
      CountSet(s.owners, r, c, s.current, 1);
      CountSet(s.owners, r, c, s.current, 2);
    }
  }

  /** Two box tests on different boxes, one after the other: the owners. */
  lemma TwoClaimsOwners(d: State, a: bool, ar: int, ac: int, b: bool, br: int, bc: int)
    requires Shaped(d)
    requires a ==> IsBox(d, ar, ac)
    requires b ==> IsBox(d, br, bc)
    ensures var s2 := ClaimIf(ClaimIf(d, a, ar, ac).0, b, br, bc).0;
      forall r, c :: IsBox(d, r, c) ==>
        s2.owners[r][c] == if (a && r == ar && c == ac) || (b && r == br && c == bc)
                           then d.current else d.owners[r][c]
  {
    var s1 := ClaimIf(d, a, ar, ac).0;
    var s2 := ClaimIf(s1, b, br, bc).0;
    forall r, c | IsBox(d, r, c)
      ensures s2.owners[r][c] == if (a && r == ar && c == ac) || (b && r == br && c == bc)
                                 then d.current else d.owners[r][c]
    {
      ClaimIfOwnerAt(d, a, ar, ac, r, c);
      ClaimIfOwnerAt(s1, b, br, bc, r, c);
    }
  }

  /** Two box tests on different unowned boxes, one after the other: the scores. */
  lemma TwoClaimsScores(d: State, a: bool, ar: int, ac: int, b: bool, br: int, bc: int)
    requires Shaped(d) && (ar != br || ac != bc)
    requires a ==> IsBox(d, ar, ac) && d.owners[ar][ac] == NoOwner
    requires b ==> IsBox(d, br, bc) && d.owners[br][bc] == NoOwner
    ensures var s2 := ClaimIf(ClaimIf(d, a, ar, ac).0, b, br, bc).0;
      && s2.scores[d.current] == d.scores[d.current] + (if a then 1 else 0) + (if b then 1 else 0)
      && s2.scores[3 - d.current] == d.scores[3 - d.current]
      && (ScoresMatch(d) ==> ScoresMatch(s2))
  {
    var s1 := ClaimIf(d, a, ar, ac).0;
    ClaimIfScores(d, a, ar, ac);
    if b {
      ClaimIfOwnerAt(d, a, ar, ac, br, bc);
    }
    ClaimIfScores(s1, b, br, bc);
  }

  /** The first box test of `check_boxes_after_move`, read as "closed and unowned". */
  lemma FirstTest(d: State, lt: LineType, row: int, col: int)
    requires Shaped(d) && InBounds(d, lt, row, col) && IsDrawn(d, lt, row, col)
    ensures var ar := if lt == H then row - 1 else row;
      var ac := if lt == H then col else col - 1;
      var a0 := if lt == H
                then row > 0 && d.h[row - 1][col] && d.v[row - 1][col] && d.v[row - 1][col + 1]
                     && d.owners[row - 1][col] == NoOwner
                else col > 0 && d.v[row][col - 1] && d.h[row][col - 1] && d.h[row + 1][col - 1]
                     && d.owners[row][col - 1] == NoOwner;
      a0 == (IsBox(d, ar, ac) && BoxClosed(d, ar, ac) && d.owners[ar][ac] == NoOwner)
  {
  }

  /** The second box test of `check_boxes_after_move`, read as "closed and unowned". */
  lemma SecondTest(d: State, s1: State, lt: LineType, row: int, col: int)
    requires Shaped(d) && InBounds(d, lt, row, col) && IsDrawn(d, lt, row, col)
    requires Shaped(s1) && SameBoard(d, s1) && s1.h == d.h && s1.v == d.v
    requires IsBox(d, row, col) ==> s1.owners[row][col] == d.owners[row][col]
    ensures var b0 := if lt == H
                then row < s1.rows - 1 && s1.h[row + 1][col] && s1.v[row][col] && s1.v[row][col + 1]
                     && s1.owners[row][col] == NoOwner
                else col < s1.cols - 1 && s1.v[row][col + 1] && s1.h[row][col] && s1.h[row + 1][col]
                     && s1.owners[row][col] == NoOwner;
      b0 == (IsBox(d, row, col) && BoxClosed(d, row, col) && d.owners[row][col] == NoOwner)
  {
  }

  /**
    Once the segment is drawn, `check_boxes_after_move` claims the box before
    the segment (above, or to the left) and the box after it (below, or to
    the right) when each is closed and unowned, and passes the turn only when
    it claimed neither.
   */
  lemma CheckBoxesClaims(d: State, lt: LineType, row: int, col: int)
    requires Shaped(d) && InBounds(d, lt, row, col) && IsDrawn(d, lt, row, col)
    ensures var ar := if lt == H then row - 1 else row;
      var ac := if lt == H then col else col - 1;
      var a := IsBox(d, ar, ac) && BoxClosed(d, ar, ac) && d.owners[ar][ac] == NoOwner;
      var b := IsBox(d, row, col) && BoxClosed(d, row, col) && d.owners[row][col] == NoOwner;
      var s2 := ClaimIf(ClaimIf(d, a, ar, ac).0, b, row, col).0;
      CheckBoxes(d, lt, row, col) == (if a || b then s2 else s2.(current := 3 - s2.current), a || b)
  {
    var ar := if lt == H then row - 1 else row;
    var ac := if lt == H then col else col - 1;
    FirstTest(d, lt, row, col);
    var a := IsBox(d, ar, ac) && BoxClosed(d, ar, ac) && d.owners[ar][ac] == NoOwner;
    var s1 := ClaimIf(d, a, ar, ac).0;
    if IsBox(d, row, col) {
      ClaimIfOwnerAt(d, a, ar, ac, row, col);
    }
    SecondTest(d, s1, lt, row, col);
  }

  /** Under the invariant, a legal move claims exactly the neighbouring boxes its segment closes. */
  lemma LegalMoveClaims(s: State, lt: LineType, row: int, col: int)
    requires Inv(s) && Legal(s, lt, row, col)
    ensures var d := Draw(s, lt, row, col);
      var ar := if lt == H then row - 1 else row;
      var ac := if lt == H then col else col - 1;
      var a := IsBox(s, ar, ac) && BoxClosed(d, ar, ac);
      var b := IsBox(s, row, col) && BoxClosed(d, row, col);
      var s2 := ClaimIf(ClaimIf(d, a, ar, ac).0, b, row, col).0;
      && (a ==> d.owners[ar][ac] == NoOwner)
      && (b ==> d.owners[row][col] == NoOwner)
      && Move(s, lt, row, col) == (if a || b then s2 else s2.(current := 3 - s2.current), a || b)
  {
    var d := Draw(s, lt, row, col);
    var ar := if lt == H then row - 1 else row;
    var ac := if lt == H then col else col - 1;
    DrawClosesOnlyAdjacent(s, lt, row, col);
    assert Adjacent(lt, row, col, ar, ac) && Adjacent(lt, row, col, row, col);
    CheckBoxesClaims(d, lt, row, col);
  }

  /**
    The boxes a legal move closes are the closed ones among the (at most two)
    beside its segment; `t` is any game whose segments are those of the drawn
    board, such as the one the move produces.
   */
  lemma NewlyClosedByMove(s: State, t: State, lt: LineType, row: int, col: int)
    requires Shaped(s) && Legal(s, lt, row, col)
    requires Shaped(t) && SameBoard(s, t)
    requires t.h == Draw(s, lt, row, col).h && t.v == Draw(s, lt, row, col).v
    ensures var d := Draw(s, lt, row, col);
      var ar := if lt == H then row - 1 else row;
      var ac := if lt == H then col else col - 1;
      var a := IsBox(s, ar, ac) && BoxClosed(d, ar, ac);
      var b := IsBox(s, row, col) && BoxClosed(d, row, col);
      NewlyClosed(s, t) == (if a then {(ar, ac)} else {}) + (if b then {(row, col)} else {})
  {
    var d := Draw(s, lt, row, col);
    var ar := if lt == H then row - 1 else row;
    var ac := if lt == H then col else col - 1;
    var a := IsBox(s, ar, ac) && BoxClosed(d, ar, ac);
    var b := IsBox(s, row, col) && BoxClosed(d, row, col);
    var e := (if a then {(ar, ac)} else {}) + (if b then {(row, col)} else {});
    var nc := NewlyClosed(s, t);
    DrawClosesOnlyAdjacent(s, lt, row, col);
    forall x | x in nc ensures x in e {
      var r, c := x.0, x.1;
      assert BoxClosed(d, r, c) && !BoxClosed(s, r, c);
      assert Adjacent(lt, row, col, r, c);
    }
    forall x | x in e ensures x in nc {
      assert Adjacent(lt, row, col, x.0, x.1);
      assert BoxClosed(t, x.0, x.1) && !BoxClosed(s, x.0, x.1);
    }
  }

  /**
    The result of the two box tests after a legal move, for a game `t` whose
    segments are those of the drawn board `d` and whose owners and scores are
    those the tests produce: owners change exactly at the newly closed boxes.
   */
  lemma ClaimsOwners(s: State, lt: LineType, row: int, col: int, t: State)
    requires Shaped(s) && Legal(s, lt, row, col)
    requires Shaped(t) && SameBoard(s, t)
    requires var d := Draw(s, lt, row, col);
      var ar := if lt == H then row - 1 else row;
      var ac := if lt == H then col else col - 1;
      var a := IsBox(s, ar, ac) && BoxClosed(d, ar, ac);
      var b := IsBox(s, row, col) && BoxClosed(d, row, col);
      && t.h == d.h && t.v == d.v
      && t.owners == ClaimIf(ClaimIf(d, a, ar, ac).0, b, row, col).0.owners
    ensures forall r, c :: IsBox(s, r, c) ==>
      t.owners[r][c] == if (r, c) in NewlyClosed(s, t) then s.current else s.owners[r][c]
  {
    var d := Draw(s, lt, row, col);
    var ar := if lt == H then row - 1 else row;
    var ac := if lt == H then col else col - 1;
    var a := IsBox(s, ar, ac) && BoxClosed(d, ar, ac);
    var b := IsBox(s, row, col) && BoxClosed(d, row, col);
    NewlyClosedByMove(s, t, lt, row, col);
    TwoClaimsOwners(d, a, ar, ac, b, row, col);
    forall r, c | IsBox(s, r, c)
      ensures t.owners[r][c] == if (r, c) in NewlyClosed(s, t) then s.current else s.owners[r][c]
    {
      assert ((r, c) in NewlyClosed(s, t)) == ((a && r == ar && c == ac) || (b && r == row && c == col));
    }
  }

  /** A legal move closes at most two boxes, all beside its segment: one per closed neighbour. */
  lemma NewlyClosedCount(s: State, lt: LineType, row: int, col: int, t: State)
    requires Shaped(s) && Legal(s, lt, row, col)
    requires Shaped(t) && SameBoard(s, t)
    requires t.h == Draw(s, lt, row, col).h && t.v == Draw(s, lt, row, col).v
    ensures forall b :: b in NewlyClosed(s, t) ==> Adjacent(lt, row, col, b.0, b.1)
    ensures var d := Draw(s, lt, row, col);
      var ar := if lt == H then row - 1 else row;
      var ac := if lt == H then col else col - 1;
      |NewlyClosed(s, t)| == (if IsBox(s, ar, ac) && BoxClosed(d, ar, ac) then 1 else 0)
                             + (if IsBox(s, row, col) && BoxClosed(d, row, col) then 1 else 0)
  {
    var d := Draw(s, lt, row, col);
    var ar := if lt == H then row - 1 else row;
    var ac := if lt == H then col else col - 1;
    NewlyClosedByMove(s, t, lt, row, col);
    assert Adjacent(lt, row, col, ar, ac) && Adjacent(lt, row, col, row, col);
    assert (ar, ac) != (row, col);
  }

  /**
    The result of the two box tests after a legal move, under the invariant:
    the mover gains one point for each box the move closes, the other player
    none.
   */
  lemma ClaimsScores(s: State, lt: LineType, row: int, col: int, t: State)
    requires Inv(s) && Legal(s, lt, row, col)
    requires Shaped(t) && SameBoard(s, t)
    requires var d := Draw(s, lt, row, col);
      var ar := if lt == H then row - 1 else row;
      var ac := if lt == H then col else col - 1;
      var a := IsBox(s, ar, ac) && BoxClosed(d, ar, ac);
      var b := IsBox(s, row, col) && BoxClosed(d, row, col);
      && t.h == d.h && t.v == d.v
      && t.scores == ClaimIf(ClaimIf(d, a, ar, ac).0, b, row, col).0.scores
    ensures t.scores[s.current] == s.scores[s.current] + |NewlyClosed(s, t)|
    ensures t.scores[3 - s.current] == s.scores[3 - s.current]
  {
    var d := Draw(s, lt, row, col);
    var ar := if lt == H then row - 1 else row;
    var ac := if lt == H then col else col - 1;
    var a := IsBox(s, ar, ac) && BoxClosed(d, ar, ac);
    var b := IsBox(s, row, col) && BoxClosed(d, row, col);
    NewlyClosedCount(s, lt, row, col, t);
    DrawClosesOnlyAdjacent(s, lt, row, col);
    assert Adjacent(lt, row, col, ar, ac) && Adjacent(lt, row, col, row, col);
    TwoClaimsScores(d, a, ar, ac, b, row, col);
  }

  /**
    What `make_move` does, for a game that satisfies the invariant. A rejected
    move returns false and changes nothing. An accepted move completes at
    most two boxes, all beside its segment; exactly those boxes go to the
    mover, whose score rises by their number while the other score stays;
    the result is true iff some box was completed, and only then does the
    mover keep the turn.
   */
  lemma MoveOutcome(s: State, lt: LineType, row: int, col: int)
    requires Inv(s)
    ensures !Legal(s, lt, row, col) ==> Move(s, lt, row, col) == (s, false)
    ensures var t := Move(s, lt, row, col);
      && (forall b :: b in NewlyClosed(s, t.0) ==> Adjacent(lt, row, col, b.0, b.1))
      && |NewlyClosed(s, t.0)| <= 2
      && (t.1 <==> |NewlyClosed(s, t.0)| > 0)
      && (forall r, c :: IsBox(s, r, c) ==>
            t.0.owners[r][c] == if (r, c) in NewlyClosed(s, t.0) then s.current else s.owners[r][c])
      && t.0.scores[s.current] == s.scores[s.current] + |NewlyClosed(s, t.0)|
      && t.0.scores[3 - s.current] == s.scores[3 - s.current]
      && t.0.current == if t.1 || !Legal(s, lt, row, col) then s.current else 3 - s.current
  {
    if !Legal(s, lt, row, col) {
      assert NewlyClosed(s, s) == {};
    } else {
      var t := Move(s, lt, row, col);
      LegalMoveClaims(s, lt, row, col);
      ClaimsOwners(s, lt, row, col, t.0);
      ClaimsScores(s, lt, row, col, t.0);
      NewlyClosedCount(s, lt, row, col, t.0);
    }
  }

  /** After any move, each score is still the number of boxes its player owns. */
  lemma MoveKeepsScoresMatch(s: State, lt: LineType, row: int, col: int)
    requires Inv(s)
    ensures ScoresMatch(Move(s, lt, row, col).0)
  {
    if Legal(s, lt, row, col) {
      var d := Draw(s, lt, row, col);
      var ar := if lt == H then row - 1 else row;
      var ac := if lt == H then col else col - 1;
      var a := IsBox(s, ar, ac) && BoxClosed(d, ar, ac);
      var b := IsBox(s, row, col) && BoxClosed(d, row, col);
      LegalMoveClaims(s, lt, row, col);
      TwoClaimsScores(d, a, ar, ac, b, row, col);
    }
  }

  /** Every move keeps the invariant: owners are None, 1 or 2, owned iff closed, scores count boxes. */
  lemma MovePreservesInv(s: State, lt: LineType, row: int, col: int)
    requires Inv(s)
    ensures Inv(Move(s, lt, row, col).0)
  {
    var t := Move(s, lt, row, col).0;
    SegmentsAfterMove(s, lt, row, col);
    MoveOutcome(s, lt, row, col);
    MoveKeepsScoresMatch(s, lt, row, col);
    forall r, c | IsBox(t, r, c)
      ensures t.owners[r][c] != NoOwner <==> BoxClosed(t, r, c)
    {
      if (r, c) !in NewlyClosed(s, t) {
        assert BoxClosed(s, r, c) ==> BoxClosed(t, r, c);
      }
    }
  }

  /**
    Ownership is final: a move never changes an owned box, and a box gains an
    owner only when it had none, all four sides are now drawn, and the owner
    is the player who moved.
   */
  lemma OwnershipIsFinal(s: State, lt: LineType, row: int, col: int)
    requires Inv(s)
    ensures var t := Move(s, lt, row, col).0;
      && (forall r, c :: IsBox(s, r, c) && s.owners[r][c] != NoOwner ==>
            t.owners[r][c] == s.owners[r][c])
      && (forall r, c :: IsBox(s, r, c) && t.owners[r][c] != s.owners[r][c] ==>
            s.owners[r][c] == NoOwner && BoxClosed(t, r, c) && t.owners[r][c] == s.current)
  {
    MoveOutcome(s, lt, row, col);
  }

  /** The invariant holds after any sequence of moves. */
  lemma {:induction false} PlayPreservesInv(s: State, moves: seq<(LineType, int, int)>)
    requires Inv(s)
    ensures Inv(Play(s, moves))
    decreases |moves|
  {
    if moves != [] {
      MovePreservesInv(s, moves[0].0, moves[0].1, moves[0].2);
      PlayPreservesInv(Move(s, moves[0].0, moves[0].1, moves[0].2).0, moves[1..]);
    }
  }

  /** Over any sequence of moves, an owned box keeps its owner and a drawn segment stays drawn. */
  lemma {:induction false} PlayKeepsOwnersAndSegments(s: State, moves: seq<(LineType, int, int)>)
    requires Inv(s)
    ensures var t := Play(s, moves);
      && (forall r, c :: IsBox(s, r, c) && s.owners[r][c] != NoOwner ==>
            t.owners[r][c] == s.owners[r][c])
      && (forall i, j :: 0 <= i < s.rows && 0 <= j < s.cols - 1 && s.h[i][j] ==> t.h[i][j])
      && (forall i, j :: 0 <= i < s.rows - 1 && 0 <= j < s.cols && s.v[i][j] ==> t.v[i][j])
    decreases |moves|
  {
    if moves != [] {
      var (lt, row, col) := moves[0];
      OwnershipIsFinal(s, lt, row, col);
      SegmentsAfterMove(s, lt, row, col);
      MovePreservesInv(s, lt, row, col);
      PlayKeepsOwnersAndSegments(Move(s, lt, row, col).0, moves[1..]);
    }
  }

  /** The game is over exactly when no legal move remains. */
  lemma GameOverIffNoLegalMove(s: State)
    requires Shaped(s)
    ensures IsGameOver(s) <==> forall lt, row, col :: !Legal(s, lt, row, col)
  {
    if !IsGameOver(s) {
      if !AllTrue(s.h) {
        var i, j :| 0 <= i < |s.h| && 0 <= j < |s.h[i]| && !s.h[i][j];
        assert Legal(s, H, i, j);
      } else {
        var i, j :| 0 <= i < |s.v| && 0 <= j < |s.v[i]| && !s.v[i][j];
        assert Legal(s, V, i, j);
      }
    }
  }

  /** Once the game is over every move is rejected, so it stays over. */
  lemma GameOverIsFinal(s: State, lt: LineType, row: int, col: int)
    requires Shaped(s) && IsGameOver(s)
    ensures Move(s, lt, row, col) == (s, false)
    ensures IsGameOver(Move(s, lt, row, col).0)
  {
    GameOverIffNoLegalMove(s);
  }

  /** Once the game is over, no sequence of moves changes it any more. */
  lemma {:induction false} PlayAfterGameOver(s: State, moves: seq<(LineType, int, int)>)
    requires Shaped(s) && IsGameOver(s)
    ensures Play(s, moves) == s
    decreases |moves|
  {
    if moves != [] {
      GameOverIsFinal(s, moves[0].0, moves[0].1, moves[0].2);
      PlayAfterGameOver(s, moves[1..]);
    }
  }

  /**
    The scores and the unowned boxes add up to the number of boxes; when the
    game is over no box is unowned, so the two scores add up to
    (rows-1) * (cols-1).
   */
  lemma ScoreTotal(s: State)
    requires Inv(s)
    ensures s.scores[1] + s.scores[2] + Count(s.owners, NoOwner) == (s.rows - 1) * (s.cols - 1)
    ensures IsGameOver(s) ==> s.scores[1] + s.scores[2] == (s.rows - 1) * (s.cols - 1)
  {
    CountPartition(s.owners, s.cols - 1);
    if IsGameOver(s) {
      forall i, j | 0 <= i < |s.owners| && 0 <= j < |s.owners[i]|
        ensures s.owners[i][j] != NoOwner
      {
        assert BoxClosed(s, i, j);
      }
      CountAbsent(s.owners, NoOwner);
    }
  }

  /**
    The one-box game on a 2 x 2 grid of dots: top, left, right, bottom. The
    first three moves complete nothing and pass the turn; the fourth, by
    player 2, completes the box, keeps the turn, ends the game and wins it 1-0.
   */
  lemma OneBoxGame()
    ensures var s0 := Init(2, 2);
      var m1 := Move(s0, H, 0, 0);
      var m2 := Move(m1.0, V, 0, 0);
      var m3 := Move(m2.0, V, 0, 1);
      var m4 := Move(m3.0, H, 1, 0);
      && !m1.1 && !m2.1 && !m3.1 && m4.1
      && m1.0.current == 2 && m2.0.current == 1 && m3.0.current == 2 && m4.0.current == 2
      && !IsGameOver(m3.0) && IsGameOver(m4.0)
      && m4.0.owners[0][0] == 2 && m4.0.scores[1] == 0 && m4.0.scores[2] == 1
      && Winner(m4.0) == Some(2)
  {
    var s0 := Init(2, 2);
    InitialState(2, 2);
    var m1 := Move(s0, H, 0, 0);
    QuietStep(s0, H, 0, 0);
    var m2 := Move(m1.0, V, 0, 0);
    QuietStep(m1.0, V, 0, 0);
    var m3 := Move(m2.0, V, 0, 1);
    QuietStep(m2.0, V, 0, 1);
    var m4 := Move(m3.0, H, 1, 0);
    SegmentsAfterMove(m3.0, H, 1, 0);
    MoveOutcome(m3.0, H, 1, 0);
    assert BoxClosed(m4.0, 0, 0) && !BoxClosed(m3.0, 0, 0);
    assert (0, 0) in NewlyClosed(m3.0, m4.0);
    assert IsGameOver(m4.0);
    assert m4.0.scores[1] == 0 && m4.0.scores[2] == 1;
  }

  /** On the one-box board, a legal move that leaves the box open passes the turn and changes no score. */
  lemma QuietStep(s: State, lt: LineType, row: int, col: int)
    requires Inv(s) && s.rows == 2 && s.cols == 2
    requires Legal(s, lt, row, col) && !BoxClosed(Draw(s, lt, row, col), 0, 0)
    ensures var t := Move(s, lt, row, col);
      && !t.1 && t.0.current == 3 - s.current && Inv(t.0) && t.0.scores == s.scores
      && !IsGameOver(t.0)
      && (forall a, b :: 0 <= a < 2 && 0 <= b < 1 ==> t.0.h[a][b] == (s.h[a][b] || (lt == H && a == row && b == col)))
      && (forall a, b :: 0 <= a < 1 && 0 <= b < 2 ==> t.0.v[a][b] == (s.v[a][b] || (lt == V && a == row && b == col)))
  {
    var t := Move(s, lt, row, col);
    SegmentsAfterMove(s, lt, row, col);
    MoveOutcome(s, lt, row, col);
    MovePreservesInv(s, lt, row, col);
    assert !BoxClosed(t.0, 0, 0);
    assert NewlyClosed(s, t.0) == {};
  }
}
