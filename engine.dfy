/**
  Class `DotsAndBoxes` of Dotsandboxgame.py: the segment grids and the owner
  grid are two-dimensional arrays updated in place, the scores dictionary and
  the current player are fields the methods reassign. Every method is proved
  to do to `Model()` what the corresponding function of module Rules does:
  MakeMove is `Move`, CheckBoxesAfterMove is `CheckBoxes`, TestHorizontal and
  TestVertical are `Claims`, ClaimBox is `ClaimIf`, GetWinner is `Winner`.
 */
module Engine {
  import opened Grid
  import opened Rules
  import opened RulesLemmas

  /** The cells of a two-dimensional array, row by row. */
  ghost function GridOf<T>(a: array2<T>): (g: seq<seq<T>>)
    reads a
    ensures IsGrid(g, a.Length0, a.Length1)
    ensures forall i, j :: 0 <= i < a.Length0 && 0 <= j < a.Length1 ==> g[i][j] == a[i, j]
  {
    seq(a.Length0, i requires 0 <= i < a.Length0 reads a =>
      seq(a.Length1, j requires 0 <= j < a.Length1 reads a => a[i, j]))
  }

  /** An array that agrees with `before` except at (r, c), which holds `x`, shows `Set(before, r, c, x)`. */
  lemma GridOfUpdated<T>(a: array2<T>, before: seq<seq<T>>, r: int, c: int, x: T)
    requires IsGrid(before, a.Length0, a.Length1)
    requires 0 <= r < a.Length0 && 0 <= c < a.Length1
    requires forall i, j :: 0 <= i < a.Length0 && 0 <= j < a.Length1 ==>
               a[i, j] == if i == r && j == c then x else before[i][j]
    ensures GridOf(a) == Set(before, r, c, x)
  {
    Ext(GridOf(a), Set(before, r, c, x));
  }

  /** An array whose cells all hold `x` shows `Fill(_, _, x)`. */
  lemma GridOfFilled<T>(a: array2<T>, x: T)
    requires forall i, j :: 0 <= i < a.Length0 && 0 <= j < a.Length1 ==> a[i, j] == x
    ensures GridOf(a) == Fill(a.Length0, a.Length1, x)
  {
    Ext(GridOf(a), Fill(a.Length0, a.Length1, x));
  }

  class DotsAndBoxes {
    const rows: int
    const cols: int
    /** `h_lines`: rows x (cols-1), true where a horizontal segment is drawn. */
    const hLines: array2<bool>
    /** `v_lines`: (rows-1) x cols, true where a vertical segment is drawn. */
    const vLines: array2<bool>
    /** `box_owners`: (rows-1) x (cols-1), the owning player or NoOwner. */
    const boxOwners: array2<int>
    /** `scores`: the dictionary {1: _, 2: _}. */
    var scores: map<int, int>
    var currentPlayer: int

    /** The game this object holds, as a value. */
    ghost function Model(): State
      reads this, hLines, vLines, boxOwners
    {
      State(rows, cols, GridOf(hLines), GridOf(vLines), GridOf(boxOwners), scores, currentPlayer)
    }

    /** The arrays have the grids' shapes and the two segment grids are different arrays. */
    ghost predicate Sound()
      reads this, hLines, vLines, boxOwners
    {
      && hLines != vLines
      && hLines.Length0 == rows && hLines.Length1 == cols - 1
      && vLines.Length0 == rows - 1 && vLines.Length1 == cols
      && boxOwners.Length0 == rows - 1 && boxOwners.Length1 == cols - 1
      && Shaped(Model())
    }

    /** The object invariant: sound, and the game invariant of module Rules holds. */
    ghost predicate Valid()
      reads this, hLines, vLines, boxOwners
    {
      Sound() && Inv(Model())
    }

    /** `__init__`: all segments undrawn, all boxes unowned, scores 0, player 1 to move; 5 x 5 dots by default. */
    constructor (rows: int := 5, cols: int := 5)
      requires rows >= 1 && cols >= 1
      ensures Valid() && Model() == Init(rows, cols)
      ensures fresh(hLines) && fresh(vLines) && fresh(boxOwners)
    {
      this.rows := rows;
      this.cols := cols;
      hLines := new bool[rows, cols - 1]((i, j) => false);
      vLines := new bool[rows - 1, cols]((i, j) => false);
      boxOwners := new int[rows - 1, cols - 1]((i, j) => NoOwner);
      currentPlayer := 1;
      scores := map[1 := 0, 2 := 0];
      new;
      GridOfFilled(hLines, false);
      GridOfFilled(vLines, false);
      GridOfFilled(boxOwners, NoOwner);
      InitialState(rows, cols);
    }

    /**
      `make_move`: draws the segment and runs the box tests when the line type
      is 'h' or 'v', the indices are in bounds and the segment is not drawn
      yet; otherwise returns false and changes nothing.
     */
    method MakeMove(lineType: LineType, row: int, col: int) returns (ok: bool)
      requires Valid()
      modifies hLines, vLines, boxOwners, this
      ensures Valid()
      ensures (Model(), ok) == Move(old(Model()), lineType, row, col)
    {
      ghost var s := Model();
      MovePreservesInv(s, lineType, row, col);
      if lineType == H && 0 <= row < rows && 0 <= col < cols - 1 {
        if !hLines[row, col] {
          hLines[row, col] := true;
          GridOfUpdated(hLines, s.h, row, col, true);
          assert Model() == Draw(s, lineType, row, col);
          ok := CheckBoxesAfterMove(lineType, row, col);
          return;
        }
      } else if lineType == V && 0 <= row < rows - 1 && 0 <= col < cols {
        if !vLines[row, col] {
          vLines[row, col] := true;
          GridOfUpdated(vLines, s.v, row, col, true);
          assert Model() == Draw(s, lineType, row, col);
          ok := CheckBoxesAfterMove(lineType, row, col);
          return;
        }
      }
      ok := false;
    }

    /** Gives box (r, c) to the current player and adds one to that player's score. */
    method ClaimBox(r: int, c: int)
      requires Sound() && IsBox(Model(), r, c)
      modifies boxOwners, this
      ensures Sound() && Model() == ClaimIf(old(Model()), true, r, c).0
    {
      ghost var s := Model();
      boxOwners[r, c] := currentPlayer;
      scores := scores[currentPlayer := scores[currentPlayer] + 1];
      GridOfUpdated(boxOwners, s.owners, r, c, s.current);
    }

    /**
      The box tests of `check_boxes_after_move` for an 'h' segment: the box
      above, then the box below; a box whose three other sides are drawn and
      which has no owner goes to the current player.
     */
    method TestHorizontal(row: int, col: int) returns (boxesCompleted: bool)
      requires Sound() && InBounds(Model(), H, row, col)
      modifies boxOwners, this
      ensures Sound()
      ensures (Model(), boxesCompleted) == Claims(old(Model()), H, row, col)
    {
      ghost var s := Model();
      boxesCompleted := false;
      ghost var a := row > 0 && s.h[row - 1][col] && s.v[row - 1][col] && s.v[row - 1][col + 1]
                     && s.owners[row - 1][col] == NoOwner;
      if row > 0 {
        if hLines[row - 1, col] && vLines[row - 1, col] && vLines[row - 1, col + 1]
           && boxOwners[row - 1, col] == NoOwner {
          ClaimBox(row - 1, col);
          boxesCompleted := true;
        }
      }
      ghost var s1 := ClaimIf(s, a, row - 1, col).0;
      assert Model() == s1 && boxesCompleted == a;
      ghost var b := row < s1.rows - 1 && s1.h[row + 1][col] && s1.v[row][col] && s1.v[row][col + 1]
                     && s1.owners[row][col] == NoOwner;
      if row < rows - 1 {
        if hLines[row + 1, col] && vLines[row, col] && vLines[row, col + 1]
           && boxOwners[row, col] == NoOwner {
          ClaimBox(row, col);
          boxesCompleted := true;
        }
      }
      assert Model() == ClaimIf(s1, b, row, col).0 && boxesCompleted == (a || b);
    }

    /**
      The box tests of `check_boxes_after_move` for a 'v' segment: the box to
      the left, then the box to the right, claimed as for an 'h' segment.
     */
    method TestVertical(row: int, col: int) returns (boxesCompleted: bool)
      requires Sound() && InBounds(Model(), V, row, col)
      modifies boxOwners, this
      ensures Sound()
      ensures (Model(), boxesCompleted) == Claims(old(Model()), V, row, col)
    {
      ghost var s := Model();
      boxesCompleted := false;
      ghost var a := col > 0 && s.v[row][col - 1] && s.h[row][col - 1] && s.h[row + 1][col - 1]
                     && s.owners[row][col - 1] == NoOwner;
      if col > 0 {
        if vLines[row, col - 1] && hLines[row, col - 1] && hLines[row + 1, col - 1]
           && boxOwners[row, col - 1] == NoOwner {
          ClaimBox(row, col - 1);
          boxesCompleted := true;
        }
      }
      ghost var s1 := ClaimIf(s, a, row, col - 1).0;
      assert Model() == s1 && boxesCompleted == a;
      ghost var b := col < s1.cols - 1 && s1.v[row][col + 1] && s1.h[row][col] && s1.h[row + 1][col]
                     && s1.owners[row][col] == NoOwner;
      if col < cols - 1 {
        if vLines[row, col + 1] && hLines[row, col] && hLines[row + 1, col]
           && boxOwners[row, col] == NoOwner {
          ClaimBox(row, col);
          boxesCompleted := true;
        }
      }
      assert Model() == ClaimIf(s1, b, row, col).0 && boxesCompleted == (a || b);
    }

    /**
      `check_boxes_after_move`: runs the box tests; the player switches only
      when no box was completed.
     */
    method CheckBoxesAfterMove(lineType: LineType, row: int, col: int) returns (boxesCompleted: bool)
      requires Sound() && (lineType == Other || InBounds(Model(), lineType, row, col))
      modifies boxOwners, this
      ensures Sound()
      ensures (Model(), boxesCompleted) == CheckBoxes(old(Model()), lineType, row, col)
    {
      if lineType == H {
        boxesCompleted := TestHorizontal(row, col);
      } else if lineType == V {
        boxesCompleted := TestVertical(row, col);
      } else {
        boxesCompleted := false;
      }
      if !boxesCompleted {
        currentPlayer := 3 - currentPlayer;
      }
    }

    /** `is_game_over`: every horizontal and every vertical segment is drawn. */
    predicate IsGameOver()
      reads this, hLines, vLines, boxOwners
      ensures IsGameOver() == Rules.IsGameOver(Model())
    {
      && (forall i, j | 0 <= i < hLines.Length0 && 0 <= j < hLines.Length1 :: hLines[i, j])
      && (forall i, j | 0 <= i < vLines.Length0 && 0 <= j < vLines.Length1 :: vLines[i, j])
    }

    /** `get_winner`: None before the end and on a tie, otherwise the player with more boxes. */
    function GetWinner(): (w: Option<int>)
      reads this, hLines, vLines, boxOwners
      requires Sound()
      ensures w == Winner(Model())
    {
      if !IsGameOver() then None
      else if scores[1] > scores[2] then Some(1)
      else if scores[2] > scores[1] then Some(2)
      else None
    }
  }
}
