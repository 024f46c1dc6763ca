/**
  The Dots and Boxes rules as values: the state of class `DotsAndBoxes` in
  Dotsandboxgame.py, and its operations as functions from one state to the
  next. The class in module Engine is proved to follow these functions.
 */
module Rules {
  import opened Grid

  /** The `line_type` argument of `make_move`: 'h', 'v', or any other string. */
  datatype LineType = H | V | Other

  datatype Option<T> = None | Some(value: T)

  /** An unowned box (Python's `None` in `box_owners`). */
  const NoOwner := 0

  /**
    A game. `h` is the rows x (cols-1) grid of horizontal segments, `v` the
    (rows-1) x cols grid of vertical segments, `owners` the (rows-1) x (cols-1)
    grid of box owners, `scores` the dictionary {1: _, 2: _}, `current` the
    player to move.
   */
  datatype State = State(
    rows: int,
    cols: int,
    h: seq<seq<bool>>,
    v: seq<seq<bool>>,
    owners: seq<seq<int>>,
    scores: map<int, int>,
    current: int)

  predicate IsPlayer(p: int) {
    p == 1 || p == 2
  }

  /** The grids have the shapes the constructor gives them, and the player is 1 or 2. */
  predicate Shaped(s: State) {
    && s.rows >= 1 && s.cols >= 1
    && IsGrid(s.h, s.rows, s.cols - 1)
    && IsGrid(s.v, s.rows - 1, s.cols)
    && IsGrid(s.owners, s.rows - 1, s.cols - 1)
    && s.scores.Keys == {1, 2}
    && IsPlayer(s.current)
  }

  /** `t` is a game on the same board as `s`. */
  predicate SameBoard(s: State, t: State) {
    s.rows == t.rows && s.cols == t.cols
  }

  /** The state `__init__(rows, cols)` builds. */
  function Init(rows: int, cols: int): (s: State)
    requires rows >= 1 && cols >= 1
    ensures Shaped(s) && s.rows == rows && s.cols == cols
    ensures s.scores[1] == 0 && s.scores[2] == 0 && s.current == 1
  {
    State(rows, cols,
          Fill(rows, cols - 1, false),
          Fill(rows - 1, cols, false),
          Fill(rows - 1, cols - 1, NoOwner),
          map[1 := 0, 2 := 0],
          1)
  }

  /** (r, c) names a box: the one whose top-left dot is dot (r, c). */
  predicate IsBox(s: State, r: int, c: int) {
    0 <= r < s.rows - 1 && 0 <= c < s.cols - 1
  }

  /** All four sides of box (r, c) are drawn. */
  predicate BoxClosed(s: State, r: int, c: int)
    requires Shaped(s) && IsBox(s, r, c)
  {
    s.h[r][c] && s.h[r + 1][c] && s.v[r][c] && s.v[r][c + 1]
  }

  /** Box (r, c) has segment (lt, row, col) as one of its sides. */
  predicate Adjacent(lt: LineType, row: int, col: int, r: int, c: int) {
    match lt
    case H => c == col && (r == row - 1 || r == row)
    case V => r == row && (c == col - 1 || c == col)
    case Other => false
  }

  /** Each score is the number of boxes its player owns. */
  predicate ScoresMatch(s: State)
    requires Shaped(s)
  {
    s.scores[1] == Count(s.owners, 1) && s.scores[2] == Count(s.owners, 2)
  }

  /**
    The invariant every reachable game keeps: owners are None, 1 or 2; a box
    is owned exactly when its four sides are drawn; scores count owned boxes.
   */
  ghost predicate Inv(s: State) {
    && Shaped(s)
    && (forall r, c :: IsBox(s, r, c) ==> s.owners[r][c] == NoOwner || IsPlayer(s.owners[r][c]))
    && (forall r, c :: IsBox(s, r, c) ==> (s.owners[r][c] != NoOwner <==> BoxClosed(s, r, c)))
    && ScoresMatch(s)
  }

  /** The bounds test of `make_move` for the given orientation. */
  predicate InBounds(s: State, lt: LineType, row: int, col: int) {
    match lt
    case H => 0 <= row < s.rows && 0 <= col < s.cols - 1
    case V => 0 <= row < s.rows - 1 && 0 <= col < s.cols
    case Other => false
  }

  predicate IsDrawn(s: State, lt: LineType, row: int, col: int)
    requires Shaped(s) && InBounds(s, lt, row, col)
  {
    if lt == H then s.h[row][col] else s.v[row][col]
  }

  /** The moves `make_move` accepts: a known orientation, in bounds, not yet drawn. */
  predicate Legal(s: State, lt: LineType, row: int, col: int)
    requires Shaped(s)
  {
    InBounds(s, lt, row, col) && !IsDrawn(s, lt, row, col)
  }

  /** `s` with segment (lt, row, col) drawn. */
  function Draw(s: State, lt: LineType, row: int, col: int): (t: State)
    requires Shaped(s) && InBounds(s, lt, row, col)
    ensures Shaped(t) && SameBoard(s, t) && IsDrawn(t, lt, row, col)
    ensures t.owners == s.owners && t.scores == s.scores && t.current == s.current
  {
    if lt == H then s.(h := Set(s.h, row, col, true))
    else s.(v := Set(s.v, row, col, true))
  }

  /**
    One box test of `check_boxes_after_move`: when `cond` holds, box (r, c)
    goes to the current player and that player's score rises by one.
   */
  function ClaimIf(s: State, cond: bool, r: int, c: int): (t: (State, bool))
    requires Shaped(s) && (cond ==> IsBox(s, r, c))
    ensures Shaped(t.0) && SameBoard(s, t.0) && t.1 == cond
    ensures t.0.h == s.h && t.0.v == s.v && t.0.current == s.current
  {
    if cond then
      (s.(owners := Set(s.owners, r, c, s.current),
          scores := s.scores[s.current := s.scores[s.current] + 1]), true)
    else (s, false)
  }

  /**
    The two box tests of `check_boxes_after_move`, in the code's order: the
    box above then below an 'h' segment, the box left then right of a 'v'
    segment, each claimed when its three other sides are drawn and it has no
    owner. The flag says whether either test claimed its box.
   */
  function Claims(s: State, lt: LineType, row: int, col: int): (t: (State, bool))
    requires Shaped(s) && (lt == Other || InBounds(s, lt, row, col))
    ensures Shaped(t.0) && SameBoard(s, t.0) && t.0.h == s.h && t.0.v == s.v && t.0.current == s.current
  {
    var first :=
      match lt
      case H => ClaimIf(s, row > 0 && s.h[row - 1][col] && s.v[row - 1][col] && s.v[row - 1][col + 1]
                           && s.owners[row - 1][col] == NoOwner, row - 1, col)
      case V => ClaimIf(s, col > 0 && s.v[row][col - 1] && s.h[row][col - 1] && s.h[row + 1][col - 1]
                           && s.owners[row][col - 1] == NoOwner, row, col - 1)
      case Other => (s, false);
    var s1 := first.0;
    var second :=
      match lt
      case H => ClaimIf(s1, row < s1.rows - 1 && s1.h[row + 1][col] && s1.v[row][col] && s1.v[row][col + 1]
                            && s1.owners[row][col] == NoOwner, row, col)
      case V => ClaimIf(s1, col < s1.cols - 1 && s1.v[row][col + 1] && s1.h[row][col] && s1.h[row + 1][col]
                            && s1.owners[row][col] == NoOwner, row, col)
      case Other => (s1, false);
    (second.0, first.1 || second.1)
  }

  /** `check_boxes_after_move`: the box tests, then the turn passes unless a box was claimed. */
  function CheckBoxes(s: State, lt: LineType, row: int, col: int): (t: (State, bool))
    requires Shaped(s) && (lt == Other || InBounds(s, lt, row, col))
    ensures Shaped(t.0) && SameBoard(s, t.0) && t.0.h == s.h && t.0.v == s.v
    ensures t.0.current == if t.1 then s.current else 3 - s.current
  {
    var c := Claims(s, lt, row, col);
    (if c.1 then c.0 else c.0.(current := 3 - c.0.current), c.1)
  }

  /**
    `make_move`: a legal move draws its segment and runs the box tests; any
    other move returns false and leaves the game as it was.
   */
  function Move(s: State, lt: LineType, row: int, col: int): (t: (State, bool))
    requires Shaped(s)
    ensures Shaped(t.0) && SameBoard(s, t.0)
    ensures !Legal(s, lt, row, col) ==> t == (s, false)
    ensures Legal(s, lt, row, col) ==> IsDrawn(t.0, lt, row, col)
  {
    if Legal(s, lt, row, col) then CheckBoxes(Draw(s, lt, row, col), lt, row, col)
    else (s, false)
  }

  /** `is_game_over`: every segment of both grids is drawn, so no move is legal any more. */
  predicate IsGameOver(s: State)
    ensures IsGameOver(s) && Shaped(s) ==> forall lt, row, col :: !Legal(s, lt, row, col)
  {
    AllTrue(s.h) && AllTrue(s.v)
  }

  /** `get_winner`: the player with the strictly higher score once the game is over. */
  function Winner(s: State): (w: Option<int>)
    requires Shaped(s)
    ensures w.Some? <==> IsGameOver(s) && s.scores[1] != s.scores[2]
    ensures w.Some? ==> IsPlayer(w.value) && s.scores[w.value] > s.scores[3 - w.value]
  {
    if !IsGameOver(s) then None
    else if s.scores[1] > s.scores[2] then Some(1)
    else if s.scores[2] > s.scores[1] then Some(2)
    else None
  }
}
