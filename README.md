# Dots and Boxes rules engine in Dafny

This project models the rules engine of a two-player Dots and Boxes game:
class `DotsAndBoxes` of `Dotsandboxgame.py`. A board of `rows x cols` dots
has a grid of horizontal segments (`rows x (cols-1)`), a grid of vertical
segments (`(rows-1) x cols`) and a grid of box owners
(`(rows-1) x (cols-1)`). Players 1 and 2 take turns drawing one segment.
A player who completes a box owns it, scores a point and moves again.
Otherwise the turn passes. The game is over when every segment is drawn.
The player with more boxes wins, and a tie has no winner.

The model has two layers.

- **Rules** (`rules.dfy`) is the reference model. It describes the game
  as a value `State` and each operation as a function from one state to
  the next: `Init`, `Draw`, `ClaimIf`, `Claims`, `CheckBoxes`, `Move`,
  `IsGameOver` and `Winner`. The box tests of `check_boxes_after_move` are
  written as the code writes them: three sides drawn and no owner yet.
  `RulesLemmas` (`rules_lemmas.dfy`) proves what these functions promise.
  - A rejected move changes nothing.
  - A move draws exactly its own segment.
  - A move claims exactly the boxes it closes, at most two, all beside the
    segment.
  - Scores move by that number.
  - The turn passes exactly when nothing was claimed.
  - Every move preserves the invariant "owned iff closed, and scores count
    owned boxes".
  - Ownership never changes once set.
  - The game is over exactly when no legal move remains.
  - Scores add up to the number of boxes at the end.
- **Engine** (`engine.dfy`) holds the class `DotsAndBoxes`.
  - The three grids are `array2` fields updated in place.
  - `scores` (a map with keys 1 and 2) and `currentPlayer` are fields the
    methods reassign.
  - A ghost `Model()` reads the arrays back as a `State`.
  - Each method's postcondition says that the new `Model()` is the function
    of module Rules applied to `old(Model())`. So everything proved about
    the functions holds for the object.
  - `Valid()` is the object invariant, and `MakeMove` keeps it.

`Grid` (`grid.dfy`) supplies the grid helpers. These are filled grids,
one-cell updates, "every cell true", and the count of cells holding a
value, which relates scores to the owner grid.

Representation choices:
- The `line_type` string becomes `LineType = H | V | Other`, where `Other`
  stands for every string other than `'h'` and `'v'`.
- `None` in `box_owners` becomes `NoOwner == 0`.
- Integers are unbounded, as in Python.

## Model

| member | source | states |
|---|---|---|
| Engine.DotsAndBoxes.constructor | Dotsandboxgame.py:4-18 | the new object is valid and its game is `Init(rows, cols)`: every segment undrawn, every box unowned, scores {1: 0, 2: 0}, player 1 to move; `rows` and `cols` default to 5 as in the Python signature |
| Engine.DotsAndBoxes.MakeMove | Dotsandboxgame.py:32-40 | the object stays valid, and its new game and the returned flag are `Move(old game, lineType, row, col)`: an 'h'/'v' move in bounds on an undrawn segment draws it and runs the box tests; any other move returns false and changes nothing |
| Engine.DotsAndBoxes.CheckBoxesAfterMove | Dotsandboxgame.py:42-96 | new game and result are `CheckBoxes(old game, ...)`: the box tests, then the player becomes `3 - current` only when no box was completed |
| Engine.DotsAndBoxes.TestHorizontal | Dotsandboxgame.py:51-70 | new game and flag are `Claims(old game, H, row, col)`: the box above, then the box below, each claimed when its other three sides are drawn and it has no owner |
| Engine.DotsAndBoxes.TestVertical | Dotsandboxgame.py:72-91 | new game and flag are `Claims(old game, V, row, col)`: the box to the left, then the box to the right, claimed under the same test |
| Engine.DotsAndBoxes.ClaimBox | Dotsandboxgame.py:58-60 | the box gets the current player as owner and that player's score rises by one; nothing else changes |
| Engine.DotsAndBoxes.IsGameOver | Dotsandboxgame.py:98-101 | true exactly when every cell of both segment arrays is true (`Rules.IsGameOver` of the object's game) |
| Engine.DotsAndBoxes.GetWinner | Dotsandboxgame.py:103-111 | equals `Rules.Winner` of the object's game |
| Rules.Init | Dotsandboxgame.py:12-18 | the built game has the given numbers of rows and columns of dots, grids of the shapes of lines 14-16, scores 0 for both players and player 1 to move (the grid contents are stated by RulesLemmas.InitialState) |
| Rules.Move | Dotsandboxgame.py:32-40 | a move that is not legal (unknown line type, out of bounds, or already drawn) returns false and leaves the game unchanged; a legal one leaves its segment drawn; the result is always a well-shaped game on the same board |
| Rules.CheckBoxes | Dotsandboxgame.py:42-96 | the segments are untouched, and the player afterwards is the same when a box was completed and `3 - current` otherwise |
| Rules.ClaimIf | Dotsandboxgame.py:53-60 | one box test: the returned flag is the test's outcome, and segments and current player are untouched (what it does to owners and scores: RulesLemmas.ClaimIfOwnerAt and RulesLemmas.ClaimIfScores) |
| Rules.IsGameOver | Dotsandboxgame.py:98-101 | once every segment is drawn, no move is legal (the converse is RulesLemmas.GameOverIffNoLegalMove) |
| Rules.Winner | Dotsandboxgame.py:103-111 | a winner exists iff the game is over and the scores differ, and the winner is player 1 or 2 with the strictly higher score |
| Rules.Draw | Dotsandboxgame.py:33-34 | the drawn segment is set afterwards, and owners, scores and current player are untouched |
| Rules.Claims | Dotsandboxgame.py:49-91 | the box tests change neither segment grid nor the current player |
| RulesLemmas.InitialState | Dotsandboxgame.py:14-18 | after `__init__` no segment is drawn, no box is owned, both scores are 0, player 1 moves, the invariant holds, and the game is over from the start only on a one-dot board |
| RulesLemmas.SegmentsAfterMove | Dotsandboxgame.py:32-40 | after any move each segment is drawn iff it was drawn before or is the segment an accepted move names; no other segment changes |
| RulesLemmas.RepeatIsRejected | Dotsandboxgame.py:33-38 | repeating a move is rejected: it returns false and changes nothing |
| RulesLemmas.DrawClosesOnlyAdjacent | Dotsandboxgame.py:51-91 | drawing a segment closes no box except the (at most two) boxes beside it, which were open before |
| RulesLemmas.FirstTest | Dotsandboxgame.py:51-78 | once the segment is drawn, the first box test (above, or to the left) holds iff that box exists, has all four sides drawn and has no owner |
| RulesLemmas.SecondTest | Dotsandboxgame.py:62-88 | the second box test (below, or to the right) holds iff that box exists, has all four sides drawn and had no owner before the first test |
| RulesLemmas.CheckBoxesClaims | Dotsandboxgame.py:42-96 | `check_boxes_after_move` after drawing claims each neighbouring box that is closed and unowned, returns true iff it claimed one, and passes the turn otherwise |
| RulesLemmas.ClaimIfOwnerAt | Dotsandboxgame.py:58-58 | one box test changes the owner of no box but the tested one, which goes to the current player when the test holds |
| RulesLemmas.ClaimIfScores | Dotsandboxgame.py:58-59 | claiming an unowned box raises the mover's score by one, leaves the other score, and keeps each score equal to its player's box count |
| RulesLemmas.LegalMoveClaims | Dotsandboxgame.py:32-39 | under the invariant, a legal move claims exactly the neighbouring boxes that the new segment closes, and those boxes had no owner |
| RulesLemmas.NewlyClosedByMove | Dotsandboxgame.py:51-91 | the boxes a legal move closes are exactly the closed boxes among those beside its segment |
| RulesLemmas.NewlyClosedCount | Dotsandboxgame.py:51-91 | a legal move closes at most two boxes, all beside its segment, one for each closed neighbour |
| RulesLemmas.ClaimsOwners | Dotsandboxgame.py:53-91 | after the box tests, the owner changes exactly at the newly closed boxes and becomes the mover |
| RulesLemmas.ClaimsScores | Dotsandboxgame.py:53-91 | after the box tests, the mover's score rises by the number of newly closed boxes and the other score stays |
| RulesLemmas.MoveOutcome | Dotsandboxgame.py:32-40 | under the invariant: a rejected move returns false and changes nothing; an accepted one completes at most two boxes, all beside its segment, gives exactly those to the mover, raises the mover's score by their number and leaves the other score; the result is true iff a box was completed, and only then does the mover keep the turn |
| RulesLemmas.MoveKeepsScoresMatch | Dotsandboxgame.py:49-96 | after any move each score equals the number of boxes its player owns |
| RulesLemmas.MovePreservesInv | Dotsandboxgame.py:20-96 | every move keeps the invariant: owners are None, 1 or 2; a box is owned iff all four sides are drawn; scores count owned boxes; the player is 1 or 2 |
| RulesLemmas.OwnershipIsFinal | Dotsandboxgame.py:53-91 | a move never changes an owned box; a box gains an owner only when it had none, is now closed, and the owner is the mover |
| RulesLemmas.PlayPreservesInv | Dotsandboxgame.py:20-96 | the invariant holds after any sequence of moves from a valid game |
| RulesLemmas.PlayKeepsOwnersAndSegments | Dotsandboxgame.py:32-91 | over any sequence of moves, an owned box keeps its owner and a drawn segment stays drawn |
| RulesLemmas.GameOverIffNoLegalMove | Dotsandboxgame.py:98-101 | the game is over iff no move would be accepted |
| RulesLemmas.GameOverIsFinal | Dotsandboxgame.py:98-101 | once the game is over every move is rejected and the game stays over |
| RulesLemmas.PlayAfterGameOver | Dotsandboxgame.py:98-101 | once the game is over, no sequence of moves changes it |
| RulesLemmas.ScoreTotal | Dotsandboxgame.py:16-18 | the two scores plus the unowned boxes make (rows-1)*(cols-1); at game over the scores alone do |
| RulesLemmas.OneBoxGame | Dotsandboxgame.py:32-111 | on 2x2 dots, top, left, right, bottom: the first three moves complete nothing and pass the turn; player 2's bottom segment completes the box, keeps the turn, ends the game, and player 2 wins 1-0 |
| RulesLemmas.QuietStep | Dotsandboxgame.py:93-96 | on the one-box board, a legal move that leaves the box open returns false, passes the turn, keeps the scores and the invariant, and leaves the game unfinished |
| Grid.CountSet | Dotsandboxgame.py:58-59 | overwriting one owner cell changes a player's box count by what left and what arrived |
| Grid.CountPartition | Dotsandboxgame.py:16 | in an owner grid of None, 1 and 2, the three counts add up to its area |

## Left out

- Gui.py is not part of this model. It covers the pygame window, drawing,
  fonts and the event loop, which are user interface and I/O.
- `handle_click` (Gui.py) maps pixel coordinates to a segment using float
  division and rounding. This is presentation policy, and its only effect
  on the engine is one `make_move` call, which the model covers for every
  argument.
- The import at Gui.py:4 names a module other than the one defining the
  class. This is packaging, not behaviour.
- Engine.DotsAndBoxes.constructor requires `rows >= 1 && cols >= 1`.
  Python also accepts smaller sizes, and `range` with a negative count then
  silently builds empty lists. Those degenerate boards are not modelled.
- Engine.DotsAndBoxes.CheckBoxesAfterMove requires in-bounds indices for
  'h' and 'v'. Out of range, the Python may raise `IndexError`, may read
  cells through wrapped negative indices, or may skip both box tests and
  only pass the turn (for example 'h' on a board with one row of dots,
  where neither `row > 0` nor `row < rows - 1` holds). Its only caller,
  `make_move`, passes in-bounds indices only.
- Engine.DotsAndBoxes.TestHorizontal and TestVertical are the two branches
  of `check_boxes_after_move`. They are split into methods of their own to
  keep each proof small, and they perform the same tests and updates in the
  same order.
- `make_move` returns false both for a rejected move and for an accepted
  move that completes no box. The model keeps this as written: `Move`
  returns `(s, false)` in the first case and the turn-passing state in the
  second, and MoveOutcome tells the two apart by the state.
- Type errors are not modelled: a non-string `line_type`, non-integer
  indices, or a `scores` key outside {1, 2}.
