# TicTacToe rules engine in Dafny

A model of the rules engine of a console Tic Tac Toe game
(`src/TicTacToe.java` and `src/Square.java`), with proofs of what the
engine guarantees.

The game is played on an N by N board. It remembers the tokens placed, in
the order they were played, in an insertion-ordered hash map keyed by
square. The engine:

- derives whose turn it is from the token on the last square played;
- rejects a move by the wrong player, with a row or column above N, on an
  occupied square or after the game is over;
- after each move, scans the row, the column and the two diagonals through
  the square just played;
- skips that scan until 2N-1 tokens are down.

## Layout

| file | module | models |
|---|---|---|
| `wrappers.dfy` | `Wrappers` | `Option` for Java's null, `Result` and `Outcome` for thrown exceptions |
| `decimal.dfy` | `Decimal` | `int + ""` and `Integer.parseInt`, which `Square.hashCode` goes through |
| `squares.dfy` | `Squares` | `Square`: its coordinates, `equals`, `hashCode` |
| `rules.dfy` | `Rules` | tokens, turns, the board as a map, the lines, and the win-check lemmas |
| `tictactoe.dfy` | `TicTacToeGame` | class `TicTacToe`: the game state and every method of the engine |
| `scenarios.dfy` | `TicTacToeScenarios` | the games of `src/TicTacToeTest.java` |

## How the model maps onto the engine

`TicTacToe` is a class whose fields are updated in place:

- `gameBoard: map<Square, Token>` holds the map's entries;
- `playOrder: seq<Square>` holds its keys in insertion order, which is
  what `Iterables.getLast(gameBoard.keySet())` reads;
- `isGameOver` and `winner` (an `Option<Token>`) are the flags.

A thrown exception becomes a `Fail` outcome that leaves every field
unchanged, since the Java methods throw before they write anything.

The class invariant `Valid()` states three things:

- The log alternates. The tokens in play order are X, O, X, ...
  (`AlternatingLog`).
- A winner is exact. If `winner` is some token, the game is over and that
  token fills a line.
- No winner means no line. If `winner` is none, no token fills any line.

Every mutating method preserves `Valid()`. So the engine's shortcut check
has the same result as checking every line of the board. That shortcut
looks only at lines through the last square, and only after 2N-1 moves.
Two lemmas carry the proof:

- `Rules.ShortcutCheckIsExact` shows the shortcut is exact.
- `Rules.CompleteLineNeedsMoves` supports it with a counting argument. On an
  alternating log, one player's N tokens need at least 2N-1 moves.

The model follows what the code does in three places where a reader of its
comments might expect otherwise:

- **Order of the checks.** `placeToken` first asks `getNextTurn()` for the
  token due, and that call throws once the game is over. So "game over" is
  reported before a wrong turn or a bad square, and the `isGameOver` test at
  `src/TicTacToe.java:92` can never fire. The model keeps that dead test. The
  effective order is: game over, wrong turn, out of bounds, occupied.
- **Bounds.** Only the upper bound is checked. A zero or negative row or
  column is accepted and stored.
- **What counts as a line.** `didWinAcross` scans columns 1..N of the row of
  the last square, whatever that row is. Likewise `didWinDown` scans rows
  1..N of its column. So a row or column outside the board counts as a line,
  and X can win on row 0 (`TicTacToeScenarios.OffBoardRowWin`).
  `HasCompleteLine` therefore ranges over every integer row and column
  index, plus the two diagonals.

The games of the unit tests appear in two forms:

- Short games are client methods that play through the class:
  - `FreshGame`;
  - `TurnKeptAfterFailure`, which is `testGetNextTurn`;
  - `ErrorOrder`, the error game of `testPlaceToken`;
  - `ZeroRowAccepted`;
  - `SingleSquareWin`.
- Long games are lemmas about the board they reach, each paired with a
  client method (`RowGameLastMove`, `ColumnGameLastMove`,
  `DiagonalGameLastMove`, `AntiDiagonalGameLastMove`,
  `LargeBoardGameLastMove`, `OffBoardGameLastMove`, `FullBoardGameLastMove`).
  Each method starts from the state the earlier moves leave and plays the
  last move through `PlaceToken`. It then asserts that the move passes and
  that `GetWinner()` is X.

`getWinner()` stays null in the tests until the last move. That follows from
`Rules.CompleteLineNeedsMoves`: before 2N-1 moves no line can be complete.

## Model

| member | source | states |
|---|---|---|
| Decimal.NatToString | src/Square.java:28 | the decimal text of a natural number is non-empty, all digits, and has no leading zero |
| Decimal.IntToString | src/Square.java:28 | the decimal text of an integer is non-empty, starts with a minus sign exactly when the integer is negative, and is otherwise all digits with no leading zero |
| Decimal.ParseInt | src/Square.java:29 | parsing fails on the empty string; a leading minus gives a non-positive value; a string of digits always parses, to a non-negative value |
| Decimal.NatRoundTrip | src/Square.java:28-29 | the value of the digits of a natural number's text is that number |
| Decimal.IntRoundTrip | src/Square.java:28-29 | parsing the decimal text of any integer gives that integer back |
| Squares.AccessorsReturnCoordinates | src/Square.java:9-23 | `getRow`/`getColumn` return the coordinates the square was built from, and a square is determined by them |
| Squares.Equals | src/Square.java:32-42 | `equals` is true exactly for another square with the same row and column; null and objects of another class are never equal |
| Squares.EqualsIsEquivalence | src/Square.java:32-42 | `equals` is reflexive, symmetric and transitive on squares |
| Squares.HashCode | src/Square.java:25-30 | the hash code is row + column, the round trip through its decimal text |
| Squares.EqualSquaresHashAlike | src/Square.java:25-42 | equal squares have equal hash codes, as the map relies on |
| Rules.Token.Opposite | src/TicTacToe.java:66-71 | the next token after a played one is the other token |
| Rules.TurnToken | src/TicTacToe.java:65-67 | move 0 is X's |
| Rules.TurnsAlternate | src/TicTacToe.java:57-72 | the token due after move i is the opposite of move i's token, so turns alternate from X |
| Rules.Get | src/TicTacToe.java:98-99 | a lookup yields a token exactly when the square is occupied, and then the token stored on it; none (Java's null) otherwise |
| Rules.EmptyLogAlternates | src/TicTacToe.java:32-36 | the empty board with an empty play order is an alternating log |
| Rules.AlternatingLogExtends | src/TicTacToe.java:96-100 | placing the due token on a free square and appending the square keeps the log alternating, with sizes equal |
| Rules.WinsThroughIsComplete | src/TicTacToe.java:168-182 | a line the engine finds through the last square is a complete line of the board |
| Rules.LinesAsSequences | src/TicTacToe.java:198-297 | each scanned line is filled exactly when the sequence of its N squares is filled, in both directions |
| Rules.EmptyBoardHasNoLine | src/TicTacToe.java:32-36 | a new board of size at least 1 has no complete line for either token |
| Rules.NewLinePassesThrough | src/TicTacToe.java:164-182 | a move that completes a line completes it for the token played, on a row, column or diagonal through the square played |
| Rules.OccupancyBound | src/TicTacToe.java:159-162 | N distinct squares that occur in the play order only at positions of one parity need at least 2N-1 (or 2N) positions |
| Rules.FilledLineNeedsMoves | src/TicTacToe.java:159-162 | one token filling a line of N distinct squares implies at least 2N-1 moves |
| Rules.LinesAreDistinct | src/TicTacToe.java:198-297 | the squares of every row, column and diagonal are pairwise distinct |
| Rules.CompleteLineNeedsMoves | src/TicTacToe.java:159-162 | with fewer than 2N-1 tokens down no line is complete, so skipping the check is sound |
| Rules.ShortcutCheckIsExact | src/TicTacToe.java:157-187 | from a board with no line, after a move some line is complete for a token iff it is the token played, 2N-1 tokens are down and a line through the square played is filled |
| TicTacToeGame.TicTacToe.constructor | src/TicTacToe.java:32-36 | a new game has the given size, an empty board, no winner, is not over, and satisfies the invariant |
| TicTacToeGame.TicTacToe.Default | src/TicTacToe.java:22-25 | the default game is a new game of size 3 |
| TicTacToeGame.TicTacToe.GetLastPlayedSquare | src/TicTacToe.java:141-149 | none exactly on an empty board, otherwise the last square in play order, which is occupied |
| TicTacToeGame.TicTacToe.GetNextTurn | src/TicTacToe.java:57-72 | fails with GameOver exactly when the game is over; otherwise X on an empty board, the opposite of the last token played, and the token of move number \|playOrder\| |
| TicTacToeGame.TicTacToe.GetWinner | src/TicTacToe.java:116-119 | a winner returned means the game is over and that token fills a line; none means no token fills any line |
| TicTacToeGame.TicTacToe.IsBoardFull | src/TicTacToe.java:127-136 | true exactly when N*N squares are taken, and then the game is over; otherwise the flag is unchanged; the invariant is kept |
| TicTacToeGame.TicTacToe.PlaceToken | src/TicTacToe.java:81-109 | the first failing check decides the error (game over, wrong turn, row or column above N, occupied) and a failure changes nothing; a success adds the entry at the end of play order and sets the winner and game over exactly when the last token fills a line through its square after 2N-1 moves; the invariant is kept |
| TicTacToeGame.TicTacToe.DidLastPlayWin | src/TicTacToe.java:157-187 | true iff at least 2N-1 tokens are down and the last token fills its row, its column, or a diagonal the last square lies on |
| TicTacToeGame.TicTacToe.DidWinAcross | src/TicTacToe.java:198-212 | true iff the token occupies columns 1..N of the square's row |
| TicTacToeGame.TicTacToe.DidWinDown | src/TicTacToe.java:223-237 | true iff the token occupies rows 1..N of the square's column |
| TicTacToeGame.TicTacToe.DidWinDiagonalLR | src/TicTacToe.java:248-267 | true iff the square is on the main diagonal and the token occupies (i, i) for i in 1..N |
| TicTacToeGame.TicTacToe.DidWinDiagonalRL | src/TicTacToe.java:278-297 | true iff row + column = N + 1 and the token occupies (i, N+1-i) for i in 1..N |
| TicTacToeScenarios.RowWin | src/TicTacToeTest.java:16-27 | the board after the fifth move X(1,3) has 2N-1 tokens and X fills row 1 through (1,3), the engine's condition for winner X |
| TicTacToeScenarios.ColumnWin | src/TicTacToeTest.java:29-40 | the board after the fifth move X(3,1) has 2N-1 tokens and X fills column 1 through (3,1), the engine's condition for winner X |
| TicTacToeScenarios.DiagonalWin | src/TicTacToeTest.java:42-53 | the board after the fifth move X(3,3) has 2N-1 tokens and X fills the main diagonal through (3,3), the engine's condition for winner X |
| TicTacToeScenarios.AntiDiagonalWin | src/TicTacToeTest.java:55-66 | the board after the fifth move X(1,3) has 2N-1 tokens and X fills the anti-diagonal through (1,3), the engine's condition for winner X |
| TicTacToeScenarios.LargeBoardDiagonalWin | src/TicTacToeTest.java:68-87 | on the 5 by 5 board the ninth move X(1,1) brings 2N-1 tokens and fills the main diagonal through (1,1), the engine's condition for winner X |
| TicTacToeScenarios.OffBoardRowWin | src/TicTacToe.java:88-90 | X playing (0,1), (0,2), (0,3) passes the bounds check and completes row 0, off the board |
| TicTacToeScenarios.EightMovesHaveNoLine | src/TicTacToeTest.java:121-139 | after the first eight moves of the board-filling game no token has a line |
| TicTacToeScenarios.FullBoardEndsInWin | src/TicTacToeTest.java:140-141 | the ninth move X(3,3) takes all N*N squares and completes the main diagonal through (3,3), so the full board has a winner |

## Left out

- `src/PlayTicTacToe.java`, the console front end (reading input, printing the board) is not part of this model; its only demand on the engine, a positive board size, is the constructor's precondition.
- TicTacToeGame.TicTacToe.constructor: requires a size of at least 1. The Java constructor takes any int, but on a board of size 0 or less every line is vacuously filled, so the invariant that the winner reflects the lines cannot hold; the console only ever creates positive sizes.
- Java's 32-bit `int` arithmetic is not modelled: `row + column` in `hashCode`, `size*size` in `isBoardFull` and `boardSize*2-1` in `didLastPlayWin` are exact integers here, so overflow on huge coordinates or sizes is not captured. This includes the constructor, which passes `size*size` to `LinkedHashMap` as its initial capacity: for sizes 46341 to 65535, and any larger size whose square wraps to a negative int, Java throws IllegalArgumentException (a square that wraps to zero or a positive int is accepted), while the model accepts every size of at least 1.
- Squares.HashCode: gives the exact sum `row + column`. In Java the sum is a wrapping `int` addition made before the text, so `Integer.parseInt` always receives a valid int and never throws; on overflow the hash is the wrapped sum, which the model does not capture.
- Exception classes and messages, and `Square.toString`, are not modelled: an error is the `GameError` value only, and `GameOver` stands for the IllegalStateException while the other three stand for IllegalArgumentException.
- `getCurrentGameBoard` and `getBoardSize` are plain field reads (`gameBoard`, `boardSize`) rather than separate members; aliasing of the returned map by callers is not modelled.
- The hashing and bucket layout of `LinkedHashMap` are not modelled: the map is a Dafny `map` keyed by square value, which agrees with `Square.equals`/`hashCode` (`Squares.EqualSquaresHashAlike`), together with its insertion order.
- The long unit-test games are not played move by move through `PlaceToken` from a new game; each client method starts from the state before the last move. The earlier moves are stated as the board and play order they produce.
