/**
 * The engine's unit-test scenarios. Short games are played through the
 * engine as client code, asserting what its contracts promise; the longer
 * games are stated on the board they reach, which the engine's win check
 * (row, column and diagonals through the last square, once 2N-1 tokens are
 * down) then judges.
 */
module TicTacToeScenarios {
  import opened Wrappers
  import opened Squares
  import opened Rules
  import opened TicTacToeGame

  /** A fresh default game is 3 by 3, X moves first, and nobody has won. */
  method FreshGame() {
    var game := new TicTacToe.Default();
    assert game.boardSize == 3;
    assert game.GetNextTurn() == Success(X);
    assert game.GetWinner() == None;
  }

  /** After a failed move the same player is still due. */
  method TurnKeptAfterFailure() {
    var game := new TicTacToe.Default();
    var r := game.PlaceToken(X, 1, 2);
    assert r == Pass && game.GetNextTurn() == Success(O);
    r := game.PlaceToken(O, 1, 2);
    assert r == Fail(Occupied);
    assert game.GetNextTurn() == Success(O);
  }

  /** The first failing check decides the error: turn before bounds, bounds before occupancy. */
  method ErrorOrder() {
    var game := new TicTacToe.Default();
    var r := game.PlaceToken(X, 1, 1);
    assert r == Pass;
    r := game.PlaceToken(O, 1, 1);
    assert r == Fail(Occupied);
    r := game.PlaceToken(O, 4, 4);
    assert r == Fail(OutOfBounds);
    r := game.PlaceToken(X, 4, 4);
    assert r == Fail(WrongTurn);
  }

  /** Only the upper bound is checked: a square in row 0 is accepted. */
  method ZeroRowAccepted() {
    var game := new TicTacToe(3);
    var r := game.PlaceToken(X, 0, -5);
    assert r == Pass && Square(0, -5) in game.gameBoard;
  }

  /** On a 1 by 1 board the first move fills every line through it: X wins and the game is over. */
  method SingleSquareWin() {
    var game := new TicTacToe(1);
    var r := game.PlaceToken(X, 1, 1);
    assert r == Pass;
    assert RowFilled(game.gameBoard, 1, 1, X);
    assert game.GetWinner() == Some(X);
    r := game.PlaceToken(O, 1, 1);
    assert r == Fail(GameOver);
    var full := game.IsBoardFull();
    assert full;
  }

  // The boards below are those of the unit tests, each entry the token whose
  // turn it was. Once 2N-1 tokens are down the engine checks the lines
  // through the last square, so a filled line there makes its token the winner.

  /** X takes the top row while O plays (2,2) and (3,3). */
  lemma RowWin()
    ensures var board := map[Square(1, 1) := X, Square(2, 2) := O, Square(1, 2) := X, Square(3, 3) := O,
                             Square(1, 3) := X];
            |board| == 5 && WinsThrough(board, 3, Square(1, 3), X) && RowFilled(board, 3, 1, X)
  {
    var board := map[Square(1, 1) := X, Square(2, 2) := O, Square(1, 2) := X, Square(3, 3) := O,
                             Square(1, 3) := X];
    assert board.Keys == {Square(1, 1), Square(2, 2), Square(1, 2), Square(3, 3), Square(1, 3)};
    forall c | 1 <= c <= 3 ensures Get(board, Square(1, c)) == Some(X) {
      assert c == 1 || c == 2 || c == 3;
    }
  }

  /** X takes the first column while O plays (2,2) and (3,3). */
  lemma ColumnWin()
    ensures var board := map[Square(1, 1) := X, Square(2, 2) := O, Square(2, 1) := X, Square(3, 3) := O,
                             Square(3, 1) := X];
            |board| == 5 && WinsThrough(board, 3, Square(3, 1), X) && ColumnFilled(board, 3, 1, X)
  {
    var board := map[Square(1, 1) := X, Square(2, 2) := O, Square(2, 1) := X, Square(3, 3) := O,
                             Square(3, 1) := X];
    assert board.Keys == {Square(1, 1), Square(2, 2), Square(2, 1), Square(3, 3), Square(3, 1)};
    forall r | 1 <= r <= 3 ensures Get(board, Square(r, 1)) == Some(X) {
      assert r == 1 || r == 2 || r == 3;
    }
  }

  /** X takes the main diagonal while O plays (1,2) and (3,1). */
  lemma DiagonalWin()
    ensures var board := map[Square(1, 1) := X, Square(1, 2) := O, Square(2, 2) := X, Square(3, 1) := O,
                             Square(3, 3) := X];
            |board| == 5 && WinsThrough(board, 3, Square(3, 3), X) && MainDiagonalFilled(board, 3, X)
  {
    var board := map[Square(1, 1) := X, Square(1, 2) := O, Square(2, 2) := X, Square(3, 1) := O,
                             Square(3, 3) := X];
    assert board.Keys == {Square(1, 1), Square(1, 2), Square(2, 2), Square(3, 1), Square(3, 3)};
    forall i | 1 <= i <= 3 ensures Get(board, Square(i, i)) == Some(X) {
      assert i == 1 || i == 2 || i == 3;
    }
  }

  /** X takes the anti-diagonal while O plays (1,2) and (3,3). */
  lemma AntiDiagonalWin()
    ensures var board := map[Square(3, 1) := X, Square(1, 2) := O, Square(2, 2) := X, Square(3, 3) := O,
                             Square(1, 3) := X];
            |board| == 5 && WinsThrough(board, 3, Square(1, 3), X) && AntiDiagonalFilled(board, 3, X)
  {
    var board := map[Square(3, 1) := X, Square(1, 2) := O, Square(2, 2) := X, Square(3, 3) := O,
                             Square(1, 3) := X];
    assert board.Keys == {Square(3, 1), Square(1, 2), Square(2, 2), Square(3, 3), Square(1, 3)};
    forall i | 1 <= i <= 3 ensures Get(board, AntiSquare(3, i)) == Some(X) {
      assert i == 1 || i == 2 || i == 3;
    }
  }

  /** On a 5 by 5 board X completes the main diagonal with its fifth token, the ninth move. */
  lemma LargeBoardDiagonalWin()
    ensures var board := map[Square(5, 5) := X, Square(1, 2) := O, Square(2, 2) := X, Square(3, 1) := O,
                             Square(4, 4) := X, Square(1, 5) := O, Square(3, 3) := X, Square(3, 4) := O,
                             Square(1, 1) := X];
            |board| == 9 && WinsThrough(board, 5, Square(1, 1), X) && MainDiagonalFilled(board, 5, X)
  {
    var board := map[Square(5, 5) := X, Square(1, 2) := O, Square(2, 2) := X, Square(3, 1) := O,
                             Square(4, 4) := X, Square(1, 5) := O, Square(3, 3) := X, Square(3, 4) := O,
                             Square(1, 1) := X];
    assert board.Keys == {Square(5, 5), Square(1, 2), Square(2, 2), Square(3, 1), Square(4, 4), Square(1, 5), Square(3, 3), Square(3, 4), Square(1, 1)};
    forall i | 1 <= i <= 5 ensures Get(board, Square(i, i)) == Some(X) {
      assert i == 1 || i == 2 || i == 3 || i == 4 || i == 5;
    }
  }

  /**
   * Because row 0 passes the bounds check, X can win on a row that is not on
   * the board: (0,1), (0,2), (0,3) while O plays (1,1) and (1,2).
   */
  lemma OffBoardRowWin()
    ensures var board := map[Square(0, 1) := X, Square(1, 1) := O, Square(0, 2) := X, Square(1, 2) := O,
                             Square(0, 3) := X];
            |board| == 5 && WinsThrough(board, 3, Square(0, 3), X) && HasCompleteLine(board, 3, X)
  {
    var board := map[Square(0, 1) := X, Square(1, 1) := O, Square(0, 2) := X, Square(1, 2) := O,
                             Square(0, 3) := X];
    assert board.Keys == {Square(0, 1), Square(1, 1), Square(0, 2), Square(1, 2), Square(0, 3)};
    forall c | 1 <= c <= 3 ensures Get(board, Square(0, c)) == Some(X) {
      assert c == 1 || c == 2 || c == 3;
    }
    assert RowFilled(board, 3, 0, X);
  }

  /** The board of the game that fills the board, before X's last move at (3,3). */
  function EightMoveBoard(): Board
  {
    map[Square(1, 1) := X, Square(1, 2) := O, Square(1, 3) := X, Square(2, 1) := O,
        Square(2, 2) := X, Square(2, 3) := O, Square(3, 2) := X, Square(3, 1) := O]
  }

  /** After the eight alternating moves of the board-filling game neither token has a line. */
  lemma EightMovesHaveNoLine()
    ensures |EightMoveBoard()| == 8 && forall t :: !HasCompleteLine(EightMoveBoard(), 3, t)
  {
    var board := EightMoveBoard();
    assert board.Keys == {Square(1, 1), Square(1, 2), Square(1, 3), Square(2, 1),
                          Square(2, 2), Square(2, 3), Square(3, 2), Square(3, 1)};
    forall t ensures !HasCompleteLine(board, 3, t) {
      forall r ensures !RowFilled(board, 3, r, t) {
        if r == 1 {
          assert Get(board, Square(1, if t == X then 2 else 1)) != Some(t);
        } else if r == 2 {
          assert Get(board, Square(2, if t == X then 1 else 2)) != Some(t);
        } else {
          assert Get(board, Square(r, 3)) == None;
        }
      }
      forall c ensures !ColumnFilled(board, 3, c, t) {
        if c == 1 {
          assert Get(board, Square(if t == X then 2 else 1, 1)) != Some(t);
        } else if c == 2 {
          assert Get(board, Square(if t == X then 1 else 2, 2)) != Some(t);
        } else {
          assert Get(board, Square(3, c)) == None;
        }
      }
      assert Get(board, Square(3, 3)) == None;
      assert Get(board, AntiSquare(3, if t == X then 3 else 1)) != Some(t);
    }
  }

  /**
   * X's ninth move, at (3,3), both fills the board and completes the main
   * diagonal, so the full board reports a winner rather than a draw.
   */
  lemma FullBoardEndsInWin()
    ensures var full := EightMoveBoard()[Square(3, 3) := X];
            |full| == 3 * 3 && WinsThrough(full, 3, Square(3, 3), X) && MainDiagonalFilled(full, 3, X)
  {
    var full := EightMoveBoard()[Square(3, 3) := X];
    assert full.Keys == {Square(1, 1), Square(1, 2), Square(1, 3), Square(2, 1),
                         Square(2, 2), Square(2, 3), Square(3, 2), Square(3, 1), Square(3, 3)};
    forall i | 1 <= i <= 3 ensures Get(full, Square(i, i)) == Some(X) {
      assert i == 1 || i == 2 || i == 3;
    }
  }

  // The last move of each long game, played through the engine from the
  // state the earlier moves leave behind.

  /** The row game: X's fifth move at (1,3) makes X the winner and ends the game. */
  method RowGameLastMove(game: TicTacToe)
    requires game.Valid() && game.boardSize == 3 && !game.isGameOver
    requires game.gameBoard == map[Square(1, 1) := X, Square(2, 2) := O, Square(1, 2) := X, Square(3, 3) := O]
    requires game.playOrder == [Square(1, 1), Square(2, 2), Square(1, 2), Square(3, 3)]
    modifies game
  {
    RowWin();
    var r := game.PlaceToken(X, 1, 3);
    assert game.gameBoard == map[Square(1, 1) := X, Square(2, 2) := O, Square(1, 2) := X, Square(3, 3) := O,
                                 Square(1, 3) := X];
    assert r == Pass && game.GetWinner() == Some(X) && game.isGameOver;
  }

  /** The column game: X's fifth move at (3,1) makes X the winner. */
  method ColumnGameLastMove(game: TicTacToe)
    requires game.Valid() && game.boardSize == 3 && !game.isGameOver
    requires game.gameBoard == map[Square(1, 1) := X, Square(2, 2) := O, Square(2, 1) := X, Square(3, 3) := O]
    requires game.playOrder == [Square(1, 1), Square(2, 2), Square(2, 1), Square(3, 3)]
    modifies game
  {
    ColumnWin();
    var r := game.PlaceToken(X, 3, 1);
    assert game.gameBoard == map[Square(1, 1) := X, Square(2, 2) := O, Square(2, 1) := X, Square(3, 3) := O,
                                 Square(3, 1) := X];
    assert r == Pass && game.GetWinner() == Some(X) && game.isGameOver;
  }

  /** The main-diagonal game: X's fifth move at (3,3) makes X the winner. */
  method DiagonalGameLastMove(game: TicTacToe)
    requires game.Valid() && game.boardSize == 3 && !game.isGameOver
    requires game.gameBoard == map[Square(1, 1) := X, Square(1, 2) := O, Square(2, 2) := X, Square(3, 1) := O]
    requires game.playOrder == [Square(1, 1), Square(1, 2), Square(2, 2), Square(3, 1)]
    modifies game
  {
    DiagonalWin();
    var r := game.PlaceToken(X, 3, 3);
    assert game.gameBoard == map[Square(1, 1) := X, Square(1, 2) := O, Square(2, 2) := X, Square(3, 1) := O,
                                 Square(3, 3) := X];
    assert r == Pass && game.GetWinner() == Some(X) && game.isGameOver;
  }

  /** The anti-diagonal game: X's fifth move at (1,3) makes X the winner. */
  method AntiDiagonalGameLastMove(game: TicTacToe)
    requires game.Valid() && game.boardSize == 3 && !game.isGameOver
    requires game.gameBoard == map[Square(3, 1) := X, Square(1, 2) := O, Square(2, 2) := X, Square(3, 3) := O]
    requires game.playOrder == [Square(3, 1), Square(1, 2), Square(2, 2), Square(3, 3)]
    modifies game
  {
    AntiDiagonalWin();
    var r := game.PlaceToken(X, 1, 3);
    assert game.gameBoard == map[Square(3, 1) := X, Square(1, 2) := O, Square(2, 2) := X, Square(3, 3) := O,
                                 Square(1, 3) := X];
    assert r == Pass && game.GetWinner() == Some(X) && game.isGameOver;
  }

  /** The board of the 5 by 5 game before X's ninth move. */
  function LargeBoardBeforeLastMove(): Board
  {
    map[Square(5, 5) := X, Square(1, 2) := O, Square(2, 2) := X, Square(3, 1) := O,
        Square(4, 4) := X, Square(1, 5) := O, Square(3, 3) := X, Square(3, 4) := O]
  }

  /** The 5 by 5 game: X's ninth move at (1,1) wins, and O's next move fails because the game is over. */
  method LargeBoardGameLastMove(game: TicTacToe)
    requires game.Valid() && game.boardSize == 5 && !game.isGameOver
    requires game.gameBoard == LargeBoardBeforeLastMove()
    requires game.playOrder == [Square(5, 5), Square(1, 2), Square(2, 2), Square(3, 1), Square(4, 4), Square(1, 5),
                                Square(3, 3), Square(3, 4)]
    modifies game
  {
    LargeBoardDiagonalWin();
    var r := game.PlaceToken(X, 1, 1);
    assert game.gameBoard == map[Square(5, 5) := X, Square(1, 2) := O, Square(2, 2) := X, Square(3, 1) := O,
                                 Square(4, 4) := X, Square(1, 5) := O, Square(3, 3) := X, Square(3, 4) := O,
                                 Square(1, 1) := X];
    assert r == Pass && game.GetWinner() == Some(X) && game.isGameOver;
    r := game.PlaceToken(O, 1, 3);
    assert r == Fail(GameOver);
  }

  /** The row-0 game: X's third token in row 0, at (0,3), wins on a row off the board. */
  method OffBoardGameLastMove(game: TicTacToe)
    requires game.Valid() && game.boardSize == 3 && !game.isGameOver
    requires game.gameBoard == map[Square(0, 1) := X, Square(1, 1) := O, Square(0, 2) := X, Square(1, 2) := O]
    requires game.playOrder == [Square(0, 1), Square(1, 1), Square(0, 2), Square(1, 2)]
    modifies game
  {
    OffBoardRowWin();
    var r := game.PlaceToken(X, 0, 3);
    assert game.gameBoard == map[Square(0, 1) := X, Square(1, 1) := O, Square(0, 2) := X, Square(1, 2) := O,
                                 Square(0, 3) := X];
    assert r == Pass && game.GetWinner() == Some(X) && game.isGameOver;
  }

  /** The board-filling game: X's ninth move at (3,3) wins, and the board is then full. */
  method FullBoardGameLastMove(game: TicTacToe)
    requires game.Valid() && game.boardSize == 3 && !game.isGameOver
    requires game.gameBoard == EightMoveBoard()
    requires game.playOrder == [Square(1, 1), Square(1, 2), Square(1, 3), Square(2, 1),
                                Square(2, 2), Square(2, 3), Square(3, 2), Square(3, 1)]
    modifies game
  {
    EightMovesHaveNoLine();
    FullBoardEndsInWin();
    var r := game.PlaceToken(X, 3, 3);
    assert r == Pass && game.GetWinner() == Some(X);
    var full := game.IsBoardFull();
    assert full && game.isGameOver;
  }
}
