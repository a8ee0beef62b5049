/**
 * The rules engine: a game on a square board of a fixed size, an
 * insertion-ordered map of the tokens played, a game-over latch and the
 * winner. Whose turn it is is not stored; it is read off the last entry.
 */
module TicTacToeGame {
  import opened Wrappers
  import opened Squares
  import opened Rules

  /**
   * The engine's failures. `WrongTurn`, `OutOfBounds` and `Occupied` are
   * thrown as IllegalArgumentException, `GameOver` as IllegalStateException.
   */
  datatype GameError = WrongTurn | OutOfBounds | GameOver | Occupied

  class TicTacToe {
    /** Number of rows, and of columns. */
    const boardSize: nat
    /** The keys and values of the insertion-ordered map of played squares. */
    var gameBoard: Board
    /** The map's keys in insertion order, which is the order of play. */
    var playOrder: seq<Square>
    var isGameOver: bool
    var winner: Option<Token>

    /** The map and its insertion order agree, and the tokens alternate from X. */
    ghost predicate WellFormed()
      reads this
    {
      boardSize >= 1 && AlternatingLog(gameBoard, playOrder)
    }

    /** The winner is set exactly when some line is complete, and only once the game is over. */
    ghost predicate Valid()
      reads this
    {
      && WellFormed()
      && (winner.Some? ==> isGameOver && HasCompleteLine(gameBoard, boardSize, winner.value))
      && (winner.None? ==> forall t :: !HasCompleteLine(gameBoard, boardSize, t))
    }

    /** A new game on a `size` by `size` board; the console only ever asks for a positive size. */
    constructor (size: int)
      requires size >= 1
      ensures Valid()
      ensures boardSize == size && gameBoard == map[] && playOrder == []
      ensures !isGameOver && winner == None
    {
      boardSize := size;
      gameBoard := map[];
      playOrder := [];
      isGameOver := false;
      winner := None;
      EmptyLogAlternates();
      forall t ensures !HasCompleteLine(map[], size, t) {
        EmptyBoardHasNoLine(size, t);
      }
    }

    /** The standard game: three rows and three columns. */
    constructor Default()
      ensures Valid()
      ensures boardSize == 3 && gameBoard == map[] && playOrder == []
      ensures !isGameOver && winner == None
    {
      boardSize := 3;
      gameBoard := map[];
      playOrder := [];
      isGameOver := false;
      winner := None;
      EmptyLogAlternates();
      forall t ensures !HasCompleteLine(map[], 3, t) {
        EmptyBoardHasNoLine(3, t);
      }
    }

    /** The most recently inserted key, or none on an empty board. */
    function GetLastPlayedSquare(): (sq: Option<Square>)
      reads this
      requires WellFormed()
      ensures sq.None? <==> |gameBoard| == 0
      ensures sq.Some? ==> sq.value in gameBoard && sq.value == playOrder[|playOrder| - 1]
    {
      if |gameBoard| == 0 then None else Some(playOrder[|playOrder| - 1])
    }

    /**
     * The token due to move: the opposite of the token on the last square
     * played, X on an empty board; X on even move counts and O on odd ones.
     * Fails once the game is over.
     */
    function GetNextTurn(): (r: Result<Token, GameError>)
      reads this
      requires WellFormed()
      ensures r.Failure? <==> isGameOver
      ensures r.Failure? ==> r.error == GameOver
      ensures r.Success? ==> r.value == TurnToken(|playOrder|)
      ensures r.Success? && playOrder != [] ==> r.value == gameBoard[playOrder[|playOrder| - 1]].Opposite()
    {
      if isGameOver then Failure(GameOver)
      else
        var lastPlayedSquare := GetLastPlayedSquare();
        var lastPlayedToken := if lastPlayedSquare.None? then None else Get(gameBoard, lastPlayedSquare.value);
        TurnsAlternate(if |playOrder| == 0 then 0 else |playOrder| - 1);
        if lastPlayedToken == None then Success(X)
        else if lastPlayedToken == Some(O) then Success(X)
        else Success(O)
    }

    /** The winner, if a line has been completed; none while playing or after a draw. */
    function GetWinner(): (w: Option<Token>)
      reads this
      requires Valid()
      ensures w.Some? ==> isGameOver && HasCompleteLine(gameBoard, boardSize, w.value)
      ensures w.None? ==> forall t :: !HasCompleteLine(gameBoard, boardSize, t)
    {
      winner
    }

    /** Whether every square is taken; a full board ends the game. */
    method IsBoardFull() returns (full: bool)
      requires Valid()
      modifies this`isGameOver
      ensures Valid()
      ensures full <==> |gameBoard| == boardSize * boardSize
      ensures isGameOver == (old(isGameOver) || full)
    {
      if |gameBoard| == boardSize * boardSize {
        isGameOver := true;
        return true;
      }
      return false;
    }

    /**
     * Plays `token` on (row, column). Checks in this order, the first failure
     * winning: the game is not over (asked of the turn query), `token` is the
     * one due, neither coordinate exceeds the size, the square is free. Only
     * the upper bound is checked: a zero or negative coordinate is accepted.
     */
    method PlaceToken(token: Token, row: int, column: int) returns (r: Outcome<GameError>)
      requires Valid()
      modifies this
      ensures Valid()
      ensures old(isGameOver) ==> r == Fail(GameOver)
      ensures !old(isGameOver) && token != TurnToken(|old(playOrder)|) ==> r == Fail(WrongTurn)
      ensures !old(isGameOver) && token == TurnToken(|old(playOrder)|) && (row > boardSize || column > boardSize)
              ==> r == Fail(OutOfBounds)
      ensures (!old(isGameOver) && token == TurnToken(|old(playOrder)|) && row <= boardSize && column <= boardSize
               && Square(row, column) in old(gameBoard)) ==> r == Fail(Occupied)
      ensures r.Pass? <==> !old(isGameOver) && token == TurnToken(|old(playOrder)|) && row <= boardSize
                           && column <= boardSize && Square(row, column) !in old(gameBoard)
      ensures r.Fail? ==> gameBoard == old(gameBoard) && playOrder == old(playOrder)
                          && isGameOver == old(isGameOver) && winner == old(winner)
      ensures r.Pass? ==> gameBoard == old(gameBoard)[Square(row, column) := token]
                          && playOrder == old(playOrder) + [Square(row, column)]
      ensures r.Pass? ==> (winner, isGameOver) ==
                          if |gameBoard| >= 2 * boardSize - 1 && WinsThrough(gameBoard, boardSize, Square(row, column), token)
                          then (Some(token), true) else (old(winner), old(isGameOver))
    {
      var nextTurn := GetNextTurn();
      if nextTurn.Failure? {
        return Fail(nextTurn.error);
      }
      if token != nextTurn.value {
        return Fail(WrongTurn);
      }
      if row > boardSize || column > boardSize {
        return Fail(OutOfBounds);
      }
      if isGameOver {
        return Fail(GameOver);
      }

      var currentSquare := Square(row, column);
      var currentToken := Get(gameBoard, currentSquare);
      if currentToken != None {
        return Fail(Occupied);
      }
      ghost var board, order := gameBoard, playOrder;
      gameBoard := gameBoard[currentSquare := token];
      playOrder := playOrder + [currentSquare];
      AlternatingLogExtends(board, order, currentSquare);
      forall u ensures HasCompleteLine(gameBoard, boardSize, u)
                       <==> u == token && |gameBoard| >= 2 * boardSize - 1
                            && WinsThrough(gameBoard, boardSize, currentSquare, token)
      {
        ShortcutCheckIsExact(board, order, boardSize, currentSquare, u);
      }

      var won := DidLastPlayWin();
      if won {
        winner := Some(token);
        isGameOver := true;
      }
      return Pass;
    }

    /**
     * Whether the last move won: false before 2*size-1 tokens are down,
     * otherwise whether the last token fills a line through the last square.
     */
    method DidLastPlayWin() returns (won: bool)
      requires WellFormed()
      ensures won <==> |gameBoard| >= 2 * boardSize - 1
                       && var last := playOrder[|playOrder| - 1];
                          WinsThrough(gameBoard, boardSize, last, gameBoard[last])
    {
      if |gameBoard| < boardSize * 2 - 1 {
        return false;
      }
      var lastPlayedSquare := GetLastPlayedSquare();
      var lastPlayedToken := Get(gameBoard, lastPlayedSquare.value);
      var square, token := lastPlayedSquare.value, lastPlayedToken.value;

      won := DidWinAcross(token, square);
      if won {
        return true;
      }
      won := DidWinDown(token, square);
      if won {
        return true;
      }
      won := DidWinDiagonalLR(token, square);
      if won {
        return true;
      }
      won := DidWinDiagonalRL(token, square);
      if won {
        return true;
      }
      return false;
    }

    /** Whether `token` fills the row of `square`, scanning columns 1 .. size and stopping at the first miss. */
    method DidWinAcross(token: Token, square: Square) returns (noTokensMissing: bool)
      ensures noTokensMissing <==> RowFilled(gameBoard, boardSize, square.row, token)
    {
      noTokensMissing := true;
      var row := square.row;
      for column := 1 to boardSize + 1
        invariant forall c :: 1 <= c < column ==> Get(gameBoard, Square(row, c)) == Some(token)
      {
        var currentToken := Get(gameBoard, Square(row, column));
        if Some(token) != currentToken {
          noTokensMissing := false;
          break;
        }
      }
    }

    /** Whether `token` fills the column of `square`, scanning rows 1 .. size and stopping at the first miss. */
    method DidWinDown(token: Token, square: Square) returns (noTokensMissing: bool)
      ensures noTokensMissing <==> ColumnFilled(gameBoard, boardSize, square.column, token)
    {
      noTokensMissing := true;
      var column := square.column;
      for row := 1 to boardSize + 1
        invariant forall r :: 1 <= r < row ==> Get(gameBoard, Square(r, column)) == Some(token)
      {
        var currentToken := Get(gameBoard, Square(row, column));
        if Some(token) != currentToken {
          noTokensMissing := false;
          break;
        }
      }
    }

    /** Whether `square` lies on the main diagonal and `token` fills it. */
    method DidWinDiagonalLR(token: Token, square: Square) returns (noTokensMissing: bool)
      ensures noTokensMissing <==> square.row == square.column && MainDiagonalFilled(gameBoard, boardSize, token)
    {
      noTokensMissing := true;
      if square.row == square.column {
        for i := 1 to boardSize + 1
          invariant forall j :: 1 <= j < i ==> Get(gameBoard, Square(j, j)) == Some(token)
        {
          var currentToken := Get(gameBoard, Square(i, i));
          if Some(token) != currentToken {
            noTokensMissing := false;
            break;
          }
        }
        return noTokensMissing;
      }
      return false;
    }

    /** Whether `square` lies on the anti-diagonal (row + column = size + 1) and `token` fills it. */
    method DidWinDiagonalRL(token: Token, square: Square) returns (noTokensMissing: bool)
      ensures noTokensMissing <==> square.row + square.column == boardSize + 1
                                   && AntiDiagonalFilled(gameBoard, boardSize, token)
    {
      noTokensMissing := true;
      if square.row + square.column == boardSize + 1 {
        for i := 1 to boardSize + 1
          invariant forall j :: 1 <= j < i ==> Get(gameBoard, AntiSquare(boardSize, j)) == Some(token)
        {
          var currentToken := Get(gameBoard, Square(i, boardSize + 1 - i));
          assert Square(i, boardSize + 1 - i) == AntiSquare(boardSize, i);
          if Some(token) != currentToken {
            noTokensMissing := false;
            break;
          }
        }
        return noTokensMissing;
      }
      return false;
    }
  }
}
