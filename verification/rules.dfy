/**
 * The rules of the game as values: tokens, the board as a map from squares
 * to tokens, the lines a player can fill, and the facts that make the
 * engine's shortcut win check (only the lines through the last square,
 * only after 2N-1 moves) agree with a check of every line.
 */
module Rules {
  import opened Wrappers
  import opened Squares

  datatype Token = X | O {
    /** The other player's token. */
    function Opposite(): (t: Token)
      ensures t != this
    {
      if this == X then O else X
    }
  }

  /** The token that makes move number `i` (counting from 0): X first, then turns alternate. */
  function TurnToken(i: nat): (t: Token)
    ensures i == 0 ==> t == X
  {
    if i % 2 == 0 then X else O
  }

  /** Turns alternate: each move is made by the other player than the one before. */
  lemma TurnsAlternate(i: nat)
    ensures TurnToken(i + 1) == TurnToken(i).Opposite()
  {
  }

  type Board = map<Square, Token>

  /** `LinkedHashMap.get`: the token on `sq`, or `None` where Java returns null. */
  function Get(board: Board, sq: Square): (r: Option<Token>)
    ensures r.Some? <==> sq in board
    ensures r.Some? ==> r.value == board[sq]
  {
    if sq in board then Some(board[sq]) else None
  }

  /**
   * The play log behind the engine's insertion-ordered map: `order` lists
   * the occupied squares in the order they were played, the tokens on them
   * alternate X, O, X, ... from the first move, and nothing else is occupied.
   */
  ghost predicate AlternatingLog(board: Board, order: seq<Square>) {
    && |board| == |order|
    && (forall i :: 0 <= i < |order| ==> order[i] in board && board[order[i]] == TurnToken(i))
    && (forall sq :: sq in board ==> sq in order)
  }

  lemma EmptyLogAlternates()
    ensures AlternatingLog(map[], [])
  {
  }

  /** Playing the token whose turn it is on a free square keeps the log alternating. */
  lemma AlternatingLogExtends(board: Board, order: seq<Square>, sq: Square)
    requires AlternatingLog(board, order) && sq !in board
    ensures AlternatingLog(board[sq := TurnToken(|order|)], order + [sq])
  {
    var after, log := board[sq := TurnToken(|order|)], order + [sq];
    assert |after| == |board| + 1;
    forall i | 0 <= i < |log| ensures log[i] in after && after[log[i]] == TurnToken(i) {
      if i < |order| {
        assert log[i] == order[i] && order[i] in board;
      }
    }
    forall s | s in after ensures s in log {
      if s == sq {
        assert log[|order|] == sq;
      } else {
        assert s in board;
        var i :| 0 <= i < |order| && order[i] == s;
        assert log[i] == s;
      }
    }
  }

  // ---------------------------------------------------------------------------
  // Lines
  // ---------------------------------------------------------------------------

  /** The squares (row, 1) .. (row, size) that the engine scans across a row. */
  function RowSquares(size: nat, row: int): (line: seq<Square>)
    ensures |line| == size
  {
    seq(size, i => Square(row, i + 1))
  }

  /** The squares (1, column) .. (size, column) that the engine scans down a column. */
  function ColumnSquares(size: nat, column: int): (line: seq<Square>)
    ensures |line| == size
  {
    seq(size, i => Square(i + 1, column))
  }

  /** The squares (i, i) for i in 1 .. size. */
  function MainDiagonal(size: nat): (line: seq<Square>)
    ensures |line| == size
  {
    seq(size, i => Square(i + 1, i + 1))
  }

  /** The squares (i, size + 1 - i) for i in 1 .. size. */
  function AntiDiagonal(size: nat): (line: seq<Square>)
    ensures |line| == size
  {
    seq(size, i => AntiSquare(size, i + 1))
  }

  /** Every square of `line` holds `t`; an empty square or the other token breaks it. */
  predicate Filled(board: Board, line: seq<Square>, t: Token) {
    forall k :: 0 <= k < |line| ==> Get(board, line[k]) == Some(t)
  }

  /** Row `row` holds `t` in columns 1 .. size. */
  predicate RowFilled(board: Board, size: nat, row: int, t: Token) {
    forall c :: 1 <= c <= size ==> Get(board, Square(row, c)) == Some(t)
  }

  /** Column `column` holds `t` in rows 1 .. size. */
  predicate ColumnFilled(board: Board, size: nat, column: int, t: Token) {
    forall r :: 1 <= r <= size ==> Get(board, Square(r, column)) == Some(t)
  }

  /** Every (i, i), 1 <= i <= size, holds `t`. */
  predicate MainDiagonalFilled(board: Board, size: nat, t: Token) {
    forall i :: 1 <= i <= size ==> Get(board, Square(i, i)) == Some(t)
  }

  /** The square of row `i` on the anti-diagonal: (i, size + 1 - i). */
  function AntiSquare(size: nat, i: int): Square {
    Square(i, size + 1 - i)
  }

  /** Every (i, size + 1 - i), 1 <= i <= size, holds `t`. */
  predicate AntiDiagonalFilled(board: Board, size: nat, t: Token) {
    forall i :: 1 <= i <= size ==> Get(board, AntiSquare(size, i)) == Some(t)
  }

  /**
   * Some line is filled with `t`. Since the engine accepts squares whose row
   * or column is zero or negative, the rows and columns it can scan are
   * those of any integer index, not only 1 .. size.
   */
  ghost predicate HasCompleteLine(board: Board, size: nat, t: Token) {
    || (exists r :: RowFilled(board, size, r, t))
    || (exists c :: ColumnFilled(board, size, c, t))
    || MainDiagonalFilled(board, size, t)
    || AntiDiagonalFilled(board, size, t)
  }

  /** The four checks of the engine through square `sq`: its row, its column, and the diagonals it lies on. */
  predicate WinsThrough(board: Board, size: nat, sq: Square, t: Token) {
    || RowFilled(board, size, sq.row, t)
    || ColumnFilled(board, size, sq.column, t)
    || (sq.row == sq.column && MainDiagonalFilled(board, size, t))
    || (sq.row + sq.column == size + 1 && AntiDiagonalFilled(board, size, t))
  }

  /** A win through one square is a complete line. */
  lemma WinsThroughIsComplete(board: Board, size: nat, sq: Square, t: Token)
    requires WinsThrough(board, size, sq, t)
    ensures HasCompleteLine(board, size, t)
  {
  }

  /** Each line, as the sequence of its squares. */
  lemma LinesAsSequences(board: Board, size: nat, r: int, c: int, t: Token)
    ensures RowFilled(board, size, r, t) <==> Filled(board, RowSquares(size, r), t)
    ensures ColumnFilled(board, size, c, t) <==> Filled(board, ColumnSquares(size, c), t)
    ensures MainDiagonalFilled(board, size, t) <==> Filled(board, MainDiagonal(size), t)
    ensures AntiDiagonalFilled(board, size, t) <==> Filled(board, AntiDiagonal(size), t)
  {
    if RowFilled(board, size, r, t) {
      forall k | 0 <= k < size ensures Get(board, RowSquares(size, r)[k]) == Some(t) {
        assert RowSquares(size, r)[k] == Square(r, k + 1);
      }
    }
    if Filled(board, RowSquares(size, r), t) {
      forall j | 1 <= j <= size ensures Get(board, Square(r, j)) == Some(t) {
        assert RowSquares(size, r)[j - 1] == Square(r, j);
      }
    }
    if ColumnFilled(board, size, c, t) {
      forall k | 0 <= k < size ensures Get(board, ColumnSquares(size, c)[k]) == Some(t) {
        assert ColumnSquares(size, c)[k] == Square(k + 1, c);
      }
    }
    if Filled(board, ColumnSquares(size, c), t) {
      forall j | 1 <= j <= size ensures Get(board, Square(j, c)) == Some(t) {
        assert ColumnSquares(size, c)[j - 1] == Square(j, c);
      }
    }
    if MainDiagonalFilled(board, size, t) {
      forall k | 0 <= k < size ensures Get(board, MainDiagonal(size)[k]) == Some(t) {
        assert MainDiagonal(size)[k] == Square(k + 1, k + 1);
      }
    }
    if Filled(board, MainDiagonal(size), t) {
      forall j | 1 <= j <= size ensures Get(board, Square(j, j)) == Some(t) {
        assert MainDiagonal(size)[j - 1] == Square(j, j);
      }
    }
    if AntiDiagonalFilled(board, size, t) {
      forall k | 0 <= k < size ensures Get(board, AntiDiagonal(size)[k]) == Some(t) {
        assert AntiDiagonal(size)[k] == AntiSquare(size, k + 1);
      }
    }
    if Filled(board, AntiDiagonal(size), t) {
      forall j | 1 <= j <= size ensures Get(board, AntiSquare(size, j)) == Some(t) {
        assert AntiDiagonal(size)[j - 1] == AntiSquare(size, j);
      }
    }
  }

  /** On a fresh board no line of a board of size at least 1 is complete. */
  lemma EmptyBoardHasNoLine(size: nat, t: Token)
    requires size >= 1
    ensures !HasCompleteLine(map[], size, t)
  {
    forall r ensures !RowFilled(map[], size, r, t) {
      assert Get(map[], Square(r, 1)) == None;
    }
    forall c ensures !ColumnFilled(map[], size, c, t) {
      assert Get(map[], Square(1, c)) == None;
    }
    assert Get(map[], Square(1, 1)) == None;
    assert Get(map[], AntiSquare(size, 1)) == None;
  }

  // ---------------------------------------------------------------------------
  // A new complete line passes through the square just played
  // ---------------------------------------------------------------------------

  /**
   * On a board without a complete line, placing `t` on a free square `sq`
   * completes a line only for `t`, and only one the engine checks through `sq`.
   */
  lemma NewLinePassesThrough(board: Board, size: nat, sq: Square, t: Token, u: Token)
    requires sq !in board && !HasCompleteLine(board, size, u)
    requires HasCompleteLine(board[sq := t], size, u)
    ensures u == t && WinsThrough(board[sq := t], size, sq, t)
  {
    var after := board[sq := t];
    if r :| RowFilled(after, size, r, u) {
      assert !RowFilled(board, size, r, u);
      var c :| 1 <= c <= size && Get(board, Square(r, c)) != Some(u);
      assert Get(after, Square(r, c)) == Some(u);
      assert Square(r, c) == sq;
    } else if c :| ColumnFilled(after, size, c, u) {
      assert !ColumnFilled(board, size, c, u);
      var r :| 1 <= r <= size && Get(board, Square(r, c)) != Some(u);
      assert Get(after, Square(r, c)) == Some(u);
      assert Square(r, c) == sq;
    } else if MainDiagonalFilled(after, size, u) {
      var i :| 1 <= i <= size && Get(board, Square(i, i)) != Some(u);
      assert Get(after, Square(i, i)) == Some(u);
      assert Square(i, i) == sq;
    } else {
      var i :| 1 <= i <= size && Get(board, AntiSquare(size, i)) != Some(u);
      assert Get(after, AntiSquare(size, i)) == Some(u);
      assert AntiSquare(size, i) == sq;
    }
  }

  // ---------------------------------------------------------------------------
  // No line can be complete before move 2N-1
  // ---------------------------------------------------------------------------

  predicate Distinct(s: seq<Square>) {
    forall i, j :: 0 <= i < j < |s| ==> s[i] != s[j]
  }

  /**
   * Counting: if every square of a duplicate-free `line` occurs in `order`,
   * and only at positions of parity `p`, then the line is no longer than the
   * number of such positions.
   */
  lemma {:induction false} OccupancyBound(order: seq<Square>, line: seq<Square>, p: nat)
    requires p < 2 && Distinct(line)
    requires forall k :: 0 <= k < |line| ==> line[k] in order
    requires forall i :: 0 <= i < |order| && order[i] in line ==> i % 2 == p
    ensures |line| <= (|order| + 1 - p) / 2
    decreases |order|
  {
    // A first square of the line, if any, for the empty-order case.
    ghost var first := if |line| > 0 then line[0] else Square(0, 0);
    if |order| > 0 {
      var n := |order|;
      var last := order[n - 1];
      var prefix := order[..n - 1];
      if last in line {
        var j :| 0 <= j < |line| && line[j] == last;
        var rest := line[..j] + line[j + 1..];
        assert (n - 1) % 2 == p;
        forall k | 0 <= k < |rest| ensures rest[k] in prefix {
          var m := if k < j then k else k + 1;
          assert rest[k] == line[m] && m != j;
          var i :| 0 <= i < n && order[i] == line[m];
          assert i != n - 1;
          assert prefix[i] == rest[k];
        }
        forall i | 0 <= i < |prefix| && prefix[i] in rest ensures i % 2 == p {
          assert order[i] == prefix[i];
        }
        OccupancyBound(prefix, rest, p);
      } else {
        forall k | 0 <= k < |line| ensures line[k] in prefix {
          var i :| 0 <= i < n && order[i] == line[k];
          assert i != n - 1;
          assert prefix[i] == line[k];
        }
        forall i | 0 <= i < |prefix| && prefix[i] in line ensures i % 2 == p {
          assert order[i] == prefix[i];
        }
        OccupancyBound(prefix, line, p);
      }
    }
  }

  /** A filled line of `size` distinct squares needs at least 2*size-1 moves on an alternating log. */
  lemma FilledLineNeedsMoves(board: Board, order: seq<Square>, line: seq<Square>, t: Token)
    requires AlternatingLog(board, order)
    requires Distinct(line) && Filled(board, line, t)
    ensures |order| >= 2 * |line| - 1
  {
    var p := if t == X then 0 else 1;
    forall k | 0 <= k < |line| ensures line[k] in order {
      assert Get(board, line[k]) == Some(t);
      assert line[k] in board;
    }
    forall i | 0 <= i < |order| && order[i] in line ensures i % 2 == p {
      var k :| 0 <= k < |line| && line[k] == order[i];
      assert Get(board, line[k]) == Some(t);
      assert board[order[i]] == t && board[order[i]] == TurnToken(i);
    }
    OccupancyBound(order, line, p);
  }

  /** Every line the engine scans consists of distinct squares. */
  lemma LinesAreDistinct(size: nat, r: int, c: int)
    ensures Distinct(RowSquares(size, r)) && Distinct(ColumnSquares(size, c))
    ensures Distinct(MainDiagonal(size)) && Distinct(AntiDiagonal(size))
  {
  }

  /** The engine's shortcut is sound: with fewer than 2*size-1 moves no line is complete. */
  lemma CompleteLineNeedsMoves(board: Board, order: seq<Square>, size: nat, t: Token)
    requires AlternatingLog(board, order) && HasCompleteLine(board, size, t)
    ensures |board| >= 2 * size - 1
  {
    if r :| RowFilled(board, size, r, t) {
      LinesAsSequences(board, size, r, 0, t);
      LinesAreDistinct(size, r, 0);
      FilledLineNeedsMoves(board, order, RowSquares(size, r), t);
    } else if c :| ColumnFilled(board, size, c, t) {
      LinesAsSequences(board, size, 0, c, t);
      LinesAreDistinct(size, 0, c);
      FilledLineNeedsMoves(board, order, ColumnSquares(size, c), t);
    } else if MainDiagonalFilled(board, size, t) {
      LinesAsSequences(board, size, 0, 0, t);
      LinesAreDistinct(size, 0, 0);
      FilledLineNeedsMoves(board, order, MainDiagonal(size), t);
    } else {
      LinesAsSequences(board, size, 0, 0, t);
      LinesAreDistinct(size, 0, 0);
      FilledLineNeedsMoves(board, order, AntiDiagonal(size), t);
    }
  }

  // ---------------------------------------------------------------------------
  // The shortcut check decides the same as a check of every line
  // ---------------------------------------------------------------------------

  /**
   * The engine's win check after a move (at least 2*size-1 tokens placed,
   * and a line through the last square filled with the last token) holds
   * exactly when some line of the board is complete, for the token just
   * played and no other, provided no line was complete before the move.
   */
  lemma ShortcutCheckIsExact(board: Board, order: seq<Square>, size: nat, sq: Square, u: Token)
    requires AlternatingLog(board, order) && sq !in board
    requires forall v :: !HasCompleteLine(board, size, v)
    ensures var t := TurnToken(|order|);
            var after := board[sq := t];
            HasCompleteLine(after, size, u)
            <==> u == t && |after| >= 2 * size - 1 && WinsThrough(after, size, sq, t)
  {
    var t := TurnToken(|order|);
    var after := board[sq := t];
    AlternatingLogExtends(board, order, sq);
    if HasCompleteLine(after, size, u) {
      NewLinePassesThrough(board, size, sq, t, u);
      CompleteLineNeedsMoves(after, order + [sq], size, u);
    }
    if u == t && WinsThrough(after, size, sq, t) {
      WinsThroughIsComplete(after, size, sq, t);
    }
  }
}
