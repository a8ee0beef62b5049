/**
 * A square of the game board: an immutable (row, column) pair whose
 * equality and hash code make it a map key.
 */
module Squares {
  import Decimal

  /** Row and column are fixed when the square is made and never change. */
  datatype Square = Square(row: int, column: int)

  /** The argument of `equals(Object)`: null, a `Square`, or an object of another class. */
  datatype Object = Null | SquareObject(square: Square) | OtherObject

  /** `getRow` and `getColumn` give back exactly what the square was made from. */
  lemma AccessorsReturnCoordinates(row: int, column: int)
    ensures Square(row, column).row == row && Square(row, column).column == column
    ensures forall s: Square :: Square(s.row, s.column) == s
  {
  }

  /** `equals`: false for null or another class, else coordinate-wise equality. */
  function Equals(s: Square, obj: Object): (r: bool)
    ensures r <==> obj == SquareObject(s)
  {
    match obj
    case Null => false
    case OtherObject => false
    case SquareObject(other) => s.row == other.row && s.column == other.column
  }

  /** `equals` is an equivalence relation on squares. */
  lemma EqualsIsEquivalence(a: Square, b: Square, c: Square)
    ensures Equals(a, SquareObject(a))
    ensures Equals(a, SquareObject(b)) == Equals(b, SquareObject(a))
    ensures Equals(a, SquareObject(b)) && Equals(b, SquareObject(c)) ==> Equals(a, SquareObject(c))
  {
  }

  /**
   * `hashCode`: the sum `row + column` is formed first, turned into its
   * decimal text and parsed back, so the hash is the sum itself.
   */
  function HashCode(s: Square): (h: int)
    ensures h == s.row + s.column
  {
    var text := Decimal.IntToString(s.row + s.column);
    Decimal.IntRoundTrip(s.row + s.column);
    Decimal.ParseInt(text).value
  }

  /** Equal squares have equal hash codes, as the hash contract demands. */
  lemma EqualSquaresHashAlike(a: Square, b: Square)
    requires Equals(a, SquareObject(b))
    ensures HashCode(a) == HashCode(b)
  {
  }
}
