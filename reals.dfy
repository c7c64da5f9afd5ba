/** Squares of reals, as the mean squared deviation of the score uses them. */
module Reals {

  /** x ** 2 */
  function Square(x: real): (s: real)
    ensures s >= 0.0
  {
    x * x
  }

  /** Only zero squares to zero. */
  lemma SquarePositive(x: real)
    requires x != 0.0
    ensures Square(x) > 0.0
  {
    calc {
      Square(x);
    ==
      x * x;
    >
      0.0;
    }
  }
}
