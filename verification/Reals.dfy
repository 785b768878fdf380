/** Facts of real arithmetic that the solver is slow to find among others. */
module Reals {
  lemma DivideBack(x: real, k: real)
    requires k != 0.0
    ensures x / k * k == x && k * (x / k) == x
  {
  }

  lemma Regrouped(a: real, b: real, c: real)
    ensures a * b * c == a * (b * c)
  {
  }
}
