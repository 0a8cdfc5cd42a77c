// The little arithmetic several modules share.
module Arithmetic {
  function Min(a: int, b: int): int {
    if a < b then a else b
  }

  function Max(a: int, b: int): int {
    if a < b then b else a
  }

  // A multiple of n that is not zero is at least n away from it.
  lemma Multiples(n: nat, d: int)
    requires n > 0
    ensures n * d == d * n
    ensures (d >= 1 ==> n * d >= n) && (d <= -1 ==> n * d + n <= 0)
  {
    assert d >= 1 ==> n * (d - 1) >= 0;
    assert d <= -1 ==> n * (-d - 1) >= 0;
  }
}
