/** Notions shared by several modules. */
module Basics {
  datatype Option<+T> = None | Some(value: T)

  function Min(a: int, b: int): int { if a < b then a else b }

  function Max(a: int, b: int): int { if a > b then a else b }

  ghost predicate Distinct<T>(s: seq<T>) {
    forall i, j :: 0 <= i < j < |s| ==> s[i] != s[j]
  }

  function Reverse<T>(s: seq<T>): (r: seq<T>)
    ensures |r| == |s|
  {
    if s == [] then [] else Reverse(s[1..]) + [s[0]]
  }

  function Last<T>(s: seq<T>): T
    requires s != []
  {
    s[|s| - 1]
  }

  /** Quotient and remainder are unique. */
  lemma ModUnique(x: int, n: int, q: int, r: int)
    requires x == n * q + r && 0 <= r < n
    ensures x % n == r
  {
    assert x == n * (x / n) + x % n;
    var k := q - x / n;
    assert n * k == x % n - r;
    if k > 0 {
      Grows(n, k);
    } else if k < 0 {
      assert n * -k == -(n * k);
      Grows(n, -k);
    }
  }

  lemma Grows(n: int, k: int)
    requires 0 < n && 0 < k
    ensures n <= n * k
  {
  }
}
