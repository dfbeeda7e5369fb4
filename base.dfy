/**
 * Value shapes shared by the whole model: the small records that the game
 * copies around between signals and events, and a few sequence helpers.
 */
module Base {

  datatype Option<T> = None | Some(value: T)

  /** A slick2d Vector2f (a position or a velocity); the model only copies and compares it. */
  datatype Vector2 = Vector2(x: real, y: real)

  /** A waypoint on a creep's path; only its position is used by the modelled code. */
  datatype CheckPoint = CheckPoint(position: Vector2)

  /** The value held by a CopyablePoint (a java.awt.Point): two ints compared by value. */
  datatype Point = Point(x: int, y: int)

  /** `n` copies of `x`. */
  function Repeat<T>(x: T, n: nat): (r: seq<T>)
    ensures |r| == n
    ensures forall i :: 0 <= i < n ==> r[i] == x
  {
    if n == 0 then [] else [x] + Repeat(x, n - 1)
  }

  lemma RepeatAppend<T>(x: T, n: nat)
    ensures Repeat(x, n) + [x] == Repeat(x, n + 1)
  {
    assert Repeat(x, n + 1) == [x] + Repeat(x, n);
  }

  /** Index of the first occurrence of `x` in `s`. */
  function IndexOf<T(==)>(s: seq<T>, x: T): (i: nat)
    requires x in s
    ensures i < |s| && s[i] == x && x !in s[..i]
  {
    if s[0] == x then 0 else 1 + IndexOf(s[1..], x)
  }

  /**
   * The list `s` with its first occurrence of `x` removed, the rest kept in
   * order (java.util.List.remove(Object)).
   */
  function RemoveFirst<T(==)>(s: seq<T>, x: T): (r: seq<T>)
    ensures x !in s ==> r == s
    ensures x in s ==> |r| == |s| - 1 && multiset(r) == multiset(s) - multiset{x}
    ensures x in s ==> r == s[..IndexOf(s, x)] + s[IndexOf(s, x) + 1..]
  {
    if x in s then
      var i := IndexOf(s, x);
      assert s == s[..i] + [s[i]] + s[i + 1..];
      s[..i] + s[i + 1..]
    else s
  }

  /** Adding one divisor to a non-negative dividend adds one to the Euclidean quotient. */
  lemma DivStep(a: int, n: int)
    requires a >= 0 && n > 0
    ensures (a + n) / n == a / n + 1
  {
    var q, r := a / n, a % n;
    assert a + n == (q + 1) * n + r;
    DivUnique(a + n, n, q + 1, r);
  }

  /** Euclidean division has one quotient. */
  lemma DivUnique(b: int, n: int, q: int, r: int)
    requires n > 0 && 0 <= r < n && b == q * n + r
    ensures b / n == q
  {
    var q', r' := b / n, b % n;
    assert b == q' * n + r' && 0 <= r' < n;
    if q' < q {
      MulAtLeast(q - q', n);
    } else if q' > q {
      MulAtLeast(q' - q, n);
    }
  }

  lemma MulAtLeast(k: int, n: int)
    requires k >= 1 && n > 0
    ensures k * n >= n
  {
  }
}
