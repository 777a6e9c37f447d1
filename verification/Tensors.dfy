/** Row-major tensors as nested sequences. Reshape keeps the elements in row-major order, so
    splitting an axis cuts it into chunks and merging two adjacent axes flattens them. */
module Tensors {

  /** Rank three and four. */
  type T3<T> = seq<seq<seq<T>>>
  type T4<T> = seq<seq<seq<seq<T>>>>

  ghost predicate Shape2<T>(t: seq<seq<T>>, a: nat, b: nat) {
    |t| == a && forall i :: 0 <= i < a ==> |t[i]| == b
  }

  ghost predicate Shape3<T>(t: T3<T>, a: nat, b: nat, c: nat) {
    |t| == a && forall i :: 0 <= i < a ==> Shape2(t[i], b, c)
  }

  ghost predicate Shape4<T>(t: T4<T>, a: nat, b: nat, c: nat, d: nat) {
    |t| == a && forall i :: 0 <= i < a ==> Shape3(t[i], b, c, d)
  }

  lemma {:induction false} Digit(i: nat, n: nat, rest: nat, size: nat)
    requires i < n && rest < size
    ensures i * size + rest < n * size
  {
    assert (i + 1) * size <= n * size;
  }

  lemma {:induction false} Room(b: nat, n: nat, c: nat)
    requires b < n
    ensures b * c + c <= n * c
  {
    assert (b + 1) * c <= n * c;
  }

  /** Splitting an axis of n * c. */
  function Chunks<T>(x: seq<T>, n: nat, c: nat): (r: seq<seq<T>>)
    requires |x| == n * c
    ensures Shape2(r, n, c)
  {
    seq(n, b requires 0 <= b < n => Chunk(x, n, c, b))
  }

  function Chunk<T>(x: seq<T>, n: nat, c: nat, b: nat): (r: seq<T>)
    requires |x| == n * c && b < n
    ensures |r| == c
  {
    Room(b, n, c);
    x[b * c..b * c + c]
  }

  lemma {:induction false} ChunkAt<T>(x: seq<T>, n: nat, c: nat, b: nat, y: nat, f: nat)
    requires |x| == n * c && b < n && y < c && f == b * c + y
    ensures f < |x| && Chunk(x, n, c, b)[y] == x[f]
  {
    Room(b, n, c);
  }

  lemma {:induction false} Lead(f: nat, n: nat, c: nat) returns (b: nat, y: nat)
    requires f < n * c
    ensures b < n && y < c && f == b * c + y
  {
    b, y := 0, f;
    while y >= c
      invariant b * c + y == f && b < n
      decreases y
    {
      assert (b + 1) * c == b * c + c;
      b, y := b + 1, y - c;
    }
  }

  /** Merging two axes. */
  function Flatten<T>(xs: seq<seq<T>>): seq<T> {
    if xs == [] then [] else xs[0] + Flatten(xs[1..])
  }

  lemma {:induction false} FlattenMore<T>(xs: seq<seq<T>>, x: seq<T>)
    ensures Flatten(xs + [x]) == Flatten(xs) + x
  {
    if xs == [] {
      assert Flatten([x]) == x + Flatten([]);
    } else {
      FlattenMore(xs[1..], x);
      assert (xs + [x])[1..] == xs[1..] + [x];
    }
  }

  lemma {:induction false} FlattenLength<T>(xs: seq<seq<T>>, a: nat, n: nat)
    requires Shape2(xs, a, n)
    ensures |Flatten(xs)| == a * n
  {
    if a > 0 {
      FlattenLength(xs[1..], a - 1, n);
      assert a * n == n + (a - 1) * n;
    }
  }

  function Join<T>(xs: seq<seq<T>>, ghost a: nat, ghost n: nat): (r: seq<T>)
    requires Shape2(xs, a, n)
    ensures |r| == a * n
  {
    FlattenLength(xs, a, n);
    Flatten(xs)
  }

  lemma {:induction false} FlattenAt<T>(xs: seq<seq<T>>, a: nat, n: nat, r: nat, b: nat)
    requires Shape2(xs, a, n) && r < a && b < n
    ensures r * n + b < |Flatten(xs)| == a * n && Flatten(xs)[r * n + b] == xs[r][b]
  {
    FlattenLength(xs, a, n);
    Digit(r, a, b, n);
    if r > 0 {
      FlattenAt(xs[1..], a - 1, n, r - 1, b);
      assert (r - 1) * n + b == r * n + b - n;
    }
  }

  /** transpose(0, 2, 1, 3) */
  function Swap12<T>(t: T4<T>, ghost a: nat, b: nat, c: nat, ghost d: nat): (r: T4<T>)
    requires Shape4(t, a, b, c, d)
    ensures Shape4(r, a, c, b, d)
    ensures forall i, j, k :: 0 <= i < a && 0 <= j < b && 0 <= k < c ==> r[i][k][j] == t[i][j][k]
  {
    seq(|t|, i requires 0 <= i < |t| =>
      seq(c, k requires 0 <= k < c =>
        seq(b, j requires 0 <= j < b => t[i][j][k])))
  }
}
