/** Small shared vocabulary: optional values, success-or-failure, and Go's 64-bit integers. */
module Base {
  datatype Option<+T> = None | Some(value: T)

  /** A Go call that returns (value, error). */
  datatype Result<+T, +E> = Success(value: T) | Failure(error: E)

  const MAX64: int := 0x7fff_ffff_ffff_ffff
  const MIN64: int := -0x8000_0000_0000_0000
  const SPAN64: int := 0x1_0000_0000_0000_0000
  const MAX32: int := 0x7fff_ffff

  predicate Int64(x: int) { MIN64 <= x <= MAX64 }

  /** An int64 that came over the wire. */
  type I64 = x: int | Int64(x) witness 0

  /** The value Go's int64 arithmetic leaves when the exact result is x. */
  function Wrap(x: int): (r: int)
    ensures Int64(r)
    ensures Int64(x) ==> r == x
  {
    (x - MIN64) % SPAN64 + MIN64
  }

  /** Go's int64 division truncates toward zero. */
  function Quot(a: int, b: int): int
    requires b > 0
  {
    if a >= 0 then a / b else -((-a) / b)
  }

  lemma WrapShift(x: int, n: int)
    ensures Wrap(x + n * SPAN64) == Wrap(x)
  {
    var a := x - MIN64;
    var q, r := a / SPAN64, a % SPAN64;
    assert a + n * SPAN64 == (q + n) * SPAN64 + r;
    Residue(a + n * SPAN64, q + n, r);
  }

  lemma Residue(a: int, q: int, r: int)
    requires a == q * SPAN64 + r && 0 <= r < SPAN64
    ensures a % SPAN64 == r
  {
    var q', r' := a / SPAN64, a % SPAN64;
    assert (q' - q) * SPAN64 == r - r';
  }

  /** Wrapping the running sum after every addition is wrapping once at the end. */
  lemma WrapAdd(x: int, y: int)
    ensures Wrap(Wrap(x) + y) == Wrap(x + y)
    ensures Wrap(x + Wrap(y)) == Wrap(x + y)
  {
    var n := (x - MIN64) / SPAN64;
    var m := (y - MIN64) / SPAN64;
    assert Wrap(x) + y == (x + y) + (-n) * SPAN64;
    assert x + Wrap(y) == (x + y) + (-m) * SPAN64;
    WrapShift(x + y, -n);
    WrapShift(x + y, -m);
  }
}
