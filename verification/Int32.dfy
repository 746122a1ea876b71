/** Go's `int32`: a 32-bit two's complement integer whose `+` wraps around. */
module Int32 {
  const MAX: int := 0x7fff_ffff
  const MIN: int := -0x8000_0000
  const SPAN: int := 0x1_0000_0000

  type int32 = x: int | MIN <= x <= MAX

  /** An `int32` field whose CRD marker says `Minimum=0`. */
  type nat32 = x: int | 0 <= x <= MAX

  /** The representative of `x` modulo 2^32 that an `int32` can hold. */
  function Wrap(x: int): (r: int32)
    ensures (x - r) % SPAN == 0
  {
    (x - MIN) % SPAN + MIN
  }

  /** Wrapping loses nothing exactly on the `int32` range. */
  lemma WrapExact(x: int)
    ensures Wrap(x) == x <==> MIN <= x <= MAX
  {
  }

  /** Wrapping after every addition is the same as wrapping once at the end. */
  lemma WrapAdd(a: int, b: int)
    ensures Wrap(Wrap(a) + b) == Wrap(a + b)
  {
    var q := (a - Wrap(a)) / SPAN;
    assert a == Wrap(a) + q * SPAN;
    WrapShift(Wrap(a) + b, q);
  }

  lemma WrapShift(x: int, q: int)
    ensures Wrap(x + q * SPAN) == Wrap(x)
  {
    var y := x - MIN;
    assert (y + q * SPAN) % SPAN == y % SPAN;
  }
}
