/**
 * C#'s `int`: a 32-bit two's-complement integer whose arithmetic wraps around
 * (Unity compiles scripts without overflow checking).
 */
module CSharpInt {

  const MinInt32: int := -0x8000_0000
  const MaxInt32: int := 0x7fff_ffff

  type Int32 = x: int | -0x8000_0000 <= x <= 0x7fff_ffff

  /** The value an unchecked C# `int` operation produces for the exact result `x`. */
  function Wrap32(x: int): (r: Int32)
    ensures MinInt32 <= x <= MaxInt32 ==> r == x
    ensures (x - r) % 0x1_0000_0000 == 0
  {
    (x - MinInt32) % 0x1_0000_0000 + MinInt32
  }

  /** Wrapping is determined by the residue: the one `Int32` congruent to `x` is `Wrap32(x)`. */
  lemma Wrap32Unique(x: int, y: Int32)
    requires (x - y) % 0x1_0000_0000 == 0
    ensures Wrap32(x) == y
  {
    var r := Wrap32(x);
    assert ((x - r) - (x - y)) % 0x1_0000_0000 == 0;
    assert (y - r) % 0x1_0000_0000 == 0;
  }

  /** Adding to a wrapped result wraps like adding to the exact one. */
  lemma Wrap32AddWrapped(a: int, b: int)
    ensures Wrap32(Wrap32(a) + b) == Wrap32(a + b)
  {
    var w := Wrap32(a);
    assert ((Wrap32(a) + b) - Wrap32(a + b)) == ((a + b) - Wrap32(a + b)) - (a - w);
    Wrap32Unique(Wrap32(a) + b, Wrap32(a + b));
  }
}
