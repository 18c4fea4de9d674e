/**
 * A C++ `float` as its IEEE 754 single-precision bit pattern. Nothing in the
 * modelled code does arithmetic on floats; it only copies them, compares them
 * with `!=`, and converts them to and from the text held in a property tree.
 */
module Float32 {
  import opened Wrappers

  type Float = bv32

  /** 1.0f */
  const One: Float := 0x3F80_0000
  /** 0.0f */
  const Zero: Float := 0x0000_0000

  const ExponentMask: Float := 0x7F80_0000
  const MantissaMask: Float := 0x007F_FFFF
  const MagnitudeMask: Float := 0x7FFF_FFFF

  /** All exponent bits set and a non-zero mantissa. */
  predicate IsNaN(x: Float) {
    x & ExponentMask == ExponentMask && x & MantissaMask != 0
  }

  /** Neither an infinity nor a NaN: not all exponent bits are set. */
  predicate IsFinite(x: Float)
    ensures IsFinite(x) ==> !IsNaN(x)
  {
    x & ExponentMask != ExponentMask
  }

  /** +0.0 or -0.0. */
  predicate IsZero(x: Float) {
    x & MagnitudeMask == 0
  }

  /** The C++ `==` on floats: never true of a NaN, and +0.0 equals -0.0. */
  predicate Eq(a: Float, b: Float)
    ensures Eq(a, b) ==> !IsNaN(a) && !IsNaN(b)
    ensures !IsNaN(a) && a == b ==> Eq(a, b)
    ensures IsZero(a) && IsZero(b) ==> Eq(a, b)
    ensures Eq(a, b) && !(IsZero(a) && IsZero(b)) ==> a == b
  {
    !IsNaN(a) && !IsNaN(b) && (a == b || (IsZero(a) && IsZero(b)))
  }

  /** NaN is the one value not equal to itself. */
  lemma NaNNotEqualToItself(x: Float)
    ensures Eq(x, x) <==> !IsNaN(x)
  {
  }

  /**
   * The conversion between a float and the text stored in a property tree
   * (boost's stream translator). The model keeps it abstract: a pair of
   * functions handed to every operation that needs it.
   */
  datatype FloatText = FloatText(format: Float -> string, parse: string -> Option<Float>)

  /**
   * The assumption under which saving and reading back reproduces a value:
   * the text written for every finite float parses back to that same float.
   * Infinities and NaNs are excluded: the stream conversion writes them as
   * "inf" or "nan", which reading a float from a stream does not accept.
   */
  ghost predicate RoundTrips(text: FloatText) {
    forall x: Float :: IsFinite(x) ==> text.parse(text.format(x)) == Some(x)
  }
}
