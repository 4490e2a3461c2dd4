/**
 * The normalised rectangle a frame buffer draws into, with the approximate
 * comparison that decides whether a view can be reused.
 */
module ViewPorts {
  /** `std::numeric_limits<float>::epsilon()`, that is 2^-23. */
  const Epsilon: real := 1.0 / 8388608.0

  function Abs(r: real): real { if r < 0.0 then -r else r }

  /**
   * Four fractions of the target's pixel size. Single-precision floats are
   * modelled as reals; rounding, NaN and infinities are not modelled.
   */
  datatype ViewPort = ViewPort(x: real, y: real, width: real, height: real)
  {
    /** Every component differs from the other's by less than Epsilon. */
    predicate Equals(other: ViewPort)
    {
      Abs(x - other.x) < Epsilon &&
      Abs(y - other.y) < Epsilon &&
      Abs(width - other.width) < Epsilon &&
      Abs(height - other.height) < Epsilon
    }
  }

  /** The value-initialised viewport `{}`: the whole surface. */
  const DefaultViewPort := ViewPort(0.0, 0.0, 1.0, 1.0)

  lemma EqualsReflexive(a: ViewPort)
    ensures a.Equals(a)
  {
  }

  lemma EqualsSymmetric(a: ViewPort, b: ViewPort)
    ensures a.Equals(b) <==> b.Equals(a)
  {
  }

  /**
   * The comparison is not transitive: two viewports a little more than
   * Epsilon apart in x each compare equal to the one midway, but not to each
   * other.
   */
  lemma EqualsNotTransitive()
    ensures exists a: ViewPort, b: ViewPort, c: ViewPort ::
      a.Equals(b) && b.Equals(c) && !a.Equals(c)
  {
    var a := DefaultViewPort;
    var b := a.(x := a.x + Epsilon * 0.75);
    var c := a.(x := a.x + Epsilon * 1.5);
    assert a.Equals(b) && b.Equals(c) && !a.Equals(c);
  }
}
