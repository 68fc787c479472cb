/** Values of `Math.random()`, which the model receives as parameters, and
    the uniform index the source derives from one. */
module RandomDraws {

  /** A value of `Math.random()`: a real in [0, 1). */
  predicate IsUnit(x: real) {
    0.0 <= x < 1.0
  }

  /** `Math.floor(u * n)`: an index below `n`. */
  function PickIndex(u: real, n: nat): (k: nat)
    requires IsUnit(u) && n > 0
    ensures k < n
    ensures k as real <= u * (n as real) < (k + 1) as real
  {
    var m := n as real;
    assert 0.0 * m <= u * m;
    assert u * m < 1.0 * m;
    (u * m).Floor
  }
}
