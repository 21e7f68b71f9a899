/** The transcendental functions the modelled code calls (Math.sqrt,
    Math.sin, Math.cos, Math.pow and Math.PI). Floating-point results are
    not modelled: each function is a parameter, and only the few laws the
    proofs need are assumed about it, always as an explicit precondition. */
module RealMath {

  datatype Math = Math(
    sqrt: real -> real,
    sin: real -> real,
    cos: real -> real,
    pow: (real, real) -> real,
    pi: real)

  /** Exact values at the points the code relies on. */
  predicate Lawful(m: Math) {
    && m.sqrt(0.0) == 0.0
    && m.sqrt(1.0) == 1.0
    && m.sin(0.0) == 0.0
    && m.cos(0.0) == 1.0
  }
}
