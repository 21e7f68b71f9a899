/** The orientation adapters: the Hamilton product, the identity, and the
    signed permutations that move a quaternion between the head tracker's,
    WebGPU's, AmbiX's and Omnitone's axis conventions. */
module Quaternions {
  import opened RealMath

  datatype Quaternion = Quaternion(w: real, x: real, y: real, z: real)

  /** The rotation by nothing: a unit quaternion, neutral on both sides of
      the product. */
  function Identity(): (r: Quaternion)
    ensures Norm2(r) == 1.0
    ensures forall q :: Multiply(r, q) == q && Multiply(q, r) == q
  {
    Quaternion(1.0, 0.0, 0.0, 0.0)
  }

  function Norm2(q: Quaternion): real { q.w * q.w + q.x * q.x + q.y * q.y + q.z * q.z }

  function Conjugate(q: Quaternion): Quaternion { Quaternion(q.w, -q.x, -q.y, -q.z) }

  /** Hamilton product a * b (a is the rotation added on top of b). The
      conjugate of a product is the product of the conjugates in reverse
      order, so inverting a composed rotation undoes its parts last first. */
  function Multiply(a: Quaternion, b: Quaternion): (r: Quaternion)
    ensures IsProduct(Conjugate(b), Conjugate(a), Conjugate(r))
  {
    Quaternion(
      a.w * b.w - a.x * b.x - a.y * b.y - a.z * b.z,
      a.w * b.x + a.x * b.w + a.y * b.z - a.z * b.y,
      a.w * b.y - a.x * b.z + a.y * b.w + a.z * b.x,
      a.w * b.z + a.x * b.y - a.y * b.x + a.z * b.w)
  }

  /** The identity is neutral on both sides. */
  lemma IdentityIsNeutral(q: Quaternion)
    ensures Identity() == Quaternion(1.0, 0.0, 0.0, 0.0)
    ensures Multiply(Identity(), q) == q
    ensures Multiply(q, Identity()) == q
  {
  }

  /** Equal factors give equal products, either side. */
  lemma Substitute(p: real, q: real, r: real)
    requires p == q
    ensures p * r == q * r && r * p == r * q
  {
  }

  /** Each component of (a*b)*c and a*(b*c) as a polynomial identity in the
      twelve coordinates, with the inner products ab and bc named. */
  lemma AssociativeW(aw: real, ax: real, ay: real, az: real, bw: real, bx: real, by_: real, bz: real, cw: real, cx: real, cy: real, cz: real,
      abw: real, abx: real, aby: real, abz: real, bcw: real, bcx: real, bcy: real, bcz: real)
    requires abw == aw * bw - ax * bx - ay * by_ - az * bz
    requires abx == aw * bx + ax * bw + ay * bz - az * by_
    requires aby == aw * by_ - ax * bz + ay * bw + az * bx
    requires abz == aw * bz + ax * by_ - ay * bx + az * bw
    requires bcw == bw * cw - bx * cx - by_ * cy - bz * cz
    requires bcx == bw * cx + bx * cw + by_ * cz - bz * cy
    requires bcy == bw * cy - bx * cz + by_ * cw + bz * cx
    requires bcz == bw * cz + bx * cy - by_ * cx + bz * cw
    ensures abw * cw - abx * cx - aby * cy - abz * cz == aw * bcw - ax * bcx - ay * bcy - az * bcz
  {
    Substitute(abw, aw * bw - ax * bx - ay * by_ - az * bz, cw);
    Substitute(abx, aw * bx + ax * bw + ay * bz - az * by_, cx);
    Substitute(aby, aw * by_ - ax * bz + ay * bw + az * bx, cy);
    Substitute(abz, aw * bz + ax * by_ - ay * bx + az * bw, cz);
    Substitute(bcw, bw * cw - bx * cx - by_ * cy - bz * cz, aw);
    Substitute(bcx, bw * cx + bx * cw + by_ * cz - bz * cy, ax);
    Substitute(bcy, bw * cy - bx * cz + by_ * cw + bz * cx, ay);
    Substitute(bcz, bw * cz + bx * cy - by_ * cx + bz * cw, az);
  }

  lemma AssociativeX(aw: real, ax: real, ay: real, az: real, bw: real, bx: real, by_: real, bz: real, cw: real, cx: real, cy: real, cz: real,
      abw: real, abx: real, aby: real, abz: real, bcw: real, bcx: real, bcy: real, bcz: real)
    requires abw == aw * bw - ax * bx - ay * by_ - az * bz
    requires abx == aw * bx + ax * bw + ay * bz - az * by_
    requires aby == aw * by_ - ax * bz + ay * bw + az * bx
    requires abz == aw * bz + ax * by_ - ay * bx + az * bw
    requires bcw == bw * cw - bx * cx - by_ * cy - bz * cz
    requires bcx == bw * cx + bx * cw + by_ * cz - bz * cy
    requires bcy == bw * cy - bx * cz + by_ * cw + bz * cx
    requires bcz == bw * cz + bx * cy - by_ * cx + bz * cw
    ensures abw * cx + abx * cw + aby * cz - abz * cy == aw * bcx + ax * bcw + ay * bcz - az * bcy
  {
    Substitute(abw, aw * bw - ax * bx - ay * by_ - az * bz, cx);
    Substitute(abx, aw * bx + ax * bw + ay * bz - az * by_, cw);
    Substitute(aby, aw * by_ - ax * bz + ay * bw + az * bx, cz);
    Substitute(abz, aw * bz + ax * by_ - ay * bx + az * bw, cy);
    Substitute(bcx, bw * cx + bx * cw + by_ * cz - bz * cy, aw);
    Substitute(bcw, bw * cw - bx * cx - by_ * cy - bz * cz, ax);
    Substitute(bcz, bw * cz + bx * cy - by_ * cx + bz * cw, ay);
    Substitute(bcy, bw * cy - bx * cz + by_ * cw + bz * cx, az);
  }

  lemma AssociativeY(aw: real, ax: real, ay: real, az: real, bw: real, bx: real, by_: real, bz: real, cw: real, cx: real, cy: real, cz: real,
      abw: real, abx: real, aby: real, abz: real, bcw: real, bcx: real, bcy: real, bcz: real)
    requires abw == aw * bw - ax * bx - ay * by_ - az * bz
    requires abx == aw * bx + ax * bw + ay * bz - az * by_
    requires aby == aw * by_ - ax * bz + ay * bw + az * bx
    requires abz == aw * bz + ax * by_ - ay * bx + az * bw
    requires bcw == bw * cw - bx * cx - by_ * cy - bz * cz
    requires bcx == bw * cx + bx * cw + by_ * cz - bz * cy
    requires bcy == bw * cy - bx * cz + by_ * cw + bz * cx
    requires bcz == bw * cz + bx * cy - by_ * cx + bz * cw
    ensures abw * cy - abx * cz + aby * cw + abz * cx == aw * bcy - ax * bcz + ay * bcw + az * bcx
  {
    Substitute(abw, aw * bw - ax * bx - ay * by_ - az * bz, cy);
    Substitute(abx, aw * bx + ax * bw + ay * bz - az * by_, cz);
    Substitute(aby, aw * by_ - ax * bz + ay * bw + az * bx, cw);
    Substitute(abz, aw * bz + ax * by_ - ay * bx + az * bw, cx);
    Substitute(bcy, bw * cy - bx * cz + by_ * cw + bz * cx, aw);
    Substitute(bcz, bw * cz + bx * cy - by_ * cx + bz * cw, ax);
    Substitute(bcw, bw * cw - bx * cx - by_ * cy - bz * cz, ay);
    Substitute(bcx, bw * cx + bx * cw + by_ * cz - bz * cy, az);
  }

  lemma AssociativeZ(aw: real, ax: real, ay: real, az: real, bw: real, bx: real, by_: real, bz: real, cw: real, cx: real, cy: real, cz: real,
      abw: real, abx: real, aby: real, abz: real, bcw: real, bcx: real, bcy: real, bcz: real)
    requires abw == aw * bw - ax * bx - ay * by_ - az * bz
    requires abx == aw * bx + ax * bw + ay * bz - az * by_
    requires aby == aw * by_ - ax * bz + ay * bw + az * bx
    requires abz == aw * bz + ax * by_ - ay * bx + az * bw
    requires bcw == bw * cw - bx * cx - by_ * cy - bz * cz
    requires bcx == bw * cx + bx * cw + by_ * cz - bz * cy
    requires bcy == bw * cy - bx * cz + by_ * cw + bz * cx
    requires bcz == bw * cz + bx * cy - by_ * cx + bz * cw
    ensures abw * cz + abx * cy - aby * cx + abz * cw == aw * bcz + ax * bcy - ay * bcx + az * bcw
  {
    Substitute(abw, aw * bw - ax * bx - ay * by_ - az * bz, cz);
    Substitute(abx, aw * bx + ax * bw + ay * bz - az * by_, cy);
    Substitute(aby, aw * by_ - ax * bz + ay * bw + az * bx, cx);
    Substitute(abz, aw * bz + ax * by_ - ay * bx + az * bw, cw);
    Substitute(bcz, bw * cz + bx * cy - by_ * cx + bz * cw, aw);
    Substitute(bcy, bw * cy - bx * cz + by_ * cw + bz * cx, ax);
    Substitute(bcx, bw * cx + bx * cw + by_ * cz - bz * cy, ay);
    Substitute(bcw, bw * cw - bx * cx - by_ * cy - bz * cz, az);
  }

  /** The components of a product, each named by its polynomial. */
  predicate IsProduct(a: Quaternion, b: Quaternion, p: Quaternion) {
    && p.w == a.w * b.w - a.x * b.x - a.y * b.y - a.z * b.z
    && p.x == a.w * b.x + a.x * b.w + a.y * b.z - a.z * b.y
    && p.y == a.w * b.y - a.x * b.z + a.y * b.w + a.z * b.x
    && p.z == a.w * b.z + a.x * b.y - a.y * b.x + a.z * b.w
  }

  lemma ProductComponents(a: Quaternion, b: Quaternion)
    ensures IsProduct(a, b, Multiply(a, b))
  {
  }

  lemma AssociativeWOf(a: Quaternion, b: Quaternion, c: Quaternion, ab: Quaternion, bc: Quaternion)
    requires IsProduct(a, b, ab) && IsProduct(b, c, bc)
    ensures Multiply(ab, c).w == Multiply(a, bc).w
  {
    AssociativeW(a.w, a.x, a.y, a.z, b.w, b.x, b.y, b.z, c.w, c.x, c.y, c.z, ab.w, ab.x, ab.y, ab.z, bc.w, bc.x, bc.y, bc.z);
  }

  lemma AssociativeXOf(a: Quaternion, b: Quaternion, c: Quaternion, ab: Quaternion, bc: Quaternion)
    requires IsProduct(a, b, ab) && IsProduct(b, c, bc)
    ensures Multiply(ab, c).x == Multiply(a, bc).x
  {
    AssociativeX(a.w, a.x, a.y, a.z, b.w, b.x, b.y, b.z, c.w, c.x, c.y, c.z, ab.w, ab.x, ab.y, ab.z, bc.w, bc.x, bc.y, bc.z);
  }

  lemma AssociativeYOf(a: Quaternion, b: Quaternion, c: Quaternion, ab: Quaternion, bc: Quaternion)
    requires IsProduct(a, b, ab) && IsProduct(b, c, bc)
    ensures Multiply(ab, c).y == Multiply(a, bc).y
  {
    AssociativeY(a.w, a.x, a.y, a.z, b.w, b.x, b.y, b.z, c.w, c.x, c.y, c.z, ab.w, ab.x, ab.y, ab.z, bc.w, bc.x, bc.y, bc.z);
  }

  lemma AssociativeZOf(a: Quaternion, b: Quaternion, c: Quaternion, ab: Quaternion, bc: Quaternion)
    requires IsProduct(a, b, ab) && IsProduct(b, c, bc)
    ensures Multiply(ab, c).z == Multiply(a, bc).z
  {
    AssociativeZ(a.w, a.x, a.y, a.z, b.w, b.x, b.y, b.z, c.w, c.x, c.y, c.z, ab.w, ab.x, ab.y, ab.z, bc.w, bc.x, bc.y, bc.z);
  }

  /** Composing rotations does not depend on grouping. */
  lemma MultiplyAssociative(a: Quaternion, b: Quaternion, c: Quaternion)
    ensures Multiply(Multiply(a, b), c) == Multiply(a, Multiply(b, c))
  {
    var ab, bc := Multiply(a, b), Multiply(b, c);
    ProductComponents(a, b);
    ProductComponents(b, c);
    AssociativeWOf(a, b, c, ab, bc);
    AssociativeXOf(a, b, c, ab, bc);
    AssociativeYOf(a, b, c, ab, bc);
    AssociativeZOf(a, b, c, ab, bc);
  }

  /** Euler's four-square identity: the squared norm is multiplicative, so
      the product of two unit quaternions is a unit quaternion. */
  lemma NormMultiplicative(a: Quaternion, b: Quaternion)
    ensures Norm2(Multiply(a, b)) == Norm2(a) * Norm2(b)
  {
    ProductComponents(a, b);
    NormOfProduct(a, b, Multiply(a, b));
  }

  lemma NormOfProduct(a: Quaternion, b: Quaternion, p: Quaternion)
    requires IsProduct(a, b, p)
    ensures Norm2(p) == Norm2(a) * Norm2(b)
  {
    FourSquare(a.w, a.x, a.y, a.z, b.w, b.x, b.y, b.z, p.w, p.x, p.y, p.z);
  }

  /** The four-square identity on the coordinates, with the product's
      components named. */
  lemma FourSquare(aw: real, ax: real, ay: real, az: real, bw: real, bx: real, by_: real, bz: real,
                   pw: real, px: real, py: real, pz: real)
    requires pw == aw * bw - ax * bx - ay * by_ - az * bz
    requires px == aw * bx + ax * bw + ay * bz - az * by_
    requires py == aw * by_ - ax * bz + ay * bw + az * bx
    requires pz == aw * bz + ax * by_ - ay * bx + az * bw
    ensures pw * pw + px * px + py * py + pz * pz
         == (aw * aw + ax * ax + ay * ay + az * az) * (bw * bw + bx * bx + by_ * by_ + bz * bz)
  {
  }

  /** Head-tracker input with x and y exchanged: x and y swap, w and z stay. */
  function FromWebSocket(q: Quaternion): (r: Quaternion)
    ensures r.w == q.w && r.z == q.z
  {
    Quaternion(q.w, q.y, q.x, q.z)
  }

  /** Swapping twice gives the input back, and the swap keeps the norm. */
  lemma WebSocketSwapInvolution(q: Quaternion)
    ensures FromWebSocket(FromWebSocket(q)) == q
    ensures Norm2(FromWebSocket(q)) == Norm2(q)
  {
  }

  /** AmbiX rotation quaternion to WebGPU's frame: (w, x, y, z) becomes
      (w, -y, -z, -x). */
  function ToWebGpu(q: Quaternion): (r: Quaternion)
    ensures r.w == q.w
  {
    Quaternion(q.w, -q.y, -q.z, -q.x)
  }

  /** The WebGPU map keeps the norm, and applying it three times conjugates:
      the vector part goes round the cycle x -> z -> y -> x with a sign
      per step. */
  lemma WebGpuPreservesNorm(q: Quaternion)
    ensures Norm2(ToWebGpu(q)) == Norm2(q)
    ensures ToWebGpu(ToWebGpu(ToWebGpu(q))) == Conjugate(q)
  {
  }

  /** The change of basis from AmbiX (+X front, +Y left, +Z up) to
      Omnitone (+X right, +Y up, +Z back): vector (x, y, z) becomes
      (-y, z, -x), w is kept. */
  function OmnitoneBasis(q: Quaternion): Quaternion
  {
    Quaternion(q.w, -q.y, q.z, -q.x)
  }

  /** The basis change as a 3x3 matrix acting on column vectors, row by row. */
  const BasisRows: seq<seq<int>> := [[0, -1, 0], [0, 0, 1], [-1, 0, 0]]

  function Det3(m: seq<seq<int>>): int
    requires |m| == 3 && forall r :: 0 <= r < 3 ==> |m[r]| == 3
  {
    m[0][0] * (m[1][1] * m[2][2] - m[1][2] * m[2][1])
    - m[0][1] * (m[1][0] * m[2][2] - m[1][2] * m[2][0])
    + m[0][2] * (m[1][0] * m[2][1] - m[1][1] * m[2][0])
  }

  /** The matrix is the one OmnitoneBasis applies, and it is a proper
      rotation (determinant +1), not a reflection. */
  lemma BasisIsProperRotation(q: Quaternion)
    ensures OmnitoneBasis(q).x == BasisRows[0][0] as real * q.x + BasisRows[0][1] as real * q.y + BasisRows[0][2] as real * q.z
    ensures OmnitoneBasis(q).y == BasisRows[1][0] as real * q.x + BasisRows[1][1] as real * q.y + BasisRows[1][2] as real * q.z
    ensures OmnitoneBasis(q).z == BasisRows[2][0] as real * q.x + BasisRows[2][1] as real * q.y + BasisRows[2][2] as real * q.z
    ensures Det3(BasisRows) == 1
  {
  }

  /** The fixed left factor that aligns Omnitone's default forward with
      AmbiX's. */
  const ConventionShim: Quaternion := Quaternion(0.0, 0.0, 1.0, 0.0)

  /** A rotation quaternion in Omnitone's conventions: the shim times the
      basis-changed input, which comes down to a signed permutation of the
      components. */
  function ToOmnitone(q: Quaternion): (r: Quaternion)
    ensures r == Quaternion(-q.z, -q.x, q.w, q.y)
  {
    var p := Multiply(ConventionShim, OmnitoneBasis(q));
    ShimProduct(q, p);
    p
  }

  /** The composite is the signed permutation (w, x, y, z) to
      (-z, -x, w, y). */
  lemma ToOmnitoneClosedForm(q: Quaternion)
    ensures ToOmnitone(q) == Quaternion(-q.z, -q.x, q.w, q.y)
  {
  }

  /** Omnitone's form keeps the norm and sends the identity to the shim. */
  lemma ToOmnitonePreservesNorm(q: Quaternion)
    ensures Norm2(ToOmnitone(q)) == Norm2(q)
    ensures ToOmnitone(Identity()) == ConventionShim
  {
    ToOmnitoneClosedForm(q);
    SignedPermutationNorm(q);
    ToOmnitoneClosedForm(Identity());
  }

  lemma ShimProduct(q: Quaternion, p: Quaternion)
    requires p == Multiply(ConventionShim, OmnitoneBasis(q))
    ensures p == Quaternion(-q.z, -q.x, q.w, q.y)
  {
    ProductComponents(ConventionShim, OmnitoneBasis(q));
  }

  lemma SignedPermutationNorm(q: Quaternion)
    ensures Norm2(Quaternion(-q.z, -q.x, q.w, q.y)) == Norm2(q)
  {
  }

  function DegreesToRadians(m: Math, degrees: real): real
  {
    degrees * (m.pi / 180.0)
  }

  /** Rotation by angle (radians) about an axis that need not be normalised;
      a zero-length axis gives the identity. */
  function FromAxisAngle(m: Math, ax: real, ay: real, az: real, angle: real): (q: Quaternion)
    ensures m.sqrt(ax * ax + ay * ay + az * az) == 0.0 ==> q == Identity()
    ensures m.sqrt(ax * ax + ay * ay + az * az) != 0.0 ==> q.w == m.cos(angle * 0.5)
  {
    var half := angle * 0.5;
    var sinHalf := m.sin(half);
    var length := m.sqrt(ax * ax + ay * ay + az * az);
    if length == 0.0 then
      Quaternion(1.0, 0.0, 0.0, 0.0)
    else
      Quaternion(m.cos(half), ax / length * sinHalf, ay / length * sinHalf, az / length * sinHalf)
  }

  lemma ScaleByInverse(a: real, s: real, length: real)
    requires length != 0.0
    ensures a / length * s == a * (s / length)
  {
    var u := a / length;
    assert u * length == a;
    var v := s / length;
    assert v * length == s;
    assert u * s == u * (v * length);
    assert a * v == (u * length) * v;
  }

  /** The components of the quaternion of a non-zero axis. */
  lemma AxisAngleComponents(m: Math, ax: real, ay: real, az: real, angle: real)
    requires m.sqrt(ax * ax + ay * ay + az * az) != 0.0
    ensures var len := m.sqrt(ax * ax + ay * ay + az * az);
            var s := m.sin(angle * 0.5);
            var q := FromAxisAngle(m, ax, ay, az, angle);
            q.w == m.cos(angle * 0.5) && q.x == ax / len * s && q.y == ay / len * s && q.z == az / len * s
  {
  }

  /** Dividing a vector by its length and scaling by s gives squared
      length s^2. */
  lemma UnitAxisScaling(ax: real, ay: real, az: real, s: real, len: real, px: real, py: real, pz: real)
    requires len != 0.0
    requires len * len == ax * ax + ay * ay + az * az
    requires px == ax / len * s && py == ay / len * s && pz == az / len * s
    ensures px * px + py * py + pz * pz == s * s
  {
    var v := s / len;
    assert v * len == s;
    ScaleByInverse(ax, s, len);
    ScaleByInverse(ay, s, len);
    ScaleByInverse(az, s, len);
    calc {
      px * px + py * py + pz * pz;
      (ax * v) * (ax * v) + (ay * v) * (ay * v) + (az * v) * (az * v);
      (ax * ax + ay * ay + az * az) * (v * v);
      (len * len) * (v * v);
      (v * len) * (v * len);
      s * s;
    }
  }

  /** With a true square root, the quaternion of a non-zero axis has squared
      norm cos^2 + sin^2 of the half angle: a unit quaternion whenever sin
      and cos satisfy the Pythagorean identity. */
  lemma AxisAngleNorm(m: Math, ax: real, ay: real, az: real, angle: real)
    requires var n := ax * ax + ay * ay + az * az; m.sqrt(n) * m.sqrt(n) == n
    requires m.sqrt(ax * ax + ay * ay + az * az) != 0.0
    ensures Norm2(FromAxisAngle(m, ax, ay, az, angle))
      == m.cos(angle * 0.5) * m.cos(angle * 0.5) + m.sin(angle * 0.5) * m.sin(angle * 0.5)
  {
    AxisAngleComponents(m, ax, ay, az, angle);
    UnitAxisNorm(ax, ay, az, m.sqrt(ax * ax + ay * ay + az * az), m.cos(angle * 0.5), m.sin(angle * 0.5),
                 FromAxisAngle(m, ax, ay, az, angle));
  }

  /** The quaternion (c, s * axis / len) of an axis of length len. */
  lemma UnitAxisNorm(ax: real, ay: real, az: real, len: real, c: real, s: real, q: Quaternion)
    requires len != 0.0 && len * len == ax * ax + ay * ay + az * az
    requires q.w == c && q.x == ax / len * s && q.y == ay / len * s && q.z == az / len * s
    ensures Norm2(q) == c * c + s * s
  {
    UnitAxisScaling(ax, ay, az, s, len, q.x, q.y, q.z);
    NormOfParts(q.w, q.x, q.y, q.z, c, s);
    assert q == Quaternion(q.w, q.x, q.y, q.z);
  }

  lemma NormOfParts(w: real, x: real, y: real, z: real, c: real, s: real)
    requires w == c && x * x + y * y + z * z == s * s
    ensures Norm2(Quaternion(w, x, y, z)) == c * c + s * s
  {
  }

  /** A UI orientation: azimuth about AmbiX +Z, then elevation about +Y,
      composed in AmbiX space and then mapped into Omnitone's conventions. */
  function FromAzimuthElevation(m: Math, azimuthDegrees: real, elevationDegrees: real): (r: Quaternion)
    ensures m.sqrt(1.0) == 1.0 ==>
              var ha := DegreesToRadians(m, azimuthDegrees) * 0.5;
              var he := DegreesToRadians(m, elevationDegrees) * 0.5;
              Norm2(r) == (m.cos(ha) * m.cos(ha) + m.sin(ha) * m.sin(ha))
                        * (m.cos(he) * m.cos(he) + m.sin(he) * m.sin(he))
  {
    var azimuth := FromAxisAngle(m, 0.0, 0.0, 1.0, DegreesToRadians(m, azimuthDegrees));
    var elevation := FromAxisAngle(m, 0.0, 1.0, 0.0, DegreesToRadians(m, elevationDegrees));
    AxisProductNorm(m, azimuthDegrees, elevationDegrees);
    SignedPermutationNorm(Multiply(azimuth, elevation));
    ToOmnitone(Multiply(azimuth, elevation))
  }

  /** With sqrt(1) = 1 both axes are unit vectors, so the two axis
      quaternions have norm cos^2 + sin^2 of their half angles and their
      product has the product of those norms. */
  lemma AxisProductNorm(m: Math, azimuthDegrees: real, elevationDegrees: real)
    ensures m.sqrt(1.0) == 1.0 ==>
              var ha := DegreesToRadians(m, azimuthDegrees) * 0.5;
              var he := DegreesToRadians(m, elevationDegrees) * 0.5;
              Norm2(Multiply(FromAxisAngle(m, 0.0, 0.0, 1.0, DegreesToRadians(m, azimuthDegrees)),
                             FromAxisAngle(m, 0.0, 1.0, 0.0, DegreesToRadians(m, elevationDegrees))))
              == (m.cos(ha) * m.cos(ha) + m.sin(ha) * m.sin(ha))
                 * (m.cos(he) * m.cos(he) + m.sin(he) * m.sin(he))
  {
    if m.sqrt(1.0) == 1.0 {
      assert 0.0 * 0.0 + 0.0 * 0.0 + 1.0 * 1.0 == 1.0;
      assert 0.0 * 0.0 + 1.0 * 1.0 + 0.0 * 0.0 == 1.0;
      var az := FromAxisAngle(m, 0.0, 0.0, 1.0, DegreesToRadians(m, azimuthDegrees));
      var el := FromAxisAngle(m, 0.0, 1.0, 0.0, DegreesToRadians(m, elevationDegrees));
      AxisAngleNorm(m, 0.0, 0.0, 1.0, DegreesToRadians(m, azimuthDegrees));
      AxisAngleNorm(m, 0.0, 1.0, 0.0, DegreesToRadians(m, elevationDegrees));
      NormMultiplicative(az, el);
    }
  }

  /** With sqrt(1) = 1 the two axis quaternions are (cos a/2, 0, 0, sin a/2)
      and (cos e/2, 0, sin e/2, 0), so the result is their product mapped to
      Omnitone: (-sa*ce, sa*se, ca*ce, ca*se). */
  lemma AzimuthElevationClosedForm(m: Math, azimuthDegrees: real, elevationDegrees: real)
    requires m.sqrt(1.0) == 1.0
    ensures var ha := DegreesToRadians(m, azimuthDegrees) * 0.5;
            var he := DegreesToRadians(m, elevationDegrees) * 0.5;
            FromAzimuthElevation(m, azimuthDegrees, elevationDegrees)
            == Quaternion(-m.sin(ha) * m.cos(he), m.sin(ha) * m.sin(he),
                          m.cos(ha) * m.cos(he), m.cos(ha) * m.sin(he))
  {
    var ha := DegreesToRadians(m, azimuthDegrees) * 0.5;
    var he := DegreesToRadians(m, elevationDegrees) * 0.5;
    assert 0.0 * 0.0 + 0.0 * 0.0 + 1.0 * 1.0 == 1.0;
    assert 0.0 * 0.0 + 1.0 * 1.0 + 0.0 * 0.0 == 1.0;
    var az := FromAxisAngle(m, 0.0, 0.0, 1.0, DegreesToRadians(m, azimuthDegrees));
    var el := FromAxisAngle(m, 0.0, 1.0, 0.0, DegreesToRadians(m, elevationDegrees));
    assert az == Quaternion(m.cos(ha), 0.0, 0.0, m.sin(ha));
    assert el == Quaternion(m.cos(he), 0.0, m.sin(he), 0.0);
    var p := Multiply(az, el);
    assert p == Quaternion(m.cos(ha) * m.cos(he), -m.sin(ha) * m.sin(he), m.cos(ha) * m.sin(he), m.sin(ha) * m.cos(he));
    ToOmnitoneClosedForm(p);
  }

  lemma AtRestClosedForm(m: Math, h: real, s: real, c: real)
    requires m.sqrt(1.0) == 1.0
    requires h == DegreesToRadians(m, 0.0) * 0.5 && s == m.sin(h) && c == m.cos(h)
    requires s == 0.0 && c == 1.0
    ensures FromAzimuthElevation(m, 0.0, 0.0) == ConventionShim
  {
    AzimuthElevationClosedForm(m, 0.0, 0.0);
    assert FromAzimuthElevation(m, 0.0, 0.0) == Quaternion(-s * c, s * s, c * c, c * s);
  }

  /** The rest orientation (0, 0) is the convention shim, i.e. Omnitone's
      image of the identity rotation. */
  lemma AzimuthElevationAtRest(m: Math)
    requires Lawful(m)
    ensures FromAzimuthElevation(m, 0.0, 0.0) == ToOmnitone(Identity())
    ensures FromAzimuthElevation(m, 0.0, 0.0) == ConventionShim
  {
    var h := DegreesToRadians(m, 0.0) * 0.5;
    assert h == 0.0;
    var s, c := m.sin(h), m.cos(h);
    assert s == 0.0 && c == 1.0;
    AtRestClosedForm(m, h, s, c);
    ToOmnitonePreservesNorm(Identity());
  }
}
