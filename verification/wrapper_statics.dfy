/** The two static helpers of the engine wrapper: the perceptual volume
    curve (a volume in [0, 1] to a level in decibels between -80 and -10)
    and the conversion of a quaternion into the nine-entry column-major
    matrix the renderers' setRotationMatrix3 takes. */
module WrapperStatics {
  import opened RealMath
  import opened Quaternions
  import opened Matrices

  const MaxDb: real := -10.0
  const MinDb: real := -80.0

  function Min(a: real, b: real): real { if a <= b then a else b }
  function Max(a: real, b: real): real { if a >= b then a else b }

  /** volumeToGain: silence (volume <= 0) is the floor; otherwise the fifth
      root of the volume spreads linearly over [MinDb, MaxDb], clamped. */
  function VolumeToGain(m: Math, volume: real): (db: real)
    ensures MinDb <= db <= MaxDb
    ensures volume <= 0.0 ==> db == MinDb
  {
    if volume <= 0.0 then MinDb
    else
      var shaped := m.pow(volume, 0.2);
      var gain := MinDb + (MaxDb - MinDb) * shaped;
      Max(MinDb, Min(MaxDb, gain))
  }

  /** Within the unit range the curve is not clamped: the level is
      -80 + 70 * volume^0.2, so a volume whose fifth root is 1 gives the
      ceiling. */
  lemma VolumeCurve(m: Math, volume: real)
    requires 0.0 < volume
    requires 0.0 <= m.pow(volume, 0.2) <= 1.0
    ensures VolumeToGain(m, volume) == MinDb + 70.0 * m.pow(volume, 0.2)
    ensures m.pow(volume, 0.2) == 1.0 ==> VolumeToGain(m, volume) == MaxDb
  {
  }

  /** A louder volume never gives a lower level, provided the power
      function is monotone on the two volumes. */
  lemma VolumeToGainMonotone(m: Math, v1: real, v2: real)
    requires v1 <= v2
    requires 0.0 < v1 ==> m.pow(v1, 0.2) <= m.pow(v2, 0.2)
    ensures VolumeToGain(m, v1) <= VolumeToGain(m, v2)
  {
  }

  /** The gain setter's ramp target: 10^(dB / 20). */
  function DecibelsToAmplitude(m: Math, db: real): real
  {
    m.pow(10.0, db / 20.0)
  }

  /** quaternionToRotationMatrix3, entries in array order. For a unit
      quaternion the diagonal sums to 4w^2 - 1, that is 1 + 2 cos(theta) for
      the rotation angle theta = 2 acos(w); the identity gives the identity. */
  function QuaternionToRotationMatrix3(q: Quaternion): (r: Matrix3)
    ensures Norm2(q) == 1.0 ==> r[0] + r[4] + r[8] == 4.0 * q.w * q.w - 1.0
    ensures q == Identity() ==> r == Identity3
  {
    var xx, yy, zz := q.x * q.x, q.y * q.y, q.z * q.z;
    var xy, xz, yz := q.x * q.y, q.x * q.z, q.y * q.z;
    var wx, wy, wz := q.w * q.x, q.w * q.y, q.w * q.z;
    [ 1.0 - 2.0 * (yy + zz), 2.0 * (xy - wz), 2.0 * (xz + wy),
      2.0 * (xy + wz), 1.0 - 2.0 * (xx + zz), 2.0 * (yz - wx),
      2.0 * (xz - wy), 2.0 * (yz + wx), 1.0 - 2.0 * (xx + yy) ]
  }

  /** The textbook rotation matrix of a unit quaternion, row r, column c:
      v |-> q v q*. */
  function RotationEntry(q: Quaternion, r: nat, c: nat): real
    requires r < 3 && c < 3
  {
    var w, x, y, z := q.w, q.x, q.y, q.z;
    if r == 0 then
      (if c == 0 then 1.0 - 2.0 * (y * y + z * z) else if c == 1 then 2.0 * (x * y - w * z) else 2.0 * (x * z + w * y))
    else if r == 1 then
      (if c == 0 then 2.0 * (x * y + w * z) else if c == 1 then 1.0 - 2.0 * (x * x + z * z) else 2.0 * (y * z - w * x))
    else
      (if c == 0 then 2.0 * (x * z - w * y) else if c == 1 then 2.0 * (y * z + w * x) else 1.0 - 2.0 * (x * x + y * y))
  }

  /** Read column by column, the array is the TRANSPOSE of the textbook
      matrix of q, which is the textbook matrix of q's conjugate: the
      renderer is turned by the inverse of q. */
  lemma MatrixIsConjugateRotation(q: Quaternion)
    ensures forall r: nat, c: nat :: r < 3 && c < 3 ==>
              At(QuaternionToRotationMatrix3(q), r, c) == RotationEntry(q, c, r)
    ensures forall r: nat, c: nat :: r < 3 && c < 3 ==>
              At(QuaternionToRotationMatrix3(q), r, c) == RotationEntry(Conjugate(q), r, c)
  {
  }

  /** The identity quaternion gives the identity matrix, and the
      convention shim (a half turn about y) gives diag(-1, 1, -1). */
  lemma IdentityAndShimMatrices()
    ensures QuaternionToRotationMatrix3(Identity()) == Identity3
    ensures QuaternionToRotationMatrix3(ConventionShim) == Shim3
  {
  }

  // ---- orthogonality -----------------------------------------------------------
  // Column c of the array is m[3c..3c+3]. Each lemma below takes the six
  // entries of two columns as they are built from w, x, y, z and states
  // their dot product.

  lemma ColumnsXX(w: real, x: real, y: real, z: real, a0: real, a1: real, a2: real, b0: real, b1: real, b2: real)
    requires w * w + x * x + y * y + z * z == 1.0
    requires a0 == 1.0 - 2.0 * (y * y + z * z) && a1 == 2.0 * (x * y - w * z) && a2 == 2.0 * (x * z + w * y)
    requires b0 == 1.0 - 2.0 * (y * y + z * z) && b1 == 2.0 * (x * y - w * z) && b2 == 2.0 * (x * z + w * y)
    ensures Dot3(a0, a1, a2, b0, b1, b2) == 1.0
  {
  }

  lemma ColumnsYY(w: real, x: real, y: real, z: real, a0: real, a1: real, a2: real, b0: real, b1: real, b2: real)
    requires w * w + x * x + y * y + z * z == 1.0
    requires a0 == 2.0 * (x * y + w * z) && a1 == 1.0 - 2.0 * (x * x + z * z) && a2 == 2.0 * (y * z - w * x)
    requires b0 == 2.0 * (x * y + w * z) && b1 == 1.0 - 2.0 * (x * x + z * z) && b2 == 2.0 * (y * z - w * x)
    ensures Dot3(a0, a1, a2, b0, b1, b2) == 1.0
  {
  }

  lemma ColumnsZZ(w: real, x: real, y: real, z: real, a0: real, a1: real, a2: real, b0: real, b1: real, b2: real)
    requires w * w + x * x + y * y + z * z == 1.0
    requires a0 == 2.0 * (x * z - w * y) && a1 == 2.0 * (y * z + w * x) && a2 == 1.0 - 2.0 * (x * x + y * y)
    requires b0 == 2.0 * (x * z - w * y) && b1 == 2.0 * (y * z + w * x) && b2 == 1.0 - 2.0 * (x * x + y * y)
    ensures Dot3(a0, a1, a2, b0, b1, b2) == 1.0
  {
  }

  lemma ColumnsXY(w: real, x: real, y: real, z: real, a0: real, a1: real, a2: real, b0: real, b1: real, b2: real)
    requires w * w + x * x + y * y + z * z == 1.0
    requires a0 == 1.0 - 2.0 * (y * y + z * z) && a1 == 2.0 * (x * y - w * z) && a2 == 2.0 * (x * z + w * y)
    requires b0 == 2.0 * (x * y + w * z) && b1 == 1.0 - 2.0 * (x * x + z * z) && b2 == 2.0 * (y * z - w * x)
    ensures Dot3(a0, a1, a2, b0, b1, b2) == 0.0
  {
    assert Dot3(a0, a1, a2, b0, b1, b2) == 4.0 * x * y * (1.0 - (w * w + x * x + y * y + z * z));
  }

  lemma ColumnsXZ(w: real, x: real, y: real, z: real, a0: real, a1: real, a2: real, b0: real, b1: real, b2: real)
    requires w * w + x * x + y * y + z * z == 1.0
    requires a0 == 1.0 - 2.0 * (y * y + z * z) && a1 == 2.0 * (x * y - w * z) && a2 == 2.0 * (x * z + w * y)
    requires b0 == 2.0 * (x * z - w * y) && b1 == 2.0 * (y * z + w * x) && b2 == 1.0 - 2.0 * (x * x + y * y)
    ensures Dot3(a0, a1, a2, b0, b1, b2) == 0.0
  {
    assert Dot3(a0, a1, a2, b0, b1, b2) == 4.0 * x * z * (1.0 - (w * w + x * x + y * y + z * z));
  }

  lemma ColumnsYZ(w: real, x: real, y: real, z: real, a0: real, a1: real, a2: real, b0: real, b1: real, b2: real)
    requires w * w + x * x + y * y + z * z == 1.0
    requires a0 == 2.0 * (x * y + w * z) && a1 == 1.0 - 2.0 * (x * x + z * z) && a2 == 2.0 * (y * z - w * x)
    requires b0 == 2.0 * (x * z - w * y) && b1 == 2.0 * (y * z + w * x) && b2 == 1.0 - 2.0 * (x * x + y * y)
    ensures Dot3(a0, a1, a2, b0, b1, b2) == 0.0
  {
    assert Dot3(a0, a1, a2, b0, b1, b2) == 4.0 * y * z * (1.0 - (w * w + x * x + y * y + z * z));
  }

  /** Column c of a column-major matrix dotted with column d. */
  function ColumnDot(m: Matrix3, c: nat, d: nat): real
    requires c < 3 && d < 3
  {
    Dot3(At(m, 0, c), At(m, 1, c), At(m, 2, c), At(m, 0, d), At(m, 1, d), At(m, 2, d))
  }

  /** The nine entries of the array, each in terms of q's components. */
  predicate EntriesOf(q: Quaternion, m: Matrix3) {
    && m[0] == 1.0 - 2.0 * (q.y * q.y + q.z * q.z) && m[1] == 2.0 * (q.x * q.y - q.w * q.z)
    && m[2] == 2.0 * (q.x * q.z + q.w * q.y) && m[3] == 2.0 * (q.x * q.y + q.w * q.z)
    && m[4] == 1.0 - 2.0 * (q.x * q.x + q.z * q.z) && m[5] == 2.0 * (q.y * q.z - q.w * q.x)
    && m[6] == 2.0 * (q.x * q.z - q.w * q.y) && m[7] == 2.0 * (q.y * q.z + q.w * q.x)
    && m[8] == 1.0 - 2.0 * (q.x * q.x + q.y * q.y)
  }

  lemma MatrixEntries(q: Quaternion)
    ensures EntriesOf(q, QuaternionToRotationMatrix3(q))
  {
  }

  // Each lemma below states one column product of any array holding
  // those entries.

  lemma ProductXX(q: Quaternion, m: Matrix3)
    requires Norm2(q) == 1.0 && EntriesOf(q, m)
    ensures ColumnDot(m, 0, 0) == 1.0
  {
    ColumnsXX(q.w, q.x, q.y, q.z, m[0], m[1], m[2], m[0], m[1], m[2]);
  }

  lemma ProductYY(q: Quaternion, m: Matrix3)
    requires Norm2(q) == 1.0 && EntriesOf(q, m)
    ensures ColumnDot(m, 1, 1) == 1.0
  {
    ColumnsYY(q.w, q.x, q.y, q.z, m[3], m[4], m[5], m[3], m[4], m[5]);
  }

  lemma ProductZZ(q: Quaternion, m: Matrix3)
    requires Norm2(q) == 1.0 && EntriesOf(q, m)
    ensures ColumnDot(m, 2, 2) == 1.0
  {
    ColumnsZZ(q.w, q.x, q.y, q.z, m[6], m[7], m[8], m[6], m[7], m[8]);
  }

  lemma ProductXY(q: Quaternion, m: Matrix3)
    requires Norm2(q) == 1.0 && EntriesOf(q, m)
    ensures ColumnDot(m, 0, 1) == 0.0
  {
    ColumnsXY(q.w, q.x, q.y, q.z, m[0], m[1], m[2], m[3], m[4], m[5]);
  }

  lemma ProductXZ(q: Quaternion, m: Matrix3)
    requires Norm2(q) == 1.0 && EntriesOf(q, m)
    ensures ColumnDot(m, 0, 2) == 0.0
  {
    ColumnsXZ(q.w, q.x, q.y, q.z, m[0], m[1], m[2], m[6], m[7], m[8]);
  }

  lemma ProductYZ(q: Quaternion, m: Matrix3)
    requires Norm2(q) == 1.0 && EntriesOf(q, m)
    ensures ColumnDot(m, 1, 2) == 0.0
  {
    ColumnsYZ(q.w, q.x, q.y, q.z, m[3], m[4], m[5], m[6], m[7], m[8]);
  }

  /** A unit quaternion gives an orthogonal matrix: its columns are unit
      vectors at right angles. */
  lemma UnitQuaternionGivesOrthogonalMatrix(q: Quaternion)
    requires Norm2(q) == 1.0
    ensures forall c: nat, d: nat :: c < 3 && d < 3 ==>
              ColumnDot(QuaternionToRotationMatrix3(q), c, d) == if c == d then 1.0 else 0.0
  {
    var m := QuaternionToRotationMatrix3(q);
    MatrixEntries(q);
    ProductXX(q, m);
    ProductYY(q, m);
    ProductZZ(q, m);
    ProductXY(q, m);
    ProductXZ(q, m);
    ProductYZ(q, m);
    forall c: nat, d: nat | c < 3 && d < 3
      ensures ColumnDot(m, c, d) == if c == d then 1.0 else 0.0
    {
      assert ColumnDot(m, c, d) == ColumnDot(m, d, c);
    }
  }
}
