/** Row-of-nine and row-of-sixteen rotation matrices as the renderers
    receive them (Float32Array values as reals), the 3x3 block that a 4x4
    matrix carries at indices 0,1,2,4,5,6,8,9,10, and the column-major
    matrix-vector product the rotator gain networks realise. */
module Matrices {

  type Matrix3 = m: seq<real> | |m| == 9 witness [1.0, 0.0, 0.0, 0.0, 1.0, 0.0, 0.0, 0.0, 1.0]

  type Matrix4 = m: seq<real> | |m| == 16 witness seq(16, _ => 0.0)

  type Vector3 = v: seq<real> | |v| == 3 witness [0.0, 0.0, 0.0]

  const Identity3: Matrix3 := [1.0, 0.0, 0.0, 0.0, 1.0, 0.0, 0.0, 0.0, 1.0]

  /** diag(-1, 1, -1): the sign pattern both rotators wrap around the
      matrix they are given. */
  const Shim3: Matrix3 := [-1.0, 0.0, 0.0, 0.0, 1.0, 0.0, 0.0, 0.0, -1.0]

  /** Position in a 16-entry matrix of entry k of its 3x3 block. */
  function BlockIndex(k: nat): (i: nat)
    requires k < 9
    ensures InBlock(i) && BlockSlot(i) == k
  {
    (k / 3) * 4 + k % 3
  }

  predicate InBlock(i: nat) { i < 16 && i % 4 < 3 && i / 4 < 3 }

  /** Inverse of BlockIndex on the block. */
  function BlockSlot(i: nat): (k: nat)
    requires InBlock(i)
    ensures k < 9
  {
    (i / 4) * 3 + i % 4
  }

  lemma BlockSlotInverse(i: nat)
    requires InBlock(i)
    ensures BlockIndex(BlockSlot(i)) == i
  {
  }

  /** The 3x3 block of a 4x4 matrix. */
  function Block(m4: Matrix4): (m3: Matrix3)
  {
    seq(9, k requires 0 <= k < 9 => m4[BlockIndex(k)])
  }

  /** A fresh 16-entry array holding m3 in its block and zeros elsewhere. */
  function Embed(m3: Matrix3): (m4: Matrix4)
  {
    seq(16, i requires 0 <= i < 16 => if InBlock(i) then m3[BlockSlot(i)] else 0.0)
  }

  /** Taking the block of an embedding gives the matrix back, and
      embedding a block keeps the block and zeroes the rest. */
  lemma BlockEmbedRoundTrip(m3: Matrix3, m4: Matrix4)
    ensures Block(Embed(m3)) == m3
    ensures forall i :: 0 <= i < 16 && InBlock(i) ==> Embed(Block(m4))[i] == m4[i]
    ensures forall i :: 0 <= i < 16 && !InBlock(i) ==> Embed(Block(m4))[i] == 0.0
  {
    forall i | 0 <= i < 16 && InBlock(i)
      ensures Embed(Block(m4))[i] == m4[i]
    {
      BlockSlotInverse(i);
    }
  }

  /** Entry (row r, column c) of a matrix stored column by column. */
  function At(m: Matrix3, r: nat, c: nat): real
    requires r < 3 && c < 3
  {
    m[3 * c + r]
  }

  function Dot3(a0: real, a1: real, a2: real, b0: real, b1: real, b2: real): real
  {
    a0 * b0 + a1 * b1 + a2 * b2
  }

  /** m * v for a column-major m. */
  function Apply(m: Matrix3, v: Vector3): Vector3
  {
    seq(3, r requires 0 <= r < 3 => Dot3(At(m, r, 0), At(m, r, 1), At(m, r, 2), v[0], v[1], v[2]))
  }

  lemma ApplyIdentity(v: Vector3)
    ensures Apply(Identity3, v) == v
  {
  }

  /** Negate the entries outside the middle row of every column: the
      pattern -,+,- per column that both set and get apply to band 1. */
  function Flip(m: Matrix3): (f: Matrix3)
    ensures forall k :: 0 <= k < 9 ==> f[k] == (if k % 3 == 1 then m[k] else -m[k])
  {
    seq(9, k requires 0 <= k < 9 => if k % 3 == 1 then m[k] else -m[k])
  }

  lemma FlipInvolution(m: Matrix3)
    ensures Flip(Flip(m)) == m
  {
  }

  /** Flipping negates rows 0 and 2: it is left multiplication by the shim. */
  lemma FlipIsShimProduct(m: Matrix3, r: nat, c: nat)
    requires r < 3 && c < 3
    ensures At(Flip(m), r, c) == At(Shim3, r, r) * At(m, r, c)
  {
  }

  /** The shim negates the first and last coordinates. */
  lemma ApplyShim(v: Vector3)
    ensures Apply(Shim3, v) == [-v[0], v[1], -v[2]]
  {
    var w := Apply(Shim3, v);
    assert w[0] == -1.0 * v[0] + 0.0 * v[1] + 0.0 * v[2];
    assert w[1] == 0.0 * v[0] + 1.0 * v[1] + 0.0 * v[2];
    assert w[2] == 0.0 * v[0] + 0.0 * v[1] + -1.0 * v[2];
  }
}
