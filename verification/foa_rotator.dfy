/** FOARotator: nine gain nodes m0..m8 between an input stage that negates
    Y and X and an output stage that negates Y and X again. The gains hold
    the 3x3 matrix exactly as set; W bypasses the network. */
module FoaRotator {
  import opened Matrices

  datatype Rotator = Rotator(gains: Matrix3)

  /** The constructor loads the identity matrix. */
  function CreateRotator(): (r: Rotator)
    ensures GetRotationMatrix3(r) == Identity3
  {
    Rotator(Identity3)
  }

  /** The gains become the given matrix, as get3 then reads it back. */
  function SetRotationMatrix3(r: Rotator, m: Matrix3): (s: Rotator)
    ensures GetRotationMatrix3(s) == m
  {
    Rotator(m)
  }

  /** Only the 3x3 block (indices 0,1,2,4,5,6,8,9,10) is read: get4 gives
      the block back and zeros in place of the rest. */
  function SetRotationMatrix4(r: Rotator, m: Matrix4): (s: Rotator)
    ensures forall i :: 0 <= i < 16 && InBlock(i) ==> GetRotationMatrix4(s)[i] == m[i]
    ensures forall i :: 0 <= i < 16 && !InBlock(i) ==> GetRotationMatrix4(s)[i] == 0.0
  {
    BlockEmbedRoundTrip(r.gains, m);
    Rotator(Block(m))
  }

  /** The 3x3 matrix is the block of the 16-entry one. */
  function GetRotationMatrix3(r: Rotator): (m: Matrix3)
    ensures forall k :: 0 <= k < 9 ==> m[k] == GetRotationMatrix4(r)[BlockIndex(k)]
  {
    r.gains
  }

  /** A fresh zeroed 16-entry array carrying the gains in its block. */
  function GetRotationMatrix4(r: Rotator): (m: Matrix4)
    ensures forall k :: 0 <= k < 9 ==> m[BlockIndex(k)] == r.gains[k]
    ensures forall i :: 0 <= i < 16 && !InBlock(i) ==> m[i] == 0.0
  {
    BlockEmbedRoundTrip(r.gains, Embed(r.gains));
    Embed(r.gains)
  }

  /** set3 then get3 is the identity; set4 then get4 returns the input at
      the block indices and zeros elsewhere; set3 of a block equals set4. */
  lemma GetSetRoundTrips(r: Rotator, m3: Matrix3, m4: Matrix4)
    ensures GetRotationMatrix3(SetRotationMatrix3(r, m3)) == m3
    ensures forall i :: 0 <= i < 16 && InBlock(i) ==> GetRotationMatrix4(SetRotationMatrix4(r, m4))[i] == m4[i]
    ensures forall i :: 0 <= i < 16 && !InBlock(i) ==> GetRotationMatrix4(SetRotationMatrix4(r, m4))[i] == 0.0
    ensures SetRotationMatrix4(r, GetRotationMatrix4(r)) == r
    ensures SetRotationMatrix3(r, Block(m4)) == SetRotationMatrix4(r, m4)
  {
    BlockEmbedRoundTrip(r.gains, m4);
  }

  /** The signal path, node by node, for one sample frame (w, y, z, x) in
      ACN order: the input stage forms inY = -y, inZ = z, inX = -x; gain
      m(3k+s) carries input stage k into output stage s; outY and outX
      negate their sums; W goes straight to the merger. */
  function Render(r: Rotator, frame: seq<real>): (out: seq<real>)
    requires |frame| == 4
    ensures |out| == 4
  {
    var inY, inZ, inX := -frame[1], frame[2], -frame[3];
    [frame[0], -OutputStage(r.gains, 0, inY, inZ, inX), OutputStage(r.gains, 1, inY, inZ, inX), -OutputStage(r.gains, 2, inY, inZ, inX)]
  }

  /** The sum arriving at output stage s (0 = Y, 1 = Z, 2 = X). */
  function OutputStage(g: Matrix3, s: nat, inY: real, inZ: real, inX: real): real
    requires s < 3
  {
    Dot3(g[s], g[s + 3], g[s + 6], inY, inZ, inX)
  }

  /** The network computes shim * M * shim on (y, z, x) for the column-major
      gains M, and passes W through. */
  lemma RenderIsShimConjugate(r: Rotator, frame: seq<real>)
    requires |frame| == 4
    ensures var v: Vector3 := frame[1..4];
            var out := Render(r, frame);
            out[0] == frame[0] && out[1..4] == Apply(Shim3, Apply(r.gains, Apply(Shim3, v)))
  {
    var v: Vector3 := frame[1..4];
    ApplyShim(v);
    var b := Apply(r.gains, [-frame[1], frame[2], -frame[3]]);
    ApplyShim(b);
    var out := Render(r, frame);
    var inY, inZ, inX := -frame[1], frame[2], -frame[3];
    assert b[0] == OutputStage(r.gains, 0, inY, inZ, inX);
    assert b[1] == OutputStage(r.gains, 1, inY, inZ, inX);
    assert b[2] == OutputStage(r.gains, 2, inY, inZ, inX);
    assert out == [frame[0], -b[0], b[1], -b[2]];
    assert out[1..4] == [-b[0], b[1], -b[2]];
  }

  /** With the identity matrix the rotator passes every channel through. */
  lemma IdentityRendersUnchanged(frame: seq<real>)
    requires |frame| == 4
    ensures Render(CreateRotator(), frame) == frame
  {
    RenderWithGains(CreateRotator(), Identity3, frame);
  }

  /** With the shim matrix, the first-order rotator negates Y and X. */
  lemma ShimRendersFlipped(frame: seq<real>)
    requires |frame| == 4
    ensures Render(SetRotationMatrix3(CreateRotator(), Shim3), frame) == [frame[0], -frame[1], frame[2], -frame[3]]
  {
    RenderWithGains(SetRotationMatrix3(CreateRotator(), Shim3), Shim3, frame);
  }

  /** The frame a rotator holding the identity or the shim produces. */
  lemma RenderWithGains(r: Rotator, g: Matrix3, frame: seq<real>)
    requires |frame| == 4 && r.gains == g
    ensures g == Identity3 ==> Render(r, frame) == frame
    ensures g == Shim3 ==> Render(r, frame) == [frame[0], -frame[1], frame[2], -frame[3]]
  {
    assert Render(r, frame) == [frame[0], -OutputStage(g, 0, -frame[1], frame[2], -frame[3]),
      OutputStage(g, 1, -frame[1], frame[2], -frame[3]), -OutputStage(g, 2, -frame[1], frame[2], -frame[3])];
  }
}
