/** HOARotator: for every band l = 1 .. order, a (2l+1) x (2l+1) block of
    gain nodes from the band's input channels to its output channels. The
    band-1 block holds the 3x3 rotation with the sign pattern -,+,- per
    column; the blocks of bands 2 .. order are recomputed from band 1 and
    the band below by the Ivanic-Ruedenberg recurrence (getP, getU, getV,
    getW, computeUVWCoeff). Gains are reals; Math.sqrt is a parameter. */
module HoaRotator {
  import opened Outcomes
  import opened Acn
  import opened Matrices
  import opened AudioGraph

  /** Number of gain nodes in band l's block. */
  function BlockSize(l: nat): nat { Rows(l) * Rows(l) }

  /** bands[l-1] holds band l's gains, addressed by CenteredIndex. */
  predicate Shaped(bands: seq<seq<real>>) {
    forall b :: 0 <= b < |bands| ==> |bands[b]| == BlockSize(b + 1)
  }

  datatype Rotator = Rotator(order: nat, bands: seq<seq<real>>)

  predicate Valid(r: Rotator) {
    1 <= r.order && |r.bands| == r.order && Shaped(r.bands)
  }

  function Abs(x: int): nat { if x < 0 then -x else x }

  /** getCenteredElement on one band's block. */
  function Centered(g: seq<real>, l: nat, i: int, j: int): real
    requires |g| == BlockSize(l) && InBand(l, i) && InBand(l, j)
  {
    CenteredIndexRoundTrip(l, i, j);
    g[CenteredIndex(l, i, j)]
  }

  /** getP: reads band 1 at column i and the band below at row a. */
  function P(band1: seq<real>, prev: seq<real>, i: int, a: int, b: int, l: nat): real
    requires 2 <= l && |band1| == BlockSize(1) && |prev| == BlockSize(l - 1)
    requires InBand(1, i) && InBand(l - 1, a) && InBand(l, b)
  {
    var top := l as int - 1;
    if b == l as int then
      Centered(band1, 1, i, 1) * Centered(prev, l - 1, a, top)
        - Centered(band1, 1, i, -1) * Centered(prev, l - 1, a, -top)
    else if b == -(l as int) then
      Centered(band1, 1, i, 1) * Centered(prev, l - 1, a, -top)
        + Centered(band1, 1, i, -1) * Centered(prev, l - 1, a, top)
    else
      Centered(band1, 1, i, 0) * Centered(prev, l - 1, a, b)
  }

  /** getV */
  function V(band1: seq<real>, prev: seq<real>, m: int, n: int, l: nat, sqrt: real -> real): real
    requires 2 <= l && |band1| == BlockSize(1) && |prev| == BlockSize(l - 1)
    requires InBand(l, m) && InBand(l, n)
  {
    if m == 0 then
      P(band1, prev, 1, 1, n, l) + P(band1, prev, -1, -1, n, l)
    else if m > 0 then
      var d := if m == 1 then 1.0 else 0.0;
      P(band1, prev, 1, m - 1, n, l) * sqrt(1.0 + d) - P(band1, prev, -1, -m + 1, n, l) * (1.0 - d)
    else
      var d := if m == -1 then 1.0 else 0.0;
      P(band1, prev, 1, m + 1, n, l) * (1.0 - d) + P(band1, prev, -1, -m - 1, n, l) * sqrt(1.0 + d)
  }

  /** getW; only called where its reads stay inside the band below. */
  function W(band1: seq<real>, prev: seq<real>, m: int, n: int, l: nat): real
    requires 2 <= l && |band1| == BlockSize(1) && |prev| == BlockSize(l - 1)
    requires InBand(l, n) && m != 0 && Abs(m) + 2 <= l
  {
    if m > 0 then P(band1, prev, 1, m + 1, n, l) + P(band1, prev, -1, -m - 1, n, l)
    else P(band1, prev, 1, m - 1, n, l) - P(band1, prev, -1, -m + 1, n, l)
  }

  datatype Coefficients = Coefficients(u: real, v: real, w: real)

  lemma ProductPositive(a: real, b: real)
    requires 0.0 < a && 0.0 < b
    ensures 0.0 < a * b
  {
  }

  /** The denominator of computeUVWCoeff's reciprocal: 2l(2l-1) on the
      block's edge columns, (l+n)(l-n) inside. */
  function Denominator(n: int, l: nat): (d: real)
    requires 2 <= l && InBand(l, n)
    ensures d > 0.0
  {
    var L, N := l as real, n as real;
    if Abs(n) == l then
      ProductPositive(2.0 * L, 2.0 * L - 1.0);
      2.0 * L * (2.0 * L - 1.0)
    else
      ProductPositive(L + N, L - N);
      (L + N) * (L - N)
  }

  /** The radicand of the u coefficient. */
  function URadicand(m: int, n: int, l: nat): real
    requires 2 <= l && InBand(l, m) && InBand(l, n)
  {
    var L, M := l as real, m as real;
    (L + M) * (L - M) * (1.0 / Denominator(n, l))
  }

  /** The radicand of the w coefficient (the reciprocal sits outside). */
  function WRadicand(m: int, l: nat): real
  {
    var L, absM := l as real, Abs(m) as real;
    (L - absM - 1.0) * (L - absM)
  }

  /** computeUVWCoeff */
  function UvwCoefficients(m: int, n: int, l: nat, sqrt: real -> real): Coefficients
    requires 2 <= l && InBand(l, m) && InBand(l, n)
  {
    var L := l as real;
    var d := if m == 0 then 1.0 else 0.0;
    var absM := Abs(m) as real;
    var reciprocal := 1.0 / Denominator(n, l);
    Coefficients(
      sqrt(URadicand(m, n, l)),
      0.5 * (1.0 - 2.0 * d) * sqrt((1.0 + d) * (L + absM - 1.0) * (L + absM) * reciprocal),
      -0.5 * (1.0 - d) * sqrt(WRadicand(m, l)) * reciprocal)
  }

  /** The coefficients vanish exactly where the corresponding term would
      read outside the band below: u at |m| = l, w at m = 0 and |m| >= l-1.
      This is what keeps computeBandRotation's guarded reads in range. */
  lemma CoefficientsVanishAtEdges(m: int, n: int, l: nat, sqrt: real -> real)
    requires 2 <= l && InBand(l, m) && InBand(l, n) && sqrt(0.0) == 0.0
    ensures Abs(m) == l ==> UvwCoefficients(m, n, l, sqrt).u == 0.0
    ensures m == 0 || Abs(m) + 1 >= l ==> UvwCoefficients(m, n, l, sqrt).w == 0.0
  {
    if Abs(m) == l {
      URadicandVanishes(m, n, l);
    }
    if m != 0 && Abs(m) + 1 >= l {
      WRadicandVanishes(m, l);
    }
  }

  lemma URadicandVanishes(m: int, n: int, l: nat)
    requires 2 <= l && InBand(l, m) && InBand(l, n) && Abs(m) == l
    ensures URadicand(m, n, l) == 0.0
  {
    var L, M := l as real, m as real;
    ZeroFactor(L + M, L - M, 1.0 / Denominator(n, l));
  }

  lemma WRadicandVanishes(m: int, l: nat)
    requires 2 <= l && InBand(l, m) && Abs(m) + 1 >= l
    ensures WRadicand(m, l) == 0.0
  {
    var L, absM := l as real, Abs(m) as real;
    ZeroFactor(L - absM - 1.0, L - absM, 1.0);
  }

  lemma ZeroFactor(a: real, b: real, c: real)
    requires a == 0.0 || b == 0.0
    ensures a * b * c == 0.0 && a * b == 0.0
  {
  }

  /** One entry (m, n) of band l: each coefficient is multiplied by its term
      only when it is non-zero, as Math.abs(c) > 0 guards it. */
  function Entry(band1: seq<real>, prev: seq<real>, m: int, n: int, l: nat, sqrt: real -> real): real
    requires 2 <= l && |band1| == BlockSize(1) && |prev| == BlockSize(l - 1)
    requires InBand(l, m) && InBand(l, n) && sqrt(0.0) == 0.0
  {
    var c := UvwCoefficients(m, n, l, sqrt);
    CoefficientsVanishAtEdges(m, n, l, sqrt);
    var u := if c.u != 0.0 then c.u * P(band1, prev, 0, m, n, l) else c.u;
    var v := if c.v != 0.0 then c.v * V(band1, prev, m, n, l, sqrt) else c.v;
    var w := if c.w != 0.0 then c.w * W(band1, prev, m, n, l) else c.w;
    u + v + w
  }

  /** computeBandRotation: the whole block of band l, entry (m, n) stored at
      its centred address. */
  function ComputeBand(band1: seq<real>, prev: seq<real>, l: nat, sqrt: real -> real): (g: seq<real>)
    requires 2 <= l && |band1| == BlockSize(1) && |prev| == BlockSize(l - 1) && sqrt(0.0) == 0.0
    ensures |g| == BlockSize(l)
  {
    seq(BlockSize(l), k requires 0 <= k < BlockSize(l) => EntryAt(band1, prev, k, l, sqrt))
  }

  /** setCenteredElement(l, m, n) addressing: entry (m, n) of the recurrence
      lands at its centred address. */
  lemma ComputeBandAddressing(band1: seq<real>, prev: seq<real>, l: nat, sqrt: real -> real, m: int, n: int)
    requires 2 <= l && |band1| == BlockSize(1) && |prev| == BlockSize(l - 1) && sqrt(0.0) == 0.0
    requires InBand(l, m) && InBand(l, n)
    ensures 0 <= CenteredIndex(l, m, n) < BlockSize(l)
    ensures ComputeBand(band1, prev, l, sqrt)[CenteredIndex(l, m, n)] == Entry(band1, prev, m, n, l, sqrt)
  {
    CenteredIndexRoundTrip(l, m, n);
  }

  /** The entry stored at block address k. */
  function EntryAt(band1: seq<real>, prev: seq<real>, k: int, l: nat, sqrt: real -> real): real
    requires 2 <= l && |band1| == BlockSize(1) && |prev| == BlockSize(l - 1) && sqrt(0.0) == 0.0
    requires 0 <= k < BlockSize(l)
  {
    CenteredIndexOnto(l, k);
    Entry(band1, prev, k % Rows(l) - l, k / Rows(l) - l, l, sqrt)
  }

  /** computeHOAMatrices from band l on: bands are recomputed in increasing
      order, each from band 1 and the freshly recomputed band below. */
  function RecomputeFrom(bands: seq<seq<real>>, l: nat, sqrt: real -> real): (r: seq<seq<real>>)
    requires Shaped(bands) && 2 <= l <= |bands| + 1 && sqrt(0.0) == 0.0
    ensures Shaped(r) && |r| == |bands|
    ensures forall b :: 0 <= b < l - 1 ==> r[b] == bands[b]
    ensures forall b :: l - 1 <= b < |r| ==> r[b] == ComputeBand(r[0], r[b - 1], b + 1, sqrt)
    decreases |bands| + 1 - l
  {
    if l > |bands| then bands
    else RecomputeFrom(bands[l - 1 := ComputeBand(bands[0], bands[l - 2], l, sqrt)], l + 1, sqrt)
  }

  /** setRotationMatrix3: band 1 takes the flipped matrix, then every higher
      band is recomputed. */
  function SetRotationMatrix3(r: Rotator, m: Matrix3, sqrt: real -> real): (s: Rotator)
    requires Valid(r) && sqrt(0.0) == 0.0
    ensures Valid(s) && s.order == r.order
    ensures s.bands[0] == Flip(m)
    ensures forall b :: 1 <= b < s.order ==> s.bands[b] == ComputeBand(s.bands[0], s.bands[b - 1], b + 1, sqrt)
  {
    Rotator(r.order, RecomputeFrom(r.bands[0 := Flip(m)], 2, sqrt))
  }

  /** setRotationMatrix4 reads the 3x3 block of its argument. */
  function SetRotationMatrix4(r: Rotator, m: Matrix4, sqrt: real -> real): (s: Rotator)
    requires Valid(r) && sqrt(0.0) == 0.0
    ensures Valid(s) && s.bands[0] == Flip(Block(m))
  {
    SetRotationMatrix3(r, Block(m), sqrt)
  }

  /** getRotationMatrix4: band 1 with the sign pattern undone, in the block
      of a fresh zeroed 16-entry array. */
  function GetRotationMatrix4(r: Rotator): (m: Matrix4)
    requires Valid(r)
    ensures Block(m) == Flip(r.bands[0])
    ensures forall i :: 0 <= i < 16 && !InBlock(i) ==> m[i] == 0.0
  {
    BlockEmbedRoundTrip(Flip(r.bands[0]), seq(16, _ => 0.0));
    Embed(Flip(r.bands[0]))
  }

  /** getRotationMatrix3 AS WRITTEN: the 4x4 getter's index list aimed at a
      fresh 9-entry array. Indices 3 and 7 are never written and stay 0,
      three band-1 gains land one slot early, and the writes to indices 9
      and 10 fall past the end of the typed array and are dropped. */
  function GetRotationMatrix3AsWritten(r: Rotator): (m: Matrix3)
    requires Valid(r)
    ensures m == GetRotationMatrix4(r)[..9]
  {
    var g := r.bands[0];
    EmbeddedFlipPrefix(g);
    [-g[0], g[1], -g[2], 0.0, -g[3], g[4], -g[5], 0.0, -g[6]]
  }

  /** The first nine entries of the 4x4 layout of a flipped band 1. */
  lemma EmbeddedFlipPrefix(g: Matrix3)
    ensures Embed(Flip(g))[..9] == [-g[0], g[1], -g[2], 0.0, -g[3], g[4], -g[5], 0.0, -g[6]]
  {
    var e := Embed(Flip(g));
    var f := Flip(g);
    assert e[0] == f[0] == -g[0];
    assert e[1] == f[1] == g[1];
    assert e[2] == f[2] == -g[2];
    assert !InBlock(3);
    assert e[4] == f[3] == -g[3];
    assert e[5] == f[4] == g[4];
    assert e[6] == f[5] == -g[5];
    assert !InBlock(7);
    assert e[8] == f[6] == -g[6];
  }

  /** getRotationMatrix3 as evidently intended: band 1 with the sign
      pattern undone, entry for entry. */
  function GetRotationMatrix3(r: Rotator): (m: Matrix3)
    requires Valid(r)
    ensures Flip(m) == r.bands[0]
    ensures Embed(m) == GetRotationMatrix4(r)
  {
    FlipInvolution(r.bands[0]);
    Flip(r.bands[0])
  }

  /** set3 then the corrected get3 returns the matrix. */
  lemma GetSet3RoundTrip(r: Rotator, m: Matrix3, sqrt: real -> real)
    requires Valid(r) && sqrt(0.0) == 0.0
    ensures GetRotationMatrix3(SetRotationMatrix3(r, m, sqrt)) == m
  {
    FlipInvolution(m);
  }

  /** As written, the identity does not come back: after set3(identity)
      the getter returns a matrix with a 0 on the diagonal. */
  lemma GetRotationMatrix3AsWrittenLosesIdentity(r: Rotator, sqrt: real -> real)
    requires Valid(r) && sqrt(0.0) == 0.0
    ensures var s := SetRotationMatrix3(r, Identity3, sqrt);
            && GetRotationMatrix3AsWritten(s) == [1.0, 0.0, 0.0, 0.0, 0.0, 1.0, 0.0, 0.0, 0.0]
            && GetRotationMatrix3AsWritten(s) != Identity3
            && GetRotationMatrix3(s) == Identity3
  {
    var s := SetRotationMatrix3(r, Identity3, sqrt);
    Band1OfIdentityAndShim(r, sqrt);
    AsWrittenOfShimBand(s);
    GetSet3RoundTrip(r, Identity3, sqrt);
  }

  lemma AsWrittenOfShimBand(s: Rotator)
    requires Valid(s) && s.bands[0] == Shim3
    ensures GetRotationMatrix3AsWritten(s) == [1.0, 0.0, 0.0, 0.0, 0.0, 1.0, 0.0, 0.0, 0.0]
  {
    var g := s.bands[0];
    assert g[0] == -1.0 && g[1] == 0.0 && g[2] == 0.0 && g[3] == 0.0 && g[4] == 1.0 && g[5] == 0.0 && g[6] == 0.0;
    assert GetRotationMatrix3AsWritten(s) == [-g[0], g[1], -g[2], 0.0, -g[3], g[4], -g[5], 0.0, -g[6]];
  }

  /** set4 then get4 returns the input at indices 0,1,2,4,5,6,8,9,10 and
      zeros elsewhere. */
  lemma GetSet4RoundTrip(r: Rotator, m: Matrix4, sqrt: real -> real)
    requires Valid(r) && sqrt(0.0) == 0.0
    ensures forall i :: 0 <= i < 16 && InBlock(i) ==> GetRotationMatrix4(SetRotationMatrix4(r, m, sqrt))[i] == m[i]
    ensures forall i :: 0 <= i < 16 && !InBlock(i) ==> GetRotationMatrix4(SetRotationMatrix4(r, m, sqrt))[i] == 0.0
  {
    FlipInvolution(Block(m));
    BlockEmbedRoundTrip(Block(m), m);
  }

  /** A fresh gain node has gain 1; the constructor then loads the identity.
      Order 0 has no band-1 block, so that load throws. */
  function CreateRotator(order: nat, sqrt: real -> real): (r: Result<Rotator>)
    requires sqrt(0.0) == 0.0
    ensures order == 0 <==> r == Throws(TypeError)
    ensures r.Value? ==> Valid(r.value) && r.value.order == order && r.value.bands[0] == Shim3
  {
    if order == 0 then Throws(TypeError)
    else
      var initial := seq(order, b requires 0 <= b < order => seq(BlockSize(b + 1), _ => 1.0));
      Value(SetRotationMatrix3(Rotator(order, initial), Identity3, sqrt))
  }

  /** The identity matrix gives band-1 gains diag(-1, 1, -1); the shim
      matrix diag(-1, 1, -1) gives the identity gains. */
  lemma Band1OfIdentityAndShim(r: Rotator, sqrt: real -> real)
    requires Valid(r) && sqrt(0.0) == 0.0
    ensures SetRotationMatrix3(r, Identity3, sqrt).bands[0] == Shim3
    ensures SetRotationMatrix3(r, Shim3, sqrt).bands[0] == Identity3
  {
  }

  // ---- wiring -------------------------------------------------------------

  /** The input channel of gain entry x of band l: l*l + row. */
  function InputChannel(l: nat, x: nat): nat { l * l + x / Rows(l) }

  /** The output channel of gain entry x of band l: l*l + column. */
  function OutputChannel(l: nat, x: nat): nat { l * l + x % Rows(l) }

  predicate IsGain(order: nat, n: Node) {
    n.RotatorGain? && 1 <= n.band <= order && n.entry < BlockSize(n.band)
  }

  /** The two connections of one gain node. */
  function GainEdges(n: Node): set<Edge>
    requires n.RotatorGain?
  {
    {Edge(RotatorSplitter, InputChannel(n.band, n.entry), n, 0),
     Edge(n, 0, RotatorMerger, OutputChannel(n.band, n.entry))}
  }

  const Through := Edge(RotatorSplitter, 0, RotatorMerger, 0)

  /** The rotator's connections: channel 0 straight through; for band l,
      gain entry j*rows+k takes input channel l*l+j and feeds output
      channel l*l+k. */
  predicate RotatorEdge(order: nat, e: Edge) {
    || e == Through
    || (e.src == RotatorSplitter && IsGain(order, e.dst) && e in GainEdges(e.dst))
    || (IsGain(order, e.src) && e in GainEdges(e.src))
  }

  /** The gain a (non-through) rotator edge belongs to. */
  function GainOf(e: Edge): Node { if e.src == RotatorSplitter then e.dst else e.src }

  /** The edges of the gain nodes created before entry x of band l. */
  predicate BuiltBefore(order: nat, l: nat, x: nat, e: Edge) {
    && RotatorEdge(order, e) && e != Through
    && (GainOf(e).band < l || (GainOf(e).band == l && GainOf(e).entry < x))
  }

  lemma BuildStep(order: nat, l: nat, x: nat, e: Edge)
    requires 1 <= l <= order && x < BlockSize(l)
    ensures BuiltBefore(order, l, x + 1, e) <==> BuiltBefore(order, l, x, e) || e in GainEdges(RotatorGain(l, x))
  {
  }

  /** One gain node's two connect() calls add exactly its two edges. */
  lemma ConnectGain(g: Graph, l: nat, x: nat, j: nat, k: nat)
    requires x == j * Rows(l) + k && k < Rows(l)
    ensures Connect(Connect(g, RotatorSplitter, l * l + j, RotatorGain(l, x), 0), RotatorGain(l, x), 0, RotatorMerger, l * l + k)
            == g + GainEdges(RotatorGain(l, x))
  {
    DivModUnique(j, k, Rows(l));
  }

  /** The constructor's loops. */
  method BuildRotatorGraph(order: nat) returns (g: Graph)
    ensures forall e :: e in g <==> RotatorEdge(order, e)
  {
    g := {};
    for l := 1 to order + 1
      invariant forall e :: e in g <==> BuiltBefore(order, l, 0, e)
    {
      var rows := Rows(l);
      for j := 0 to rows
        invariant forall e :: e in g <==> BuiltBefore(order, l, j * rows, e)
      {
        g := WireRow(g, order, l, j);
        assert j * rows + rows == (j + 1) * rows;
      }
    }
    g := Connect(g, RotatorSplitter, 0, RotatorMerger, 0);
  }

  /** The innermost loop: row j of band l's gain block. */
  method WireRow(g0: Graph, order: nat, l: nat, j: nat) returns (g: Graph)
    requires 1 <= l <= order && j < Rows(l)
    requires forall e :: e in g0 <==> BuiltBefore(order, l, j * Rows(l), e)
    ensures forall e :: e in g <==> BuiltBefore(order, l, j * Rows(l) + Rows(l), e)
  {
    var rows := Rows(l);
    var first := j * rows;
    RowFits(l, j);
    g := g0;
    for k := 0 to rows
      invariant forall e :: e in g <==> BuiltBefore(order, l, first + k, e)
    {
      var matrixIndex := first + k;
      ghost var before := g;
      g := Connect(g, RotatorSplitter, l * l + j, RotatorGain(l, matrixIndex), 0);
      g := Connect(g, RotatorGain(l, matrixIndex), 0, RotatorMerger, l * l + k);
      WireGainStep(before, g, order, l, j, k, matrixIndex);
    }
  }

  /** Row j of band l's block ends inside the block. */
  lemma RowFits(l: nat, j: nat)
    requires j < Rows(l)
    ensures j * Rows(l) + Rows(l) <= BlockSize(l)
  {
    MulMonotone(j, Rows(l) - 1, Rows(l));
  }

  /** Wiring gain entry x = j*rows+k adds the gains built before x+1. */
  lemma WireGainStep(g: Graph, next: Graph, order: nat, l: nat, j: nat, k: nat, x: nat)
    requires 1 <= l <= order && x == j * Rows(l) + k && k < Rows(l) && x < BlockSize(l)
    requires forall e :: e in g <==> BuiltBefore(order, l, x, e)
    requires next == Connect(Connect(g, RotatorSplitter, l * l + j, RotatorGain(l, x), 0), RotatorGain(l, x), 0, RotatorMerger, l * l + k)
    ensures forall e :: e in next <==> BuiltBefore(order, l, x + 1, e)
  {
    ConnectGain(g, l, x, j, k);
    forall e
      ensures e in g + GainEdges(RotatorGain(l, x)) <==> BuiltBefore(order, l, x + 1, e)
    {
      BuildStep(order, l, x, e);
    }
  }

  /** Every connection stays within one band: a gain of band l only hears
      channels of band l and only feeds channels of band l. */
  lemma WiringStaysInBand(order: nat, e: Edge)
    requires RotatorEdge(order, e) && e != Through
    ensures Band(GainOf(e).band * GainOf(e).band) == GainOf(e).band
    ensures e.src == RotatorSplitter ==> Band(e.srcOutput) == e.dst.band
    ensures e.src != RotatorSplitter ==> Band(e.dstInput) == e.src.band
  {
    var n := GainOf(e);
    BlockAddressSplit(n.band, n.entry);
    BandOfBlockOffset(n.band, 0);
    if e.src == RotatorSplitter {
      BandOfBlockOffset(n.band, n.entry / Rows(n.band));
    } else {
      BandOfBlockOffset(n.band, n.entry % Rows(n.band));
    }
  }
}
