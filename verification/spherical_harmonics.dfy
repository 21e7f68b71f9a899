/** The spherical-harmonics helpers of the visualiser: the SN3D-to-N3D
    factor table, the MaxRe weighting of a decoder matrix, and the real
    spherical harmonics up to third order at one direction. Every table is
    laid out in ACN order, one entry per (l, m), grouped by band l. */
module SphericalHarmonics {
  import opened Acn
  import opened RealMath

  /** A JavaScript number as the weighting produces it: a real, or NaN from
      multiplying by a weight that does not exist. */
  datatype Number = Real(value: real) | NaN

  /** Number of entries a band-by-band loop over l = 0..order emits: none
      for a negative order. */
  function TableSize(order: int): nat
  {
    if order < 0 then 0 else ChannelCount(order)
  }

  /** The table with value(l) repeated 2l+1 times for each band l. */
  function Banded(order: int, value: nat -> real): (t: seq<real>)
  {
    seq(TableSize(order), k requires 0 <= k => value(Band(k)))
  }

  /** The loop both table builders share: for l = 0..order, push value(l)
      once for each m = -l..l. */
  method BuildBanded(order: int, value: nat -> real) returns (t: seq<real>)
    ensures |t| == TableSize(order)
    ensures forall k :: 0 <= k < |t| ==> t[k] == value(Band(k))
    ensures t == Banded(order, value)
  {
    t := [];
    var l: nat := 0;
    while l as int <= order
      invariant order < 0 ==> l == 0
      invariant order >= 0 ==> l as int <= order + 1
      invariant |t| == l * l
      invariant forall k :: 0 <= k < |t| ==> t[k] == value(Band(k))
    {
      var factor := value(l);
      var m: int := -(l as int);
      ghost var base := l * l;
      while m <= l
        invariant -(l as int) <= m <= l as int + 1
        invariant |t| == base + (m + l)
        invariant forall k :: 0 <= k < |t| ==> t[k] == value(Band(k))
      {
        BandOfBlockOffset(l, m + l);
        t := t + [factor];
        m := m + 1;
      }
      NextSquare(l);
      l := l + 1;
    }
  }

  lemma NextSquare(l: nat)
    ensures (l + 1) * (l + 1) == l * l + 2 * l + 1
  {
  }

  /** sqrt(2l + 1): the factor that turns an SN3D coefficient of band l
      into its N3D counterpart. */
  function N3dFactor(m: Math, l: nat): real
  {
    m.sqrt((2 * l + 1) as real)
  }

  /** The factor table as a value. */
  function N3dFactors(m: Math, order: int): seq<real>
  {
    Banded(order, N3dFactorOf(m))
  }

  /** The factor of each band, as a function of the band. */
  function N3dFactorOf(m: Math): nat -> real
  {
    (l: nat) => N3dFactor(m, l)
  }

  /** The SN3D-to-N3D factor of every ACN channel up to the order. */
  method Sn3dToN3dFactors(m: Math, order: int) returns (factors: seq<real>)
    ensures |factors| == TableSize(order)
    ensures forall k :: 0 <= k < |factors| ==> factors[k] == m.sqrt((2 * Band(k) + 1) as real)
    ensures factors == N3dFactors(m, order)
  {
    factors := BuildBanded(order, N3dFactorOf(m));
  }

  /** Channel k's factor is sqrt(2l+1) for its band l, so it squares to
      2l+1 wherever sqrt is a true square root. */
  lemma N3dFactorAt(m: Math, order: int, k: nat)
    requires k < TableSize(order)
    ensures N3dFactors(m, order)[k] == m.sqrt((2 * Band(k) + 1) as real)
  {
    BandedAt(order, N3dFactorOf(m), k);
    N3dFactorOfAt(m, Band(k));
  }

  lemma N3dFactorOfAt(m: Math, l: nat)
    ensures N3dFactorOf(m)(l) == m.sqrt((2 * l + 1) as real)
  {
  }

  lemma N3dFactorOfChannelZero(m: Math, order: int)
    requires m.sqrt(1.0) == 1.0
    requires order >= 0
    ensures N3dFactors(m, order)[0] == 1.0
  {
    BandUnique(0, 0);
  }

  /** cos(pi l / (2 order + 2)): the MaxRe weight of band l. Band 0 keeps
      full weight, and the angle reaches pi/2 just past the order. */
  function MaxReWeight(m: Math, order: nat, l: nat): (w: real)
    ensures Lawful(m) && l == 0 ==> w == 1.0
    ensures l == order + 1 ==> w == m.cos(m.pi / 2.0)
  {
    var d := (2 * order + 2) as real;
    assert l == order + 1 ==> m.pi * (l as real) / d == m.pi / 2.0 by {
      if l == order + 1 {
        assert d == 2.0 * (l as real);
      }
    }
    m.cos(m.pi * (l as real) / d)
  }

  /** The weight table of an order as a value. */
  function MaxReTable(m: Math, order: nat): seq<real>
  {
    Banded(order, MaxReWeightOf(m, order))
  }

  /** The weight of each band of an order, as a function of the band. */
  function MaxReWeightOf(m: Math, order: nat): nat -> real
  {
    (l: nat) => MaxReWeight(m, order, l)
  }

  /** The weights, one per ACN channel up to the order. */
  method MaxReWeights(m: Math, order: int) returns (weights: seq<real>)
    ensures |weights| == TableSize(order)
    ensures order >= 0 ==> weights == MaxReTable(m, order as nat)
  {
    if order < 0 {
      weights := BuildBanded(order, (l: nat) => 0.0);
    } else {
      weights := BuildBanded(order, MaxReWeightOf(m, order as nat));
    }
  }

  /** Entry (i, j) of the decoder matrix scaled by weight j; a column with
      no weight (j beyond the table) becomes NaN. The source scales the
      matrix in place and returns it; here the scaled matrix is returned. */
  function ApplyMaxRe(matrix: seq<seq<real>>, weights: seq<real>): (r: seq<seq<Number>>)
    ensures |r| == |matrix|
    ensures forall i :: 0 <= i < |r| ==> |r[i]| == |matrix[i]|
  {
    seq(|matrix|, i requires 0 <= i < |matrix| =>
      seq(|matrix[i]|, j requires 0 <= j < |matrix[i]| =>
        if j < |weights| then Real(matrix[i][j] * weights[j]) else NaN))
  }

  /** With the weights of an order: every column within the table is scaled
      by the weight of its band (so columns of one band scale alike), and
      the columns past the table become NaN. */
  lemma MaxReScalesByBand(m: Math, order: nat, matrix: seq<seq<real>>, i: nat, j: nat)
    requires i < |matrix| && j < |matrix[i]|
    ensures var r := ApplyMaxRe(matrix, MaxReTable(m, order));
            r[i][j] == if j < ChannelCount(order) then Real(matrix[i][j] * MaxReWeight(m, order, Band(j))) else NaN
  {
    ApplyMaxReAt(matrix, MaxReTable(m, order), i, j);
    MaxReTableSize(m, order);
    if j < ChannelCount(order) {
      MaxReTableAt(m, order, j);
    }
  }

  lemma MaxReTableSize(m: Math, order: nat)
    ensures |MaxReTable(m, order)| == ChannelCount(order)
  {
  }

  /** Channel k's weight is the weight of its band. */
  lemma MaxReTableAt(m: Math, order: nat, k: nat)
    requires k < ChannelCount(order)
    ensures MaxReTable(m, order)[k] == MaxReWeight(m, order, Band(k))
  {
    BandedAt(order, MaxReWeightOf(m, order), k);
    MaxReWeightOfAt(m, order, Band(k));
  }

  lemma MaxReWeightOfAt(m: Math, order: nat, l: nat)
    ensures MaxReWeightOf(m, order)(l) == MaxReWeight(m, order, l)
  {
  }

  lemma ApplyMaxReAt(matrix: seq<seq<real>>, weights: seq<real>, i: nat, j: nat)
    requires i < |matrix| && j < |matrix[i]|
    ensures ApplyMaxRe(matrix, weights)[i][j] == if j < |weights| then Real(matrix[i][j] * weights[j]) else NaN
  {
  }

  lemma BandedAt(order: int, value: nat -> real, k: nat)
    requires k < TableSize(order)
    ensures |Banded(order, value)| == TableSize(order)
    ensures Banded(order, value)[k] == value(Band(k))
  {
  }

  /** Band 0 is weighted by cos 0 = 1, so column 0 is unchanged. */
  lemma MaxReKeepsBandZero(m: Math, order: nat, matrix: seq<seq<real>>, i: nat)
    requires m.cos(0.0) == 1.0
    requires i < |matrix| && 0 < |matrix[i]|
    ensures ApplyMaxRe(matrix, MaxReTable(m, order))[i][0] == Real(matrix[i][0])
  {
    BandUnique(0, 0);
    MaxReScalesByBand(m, order, matrix, i, 0);
    assert m.pi * (0 as real) / ((2 * order + 2) as real) == 0.0;
  }

  /** The sixteen real spherical harmonics (ACN order) at (x, -y, -z): the
      direction's y and z are negated first. */
  function EvaluateSH(x: real, y: real, z: real): (r: seq<real>)
    ensures |r| == ChannelCount(3)
  {
    var y := -y;
    var z := -z;
    [ 0.282095,
      0.488603 * y,
      0.488603 * z,
      0.488603 * x,
      1.092548 * x * y,
      1.092548 * y * z,
      0.315392 * (3.0 * z * z - 1.0),
      1.092548 * x * z,
      0.546274 * (x * x - y * y),
      0.590044 * y * (3.0 * x * x - y * y),
      2.890611 * x * y * z,
      0.457046 * y * (5.0 * z * z - 1.0),
      0.373176 * (5.0 * z * z - 3.0) * z,
      0.457046 * x * (5.0 * z * z - 1.0),
      1.445306 * z * (x * x - y * y),
      0.590044 * x * (x * x - 3.0 * y * y) ]
  }

  /** Coefficient 0 does not depend on the direction, and coefficients 1..3
      are the first-order terms of the negated direction. */
  lemma EvaluateShLowOrders(x: real, y: real, z: real, x2: real, y2: real, z2: real)
    ensures EvaluateSH(x, y, z)[0] == EvaluateSH(x2, y2, z2)[0]
    ensures EvaluateSH(x, y, z)[1..4] == [0.488603 * -y, 0.488603 * -z, 0.488603 * x]
  {
  }

  function ParitySign(l: nat): real { if l % 2 == 0 then 1.0 else -1.0 }

  /** The harmonics of band l have parity (-1)^l: evaluating at the
      antipodal direction flips exactly the odd bands. */
  lemma EvaluateShParity(x: real, y: real, z: real, k: nat)
    requires k < 16
    ensures EvaluateSH(-x, -y, -z)[k] == ParitySign(Band(k)) * EvaluateSH(x, y, z)[k]
  {
    BandsUpToThirdOrder();
    var a, b := EvaluateSH(-x, -y, -z), EvaluateSH(x, y, z);
    if k < 4 {
    } else if k < 9 {
      EvenProducts(x, y, z);
      if k == 4 { } else if k == 5 { } else if k == 6 { } else if k == 7 { } else { }
    } else {
      EvenProducts(x, y, z);
      OddProducts(x, y, z);
      if k == 9 { } else if k == 10 { } else if k == 11 { } else if k == 12 { }
      else if k == 13 { } else if k == 14 { } else { }
    }
  }

  /** The band of each of the sixteen channels up to third order. */
  lemma BandsUpToThirdOrder()
    ensures Band(0) == 0
    ensures forall k :: 1 <= k < 4 ==> Band(k) == 1
    ensures forall k :: 4 <= k < 9 ==> Band(k) == 2
    ensures forall k :: 9 <= k < 16 ==> Band(k) == 3
  {
    BandUnique(0, 0);
    forall k | 1 <= k < 4 ensures Band(k) == 1 { BandUnique(k, 1); }
    forall k | 4 <= k < 9 ensures Band(k) == 2 { BandUnique(k, 2); }
    forall k | 9 <= k < 16 ensures Band(k) == 3 { BandUnique(k, 3); }
  }

  /** Degree-two monomials are unchanged by negating every variable. */
  lemma EvenProducts(x: real, y: real, z: real)
    ensures (-x) * (-y) == x * y && (-y) * (-z) == y * z && (-x) * (-z) == x * z
    ensures (-x) * (-x) == x * x && (-y) * (-y) == y * y && (-z) * (-z) == z * z
  {
  }

  /** Degree-three monomials change sign when every variable is negated. */
  lemma OddProducts(x: real, y: real, z: real)
    ensures (-x) * (-y) * (-z) == -(x * y * z)
  {
  }
}
