/** Ambisonic Channel Number (ACN) indexing: the channel of degree l and
    index m (-l <= m <= l) is l*l + l + m, so band l occupies channels
    l*l .. l*l + 2l. Also the "centred" addressing of a band's
    (2l+1) x (2l+1) rotation block used by the higher-order rotator. */
module Acn {

  /** Number of channels of an order: (order + 1)^2. */
  function ChannelCount(order: nat): nat { (order + 1) * (order + 1) }

  /** Number of stereo pairs holding n channels: Math.ceil(n / 2). */
  function StereoCount(n: nat): nat { (n + 1) / 2 }

  /** The ACN of degree m in band l; an in-band degree lands in the band's
      square bracket. */
  function Index(l: nat, m: int): (acn: int)
    ensures InBand(l, m) ==> l * l <= acn < (l + 1) * (l + 1)
  {
    assert (l + 1) * (l + 1) == l * l + 2 * l + 1;
    l * l + l + m
  }

  /** -l <= m <= l */
  predicate InBand(l: nat, m: int) { -(l as int) <= m <= l as int }

  /** The band of a channel: the largest l with l*l <= acn (BandBracket). */
  function Band(acn: nat): nat
  {
    if acn == 0 then 0
    else
      var b := Band(acn - 1);
      if (b + 1) * (b + 1) <= acn then b + 1 else b
  }

  /** A channel lies in the square bracket of its band. */
  lemma {:induction false} BandBracket(acn: nat)
    ensures Band(acn) * Band(acn) <= acn < (Band(acn) + 1) * (Band(acn) + 1)
  {
    if acn > 0 {
      BandBracket(acn - 1);
    }
  }

  /** The index m of a channel within its band. */
  function Degree(acn: nat): int { acn - Band(acn) * Band(acn) - Band(acn) }

  lemma SquareMonotone(a: nat, b: nat)
    requires a < b
    ensures a * a < b * b
  {
  }

  /** The square bracket of a number determines its band. */
  lemma BandUnique(acn: nat, l: nat)
    requires l * l <= acn < (l + 1) * (l + 1)
    ensures Band(acn) == l
  {
    BandBracket(acn);
    var b := Band(acn);
    if b < l {
      SquareMonotoneWeak(b + 1, l);
    } else if l < b {
      SquareMonotoneWeak(l + 1, b);
    }
  }

  lemma SquareMonotoneWeak(a: nat, b: nat)
    requires a <= b
    ensures a * a <= b * b
  {
    if a < b { SquareMonotone(a, b); }
  }

  /** (l, m) -> acn is onto [0, (order+1)^2) with inverse (Band, Degree). */
  lemma IndexRoundTrip(l: nat, m: int)
    requires InBand(l, m)
    ensures 0 <= Index(l, m)
    ensures Band(Index(l, m)) == l && Degree(Index(l, m)) == m
  {
    assert (l + 1) * (l + 1) == l * l + 2 * l + 1;
    BandUnique(Index(l, m), l);
  }

  /** Every channel number is the ACN of exactly its (Band, Degree) pair. */
  lemma DecodeRoundTrip(acn: nat)
    ensures InBand(Band(acn), Degree(acn))
    ensures Index(Band(acn), Degree(acn)) == acn
  {
    BandBracket(acn);
    var b := Band(acn);
    assert (b + 1) * (b + 1) == b * b + 2 * b + 1;
  }

  /** The channels of an order are exactly the ACNs of its (l, m) pairs. */
  lemma IndexCoversOrder(order: nat, l: nat, m: int)
    requires l <= order && InBand(l, m)
    ensures 0 <= Index(l, m) < ChannelCount(order)
  {
    assert Index(l, m) < (l + 1) * (l + 1);
    if l < order { SquareMonotone(l + 1, order + 1); }
  }

  lemma BandOfChannelWithinOrder(order: nat, acn: nat)
    requires acn < ChannelCount(order)
    ensures Band(acn) <= order
  {
    BandBracket(acn);
    var b := Band(acn);
    if order < b { SquareMonotone(order + 1, b); }
  }

  /** Two distinct (l, m) pairs never share a channel. */
  lemma IndexInjective(l1: nat, m1: int, l2: nat, m2: int)
    requires InBand(l1, m1) && InBand(l2, m2)
    requires Index(l1, m1) == Index(l2, m2)
    ensures l1 == l2 && m1 == m2
  {
    IndexRoundTrip(l1, m1);
    IndexRoundTrip(l2, m2);
  }

  /** Row length of band l's rotation block. */
  function Rows(l: nat): nat { 2 * l + 1 }

  /** setCenteredElement / getCenteredElement addressing of entry (i, j). */
  function CenteredIndex(l: nat, i: int, j: int): (k: int)
    ensures InBand(l, i) && InBand(l, j) ==> 0 <= k < Rows(l) * Rows(l)
  {
    var k := (j + l) * Rows(l) + (i + l);
    assert InBand(l, i) && InBand(l, j) ==> 0 <= k < Rows(l) * Rows(l) by {
      if InBand(l, i) && InBand(l, j) {
        MulMonotone(j + l, Rows(l) - 1, Rows(l));
      }
    }
    k
  }

  lemma MulMonotone(a: int, b: int, d: int)
    requires a <= b && 0 <= d
    ensures a * d <= b * d
  {
  }

  lemma DivModUnique(q: int, r: int, d: int)
    requires 0 <= r < d && 0 <= q
    ensures (q * d + r) / d == q && (q * d + r) % d == r
  {
    var k := q * d + r;
    var q', r' := k / d, k % d;
    assert k == q' * d + r' && 0 <= r' < d;
    if q' < q {
      MulMonotone(q' + 1, q, d);
      assert false;
    } else if q < q' {
      MulMonotone(q + 1, q', d);
      assert false;
    }
  }

  /** The centred address of every entry of band l lies inside the block and
      can be decoded back to (i, j). */
  lemma CenteredIndexRoundTrip(l: nat, i: int, j: int)
    requires InBand(l, i) && InBand(l, j)
    ensures 0 <= CenteredIndex(l, i, j) < Rows(l) * Rows(l)
    ensures CenteredIndex(l, i, j) % Rows(l) - l == i
    ensures CenteredIndex(l, i, j) / Rows(l) - l == j
  {
    DivModUnique(j + l, i + l, Rows(l));
    assert (j + l) * Rows(l) <= (Rows(l) - 1) * Rows(l);
  }

  /** Every index of the block is the centred address of one entry. */
  lemma CenteredIndexOnto(l: nat, k: int)
    requires 0 <= k < Rows(l) * Rows(l)
    ensures InBand(l, k % Rows(l) - l) && InBand(l, k / Rows(l) - l)
    ensures CenteredIndex(l, k % Rows(l) - l, k / Rows(l) - l) == k
  {
    BlockAddressSplit(l, k);
  }

  /** The channels l*l .. l*l + 2l are exactly band l. */
  lemma BandOfBlockOffset(l: nat, q: int)
    requires 0 <= q < Rows(l)
    ensures Band(l * l + q) == l
  {
    assert (l + 1) * (l + 1) == l * l + 2 * l + 1;
    BandUnique(l * l + q, l);
  }

  /** The row and column of a block address are both below the row count. */
  lemma BlockAddressSplit(l: nat, x: int)
    requires 0 <= x < Rows(l) * Rows(l)
    ensures 0 <= x / Rows(l) < Rows(l) && 0 <= x % Rows(l) < Rows(l)
    ensures x == (x / Rows(l)) * Rows(l) + x % Rows(l)
  {
    if Rows(l) <= x / Rows(l) {
      MulMonotone(Rows(l), x / Rows(l), Rows(l));
      assert false;
    }
  }
}
