/** `VGG.channel_shuffle`: the channel axis of a (B, C, H, W) tensor is viewed
    as a (C/g) x g grid, the grid is transposed, and the result is read back as
    C channels. On channel indices this is a permutation. */
module ChannelShuffle {
  import opened Shapes

  /** `num_group` of the Python method. */
  const NumGroup: nat := 4

  /** Multiplying by a non-negative number preserves order. */
  lemma MulLe(a: int, b: int, c: int)
    requires 0 <= c && a <= b
    ensures a * c <= b * c
  {
  }

  /** Quotient and remainder are determined by any decomposition x == q*d + r with 0 <= r < d. */
  lemma DivModUnique(x: int, d: int, q: int, r: int)
    requires d > 0 && 0 <= r < d && x == q * d + r
    ensures x / d == q && x % d == r
  {
    var q', r' := x / d, x % d;
    assert x == q' * d + r';
    if q > q' {
      MulLe(q' + 1, q, d);
    } else if q < q' {
      MulLe(q + 1, q', d);
    }
  }

  /** An index below rows * cols lies in one of the `rows` rows of the grid. */
  lemma DivBelow(k: nat, rows: nat, cols: nat)
    requires cols > 0 && k < rows * cols
    ensures k / cols < rows
  {
    var q := k / cols;
    assert q * cols + k % cols == k;
    if q >= rows {
      MulLe(rows, q, cols);
    }
  }

  /** The input channel that output channel `k` holds, when `gc` * `g` channels
      are viewed as a gc x g grid and the grid is transposed. */
  function SourceIndex(k: nat, g: nat, gc: nat): (p: nat)
    requires g > 0 && gc > 0 && k < gc * g
    ensures p < gc * g
  {
    DivBelow(k, g, gc);
    var i, j := k % gc, k / gc;
    MulLe(i, gc - 1, g);
    assert (gc - 1) * g == gc * g - g;
    i * g + j
  }

  /** With `gc` = C / g, output channel j * gc + i holds input channel i * g + j. */
  lemma SourceIndexOfCell(g: nat, gc: nat, i: nat, j: nat)
    requires g > 0 && gc > 0 && i < gc && j < g
    ensures j * gc + i < gc * g
    ensures SourceIndex(j * gc + i, g, gc) == i * g + j
  {
    MulLe(j, g - 1, gc);
    assert (g - 1) * gc == g * gc - gc;
    DivModUnique(j * gc + i, gc, j, i);
  }

  /** Transposing twice is the identity: the index map is a bijection on [0, gc * g)
      whose inverse is the same map with the grid's sides exchanged. */
  lemma SourceIndexInverse(k: nat, g: nat, gc: nat)
    requires g > 0 && gc > 0 && k < gc * g
    ensures SourceIndex(k, g, gc) < g * gc
    ensures SourceIndex(SourceIndex(k, g, gc), gc, g) == k
  {
    DivBelow(k, g, gc);
    var i, j := k % gc, k / gc;
    var p := SourceIndex(k, g, gc);
    assert p == i * g + j;
    DivModUnique(p, g, i, j);
    assert SourceIndex(p, gc, g) == j * gc + i;
  }

  /** Two output channels that hold the same input channel are the same channel. */
  lemma SourceIndexInjective(k1: nat, k2: nat, g: nat, gc: nat)
    requires g > 0 && gc > 0 && k1 < gc * g && k2 < gc * g
    requires SourceIndex(k1, g, gc) == SourceIndex(k2, g, gc)
    ensures k1 == k2
  {
    SourceIndexInverse(k1, g, gc);
    SourceIndexInverse(k2, g, gc);
  }

  /** Every input channel is held by some output channel. */
  lemma SourceIndexSurjective(p: nat, g: nat, gc: nat)
    requires g > 0 && gc > 0 && p < gc * g
    ensures exists k: nat :: k < gc * g && SourceIndex(k, g, gc) == p
  {
    SourceIndexInverse(p, gc, g);
    var k := SourceIndex(p, gc, g);
    assert SourceIndex(k, g, gc) == p;
  }

  /** The channels `s` of one batch item in shuffled order. */
  function Shuffle<T>(s: seq<T>, g: nat): (t: seq<T>)
    requires g > 0 && |s| % g == 0
    ensures |t| == |s|
  {
    if |s| == 0 then []
    else
      var gc := |s| / g;
      assert |s| == gc * g;
      seq(|s|, k requires 0 <= k < |s| => s[SourceIndex(k, g, gc)])
  }

  /** Output channel j * gc + i of the shuffle is input channel i * g + j. */
  lemma ShuffleAt<T>(s: seq<T>, g: nat, i: nat, j: nat)
    requires g > 0 && |s| % g == 0 && i < |s| / g && j < g
    ensures j * (|s| / g) + i < |s| && i * g + j < |s|
    ensures Shuffle(s, g)[j * (|s| / g) + i] == s[i * g + j]
  {
    var gc := |s| / g;
    assert |s| == gc * g;
    SourceIndexOfCell(g, gc, i, j);
    ShuffleIndex(s, g, gc, j * gc + i);
  }

  /** Output channel k of the shuffle is input channel SourceIndex(k). */
  lemma ShuffleIndex<T>(s: seq<T>, g: nat, gc: nat, k: nat)
    requires g > 0 && gc > 0 && |s| == gc * g && k < |s|
    ensures |s| % g == 0 && |s| / g == gc
    ensures Shuffle(s, g)[k] == s[SourceIndex(k, g, gc)]
  {
    DivModUnique(|s|, g, gc, 0);
  }

  /** Shuffling by g and then by C / g restores the original channel order. */
  lemma ShuffleInverse<T>(s: seq<T>, g: nat)
    requires g > 0 && |s| % g == 0 && |s| > 0
    ensures |s| % (|s| / g) == 0
    ensures Shuffle(Shuffle(s, g), |s| / g) == s
  {
    var gc := |s| / g;
    assert |s| == gc * g;
    DivModUnique(|s|, gc, g, 0);
    var t := Shuffle(s, g);
    var u := Shuffle(t, gc);
    assert |u| == |s|;
    forall k | 0 <= k < |s|
      ensures u[k] == s[k]
    {
      ShuffleTwiceAt(s, g, gc, k);
    }
  }

  /** Shuffling by g and then by gc leaves every element in place. */
  lemma ShuffleTwiceAt<T>(s: seq<T>, g: nat, gc: nat, k: nat)
    requires g > 0 && gc > 0 && |s| == gc * g && k < |s|
    ensures |s| % g == 0 && |s| % gc == 0
    ensures Shuffle(Shuffle(s, g), gc)[k] == s[k]
  {
    DivModUnique(|s|, g, gc, 0);
    DivModUnique(|s|, gc, g, 0);
    var t := Shuffle(s, g);
    SourceIndexInverse(k, gc, g);
    ShuffleIndex(t, gc, g, k);
    ShuffleIndex(s, g, gc, SourceIndex(k, gc, g));
  }

  /** A batch of feature maps, indexed [batch][channel][row][column]. */
  type Tensor<T> = seq<seq<seq<seq<T>>>>

  /** `x` is a 4-D tensor whose extents are those of `s`. */
  predicate HasShape<T>(x: Tensor<T>, s: Shape)
  {
    && s.NCHW?
    && |x| == s.batch
    && forall n | 0 <= n < |x| ::
         && |x[n]| == s.channels
         && forall k | 0 <= k < |x[n]| ::
              && |x[n][k]| == s.height
              && forall y | 0 <= y < |x[n][k]| :: |x[n][k][y]| == s.width
  }

  /** `channel_shuffle` on a tensor of shape `s`: fails its assertion unless the
      channel count is divisible by `num_group`; otherwise every batch item's
      channels are shuffled and each H x W plane moves as a whole. */
  function ShuffleTensor<T>(s: Shape, x: Tensor<T>): (r: Result<Tensor<T>>)
    requires HasShape(x, s)
    ensures r.Ok? <==> s.channels % NumGroup == 0
    ensures r.Err? ==> r.error == AssertionFailed
    ensures r.Ok? ==> HasShape(r.value, s)
    ensures r.Ok? ==> forall n | 0 <= n < |x| :: r.value[n] == Shuffle(x[n], NumGroup)
  {
    if s.channels % NumGroup != 0 then Err(AssertionFailed)
    else
      var y := seq(|x|, n requires 0 <= n < |x| => Shuffle(x[n], NumGroup));
      assert HasShape(y, s) by {
        forall n, k | 0 <= n < |y| && 0 <= k < |y[n]|
          ensures |y[n][k]| == s.height && forall c | 0 <= c < |y[n][k]| :: |y[n][k][c]| == s.width
        {
          var gc := s.channels / NumGroup;
          assert |x[n]| == gc * NumGroup;
          assert y[n][k] == x[n][SourceIndex(k, NumGroup, gc)];
        }
      }
      Ok(y)
  }

  /** The shape-level view of `channel_shuffle`, used by shape inference:
      a tensor that is not 4-D cannot be unpacked into four sizes. */
  function ShuffleShape(s: Shape): (r: Result<Shape>)
  {
    match s
    case Flat(_, _) => Err(ShapeMismatch)
    case NCHW(_, c, _, _) => if c % NumGroup == 0 then Ok(s) else Err(AssertionFailed)
  }

  /** The shape-level view agrees with the tensor-level shuffle: both fail on
      the same 4-D shapes, and on success the shape is unchanged. */
  lemma ShuffleShapeSound<T>(s: Shape, x: Tensor<T>)
    requires HasShape(x, s)
    ensures ShuffleShape(s).Ok? <==> ShuffleTensor(s, x).Ok?
    ensures ShuffleShape(s).Ok? ==> ShuffleShape(s).value == s && HasShape(ShuffleTensor(s, x).value, s)
    ensures ShuffleShape(s).Err? ==> ShuffleShape(s).error == ShuffleTensor(s, x).error
  {
  }
}
