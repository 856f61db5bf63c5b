/** Layer descriptors of the network and their shape inference.
    The torch modules (Conv2d, BatchNorm2d, ReLU, MaxPool2d, Linear, Dropout)
    are modelled only by the way they transform the shape of a tensor. */
module Shapes {

  /** Why a forward pass cannot proceed. */
  datatype Error =
    | ShapeMismatch    // a module rejects the shape of its input
    | AssertionFailed  // an `assert` in the Python code fails

  datatype Result<T> = Ok(value: T) | Err(error: Error)

  /** The shape of a tensor: a 4-D batch of feature maps, or a batch of flat vectors. */
  datatype Shape =
    | NCHW(batch: nat, channels: nat, height: nat, width: nat)
    | Flat(batch: nat, features: nat)

  /** One module of an `nn.Sequential`. Every Conv2d of the file uses stride 1
      (torch's default), so a convolution carries no stride. */
  datatype Layer =
    | Conv(inChannels: nat, outChannels: nat, kernel: nat, padding: nat, groups: nat)
    | BatchNorm(numFeatures: nat)
    | ReLU
    | MaxPool(kernel: nat, stride: nat)
    | Linear(inFeatures: nat, outFeatures: nat)
    | Dropout

  /** What torch demands of a Conv2d's own parameters. */
  predicate ConvValid(inChannels: nat, outChannels: nat, kernel: nat, groups: nat)
  {
    && inChannels > 0 && outChannels > 0 && kernel > 0 && groups > 0
    && inChannels % groups == 0 && outChannels % groups == 0
  }

  /** The shape a layer produces from an input of shape `s`. */
  function Apply(layer: Layer, s: Shape): (r: Result<Shape>)
    ensures r.Ok? ==> r.value.batch == s.batch && r.value.NCHW? == s.NCHW?
    ensures r.Ok? && layer.Conv? ==> s.NCHW? && s.channels == layer.inChannels && r.value.channels == layer.outChannels
    ensures r.Ok? && layer.BatchNorm? ==> r.value == s && s.NCHW? && s.channels == layer.numFeatures
  {
    match layer
    case Conv(cin, cout, k, p, g) =>
      if && ConvValid(cin, cout, k, g) && s.NCHW? && s.channels == cin
         && s.height + 2 * p >= k && s.width + 2 * p >= k
      then Ok(NCHW(s.batch, cout, s.height + 2 * p - k + 1, s.width + 2 * p - k + 1))
      else Err(ShapeMismatch)
    case BatchNorm(n) =>
      if s.NCHW? && s.channels == n then Ok(s) else Err(ShapeMismatch)
    case ReLU => Ok(s)
    case Dropout => Ok(s)
    case MaxPool(k, st) =>
      if s.NCHW? && k > 0 && st > 0 && s.height >= k && s.width >= k
      then Ok(NCHW(s.batch, s.channels, (s.height - k) / st + 1, (s.width - k) / st + 1))
      else Err(ShapeMismatch)
    case Linear(fin, fout) =>
      match s
      case Flat(b, f) => if f == fin then Ok(Flat(b, fout)) else Err(ShapeMismatch)
      case NCHW(b, c, h, w) => if w == fin then Ok(NCHW(b, c, h, fout)) else Err(ShapeMismatch)
  }

  /** Shape inference of an `nn.Sequential`: the layers applied in order,
      stopping at the first one that rejects its input. */
  function Run(layers: seq<Layer>, s: Shape): (r: Result<Shape>)
    ensures r.Ok? ==> r.value.batch == s.batch && r.value.NCHW? == s.NCHW?
    decreases |layers|
  {
    if layers == [] then Ok(s)
    else match Apply(layers[0], s)
      case Err(e) => Err(e)
      case Ok(t) => Run(layers[1..], t)
  }

  /** Continues a partial result with more layers. */
  function Then(r: Result<Shape>, layers: seq<Layer>): Result<Shape>
  {
    match r
    case Err(e) => Err(e)
    case Ok(s) => Run(layers, s)
  }

  /** Running a concatenation is running its halves one after the other. */
  lemma {:induction false} RunAppend(a: seq<Layer>, b: seq<Layer>, s: Shape)
    ensures Run(a + b, s) == Then(Run(a, s), b)
    decreases |a|
  {
    if a == [] {
      assert a + b == b;
    } else {
      assert (a + b)[0] == a[0];
      assert (a + b)[1..] == a[1..] + b;
      match Apply(a[0], s)
      case Err(e) =>
      case Ok(t) => RunAppend(a[1..], b, t);
    }
  }

  /** Each Conv's declared input channels equal the channel count reaching it
      (`c` before the first layer, then the previous Conv's output), and each
      BatchNorm's feature count equals the channel count reaching it. */
  predicate Chained(layers: seq<Layer>, c: nat)
    decreases |layers|
  {
    if layers == [] then true
    else match layers[0]
      case Conv(cin, cout, _, _, _) => cin == c && Chained(layers[1..], cout)
      case BatchNorm(n) => n == c && Chained(layers[1..], c)
      case _ => Chained(layers[1..], c)
  }

  /** The channel count after the layers, read off the descriptors alone. */
  function OutChannels(layers: seq<Layer>, c: nat): nat
    decreases |layers|
  {
    if layers == [] then c
    else OutChannels(layers[1..], if layers[0].Conv? then layers[0].outChannels else c)
  }

  /** Shape inference succeeds only on a chained list, and the channel count it
      infers is the one the descriptors declare. */
  lemma {:induction false} RunOkChained(layers: seq<Layer>, s: Shape)
    requires s.NCHW? && Run(layers, s).Ok?
    ensures Chained(layers, s.channels)
    ensures Run(layers, s).value.channels == OutChannels(layers, s.channels)
    decreases |layers|
  {
    if layers != [] {
      var t := Apply(layers[0], s).value;
      assert t.channels == if layers[0].Conv? then layers[0].outChannels else s.channels;
      RunOkChained(layers[1..], t);
    }
  }

  /** Chaining and channel counting split over a concatenation. */
  lemma {:induction false} ChainedAppend(a: seq<Layer>, b: seq<Layer>, c: nat)
    ensures Chained(a + b, c) <==> Chained(a, c) && Chained(b, OutChannels(a, c))
    ensures OutChannels(a + b, c) == OutChannels(b, OutChannels(a, c))
    decreases |a|
  {
    if a == [] {
      assert a + b == b;
    } else {
      assert (a + b)[0] == a[0];
      assert (a + b)[1..] == a[1..] + b;
      ChainedAppend(a[1..], b, if a[0].Conv? then a[0].outChannels else c);
    }
  }

  /** A 2x2 stride-2 max pool floor-halves height and width and needs both to be at least 2. */
  lemma PoolHalves(b: nat, c: nat, h: nat, w: nat)
    ensures Run([MaxPool(2, 2)], NCHW(b, c, h, w))
         == if h >= 2 && w >= 2 then Ok(NCHW(b, c, h / 2, w / 2)) else Err(ShapeMismatch)
  {
  }
}
