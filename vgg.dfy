/** The fixed network of `VGG.__init__` and the order `VGG.forward` runs it in:
    block0, channel shuffle, block1, channel shuffle, block2, flatten, classifier. */
module Vgg {
  import opened Shapes
  import opened ChannelShuffle

  /** Conv2d(cin, cout, kernel_size=3, padding=1, groups), BatchNorm2d(cout), ReLU. */
  function ConvUnit(cin: nat, cout: nat, groups: nat): seq<Layer>
  {
    [Conv(cin, cout, 3, 1, groups), BatchNorm(cout), ReLU]
  }

  /** MaxPool2d(kernel_size=2, stride=2). */
  const Pool: Layer := MaxPool(2, 2)

  const Block0: seq<Layer> :=
    ConvUnit(3, 96, 1) + ConvUnit(96, 112, 4) + [Pool]
    + ConvUnit(112, 224, 4) + ConvUnit(224, 224, 4) + [Pool]
    + ConvUnit(224, 448, 4)

  const Block1: seq<Layer> :=
    ConvUnit(448, 448, 4) + ConvUnit(448, 448, 4) + [Pool]
    + ConvUnit(448, 896, 4) + ConvUnit(896, 896, 4)

  const Block2: seq<Layer> :=
    ConvUnit(896, 896, 4) + [Pool]
    + ConvUnit(896, 896, 4) + ConvUnit(896, 896, 4)
    + ConvUnit(896, 512, 4) + [Pool]

  /** The size of the flattened feature map the classifier expects. */
  const FlatFeatures: nat := 512 * 7 * 7

  function Classifier(numClasses: nat): seq<Layer>
  {
    [ Linear(FlatFeatures, 4096), ReLU, Dropout,
      Linear(4096, 4096), ReLU, Dropout,
      Linear(4096, numClasses) ]
  }

  /** One step of `forward`. */
  datatype Stage =
    | Sequential(layers: seq<Layer>)
    | ChannelShuffleStage
    | Flatten

  /** `x.view(x.size(0), -1)`: keeps the batch and folds everything else
      into one axis; torch cannot infer the -1 of a tensor with no elements. */
  function FlattenShape(s: Shape): Result<Shape>
  {
    match s
    case NCHW(b, c, h, w) => if b == 0 || c * h * w == 0 then Err(ShapeMismatch) else Ok(Flat(b, c * h * w))
    case Flat(b, f) => if b == 0 || f == 0 then Err(ShapeMismatch) else Ok(Flat(b, f))
  }

  function ApplyStage(stage: Stage, s: Shape): Result<Shape>
  {
    match stage
    case Sequential(layers) => Run(layers, s)
    case ChannelShuffleStage => ShuffleShape(s)
    case Flatten => FlattenShape(s)
  }

  /** The stages `forward` applies before the classifier, in order. */
  const Features: seq<Stage> :=
    [ Sequential(Block0), ChannelShuffleStage, Sequential(Block1), ChannelShuffleStage, Sequential(Block2), Flatten ]

  /** All stages of `forward`, in order. */
  function Forward(numClasses: nat): seq<Stage>
  {
    Features + [Sequential(Classifier(numClasses))]
  }

  function RunStages(stages: seq<Stage>, s: Shape): Result<Shape>
    decreases |stages|
  {
    if stages == [] then Ok(s)
    else match ApplyStage(stages[0], s)
      case Err(e) => Err(e)
      case Ok(t) => RunStages(stages[1..], t)
  }

  /** A 3x3 padding-1 convolution followed by batch norm and ReLU keeps
      height and width and sets the channel count, provided the input has the
      convolution's declared channels and is at least 1x1. */
  lemma UnitShape(cin: nat, cout: nat, groups: nat, b: nat, c: nat, h: nat, w: nat)
    requires ConvValid(cin, cout, 3, groups)
    ensures Run(ConvUnit(cin, cout, groups), NCHW(b, c, h, w))
         == if c == cin && h >= 1 && w >= 1 then Ok(NCHW(b, cout, h, w)) else Err(ShapeMismatch)
  {
    var unit := ConvUnit(cin, cout, groups);
    var s := NCHW(b, c, h, w);
    var out := NCHW(b, cout, h, w);
    assert unit[1..] == [BatchNorm(cout), ReLU];
    assert unit[1..][1..] == [ReLU];
    assert unit[1..][1..][1..] == [];
    assert Run([ReLU], out) == Ok(out);
    assert Run([BatchNorm(cout), ReLU], out) == Ok(out);
  }

  /** Two 3x3 units followed by a pool: the channel count goes from `cin` to
      `cout`, and height and width are floor-halved. */
  lemma UnitsPoolShape(cin: nat, mid: nat, cout: nat, g1: nat, g2: nat, b: nat, c: nat, h: nat, w: nat)
    requires ConvValid(cin, mid, 3, g1) && ConvValid(mid, cout, 3, g2)
    ensures Run(ConvUnit(cin, mid, g1) + ConvUnit(mid, cout, g2) + [Pool], NCHW(b, c, h, w))
         == if c == cin && h >= 2 && w >= 2 then Ok(NCHW(b, cout, h / 2, w / 2)) else Err(ShapeMismatch)
  {
    var u1, u2 := ConvUnit(cin, mid, g1), ConvUnit(mid, cout, g2);
    var s := NCHW(b, c, h, w);
    RunAppend(u1, u2, s);
    RunAppend(u1 + u2, [Pool], s);
    UnitShape(cin, mid, g1, b, c, h, w);
    UnitShape(mid, cout, g2, b, mid, h, w);
    PoolHalves(b, cout, h, w);
  }

  /** block0 maps (b, 3, h, w) to (b, 448, h/4, w/4): four channel-setting
      convolutions and two floor-halving pools. */
  lemma Block0Shape(b: nat, c: nat, h: nat, w: nat)
    ensures Run(Block0, NCHW(b, c, h, w))
         == if c == 3 && h >= 4 && w >= 4 then Ok(NCHW(b, 448, h / 4, w / 4)) else Err(ShapeMismatch)
  {
    var p1 := ConvUnit(3, 96, 1) + ConvUnit(96, 112, 4) + [Pool];
    var p2 := ConvUnit(112, 224, 4) + ConvUnit(224, 224, 4) + [Pool];
    var u5 := ConvUnit(224, 448, 4);
    var s := NCHW(b, c, h, w);
    assert Block0 == p1 + p2 + u5;
    RunAppend(p1, p2, s);
    RunAppend(p1 + p2, u5, s);
    UnitsPoolShape(3, 96, 112, 1, 4, b, c, h, w);
    UnitsPoolShape(112, 224, 224, 4, 4, b, 112, h / 2, w / 2);
    UnitShape(224, 448, 4, b, 224, h / 2 / 2, w / 2 / 2);
    assert h / 2 / 2 == h / 4 && w / 2 / 2 == w / 4;
  }

  /** block1 maps (b, 448, h, w) to (b, 896, h/2, w/2). */
  lemma Block1Shape(b: nat, c: nat, h: nat, w: nat)
    ensures Run(Block1, NCHW(b, c, h, w))
         == if c == 448 && h >= 2 && w >= 2 then Ok(NCHW(b, 896, h / 2, w / 2)) else Err(ShapeMismatch)
  {
    var u1, u2, u3, u4 := ConvUnit(448, 448, 4), ConvUnit(448, 448, 4), ConvUnit(448, 896, 4), ConvUnit(896, 896, 4);
    var s := NCHW(b, c, h, w);
    RunAppend(u1, u2, s);
    RunAppend(u1 + u2, [Pool], s);
    RunAppend(u1 + u2 + [Pool], u3, s);
    RunAppend(u1 + u2 + [Pool] + u3, u4, s);
    UnitShape(448, 448, 4, b, c, h, w);
    UnitShape(448, 448, 4, b, 448, h, w);
    PoolHalves(b, 448, h, w);
    UnitShape(448, 896, 4, b, 448, h / 2, w / 2);
    UnitShape(896, 896, 4, b, 896, h / 2, w / 2);
  }

  /** block2 maps (b, 896, h, w) to (b, 512, h/4, w/4). */
  lemma Block2Shape(b: nat, c: nat, h: nat, w: nat)
    ensures Run(Block2, NCHW(b, c, h, w))
         == if c == 896 && h >= 4 && w >= 4 then Ok(NCHW(b, 512, h / 4, w / 4)) else Err(ShapeMismatch)
  {
    var u1, u2, u3, u4 := ConvUnit(896, 896, 4), ConvUnit(896, 896, 4), ConvUnit(896, 896, 4), ConvUnit(896, 512, 4);
    var s := NCHW(b, c, h, w);
    RunAppend(u1, [Pool], s);
    RunAppend(u1 + [Pool], u2, s);
    RunAppend(u1 + [Pool] + u2, u3, s);
    RunAppend(u1 + [Pool] + u2 + u3, u4, s);
    RunAppend(u1 + [Pool] + u2 + u3 + u4, [Pool], s);
    UnitShape(896, 896, 4, b, c, h, w);
    PoolHalves(b, 896, h, w);
    UnitShape(896, 896, 4, b, 896, h / 2, w / 2);
    UnitShape(896, 896, 4, b, 896, h / 2, w / 2);
    UnitShape(896, 512, 4, b, 896, h / 2, w / 2);
    PoolHalves(b, 512, h / 2, w / 2);
  }

  /** The classifier accepts exactly the flat vectors of 512*7*7 features. */
  lemma ClassifierShape(numClasses: nat, s: Shape)
    requires s.Flat?
    ensures Run(Classifier(numClasses), s)
         == if s.features == FlatFeatures then Ok(Flat(s.batch, numClasses)) else Err(ShapeMismatch)
  {
    var b := s.batch;
    var tail := [Linear(4096, numClasses)];
    assert tail[1..] == [];
    var t := Flat(b, 4096);
    assert Run(tail, t) == Ok(Flat(b, numClasses));
    RunAppend([ReLU, Dropout, Linear(4096, 4096), ReLU, Dropout], tail, Flat(b, 4096));
    assert [ReLU, Dropout, Linear(4096, 4096), ReLU, Dropout] + tail == Classifier(numClasses)[1..];
    var mid := [ReLU, Dropout, Linear(4096, 4096), ReLU, Dropout];
    assert mid[1..] == [Dropout, Linear(4096, 4096), ReLU, Dropout];
    assert mid[1..][1..] == [Linear(4096, 4096), ReLU, Dropout];
    assert mid[1..][1..][1..] == [ReLU, Dropout];
    assert mid[1..][1..][1..][1..] == [Dropout];
    assert mid[1..][1..][1..][1..][1..] == [];
    assert Run(mid, t) == Ok(t);
  }

  /** Running a concatenation of stages is running its halves one after the other. */
  lemma {:induction false} RunStagesAppend(a: seq<Stage>, b: seq<Stage>, s: Shape)
    ensures RunStages(a + b, s)
         == match RunStages(a, s) case Err(e) => Err(e) case Ok(t) => RunStages(b, t)
    decreases |a|
  {
    if a == [] {
      assert a + b == b;
    } else {
      assert (a + b)[0] == a[0];
      assert (a + b)[1..] == a[1..] + b;
      match ApplyStage(a[0], s)
      case Err(e) =>
      case Ok(t) => RunStagesAppend(a[1..], b, t);
    }
  }

  /** A 512-channel map of at least 1 x 1 has a non-zero number of elements per batch item. */
  lemma FeatureCountPositive(x: nat, y: nat)
    requires x >= 1 && y >= 1
    ensures 512 * x * y >= 512
  {
    MulLe(1, y, 512 * x);
  }

  /** Everything before the classifier: a (b, 3, h, w) input with h, w >= 32
      and a non-empty batch reaches the flatten as 512 x h/32 x w/32 and leaves
      it as a vector of 512 * (h/32) * (w/32) features; both shuffles see a
      channel count divisible by 4. Any other input is rejected. */
  lemma FeaturesShape(b: nat, c: nat, h: nat, w: nat)
    ensures RunStages(Features, NCHW(b, c, h, w))
         == if b > 0 && c == 3 && h >= 32 && w >= 32
            then Ok(Flat(b, 512 * (h / 32) * (w / 32)))
            else Err(ShapeMismatch)
  {
    var st := Features;
    assert st[1..] == [ChannelShuffleStage, Sequential(Block1), ChannelShuffleStage, Sequential(Block2), Flatten];
    assert st[1..][1..] == [Sequential(Block1), ChannelShuffleStage, Sequential(Block2), Flatten];
    assert st[1..][1..][1..] == [ChannelShuffleStage, Sequential(Block2), Flatten];
    assert st[1..][1..][1..][1..] == [Sequential(Block2), Flatten];
    assert st[1..][1..][1..][1..][1..] == [Flatten];
    assert st[1..][1..][1..][1..][1..][1..] == [];
    var s := NCHW(b, c, h, w);
    Block0Shape(b, c, h, w);
    if c == 3 && h >= 4 && w >= 4 {
      var s0 := NCHW(b, 448, h / 4, w / 4);
      assert RunStages(st, s) == RunStages(st[1..], s0);
      assert RunStages(st[1..], s0) == RunStages(st[1..][1..], s0);
      Block1Shape(b, 448, h / 4, w / 4);
      if h / 4 >= 2 && w / 4 >= 2 {
        var s1 := NCHW(b, 896, h / 4 / 2, w / 4 / 2);
        assert RunStages(st[1..][1..], s0) == RunStages(st[1..][1..][1..], s1);
        assert RunStages(st[1..][1..][1..], s1) == RunStages(st[1..][1..][1..][1..], s1);
        Block2Shape(b, 896, h / 4 / 2, w / 4 / 2);
        if h / 4 / 2 >= 4 && w / 4 / 2 >= 4 {
          var s2 := NCHW(b, 512, h / 4 / 2 / 4, w / 4 / 2 / 4);
          assert h / 4 / 2 / 4 == h / 32 && w / 4 / 2 / 4 == w / 32;
          assert RunStages(st[1..][1..][1..][1..], s1) == RunStages([Flatten], s2);
          FeatureCountPositive(h / 32, w / 32);
          assert RunStages([Flatten], s2) == FlattenShape(s2);
        }
      }
    }
  }

  /** `forward` succeeds exactly on a non-empty batch of 3-channel images whose
      height and width, divided by 32 with floor, multiply to 49 (so 224 x 224,
      and anything up to 255 x 255, but also e.g. 32 x 1568); its result is then
      a batch of `numClasses` logits. */
  lemma ForwardShape(numClasses: nat, b: nat, c: nat, h: nat, w: nat)
    ensures RunStages(Forward(numClasses), NCHW(b, c, h, w))
         == if b > 0 && c == 3 && h >= 32 && w >= 32 && (h / 32) * (w / 32) == 49
            then Ok(Flat(b, numClasses))
            else Err(ShapeMismatch)
  {
    var tail := [Sequential(Classifier(numClasses))];
    RunStagesAppend(Features, tail, NCHW(b, c, h, w));
    FeaturesShape(b, c, h, w);
    if b > 0 && c == 3 && h >= 32 && w >= 32 {
      var f := Flat(b, 512 * (h / 32) * (w / 32));
      assert tail[1..] == [];
      ClassifierShape(numClasses, f);
    }
  }

  /** A 224 x 224 RGB batch enters the classifier as 512*7*7 features, the size
      of its first Linear layer, and leaves it as `numClasses` logits. */
  lemma Forward224(numClasses: nat, b: nat)
    requires b > 0
    ensures RunStages(Features, NCHW(b, 3, 224, 224)) == Ok(Flat(b, FlatFeatures))
    ensures Classifier(numClasses)[0] == Linear(FlatFeatures, 4096)
    ensures RunStages(Forward(numClasses), NCHW(b, 3, 224, 224)) == Ok(Flat(b, numClasses))
  {
    FeaturesShape(b, 3, 224, 224);
    ForwardShape(numClasses, b, 3, 224, 224);
  }

  /** Along block0 -> block1 -> block2 every convolution reads the channel count
      the previous one wrote and every batch norm matches it; the shuffles see
      448 and 896 channels, both divisible by `num_group`. */
  lemma BlocksChained()
    ensures Chained(Block0, 3) && OutChannels(Block0, 3) == 448
    ensures Chained(Block1, 448) && OutChannels(Block1, 448) == 896
    ensures Chained(Block2, 896) && OutChannels(Block2, 896) == 512
    ensures 448 % NumGroup == 0 && 896 % NumGroup == 0
  {
    Block0Shape(1, 3, 32, 32);
    RunOkChained(Block0, NCHW(1, 3, 32, 32));
    Block1Shape(1, 448, 8, 8);
    RunOkChained(Block1, NCHW(1, 448, 8, 8));
    Block2Shape(1, 896, 4, 4);
    RunOkChained(Block2, NCHW(1, 896, 4, 4));
  }
}
