# VGG with grouped convolutions and channel shuffle: a Dafny model

This project models the network definition in
`Models/Models/models/vgg16_s3_addchannel_v2.py`. That file defines a VGG-style
image classifier in PyTorch. Its convolutions are split into 4 groups, and the
channels are shuffled twice between blocks so that the groups exchange
information.

The model covers the three pieces of that file that are logic rather than
calls into torch kernels:

- **Channel shuffle** (`VGG.channel_shuffle`), module `ChannelShuffle`. The
  channel axis of a (B, C, H, W) tensor is viewed as a (C/4) x 4 grid. The grid
  is transposed and read back. The model does this as an index map on a
  sequence of channels, and also on a whole 4-D tensor given as nested
  sequences. If C is not divisible by 4, the method's `assert` fails; the model
  returns `Err(AssertionFailed)` in that case.
- **Layer-list builder** (`make_layers`), module `MakeLayers`. `Build` is an
  imperative method: a `for` loop over the configuration list that appends
  layer descriptors and updates `in_channels`. It is proved equal to the
  specification function `Layers`. Lemmas give the length, the channel chaining
  and the resulting shape.
- **Shape inference of the fixed network** (`VGG.__init__` and `forward`),
  modules `Shapes` and `Vgg`. Each torch module is a descriptor (`Layer`).
  `Apply` gives the shape the module produces, or `Err(ShapeMismatch)` when
  torch would reject the input. `Run` folds `Apply` over an `nn.Sequential`.
  `Forward` lists the stages in the order `forward` runs them: block0, shuffle,
  block1, shuffle, block2, flatten, classifier.

How the torch modules transform shapes is torch's behaviour, not the file's.
The model uses these rules:

- `Conv2d` (stride 1): height becomes h + 2p - k + 1, and likewise width. The
  channel count becomes `out_channels`. The input must have `in_channels`
  channels. Both channel counts must be positive multiples of `groups`.
- `MaxPool2d(k, s)`: height becomes (h - k)/s + 1, rounded down, and likewise
  width. An input side shorter than k is rejected.
- `BatchNorm2d(n)`: needs a 4-D input with n channels and keeps its shape.
- `ReLU` and `Dropout` keep the shape.
- `Linear(i, o)`: acts on the last axis, which must have size i.
- `x.view(x.size(0), -1)`: rejects a tensor with no elements (an empty batch,
  or a zero channel count, height or width), because -1 cannot be inferred there.

Main results:

- The shuffle is a bijection on channel indices. Output channel j*(C/4) + i
  holds input channel i*4 + j. Shuffling by 4 and then by C/4 gives back the
  original order.
- `make_layers` output has 2 + (1 per 'M', 3 or 2 per channel count) layers.
  Its convolutions chain from 3 to 96 to each entry in turn. On a valid
  configuration it maps (b, 3, h, w) to (b, last channel count, h and w
  floor-halved once per 'M'). For `cfg['E']` and a 224 x 224 input this gives
  512 x 7 x 7.
- The fixed network accepts (b, c, h, w) exactly when b > 0, c = 3, h, w >= 32
  and (h/32)*(w/32) = 49, with the divisions rounded down. It then outputs
  `num_classes` logits. At 224 x 224 the classifier receives 512*7*7 features,
  the size of its first `Linear`. Because only the product must be 49, a
  32 x 1568 input is also accepted.

## Model

| member | source | states |
|---|---|---|
| `Shapes.Apply` | Models/Models/models/vgg16_s3_addchannel_v2.py:40-117 | On success a module keeps the batch size and the 4-D/flat kind of the shape. A convolution succeeds only on an input with its declared in_channels and outputs out_channels. A batch norm succeeds only on matching channels and leaves the shape unchanged. |
| `Shapes.Run` | Models/Models/models/vgg16_s3_addchannel_v2.py:122-128 | Running an `nn.Sequential` preserves the batch size and the 4-D/flat kind of the shape. |
| `Shapes.RunAppend` | Models/Models/models/vgg16_s3_addchannel_v2.py:121-129 | Running a concatenation of layer lists is running the first list and then the second, and an error stops the pass. |
| `Shapes.RunOkChained` | Models/Models/models/vgg16_s3_addchannel_v2.py:42-107 | Whenever shape inference succeeds, each Conv's in_channels and each BatchNorm's feature count equal the channel count reaching it, and the inferred channel count is the one the descriptors declare. |
| `Shapes.ChainedAppend` | Models/Models/models/vgg16_s3_addchannel_v2.py:40-108 | Channel chaining of a concatenation holds iff each part is chained starting from the channel count the previous part leaves. |
| `Shapes.PoolHalves` | Models/Models/models/vgg16_s3_addchannel_v2.py:50 | MaxPool2d(2, 2) floor-halves height and width, and rejects a side shorter than 2. |
| `ChannelShuffle.SourceIndex` | Models/Models/models/vgg16_s3_addchannel_v2.py:135-139 | The input channel an output channel holds is again a channel index below C. |
| `ChannelShuffle.SourceIndexOfCell` | Models/Models/models/vgg16_s3_addchannel_v2.py:135-139 | With gc = C/g, output channel j*gc + i holds input channel i*g + j for all i < gc and j < g. |
| `ChannelShuffle.SourceIndexInverse` | Models/Models/models/vgg16_s3_addchannel_v2.py:137-139 | Applying the index map of the gc x g transpose and then that of the g x gc transpose returns every index to itself. |
| `ChannelShuffle.SourceIndexInjective` | Models/Models/models/vgg16_s3_addchannel_v2.py:137-139 | No two output channels hold the same input channel. |
| `ChannelShuffle.SourceIndexSurjective` | Models/Models/models/vgg16_s3_addchannel_v2.py:137-139 | Every input channel below C is held by some output channel. |
| `ChannelShuffle.Shuffle` | Models/Models/models/vgg16_s3_addchannel_v2.py:137-139 | The shuffle keeps the number of channels. |
| `ChannelShuffle.ShuffleAt` | Models/Models/models/vgg16_s3_addchannel_v2.py:135-139 | On sequences: element j*(C/g) + i of the shuffle is element i*g + j of the input. |
| `ChannelShuffle.ShuffleTwiceAt` | Models/Models/models/vgg16_s3_addchannel_v2.py:137-139 | Shuffling by g and then by gc leaves every element in place. |
| `ChannelShuffle.ShuffleInverse` | Models/Models/models/vgg16_s3_addchannel_v2.py:137-139 | Shuffling by g and then by C/g restores the sequence, so the shuffle is a permutation. |
| `ChannelShuffle.ShuffleTensor` | Models/Models/models/vgg16_s3_addchannel_v2.py:131-140 | Fails with an assertion error iff C % 4 != 0. Otherwise it keeps batch, channel, height and width extents, and each batch item's channels are the shuffle of the input's, with H x W planes moved whole. |
| `ChannelShuffle.ShuffleShapeSound` | Models/Models/models/vgg16_s3_addchannel_v2.py:133-134 | The shape-level shuffle used by shape inference fails and succeeds exactly when the tensor-level one does, and keeps the shape. |
| `MakeLayers.Build` | Models/Models/models/vgg16_s3_addchannel_v2.py:157-175 | The loop returns exactly `Layers(cfg, batch_norm)`, which starts with Conv(3 -> 96, k=3, pad=1) and ReLU. This stem has no BatchNorm even when batch_norm is set. |
| `MakeLayers.CostAppend` | Models/Models/models/vgg16_s3_addchannel_v2.py:165-173 | The layer count of cfg + [e] is that of cfg plus what e contributes. |
| `MakeLayers.LayersLength` | Models/Models/models/vgg16_s3_addchannel_v2.py:162-173 | The output has 2 layers plus, per entry, 1 for 'M' and 3 (batch_norm) or 2 (otherwise) for a channel count. |
| `MakeLayers.WidthAfterIsLast` | Models/Models/models/vgg16_s3_addchannel_v2.py:164-174 | After the loop `in_channels` is the last channel count in cfg, since 'M' leaves it unchanged. |
| `MakeLayers.WidthAfterNoWidths` | Models/Models/models/vgg16_s3_addchannel_v2.py:164 | With no channel count in cfg, `in_channels` stays 96. |
| `MakeLayers.EmitChained` | Models/Models/models/vgg16_s3_addchannel_v2.py:165-174 | A channel-count entry v emits a Conv reading the current in_channels and writing v (then BatchNorm(v) when enabled). An 'M' entry leaves the channel count unchanged. |
| `MakeLayers.BodyChained` | Models/Models/models/vgg16_s3_addchannel_v2.py:164-174 | The loop's layers are chained starting from 96 channels and end with `in_channels` channels. |
| `MakeLayers.LayersChained` | Models/Models/models/vgg16_s3_addchannel_v2.py:159-174 | In the whole list every Conv reads the previous Conv's output (3 for the stem, 96 for the first entry), and the list ends with the final `in_channels`. |
| `MakeLayers.PoolsAppend` | Models/Models/models/vgg16_s3_addchannel_v2.py:165-167 | The number of 'M' entries of a concatenation is the sum of those of its parts. |
| `MakeLayers.PoolsNone` | Models/Models/models/vgg16_s3_addchannel_v2.py:165-167 | A list with no 'M' entries has no pools. |
| `MakeLayers.WidthAfterValid` | Models/Models/models/vgg16_s3_addchannel_v2.py:164-174 | If every channel count is a positive multiple of 4, so is the final `in_channels`. |
| `MakeLayers.EmitShape` | Models/Models/models/vgg16_s3_addchannel_v2.py:165-174 | An 'M' entry floor-halves height and width (sides of at least 2). A channel-count entry keeps them (sides of at least 1) and sets the channel count. |
| `MakeLayers.LayersShape` | Models/Models/models/vgg16_s3_addchannel_v2.py:157-175 | For channel counts that are positive multiples of 4, a (b, 3, h, w) input comes out as (b, final in_channels, h and w floor-halved once per 'M'), provided that much halving leaves a side of at least 1. |
| `MakeLayers.CfgEPools` | Models/Models/models/vgg16_s3_addchannel_v2.py:182 | Configuration 'E' has five 'M' entries. |
| `MakeLayers.CfgEShape` | Models/Models/models/vgg16_s3_addchannel_v2.py:182 | `make_layers(cfg['E'])`, with or without batch norm, maps a 224 x 224 RGB batch to 512 x 7 x 7. |
| `Vgg.UnitShape` | Models/Models/models/vgg16_s3_addchannel_v2.py:42-44 | A Conv(k=3, pad=1) + BatchNorm + ReLU unit keeps height and width and sets the channel count. It succeeds iff the input has the declared in_channels and is at least 1 x 1. |
| `Vgg.Block0Shape` | Models/Models/models/vgg16_s3_addchannel_v2.py:40-65 | block0 maps (b, c, h, w) to (b, 448, h/4, w/4) iff c = 3 and h, w >= 4, and rejects every other input. |
| `Vgg.Block1Shape` | Models/Models/models/vgg16_s3_addchannel_v2.py:67-86 | block1 maps (b, c, h, w) to (b, 896, h/2, w/2) iff c = 448 and h, w >= 2, and rejects every other input. |
| `Vgg.Block2Shape` | Models/Models/models/vgg16_s3_addchannel_v2.py:87-108 | block2 maps (b, c, h, w) to (b, 512, h/4, w/4) iff c = 896 and h, w >= 4, and rejects every other input. |
| `Vgg.ClassifierShape` | Models/Models/models/vgg16_s3_addchannel_v2.py:109-117 | The classifier maps a flat batch to `num_classes` outputs iff it has 512*7*7 features. |
| `Vgg.RunStagesAppend` | Models/Models/models/vgg16_s3_addchannel_v2.py:121-129 | Running a concatenation of forward stages is running them one after the other, and an error stops the pass. |
| `Vgg.FeaturesShape` | Models/Models/models/vgg16_s3_addchannel_v2.py:121-127 | Up to the flatten, a (b, 3, h, w) input with b > 0 and h, w >= 32 becomes 512*(h/32)*(w/32) features. Both shuffles pass their assertion, and every other input is rejected. |
| `Vgg.ForwardShape` | Models/Models/models/vgg16_s3_addchannel_v2.py:121-129 | `forward` succeeds iff b > 0, c = 3, h, w >= 32 and (h/32)*(w/32) = 49, and then returns `num_classes` logits per batch item. |
| `Vgg.Forward224` | Models/Models/models/vgg16_s3_addchannel_v2.py:107-110 | A 224 x 224 RGB batch reaches the classifier as 512*7*7 features, the in_features of its first Linear, and leaves it as `num_classes` logits. |
| `Vgg.BlocksChained` | Models/Models/models/vgg16_s3_addchannel_v2.py:42-103 | Along block0 -> block1 -> block2 each Conv reads the previous Conv's output and each BatchNorm matches it, with counts 3 -> 448 -> 896 -> 512. The shuffles see 448 and 896 channels, both divisible by 4. |

## Left out

- Numerical behaviour of Conv2d, BatchNorm2d, ReLU, MaxPool2d, Linear and Dropout: these are torch kernels over floating point. They appear only as shape transformers.
- Dropout's randomness: it does not affect shapes.
- Training mode of BatchNorm2d. A freshly built network is in training mode. In that mode torch rejects a batch norm input with only one value per channel, that is, one with batch x height x width = 1. The shape rules here are those of evaluation mode, and `Apply` accepts such inputs.
- UnitShape, Block0Shape, Block1Shape, EmitShape and LayersShape (with batch norm): their success cases hold in evaluation mode, or in training mode whenever every BatchNorm2d sees more than one value per channel. In training mode they also accept inputs that torch rejects, for example Block0Shape on (1, 3, 4, 4), whose last BatchNorm2d(448) sees a 1 x 1 map, and EmitShape for a channel-count entry reached at (1, c, 1, 1). ForwardShape, Forward224 and CfgEShape are unaffected, because every batch norm on their successful paths sees at least a 2 x 2 map.
- `ReLU(inplace=True)` aliasing: the model works on shapes and values, not on storage.
- `_initialize_weights` (lines 142-154): random normal initialisation of floating-point weights.
- Loading pretrained weights, `models_dir` and `model_name` (lines 22-32, 194-198, 208-212, 222-226): filesystem I/O.
- The `vgg16_bn_s3_addchannel_v2`, `vgg19` and `vgg19_bn` factories (lines 188-227). The first only builds `VGG(num_classes)`, which is `Forward(numClasses)` here. The other two pass the `make_layers` result positionally as `num_classes`, so they do not build a usable network. `make_layers` is modelled directly instead, with `cfg['E']` in `CfgEShape`.
- Stride and dilation of Conv2d, and padding, dilation and ceil mode of MaxPool2d: the file only uses their defaults (or none at all), so the descriptors leave them out.
- `make_layers` itself never fails in the model. torch's own check that channel counts are divisible by `groups` happens when a Conv2d is constructed; here it is checked during shape inference (`ConvValid`).
- `ACL Implementation/run_resnet.cpp`, the C++ ResNet benchmark engine in the same repository, is not part of this model.
