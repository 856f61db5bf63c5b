/** `make_layers`: turns a configuration list of channel counts and 'M' markers
    into the layer list of a VGG feature extractor. */
module MakeLayers {
  import opened Shapes

  /** One entry of a configuration list: 'M' or an output channel count. */
  datatype Entry = M | Width(v: nat)

  /** The fixed first convolution, 3 -> 96 channels, ungrouped. */
  const StemConv: Layer := Conv(3, 96, 3, 1, 1)

  /** The layers one entry emits when `inChannels` channels reach it. */
  function Emit(e: Entry, inChannels: nat, batchNorm: bool): seq<Layer>
  {
    match e
    case M => [MaxPool(2, 2)]
    case Width(v) =>
      if batchNorm then [Conv(inChannels, v, 3, 1, 4), BatchNorm(v), ReLU]
      else [Conv(inChannels, v, 3, 1, 4), ReLU]
  }

  /** `in_channels` once every entry of `cfg` has been processed. */
  function WidthAfter(cfg: seq<Entry>): nat
    decreases |cfg|
  {
    if cfg == [] then 96
    else match cfg[|cfg| - 1]
      case M => WidthAfter(cfg[..|cfg| - 1])
      case Width(v) => v
  }

  /** The layers the loop appends for `cfg`, entry by entry. */
  function Body(cfg: seq<Entry>, batchNorm: bool): seq<Layer>
    decreases |cfg|
  {
    if cfg == [] then []
    else
      var init := cfg[..|cfg| - 1];
      Body(init, batchNorm) + Emit(cfg[|cfg| - 1], WidthAfter(init), batchNorm)
  }

  /** The whole layer list `make_layers(cfg, batch_norm)` returns. */
  function Layers(cfg: seq<Entry>, batchNorm: bool): seq<Layer>
  {
    [StemConv, ReLU] + Body(cfg, batchNorm)
  }

  /** The builder itself: a stem, then one loop iteration per entry that
      appends that entry's layers and updates `in_channels`. */
  method Build(cfg: seq<Entry>, batchNorm: bool) returns (layers: seq<Layer>)
    ensures layers == Layers(cfg, batchNorm)
    ensures layers[..2] == [Conv(3, 96, 3, 1, 1), ReLU]
  {
    layers := [];
    var inChannels := 3;
    var conv := Conv(inChannels, 96, 3, 1, 1);
    layers := layers + [conv, ReLU];
    inChannels := 96;
    for i := 0 to |cfg|
      invariant layers == [StemConv, ReLU] + Body(cfg[..i], batchNorm)
      invariant inChannels == WidthAfter(cfg[..i])
    {
      BodyStep(cfg, i, batchNorm);
      match cfg[i]
      case M =>
        layers := layers + [MaxPool(2, 2)];
      case Width(v) =>
        conv := Conv(inChannels, v, 3, 1, 4);
        if batchNorm {
          layers := layers + [conv, BatchNorm(v), ReLU];
        } else {
          layers := layers + [conv, ReLU];
        }
        inChannels := v;
    }
    assert cfg[..|cfg|] == cfg;
    assert layers[..2] == [StemConv, ReLU] by {
      assert layers == [StemConv, ReLU] + Body(cfg, batchNorm);
    }
  }

  /** Taking one more entry of `cfg` appends that entry's layers and updates `in_channels`. */
  lemma BodyStep(cfg: seq<Entry>, i: nat, batchNorm: bool)
    requires i < |cfg|
    ensures [StemConv, ReLU] + Body(cfg[..i + 1], batchNorm)
         == [StemConv, ReLU] + Body(cfg[..i], batchNorm) + Emit(cfg[i], WidthAfter(cfg[..i]), batchNorm)
    ensures Emit(cfg[i], WidthAfter(cfg[..i]), batchNorm)
         == match cfg[i]
            case M => [MaxPool(2, 2)]
            case Width(v) =>
              if batchNorm then [Conv(WidthAfter(cfg[..i]), v, 3, 1, 4), BatchNorm(v), ReLU]
              else [Conv(WidthAfter(cfg[..i]), v, 3, 1, 4), ReLU]
    ensures WidthAfter(cfg[..i + 1]) == if cfg[i].Width? then cfg[i].v else WidthAfter(cfg[..i])
  {
    assert cfg[..i + 1][..i] == cfg[..i];
  }

  /** How many layers an entry contributes. */
  function EntryCost(e: Entry, batchNorm: bool): nat
  {
    if e.M? then 1 else if batchNorm then 3 else 2
  }

  /** Total number of layers the entries contribute, counted from the front. */
  function Cost(cfg: seq<Entry>, batchNorm: bool): nat
    decreases |cfg|
  {
    if cfg == [] then 0 else EntryCost(cfg[0], batchNorm) + Cost(cfg[1..], batchNorm)
  }

  /** Appending one entry adds its cost. */
  lemma {:induction false} CostAppend(cfg: seq<Entry>, e: Entry, batchNorm: bool)
    ensures Cost(cfg + [e], batchNorm) == Cost(cfg, batchNorm) + EntryCost(e, batchNorm)
    decreases |cfg|
  {
    if cfg == [] {
      assert [e][1..] == [];
    } else {
      assert (cfg + [e])[1..] == cfg[1..] + [e];
      CostAppend(cfg[1..], e, batchNorm);
    }
  }

  /** The output has two stem layers plus 1 per 'M', and 3 (with batch norm)
      or 2 (without) per channel count. */
  lemma {:induction false} LayersLength(cfg: seq<Entry>, batchNorm: bool)
    ensures |Layers(cfg, batchNorm)| == 2 + Cost(cfg, batchNorm)
    decreases |cfg|
  {
    if cfg != [] {
      var init := cfg[..|cfg| - 1];
      LayersLength(init, batchNorm);
      assert init + [cfg[|cfg| - 1]] == cfg;
      CostAppend(init, cfg[|cfg| - 1], batchNorm);
    }
  }

  /** `in_channels` at the end is the last channel count of `cfg`, or 96 when
      `cfg` has none. */
  lemma {:induction false} WidthAfterIsLast(cfg: seq<Entry>, i: nat)
    requires i < |cfg| && cfg[i].Width?
    requires forall j | i < j < |cfg| :: cfg[j].M?
    ensures WidthAfter(cfg) == cfg[i].v
    decreases |cfg|
  {
    if i < |cfg| - 1 {
      WidthAfterIsLast(cfg[..|cfg| - 1], i);
    }
  }

  /** With no channel count at all, `in_channels` stays 96. */
  lemma {:induction false} WidthAfterNoWidths(cfg: seq<Entry>)
    requires forall j | 0 <= j < |cfg| :: cfg[j].M?
    ensures WidthAfter(cfg) == 96
    decreases |cfg|
  {
    if cfg != [] {
      WidthAfterNoWidths(cfg[..|cfg| - 1]);
    }
  }

  /** Every convolution of the output reads the channel count the previous one
      wrote (3 for the stem, 96 for the first entry), every batch norm matches
      the convolution before it, and the list ends with WidthAfter(cfg) channels. */
  lemma {:induction false} LayersChained(cfg: seq<Entry>, batchNorm: bool)
    ensures Chained(Layers(cfg, batchNorm), 3)
    ensures OutChannels(Layers(cfg, batchNorm), 3) == WidthAfter(cfg)
  {
    BodyChained(cfg, batchNorm);
    var stem := [StemConv, ReLU];
    assert stem[1..][1..] == [];
    ChainedAppend(stem, Body(cfg, batchNorm), 3);
  }

  /** The loop's layers are chained from 96 channels and end with WidthAfter(cfg). */
  lemma {:induction false} BodyChained(cfg: seq<Entry>, batchNorm: bool)
    ensures Chained(Body(cfg, batchNorm), 96)
    ensures OutChannels(Body(cfg, batchNorm), 96) == WidthAfter(cfg)
    decreases |cfg|
  {
    if cfg != [] {
      var init := cfg[..|cfg| - 1];
      var e := cfg[|cfg| - 1];
      BodyChained(init, batchNorm);
      EmitChained(e, WidthAfter(init), batchNorm);
      ChainedAppend(Body(init, batchNorm), Emit(e, WidthAfter(init), batchNorm), 96);
    }
  }

  /** One entry's layers read `c` channels and leave its channel count (or `c`). */
  lemma EmitChained(e: Entry, c: nat, batchNorm: bool)
    ensures Chained(Emit(e, c, batchNorm), c)
    ensures OutChannels(Emit(e, c, batchNorm), c) == if e.Width? then e.v else c
  {
    var layers := Emit(e, c, batchNorm);
    match e
    case M =>
      assert layers[1..] == [];
    case Width(v) =>
      var last := [ReLU];
      assert last[1..] == [];
      assert Chained(last, v) && OutChannels(last, v) == v;
      if batchNorm {
        assert layers[1..][1..] == last;
        assert Chained(layers[1..], v) && OutChannels(layers[1..], v) == v;
      } else {
        assert layers[1..] == last;
      }
  }

  /** Channel counts torch accepts for a convolution with groups=4. */
  predicate ValidWidths(cfg: seq<Entry>)
  {
    forall i | 0 <= i < |cfg| :: cfg[i].Width? ==> cfg[i].v > 0 && cfg[i].v % 4 == 0
  }

  /** Number of 'M' entries. */
  function Pools(cfg: seq<Entry>): nat
    decreases |cfg|
  {
    if cfg == [] then 0
    else Pools(cfg[..|cfg| - 1]) + if cfg[|cfg| - 1].M? then 1 else 0
  }

  /** Pools of a concatenation add up. */
  lemma {:induction false} PoolsAppend(a: seq<Entry>, b: seq<Entry>)
    ensures Pools(a + b) == Pools(a) + Pools(b)
    decreases |b|
  {
    if b == [] {
      assert a + b == a;
    } else {
      assert (a + b)[..|a + b| - 1] == a + b[..|b| - 1];
      PoolsAppend(a, b[..|b| - 1]);
    }
  }

  /** A list of channel counts alone contains no pool. */
  lemma {:induction false} PoolsNone(cfg: seq<Entry>)
    requires forall i | 0 <= i < |cfg| :: cfg[i].Width?
    ensures Pools(cfg) == 0
    decreases |cfg|
  {
    if cfg != [] {
      PoolsNone(cfg[..|cfg| - 1]);
    }
  }

  /** `n` floor-halved `m` times. */
  function Halve(n: nat, m: nat): nat
  {
    if m == 0 then n else Halve(n, m - 1) / 2
  }

  /** Valid channel counts leave a valid `in_channels`. */
  lemma {:induction false} WidthAfterValid(cfg: seq<Entry>)
    requires ValidWidths(cfg)
    ensures WidthAfter(cfg) > 0 && WidthAfter(cfg) % 4 == 0
    decreases |cfg|
  {
    if cfg != [] && cfg[|cfg| - 1].M? {
      WidthAfterValid(cfg[..|cfg| - 1]);
    }
  }

  /** One entry's layers: a pool floor-halves, a convolution sets the channel count. */
  lemma EmitShape(e: Entry, c: nat, batchNorm: bool, b: nat, h: nat, w: nat)
    requires c > 0 && c % 4 == 0
    requires e.Width? ==> e.v > 0 && e.v % 4 == 0
    ensures Run(Emit(e, c, batchNorm), NCHW(b, c, h, w))
         == match e
            case M => if h >= 2 && w >= 2 then Ok(NCHW(b, c, h / 2, w / 2)) else Err(ShapeMismatch)
            case Width(v) => if h >= 1 && w >= 1 then Ok(NCHW(b, v, h, w)) else Err(ShapeMismatch)
  {
    var layers := Emit(e, c, batchNorm);
    match e
    case M =>
      assert layers[1..] == [];
    case Width(v) =>
      var out := NCHW(b, v, h, w);
      var last := [ReLU];
      assert last[1..] == [];
      assert Run(last, out) == Ok(out);
      if batchNorm {
        assert layers[1..][1..] == last;
        assert Run(layers[1..], out) == Ok(out);
      } else {
        assert layers[1..] == last;
      }
  }

  /** On a valid configuration, the layer list maps a 3-channel input to
      WidthAfter(cfg) channels with height and width floor-halved once per 'M',
      as long as no pool meets a side shorter than 2. */
  lemma {:induction false} LayersShape(cfg: seq<Entry>, batchNorm: bool, b: nat, h: nat, w: nat)
    requires ValidWidths(cfg)
    requires Halve(h, Pools(cfg)) >= 1 && Halve(w, Pools(cfg)) >= 1
    ensures Run(Layers(cfg, batchNorm), NCHW(b, 3, h, w))
         == Ok(NCHW(b, WidthAfter(cfg), Halve(h, Pools(cfg)), Halve(w, Pools(cfg))))
    decreases |cfg|
  {
    var s := NCHW(b, 3, h, w);
    if cfg == [] {
      var stem := [StemConv, ReLU];
      assert Layers(cfg, batchNorm) == stem;
      assert stem[1..][1..] == [];
      assert Run(stem[1..], NCHW(b, 96, h, w)) == Ok(NCHW(b, 96, h, w));
    } else {
      var init := cfg[..|cfg| - 1];
      var e := cfg[|cfg| - 1];
      assert ValidWidths(init) by {
        forall i | 0 <= i < |init| && init[i].Width? ensures init[i].v > 0 && init[i].v % 4 == 0 {
          assert init[i] == cfg[i];
        }
      }
      var m := Pools(init);
      assert Halve(h, m) >= 1 && Halve(w, m) >= 1;
      LayersShape(init, batchNorm, b, h, w);
      var c := WidthAfter(init);
      WidthAfterValid(init);
      assert Layers(cfg, batchNorm) == Layers(init, batchNorm) + Emit(e, c, batchNorm);
      RunAppend(Layers(init, batchNorm), Emit(e, c, batchNorm), s);
      EmitShape(e, c, batchNorm, b, Halve(h, m), Halve(w, m));
    }
  }

  /** Configuration 'E' of the file, the list the vgg19 factories use. */
  const CfgE: seq<Entry> := [Width(64), Width(64), M, Width(128), Width(128), M, Width(256), Width(256), Width(256), Width(256), M, Width(512), Width(512), Width(512), Width(512), M, Width(512), Width(512), Width(512), Width(512), M]

  /** cfg['E'] has five 'M' entries. */
  lemma CfgEPools()
    ensures Pools(CfgE) == 5
  {
    var w1, w2, w3 := [Width(64), Width(64)], [Width(128), Width(128)], [Width(256), Width(256), Width(256), Width(256)];
    var w4 := [Width(512), Width(512), Width(512), Width(512)];
    PoolsNone(w1); PoolsNone(w2); PoolsNone(w3); PoolsNone(w4);
    assert Pools([M]) == 1;
    var s1 := w1 + [M];
    var s2 := s1 + w2 + [M];
    var s3 := s2 + w3 + [M];
    var s4 := s3 + w4 + [M];
    PoolsAppend(w1, [M]);
    PoolsAppend(s1, w2); PoolsAppend(s1 + w2, [M]);
    PoolsAppend(s2, w3); PoolsAppend(s2 + w3, [M]);
    PoolsAppend(s3, w4); PoolsAppend(s3 + w4, [M]);
    PoolsAppend(s4, w4); PoolsAppend(s4 + w4, [M]);
    assert s4 + w4 + [M] == CfgE;
  }

  /** `make_layers(cfg['E'])` (the list the vgg19 factories build) turns a
      224 x 224 RGB batch into 512 x 7 x 7 feature maps, with or without batch norm. */
  lemma CfgEShape(batchNorm: bool, b: nat)
    ensures Run(Layers(CfgE, batchNorm), NCHW(b, 3, 224, 224)) == Ok(NCHW(b, 512, 7, 7))
  {
    assert ValidWidths(CfgE);
    CfgEPools();
    assert WidthAfter(CfgE) == 512;
    assert Halve(224, 5) == 7;
    LayersShape(CfgE, batchNorm, b, 224, 224);
  }
}
