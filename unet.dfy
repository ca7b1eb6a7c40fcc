/** union/unet.py: the Unet backbone. Levels of two ConvNeXt stages and a
    linear-attention block, separated by 2x down-sampling on the way down and
    2x up-sampling on the way up, with a full-attention middle block; each
    down level's output is pushed as a skip and concatenated back on the way
    up. */
module Unet {
  import opened Shapes
  import opened Skips
  import opened Layers
  import opened Attention
  import opened ConvNeXt
  import opened Utils

  datatype UnetConfig = UnetConfig(dim: nat, outDim: Option<nat>, dimMults: seq<nat>, channels: nat, withTimeEmb: bool)

  /** The width of a level: dim * mult */
  function Scale(dim: nat, mult: nat): nat
  {
    dim * mult
  }

  /** dims = [channels, dim * m for m in dim_mults] */
  function Dims(cfg: UnetConfig): (dims: seq<nat>)
    ensures |dims| == |cfg.dimMults| + 1
  {
    [cfg.channels] + seq(|cfg.dimMults|, i requires 0 <= i < |cfg.dimMults| => Scale(cfg.dim, cfg.dimMults[i]))
  }

  /** dims[i], the width of resolution i (the input's channels for i = 0) */
  function Dim(cfg: UnetConfig, i: nat): nat
    requires i <= |cfg.dimMults|
  {
    if i == 0 then cfg.channels else Scale(cfg.dim, cfg.dimMults[i - 1])
  }

  lemma DimsAt(cfg: UnetConfig, i: nat)
    requires i <= |cfg.dimMults|
    ensures Dims(cfg)[i] == Dim(cfg, i)
  {
  }

  /** in_out = zip(dims[:-1], dims[1:]): one pair of widths per resolution */
  function InOut(cfg: UnetConfig): (io: seq<(nat, nat)>)
    ensures |io| == |cfg.dimMults|
  {
    var dims := Dims(cfg);
    seq(|cfg.dimMults|, i requires 0 <= i < |cfg.dimMults| => (dims[i], dims[i + 1]))
  }

  /** Resolution i goes from dims[i] to dims[i + 1] channels. */
  lemma InOutAt(cfg: UnetConfig, i: nat)
    requires i < |cfg.dimMults|
    ensures InOut(cfg)[i] == (Dim(cfg, i), Dim(cfg, i + 1))
  {
    DimsAt(cfg, i);
    DimsAt(cfg, i + 1);
  }

  /** num_resolutions */
  function Levels(cfg: UnetConfig): nat
  {
    |cfg.dimMults|
  }

  /** The up levels iterate over reversed(in_out[1:]). */
  function UpCount(k: nat): nat
  {
    if k >= 1 then k - 1 else 0
  }

  /** time_dim: the embedding width of every stage, when there is a time MLP */
  function TimeDim(cfg: UnetConfig): Option<nat>
  {
    if cfg.withTimeEmb then Some(cfg.dim) else None
  }

  /** out_dim = fallback(out_dim, channels) */
  function OutDim(cfg: UnetConfig): nat
  {
    Fallback(cfg.outDim, Value(cfg.channels))
  }

  /** One level: stage1, stage2, attention, resampling. */
  datatype UnetLevel = UnetLevel(stage1: ConvNeXtStage, stage2: ConvNeXtStage, attn: AttentionBlock, resample: Resample)

  datatype UnetModel = UnetModel(
    downs: seq<UnetLevel>,
    mid1: ConvNeXtStage, midAttn: AttentionBlock, mid2: ConvNeXtStage,
    ups: seq<UnetLevel>,
    finalStage: ConvNeXtStage, finalConv: Conv2d,
    timeMlp: Option<Encoder>)

  /** Down level idx over in_out[idx] = (dim_in, dim_out_) */
  function DownLevelAt(cfg: UnetConfig, qkv: Pattern, idx: nat): UnetLevel
    requires idx < Levels(cfg)
  {
    var (dimIn, dimOut) := (Dim(cfg, idx), Dim(cfg, idx + 1));
    var isLast := idx >= Levels(cfg) - 1;
    UnetLevel(
      NewStage(dimIn, dimOut, TimeDim(cfg), 3, idx != 0),
      NewStage(dimOut, dimOut, TimeDim(cfg), 3, true),
      AttentionBlock(dimOut, FastAttention(dimOut, qkv)),
      if !isLast then Down2x(dimOut) else NoResample)
  }

  /** Up level idx over reversed(in_out[1:])[idx] = in_out[k - 1 - idx] */
  function UpLevelAt(cfg: UnetConfig, qkv: Pattern, idx: nat): UnetLevel
    requires idx < UpCount(Levels(cfg))
  {
    var (dimIn, dimOut) := (Dim(cfg, Levels(cfg) - 1 - idx), Dim(cfg, Levels(cfg) - idx));
    var isLast := idx >= Levels(cfg) - 1;
    UnetLevel(
      NewStage(dimOut * 2, dimIn, TimeDim(cfg), 3, true),
      NewStage(dimIn, dimIn, TimeDim(cfg), 3, true),
      AttentionBlock(dimIn, FastAttention(dimIn, qkv)),
      if !isLast then Up2x(dimIn) else NoResample)
  }

  function DownLevels(cfg: UnetConfig, qkv: Pattern): (downs: seq<UnetLevel>)
    ensures |downs| == Levels(cfg)
    ensures forall i :: 0 <= i < |downs| ==> downs[i] == DownLevelAt(cfg, qkv, i)
  {
    seq(Levels(cfg), i requires 0 <= i < Levels(cfg) => DownLevelAt(cfg, qkv, i))
  }

  function UpLevels(cfg: UnetConfig, qkv: Pattern): (ups: seq<UnetLevel>)
    ensures |ups| == UpCount(Levels(cfg))
    ensures forall i :: 0 <= i < |ups| ==> ups[i] == UpLevelAt(cfg, qkv, i)
  {
    seq(UpCount(Levels(cfg)), i requires 0 <= i < UpCount(Levels(cfg)) => UpLevelAt(cfg, qkv, i))
  }

  /** The width of the middle block: dims[-1] */
  function MidDim(cfg: UnetConfig): nat
  {
    Dim(cfg, Levels(cfg))
  }

  /** The network Unet(...) builds once the stage flag is spelled `norm`;
      qkv is the rearrange pattern the attention layers use. */
  function UnetLayout(cfg: UnetConfig, qkv: Pattern): UnetModel
  {
    UnetModel(
      DownLevels(cfg, qkv),
      NewStage(MidDim(cfg), MidDim(cfg), TimeDim(cfg), 3, true),
      AttentionBlock(MidDim(cfg), FullAttention(MidDim(cfg), qkv)),
      NewStage(MidDim(cfg), MidDim(cfg), TimeDim(cfg), 3, true),
      UpLevels(cfg, qkv),
      NewStage(cfg.dim, cfg.dim, None, 3, true),
      Conv2d(cfg.dim, OutDim(cfg), 1, 1, 0),
      if cfg.withTimeEmb then Some(Encoder(cfg.dim)) else None)
  }

  /** Binding one stage call: the Unet names every argument, and passes its
      normalisation flag under normKeyword. */
  lemma StageCallResult(inDim: nat, outDim: nat, embDim: Option<nat>, normKeyword: string, norm: bool)
    ensures normKeyword == "norm" ==>
              ConstructStage(KeywordCall(inDim, outDim, embDim, normKeyword, norm)) == Ok(NewStage(inDim, outDim, embDim, 3, norm))
    ensures normKeyword !in StageKeywords ==>
              ConstructStage(KeywordCall(inDim, outDim, embDim, normKeyword, norm)) == Err(TypeError(UnexpectedKeywordMsg))
  {
    if normKeyword == "norm" {
      KeywordCallBinds(inDim, outDim, embDim, norm);
    }
    if normKeyword !in StageKeywords {
      UnknownKeywordRaises(inDim, outDim, embDim, normKeyword, norm);
    }
  }

  lemma NormIsStageKeyword()
    ensures "norm" in StageKeywords
  {
  }

  /** Evaluating ConvNeXtStage(in_dim=.., out_dim=.., emb_dim=.., <normKeyword>=..) */
  method CallStage(inDim: nat, outDim: nat, embDim: Option<nat>, normKeyword: string, norm: bool)
    returns (r: Result<ConvNeXtStage>)
    ensures normKeyword == "norm" ==> r == Ok(NewStage(inDim, outDim, embDim, 3, norm))
    ensures normKeyword !in StageKeywords ==> r == Err(TypeError(UnexpectedKeywordMsg))
  {
    StageCallResult(inDim, outDim, embDim, normKeyword, norm);
    r := ConstructStage(KeywordCall(inDim, outDim, embDim, normKeyword, norm));
  }

  /** The body of the down loop of __init__, for level idx */
  method BuildDownLevel(cfg: UnetConfig, normKeyword: string, qkv: Pattern, idx: nat) returns (r: Result<UnetLevel>)
    requires idx < Levels(cfg)
    ensures normKeyword == "norm" ==> r == Ok(DownLevelAt(cfg, qkv, idx))
    ensures normKeyword !in StageKeywords ==> r == Err(TypeError(UnexpectedKeywordMsg))
  {
    InOutAt(cfg, idx);
    var (dimIn, dimOut) := InOut(cfg)[idx];
    var isLast := idx >= Levels(cfg) - 1;
    var stage1 :- CallStage(dimIn, dimOut, TimeDim(cfg), normKeyword, idx != 0);
    var stage2 :- CallStage(dimOut, dimOut, TimeDim(cfg), normKeyword, true);
    var attn := AttentionBlock(dimOut, FastAttention(dimOut, qkv));
    var resample := if !isLast then Down2x(dimOut) else NoResample;
    r := Ok(UnetLevel(stage1, stage2, attn, resample));
  }

  /** The body of the up loop of __init__, for level idx */
  method BuildUpLevel(cfg: UnetConfig, normKeyword: string, qkv: Pattern, idx: nat) returns (r: Result<UnetLevel>)
    requires idx < UpCount(Levels(cfg))
    ensures normKeyword == "norm" ==> r == Ok(UpLevelAt(cfg, qkv, idx))
    ensures normKeyword !in StageKeywords ==> r == Err(TypeError(UnexpectedKeywordMsg))
  {
    InOutAt(cfg, Levels(cfg) - 1 - idx);
    var (dimIn, dimOut) := InOut(cfg)[Levels(cfg) - 1 - idx];
    var isLast := idx >= Levels(cfg) - 1;
    var stage1 :- CallStage(dimOut * 2, dimIn, TimeDim(cfg), normKeyword, true);
    var stage2 :- CallStage(dimIn, dimIn, TimeDim(cfg), normKeyword, true);
    var attn := AttentionBlock(dimIn, FastAttention(dimIn, qkv));
    var resample := if !isLast then Up2x(dimIn) else NoResample;
    r := Ok(UnetLevel(stage1, stage2, attn, resample));
  }

  /** The down loop of __init__: fails at level 0 when the keyword is unknown */
  method BuildDowns(cfg: UnetConfig, normKeyword: string, qkv: Pattern) returns (r: Result<seq<UnetLevel>>)
    ensures normKeyword == "norm" ==> r == Ok(DownLevels(cfg, qkv))
    ensures normKeyword !in StageKeywords && Levels(cfg) >= 1 ==> r == Err(TypeError(UnexpectedKeywordMsg))
    ensures Levels(cfg) == 0 ==> r == Ok([])
  {
    ghost var named := normKeyword == "norm";
    ghost var unknown := normKeyword !in StageKeywords;
    NormIsStageKeyword();
    var downs: seq<UnetLevel> := [];
    var idx := 0;
    while idx < Levels(cfg)
      invariant 0 <= idx <= Levels(cfg) && |downs| == idx
      invariant named ==> forall i :: 0 <= i < idx ==> downs[i] == DownLevelAt(cfg, qkv, i)
      invariant unknown ==> idx == 0
    {
      var level :- BuildDownLevel(cfg, normKeyword, qkv, idx);
      downs := downs + [level];
      idx := idx + 1;
    }
    if normKeyword == "norm" {
      assert downs == DownLevels(cfg, qkv);
    }
    return Ok(downs);
  }

  /** The up loop of __init__ */
  method BuildUps(cfg: UnetConfig, normKeyword: string, qkv: Pattern) returns (r: Result<seq<UnetLevel>>)
    ensures normKeyword == "norm" ==> r == Ok(UpLevels(cfg, qkv))
    ensures normKeyword !in StageKeywords && UpCount(Levels(cfg)) >= 1 ==> r == Err(TypeError(UnexpectedKeywordMsg))
    ensures UpCount(Levels(cfg)) == 0 ==> r == Ok([])
  {
    ghost var named := normKeyword == "norm";
    ghost var unknown := normKeyword !in StageKeywords;
    NormIsStageKeyword();
    var ups: seq<UnetLevel> := [];
    var idx := 0;
    while idx < UpCount(Levels(cfg))
      invariant 0 <= idx <= UpCount(Levels(cfg)) && |ups| == idx
      invariant named ==> forall i :: 0 <= i < idx ==> ups[i] == UpLevelAt(cfg, qkv, i)
      invariant unknown ==> idx == 0
    {
      var level :- BuildUpLevel(cfg, normKeyword, qkv, idx);
      ups := ups + [level];
      idx := idx + 1;
    }
    if normKeyword == "norm" {
      assert ups == UpLevels(cfg, qkv);
    }
    return Ok(ups);
  }

  /** mid_block1, mid_attn, mid_block2 of __init__, at width dims[-1] */
  method BuildMid(cfg: UnetConfig, normKeyword: string, qkv: Pattern)
    returns (r: Result<(ConvNeXtStage, AttentionBlock, ConvNeXtStage)>)
    ensures normKeyword == "norm" ==>
              r == Ok((UnetLayout(cfg, qkv).mid1, UnetLayout(cfg, qkv).midAttn, UnetLayout(cfg, qkv).mid2))
    ensures normKeyword !in StageKeywords ==> r == Err(TypeError(UnexpectedKeywordMsg))
  {
    var midDim := MidDim(cfg);
    var mid1 :- CallStage(midDim, midDim, TimeDim(cfg), normKeyword, true);
    var midAttn := AttentionBlock(midDim, FullAttention(midDim, qkv));
    var mid2 :- CallStage(midDim, midDim, TimeDim(cfg), normKeyword, true);
    r := Ok((mid1, midAttn, mid2));
  }

  /** Unet.__init__. The source passes the flag as `use_norm`, which the stage
      does not accept: with that spelling construction raises TypeError at
      the first stage; spelled `norm` it builds UnetLayout. */
  method BuildUnet(cfg: UnetConfig, normKeyword: string, qkv: Pattern) returns (r: Result<UnetModel>)
    ensures normKeyword == "norm" ==> r == Ok(UnetLayout(cfg, qkv))
    ensures normKeyword !in StageKeywords ==> r == Err(TypeError(UnexpectedKeywordMsg))
  {
    var timeMlp := if cfg.withTimeEmb then Some(Encoder(cfg.dim)) else None;
    var downs :- BuildDowns(cfg, normKeyword, qkv);
    var mid :- BuildMid(cfg, normKeyword, qkv);
    var ups :- BuildUps(cfg, normKeyword, qkv);
    var outDim := Fallback(cfg.outDim, Value(cfg.channels));
    var finalStage :- CallStage(cfg.dim, cfg.dim, None, normKeyword, true);
    r := Ok(UnetModel(downs, mid.0, mid.1, mid.2, ups, finalStage, Conv2d(cfg.dim, outDim, 1, 1, 0), timeMlp));
  }

  // ---------------------------------------------------------------------
  // Properties of the layout
  // ---------------------------------------------------------------------

  /** len(dim_mults) down levels, of which exactly the last keeps its
      resolution; len(dim_mults) - 1 up levels, all ending in Up2x since
      is_last is never true for them. */
  lemma DownResampling(cfg: UnetConfig, qkv: Pattern, i: nat)
    requires i < Levels(cfg)
    ensures DownLevelAt(cfg, qkv, i).resample == NoResample <==> i == Levels(cfg) - 1
    ensures i < Levels(cfg) - 1 ==> DownLevelAt(cfg, qkv, i).resample == Down2x(Dim(cfg, i + 1))
  {
  }

  lemma UpResampling(cfg: UnetConfig, qkv: Pattern, j: nat)
    requires j < UpCount(Levels(cfg))
    ensures UpLevelAt(cfg, qkv, j).resample == Up2x(Dim(cfg, Levels(cfg) - 1 - j))
  {
  }

  /** At up level j the current features have dims[k - j] channels (the
      middle block's width, or the previous up level's output), and so has
      the popped skip of down level k - 1 - j: their concatenation has the
      declared width of stage1. */
  lemma UpConcatWidth(cfg: UnetConfig, qkv: Pattern, j: nat)
    requires j < UpCount(Levels(cfg))
    ensures var k := Levels(cfg);
            var current := if j == 0 then MidDim(cfg) else UpLevelAt(cfg, qkv, j - 1).attn.normDim;
            var skip := DownLevelAt(cfg, qkv, k - 1 - j).stage2.OutDim();
            && current == Dim(cfg, k - j) && skip == Dim(cfg, k - j)
            && UpLevelAt(cfg, qkv, j).stage1.InDim() == current + skip
  {
  }

  /** The features reaching the final stage have dims[1] = dim * dim_mults[0]
      channels (dims[0] = channels without levels); the final stage expects
      dim, so for dim > 0 the two agree exactly when dim_mults[0] == 1. */
  function LastUpWidth(cfg: UnetConfig): nat
  {
    var k := Levels(cfg);
    if k == 0 then Dim(cfg, 0) else Dim(cfg, 1)
  }

  lemma FinalWidthAgrees(cfg: UnetConfig, qkv: Pattern)
    requires |cfg.dimMults| >= 1 && cfg.dim > 0
    ensures UnetLayout(cfg, qkv).finalStage.InDim() == cfg.dim
    ensures LastUpWidth(cfg) == Scale(cfg.dim, cfg.dimMults[0])
    ensures LastUpWidth(cfg) == UnetLayout(cfg, qkv).finalStage.InDim() <==> cfg.dimMults[0] == 1
  {
    ScaleIsIdentity(cfg.dim, cfg.dimMults[0]);
  }

  /** For dim > 0, dim * mult == dim exactly when mult == 1. */
  lemma ScaleIsIdentity(dim: nat, mult: nat)
    requires dim > 0
    ensures Scale(dim, mult) == dim <==> mult == 1
  {
    if mult >= 2 {
      assert Scale(dim, mult) == dim * (mult - 1) + dim;
      assert dim * (mult - 1) >= dim;
    }
  }

  /** The final 1x1 convolution outputs out_dim channels, channels when it is None. */
  lemma OutDimDefault(cfg: UnetConfig, qkv: Pattern)
    ensures UnetLayout(cfg, qkv).finalConv.outC == if cfg.outDim.Some? then cfg.outDim.value else cfg.channels
  {
  }

  // ---------------------------------------------------------------------
  // Spatial sizes along the levels
  // ---------------------------------------------------------------------

  function Pow2(n: nat): (p: nat)
    ensures p >= 1
  {
    if n == 0 then 1 else 2 * Pow2(n - 1)
  }

  /** The size at down level i: halved (rounding down) i times */
  function LevelSize(size: nat, i: nat): nat
  {
    if i == 0 then size else LevelSize(size, i - 1) / 2
  }

  /** The first n levels can all be down-sampled. */
  predicate Halvable(size: nat, n: nat)
  {
    forall i :: 0 <= i < n ==> LevelSize(size, i) >= 2
  }

  /** Halving i times leaves at least c exactly when size >= c * 2^i. */
  lemma {:induction false} LevelSizeAtLeast(size: nat, i: nat, c: nat)
    ensures LevelSize(size, i) >= c <==> size >= c * Pow2(i)
  {
    if i > 0 {
      LevelSizeAtLeast(size, i - 1, 2 * c);
      assert (2 * c) * Pow2(i - 1) == c * Pow2(i);
    }
  }

  lemma {:induction false} LevelSizeShrinks(size: nat, i: nat, j: nat)
    requires i <= j
    ensures LevelSize(size, j) <= LevelSize(size, i)
    decreases j
  {
    if i < j {
      LevelSizeShrinks(size, i, j - 1);
    }
  }

  /** n levels can be down-sampled exactly when size >= 2^n. */
  lemma HalvableIff(size: nat, n: nat)
    requires n >= 1
    ensures Halvable(size, n) <==> size >= Pow2(n)
  {
    LevelSizeAtLeast(size, n - 1, 2);
    if LevelSize(size, n - 1) >= 2 {
      forall i | 0 <= i < n ensures LevelSize(size, i) >= 2 {
        LevelSizeShrinks(size, i, n - 1);
      }
    }
  }

  /** A size that survives n halvings is at least 1 at every level up to n. */
  lemma LevelSizePositive(size: nat, n: nat, i: nat)
    requires size >= 1 && Halvable(size, n) && i <= n
    ensures LevelSize(size, i) >= 1
  {
    if i > 0 {
      assert LevelSize(size, i - 1) >= 2;
    }
  }

  // ---------------------------------------------------------------------
  // forward(x, time)
  // ---------------------------------------------------------------------

  /** stage1, stage2 and attention of a level (the down levels' body up to the push) */
  function DownLevelForward(l: UnetLevel, x: Shape, t: Option<Emb>): Result<Shape>
  {
    var a :- StageForward(l.stage1, x, t);
    var b :- StageForward(l.stage2, a, t);
    AttentionBlockForward(l.attn, b)
  }

  function MidForward(m: UnetModel, x: Shape, t: Option<Emb>): Result<Shape>
  {
    var a :- StageForward(m.mid1, x, t);
    var b :- AttentionBlockForward(m.midAttn, a);
    StageForward(m.mid2, b, t)
  }

  /** One up level: resize x to the skip's resolution, concatenate, stage1,
      stage2, attention, resampling. */
  function UpLevelForward(l: UnetLevel, x: Shape, skip: Shape, t: Option<Emb>): Result<Shape>
  {
    var resized := Resize(x, skip.height, skip.width);
    var c :- CatChannels(resized, skip);
    var a :- StageForward(l.stage1, c, t);
    var b :- StageForward(l.stage2, a, t);
    var d :- AttentionBlockForward(l.attn, b);
    ResampleForward(l.resample, d)
  }

  /** The embedding a stage of this Unet accepts for a batch of n */
  predicate EmbFits(cfg: UnetConfig, t: Option<Emb>, n: nat)
  {
    TimeDim(cfg).Some? ==> t.Some? && t.value.width == cfg.dim && (t.value.batch == n || t.value.batch == 1)
  }

  /** A (w -> w') stage of the layout and a level's attention at width w'
      map (N, w, H, W) to (N, w', H, W), given a fitting embedding. */
  lemma DownLevelContract(cfg: UnetConfig, qkv: Pattern, idx: nat, x: Shape, t: Option<Emb>)
    requires idx < Levels(cfg)
    ensures var y := DownLevelForward(DownLevelAt(cfg, qkv, idx), x, t);
            && (y.Ok? <==> x.channels == Dim(cfg, idx) && x.height >= 1 && x.width >= 1
                           && EmbFits(cfg, t, x.batch) && QkvAccepted(qkv))
            && (y.Ok? ==> y.value == Shape(x.batch, Dim(cfg, idx + 1), x.height, x.width))
  {
    var (dimIn, dimOut) := (Dim(cfg, idx), Dim(cfg, idx + 1));
    var l := DownLevelAt(cfg, qkv, idx);
    StageContract(dimIn, dimOut, TimeDim(cfg), 3, idx != 0, x, t);
    var a := StageForward(l.stage1, x, t);
    if a.Ok? {
      StageContract(dimOut, dimOut, TimeDim(cfg), 3, true, a.value, t);
      var b := StageForward(l.stage2, a.value, t);
      if b.Ok? {
        AttentionBlockContract(dimOut, FastAttention(dimOut, qkv), b.value);
      }
    }
  }

  lemma MidContract(cfg: UnetConfig, qkv: Pattern, x: Shape, t: Option<Emb>)
    ensures var mid := MidDim(cfg);
            var y := MidForward(UnetLayout(cfg, qkv), x, t);
            && (y.Ok? <==> x.channels == mid && x.height >= 1 && x.width >= 1
                           && EmbFits(cfg, t, x.batch) && QkvAccepted(qkv))
            && (y.Ok? ==> y.value == Shape(x.batch, mid, x.height, x.width))
  {
    var mid := MidDim(cfg);
    var m := UnetLayout(cfg, qkv);
    StageContract(mid, mid, TimeDim(cfg), 3, true, x, t);
    var a := StageForward(m.mid1, x, t);
    if a.Ok? {
      AttentionBlockContract(mid, FullAttention(mid, qkv), a.value);
      var b := AttentionBlockForward(m.midAttn, a.value);
      if b.Ok? {
        StageContract(mid, mid, TimeDim(cfg), 3, true, b.value, t);
      }
    }
  }

  /** An up level never fails: x and the skip both have dims[k - j] channels,
      the skip is non-empty, and the output is (N, dims[k-1-j], 2 h, 2 w) at
      the skip's resolution h x w. */
  lemma UpLevelContract(cfg: UnetConfig, qkv: Pattern, j: nat, x: Shape, skip: Shape, t: Option<Emb>)
    requires j < UpCount(Levels(cfg))
    requires x.channels == Dim(cfg, Levels(cfg) - j) && skip.channels == Dim(cfg, Levels(cfg) - j)
    requires x.batch == skip.batch && skip.height >= 1 && skip.width >= 1
    requires EmbFits(cfg, t, x.batch) && QkvAccepted(qkv)
    ensures UpLevelForward(UpLevelAt(cfg, qkv, j), x, skip, t) ==
            Ok(Shape(x.batch, Dim(cfg, Levels(cfg) - 1 - j), 2 * skip.height, 2 * skip.width))
  {
    var k := Levels(cfg);
    var (dimIn, dimOut) := (Dim(cfg, k - 1 - j), Dim(cfg, k - j));
    var l := UpLevelAt(cfg, qkv, j);
    var c := CatChannels(Resize(x, skip.height, skip.width), skip).value;
    assert c == Shape(x.batch, dimOut * 2, skip.height, skip.width);
    TwoStagesContract(dimOut * 2, dimIn, TimeDim(cfg), c, t);
    var b := c.(channels := dimIn);
    AttentionBlockContract(dimIn, FastAttention(dimIn, qkv), b);
    Up2xShape(dimIn, b);
  }

  /** A (w -> w') stage followed by a (w' -> w') stage, as in every level,
      maps an accepted input to w' channels at the same size. */
  lemma TwoStagesContract(w: nat, w': nat, embDim: Option<nat>, c: Shape, t: Option<Emb>)
    requires StageAccepts(w, embDim, c, t)
    ensures StageForward(NewStage(w, w', embDim, 3, true), c, t) == Ok(c.(channels := w'))
    ensures StageForward(NewStage(w', w', embDim, 3, true), c.(channels := w'), t) == Ok(c.(channels := w'))
  {
    StageContract(w, w', embDim, 3, true, c, t);
    StageContract(w', w', embDim, 3, true, c.(channels := w'), t);
  }

  /** down level idx's skip: (N, dims[idx + 1], size at level idx) */
  function SkipShape(cfg: UnetConfig, x: Shape, idx: nat): Shape
    requires idx < Levels(cfg)
  {
    Shape(x.batch, Dim(cfg, idx + 1), LevelSize(x.height, idx), LevelSize(x.width, idx))
  }

  /** skips holds, bottom to top, the skips of down levels 0 .. n - 1 */
  predicate IsLevelStack(cfg: UnetConfig, x: Shape, skips: seq<Skip>, n: nat)
    requires n <= Levels(cfg)
  {
    |skips| == n && forall i :: 0 <= i < n ==> skips[i] == Skip(i, SkipShape(cfg, x, i))
  }

  lemma IsLevelStackPush(cfg: UnetConfig, x: Shape, skips: seq<Skip>, n: nat)
    requires n < Levels(cfg) && IsLevelStack(cfg, x, skips, n)
    ensures IsLevelStack(cfg, x, skips + [Skip(n, SkipShape(cfg, x, n))], n + 1)
  {
  }

  lemma IsLevelStackPop(cfg: UnetConfig, x: Shape, skips: seq<Skip>, n: nat)
    requires 0 < n <= Levels(cfg) && IsLevelStack(cfg, x, skips, n)
    ensures skips[n - 1] == Skip(n - 1, SkipShape(cfg, x, n - 1))
    ensures IsLevelStack(cfg, x, skips[..n - 1], n - 1)
  {
  }

  lemma IsLevelStackOrigins(cfg: UnetConfig, x: Shape, skips: seq<Skip>, n: nat)
    requires n <= Levels(cfg) && IsLevelStack(cfg, x, skips, n)
    ensures Origins(skips) == Upto(n)
  {
  }

  /** What the down path needs: a fitting input, an accepted qkv pattern and
      a size that survives k - 1 halvings. */
  predicate DownAccepts(cfg: UnetConfig, qkv: Pattern, x: Shape, t: Option<Emb>)
  {
    var k := Levels(cfg);
    k >= 1 ==>
      && x.channels == cfg.channels && x.height >= 1 && x.width >= 1
      && EmbFits(cfg, t, x.batch) && QkvAccepted(qkv)
      && Halvable(x.height, k - 1) && Halvable(x.width, k - 1)
  }

  /** How many down-samplings the first idx levels perform */
  function DownSteps(idx: nat, k: nat): nat
  {
    if idx < k then idx else if k >= 1 then k - 1 else 0
  }

  lemma DownResampleContract(cfg: UnetConfig, qkv: Pattern, idx: nat, x: Shape, y: Shape)
    requires idx < Levels(cfg)
    requires y == Shape(x.batch, Dim(cfg, idx + 1), LevelSize(x.height, idx), LevelSize(x.width, idx))
    ensures var z := ResampleForward(DownLevelAt(cfg, qkv, idx).resample, y);
            && (z.Ok? <==> idx == Levels(cfg) - 1 || (LevelSize(x.height, idx) >= 2 && LevelSize(x.width, idx) >= 2))
            && (z.Ok? ==> z.value == Shape(x.batch, Dim(cfg, idx + 1),
                                           LevelSize(x.height, DownSteps(idx + 1, Levels(cfg))),
                                           LevelSize(x.width, DownSteps(idx + 1, Levels(cfg)))))
  {
    if idx < Levels(cfg) - 1 {
      Down2xShape(Dim(cfg, idx + 1), y);
    }
  }

  /** One pass of the down loop: the level's output (pushed as a skip) and
      the resampled features passed on. */
  function DownStep(l: UnetLevel, h: Shape, t: Option<Emb>): Result<(Shape, Shape)>
  {
    var y :- DownLevelForward(l, h, t);
    var z :- ResampleForward(l.resample, y);
    Ok((y, z))
  }

  /** The state after idx down levels: h is at width dims[idx] and at the
      size reached after the down-samplings so far, which all succeeded. */
  predicate DownInvariant(cfg: UnetConfig, qkv: Pattern, x: Shape, t: Option<Emb>, idx: nat, h: Shape)
  {
    var k := Levels(cfg);
    && idx <= k
    && (idx == 0 ==> h == x)
    && (idx > 0 ==>
          && x.channels == cfg.channels && x.height >= 1 && x.width >= 1
          && EmbFits(cfg, t, x.batch) && QkvAccepted(qkv)
          && Halvable(x.height, DownSteps(idx, k)) && Halvable(x.width, DownSteps(idx, k))
          && h == Shape(x.batch, Dim(cfg, idx), LevelSize(x.height, DownSteps(idx, k)),
                        LevelSize(x.width, DownSteps(idx, k))))
  }

  /** A failing down step means the input is not accepted. */
  lemma DownStepFails(cfg: UnetConfig, qkv: Pattern, x: Shape, t: Option<Emb>, idx: nat, h: Shape)
    requires idx < Levels(cfg) && DownInvariant(cfg, qkv, x, t, idx, h)
    requires DownStep(DownLevelAt(cfg, qkv, idx), h, t).Err?
    ensures !DownAccepts(cfg, qkv, x, t)
  {
    if idx > 0 {
      LevelSizePositive(x.height, idx, idx);
      LevelSizePositive(x.width, idx, idx);
    }
    DownLevelContract(cfg, qkv, idx, h, t);
    var y := DownLevelForward(DownLevelAt(cfg, qkv, idx), h, t);
    if y.Ok? {
      DownResampleContract(cfg, qkv, idx, x, y.value);
    }
  }

  /** A succeeding down step yields the level's skip and keeps DownInvariant. */
  lemma DownStepSucceeds(cfg: UnetConfig, qkv: Pattern, x: Shape, t: Option<Emb>, idx: nat, h: Shape)
    requires idx < Levels(cfg) && DownInvariant(cfg, qkv, x, t, idx, h)
    requires DownStep(DownLevelAt(cfg, qkv, idx), h, t).Ok?
    ensures var s := DownStep(DownLevelAt(cfg, qkv, idx), h, t).value;
            s.0 == SkipShape(cfg, x, idx) && DownInvariant(cfg, qkv, x, t, idx + 1, s.1)
  {
    DownLevelContract(cfg, qkv, idx, h, t);
    var y := DownLevelForward(DownLevelAt(cfg, qkv, idx), h, t);
    DownResampleContract(cfg, qkv, idx, x, y.value);
    DownInvariantNext(cfg, qkv, x, t, idx, h, DownStep(DownLevelAt(cfg, qkv, idx), h, t).value.1);
  }

  /** The size bookkeeping of one down step: one more halving, which the
      level's resampling has just checked unless the level is the last. */
  lemma DownInvariantNext(cfg: UnetConfig, qkv: Pattern, x: Shape, t: Option<Emb>, idx: nat, h: Shape, z: Shape)
    requires idx < Levels(cfg) && DownInvariant(cfg, qkv, x, t, idx, h)
    requires h.channels == Dim(cfg, idx) && h.height >= 1 && h.width >= 1
    requires EmbFits(cfg, t, h.batch) && QkvAccepted(qkv)
    requires idx < Levels(cfg) - 1 ==> LevelSize(x.height, idx) >= 2 && LevelSize(x.width, idx) >= 2
    requires z == Shape(x.batch, Dim(cfg, idx + 1), LevelSize(x.height, DownSteps(idx + 1, Levels(cfg))),
                        LevelSize(x.width, DownSteps(idx + 1, Levels(cfg))))
    ensures DownInvariant(cfg, qkv, x, t, idx + 1, z)
  {
    if idx < Levels(cfg) - 1 {
      HalvableNext(x.height, idx);
      HalvableNext(x.width, idx);
    }
  }

  lemma HalvableNext(size: nat, n: nat)
    requires Halvable(size, n) && LevelSize(size, n) >= 2
    ensures Halvable(size, n + 1)
  {
  }

  lemma DownInvariantDone(cfg: UnetConfig, qkv: Pattern, x: Shape, t: Option<Emb>, h: Shape)
    requires DownInvariant(cfg, qkv, x, t, Levels(cfg), h)
    ensures DownAccepts(cfg, qkv, x, t)
    ensures h == if Levels(cfg) == 0 then x
                 else Shape(x.batch, MidDim(cfg), LevelSize(x.height, Levels(cfg) - 1), LevelSize(x.width, Levels(cfg) - 1))
  {
  }

  /** One pass of the down loop of forward: the level applied to h, its
      output (the skip) and the resampled features. */
  method RunDownLevel(ghost cfg: UnetConfig, ghost qkv: Pattern, ghost x: Shape, l: UnetLevel, h: Shape,
                      t: Option<Emb>, ghost idx: nat)
    returns (s: Result<(Shape, Shape)>)
    requires idx < Levels(cfg) && l == DownLevelAt(cfg, qkv, idx) && DownInvariant(cfg, qkv, x, t, idx, h)
    ensures s.Err? ==> !DownAccepts(cfg, qkv, x, t)
    ensures s.Ok? ==> s.value.0 == SkipShape(cfg, x, idx) && DownInvariant(cfg, qkv, x, t, idx + 1, s.value.1)
  {
    s := DownStep(l, h, t);
    if s.Err? {
      DownStepFails(cfg, qkv, x, t, idx, h);
    } else {
      DownStepSucceeds(cfg, qkv, x, t, idx, h);
    }
  }

  /** The down loop of forward, each level's output pushed before resampling. */
  method DownPath(ghost cfg: UnetConfig, ghost qkv: Pattern, downs: seq<UnetLevel>, x: Shape, t: Option<Emb>)
    returns (r: Result<Shape>, skips: seq<Skip>)
    requires downs == DownLevels(cfg, qkv)
    ensures r.Ok? <==> DownAccepts(cfg, qkv, x, t)
    ensures r.Ok? ==> IsLevelStack(cfg, x, skips, Levels(cfg))
    ensures r.Ok? ==> r.value == if Levels(cfg) == 0 then x
                                 else Shape(x.batch, MidDim(cfg), LevelSize(x.height, Levels(cfg) - 1),
                                            LevelSize(x.width, Levels(cfg) - 1))
  {
    skips := [];
    var h := x;
    var idx := 0;
    while idx < |downs|
      invariant 0 <= idx <= |downs| && DownInvariant(cfg, qkv, x, t, idx, h)
      invariant IsLevelStack(cfg, x, skips, idx)
    {
      var s := RunDownLevel(cfg, qkv, x, downs[idx], h, t, idx);
      if s.Err? {
        return Err(s.error), skips;
      }
      IsLevelStackPush(cfg, x, skips, idx);
      skips := skips + [Skip(idx, s.value.0)];
      h := s.value.1;
      idx := idx + 1;
    }
    DownInvariantDone(cfg, qkv, x, t, h);
    return Ok(h), skips;
  }

  /** The pops pair up level j with the skip of down level k - 1 - j. */
  predicate UpPairing(popped: seq<(nat, nat)>, k: nat)
  {
    forall j :: 0 <= j < |popped| ==> popped[j].0 == j && popped[j].1 + j + 1 == k
  }

  lemma UpPairingStep(popped: seq<(nat, nat)>, k: nat, consumer: nat, producer: nat)
    requires UpPairing(popped, k)
    requires consumer == |popped| && producer + |popped| + 1 == k
    ensures UpPairing(popped + [(consumer, producer)], k)
  {
  }

  /** The state after idx up levels: h is at width dims[k - idx], the skips
      of down levels k - idx .. k - 1 have been popped in LIFO order. */
  predicate UpInvariant(cfg: UnetConfig, qkv: Pattern, x: Shape, t: Option<Emb>, idx: nat, h: Shape,
                        skips: seq<Skip>, popped: seq<(nat, nat)>)
  {
    && idx <= UpCount(Levels(cfg))
    && DownAccepts(cfg, qkv, x, t)
    && h.batch == x.batch && h.channels == Dim(cfg, Levels(cfg) - idx)
    && IsLevelStack(cfg, x, skips, Levels(cfg) - idx)
    && |popped| == idx && UpPairing(popped, Levels(cfg))
  }

  /** Before up level idx the skip list holds the skips of down levels
      0 .. k - 1 - idx, so the pop finds that of level k - 1 - idx. */
  lemma UpPop(cfg: UnetConfig, qkv: Pattern, x: Shape, t: Option<Emb>, idx: nat, h: Shape,
              skips: seq<Skip>, popped: seq<(nat, nat)>)
    requires idx < UpCount(Levels(cfg)) && UpInvariant(cfg, qkv, x, t, idx, h, skips, popped)
    ensures |skips| > 0
    ensures skips[|skips| - 1] == Skip(Levels(cfg) - 1 - idx, SkipShape(cfg, x, Levels(cfg) - 1 - idx))
    ensures IsLevelStack(cfg, x, skips[..|skips| - 1], Levels(cfg) - 1 - idx)
  {
    IsLevelStackPop(cfg, x, skips, |skips|);
  }

  /** The state after up level idx, given the width that level outputs */
  lemma UpAdvance(cfg: UnetConfig, qkv: Pattern, x: Shape, t: Option<Emb>, idx: nat, h: Shape,
                  skips: seq<Skip>, popped: seq<(nat, nat)>, next: Shape)
    requires idx < UpCount(Levels(cfg)) && UpInvariant(cfg, qkv, x, t, idx, h, skips, popped)
    requires next.batch == x.batch && next.channels == Dim(cfg, Levels(cfg) - 1 - idx)
    ensures |skips| > 0
    ensures UpInvariant(cfg, qkv, x, t, idx + 1, next, skips[..|skips| - 1], popped + [(idx, skips[|skips| - 1].origin)])
  {
    UpPop(cfg, qkv, x, t, idx, h, skips, popped);
    UpPairingStep(popped, Levels(cfg), idx, Levels(cfg) - 1 - idx);
  }

  /** What up level j needs of its features and its skip. */
  predicate UpLevelReady(cfg: UnetConfig, qkv: Pattern, j: nat, x: Shape, skip: Shape, t: Option<Emb>)
  {
    && j < UpCount(Levels(cfg))
    && x.channels == Dim(cfg, Levels(cfg) - j) && skip.channels == Dim(cfg, Levels(cfg) - j)
    && x.batch == skip.batch && skip.height >= 1 && skip.width >= 1
    && EmbFits(cfg, t, x.batch) && QkvAccepted(qkv)
  }

  /** Inside the up loop, the features and the skip on top are what the next
      up level needs. */
  lemma UpReady(cfg: UnetConfig, qkv: Pattern, x: Shape, t: Option<Emb>, idx: nat, h: Shape,
                skips: seq<Skip>, popped: seq<(nat, nat)>)
    requires idx < UpCount(Levels(cfg)) && UpInvariant(cfg, qkv, x, t, idx, h, skips, popped)
    ensures |skips| > 0 && UpLevelReady(cfg, qkv, idx, h, skips[|skips| - 1].shape, t)
  {
    var k := Levels(cfg);
    UpPop(cfg, qkv, x, t, idx, h, skips, popped);
    LevelSizePositive(x.height, k - 1, k - 1 - idx);
    LevelSizePositive(x.width, k - 1, k - 1 - idx);
  }

  /** One pass of the up loop of forward: pop the skip, which is that of down
      level k - 1 - idx, and apply the level, which cannot fail. */
  method RunUpLevel(ghost cfg: UnetConfig, ghost qkv: Pattern, ghost x: Shape, l: UnetLevel, h: Shape,
                    skips: seq<Skip>, popped: seq<(nat, nat)>, t: Option<Emb>, idx: nat)
    returns (next: Shape, skipsOut: seq<Skip>, poppedOut: seq<(nat, nat)>)
    requires idx < UpCount(Levels(cfg)) && l == UpLevelAt(cfg, qkv, idx)
    requires UpInvariant(cfg, qkv, x, t, idx, h, skips, popped)
    ensures UpInvariant(cfg, qkv, x, t, idx + 1, next, skipsOut, poppedOut)
  {
    UpReady(cfg, qkv, x, t, idx, h, skips, popped);
    var skip := skips[|skips| - 1];
    skipsOut := skips[..|skips| - 1];
    poppedOut := popped + [(idx, skip.origin)];
    next := ApplyUpLevel(cfg, qkv, l, idx, h, skip.shape, t);
    UpAdvance(cfg, qkv, x, t, idx, h, skips, popped, next);
  }

  /** Up level j applied to features and its skip: twice the skip's size, the
      next width down. */
  method ApplyUpLevel(ghost cfg: UnetConfig, ghost qkv: Pattern, l: UnetLevel, ghost j: nat, x: Shape, skip: Shape,
                      t: Option<Emb>)
    returns (next: Shape)
    requires UpLevelReady(cfg, qkv, j, x, skip, t) && l == UpLevelAt(cfg, qkv, j)
    ensures next == Shape(x.batch, Dim(cfg, Levels(cfg) - 1 - j), 2 * skip.height, 2 * skip.width)
  {
    UpLevelContract(cfg, qkv, j, x, skip, t);
    next := UpLevelForward(l, x, skip, t).value;
  }

  lemma UpDone(cfg: UnetConfig, qkv: Pattern, x: Shape, t: Option<Emb>, h: Shape,
               skips: seq<Skip>, popped: seq<(nat, nat)>)
    requires UpInvariant(cfg, qkv, x, t, UpCount(Levels(cfg)), h, skips, popped)
    ensures h.batch == x.batch && h.channels == LastUpWidth(cfg)
    ensures Origins(skips) == Upto(Levels(cfg) - UpCount(Levels(cfg)))
  {
    IsLevelStackOrigins(cfg, x, skips, |skips|);
  }

  /** The up loop of forward. It cannot fail once the down path and the
      middle block have succeeded. */
  method UpPath(ghost cfg: UnetConfig, ghost qkv: Pattern, ups: seq<UnetLevel>, x: Shape, h0: Shape,
                skips0: seq<Skip>, t: Option<Emb>)
    returns (h: Shape, skips: seq<Skip>, popped: seq<(nat, nat)>)
    requires ups == UpLevels(cfg, qkv)
    requires DownAccepts(cfg, qkv, x, t) && IsLevelStack(cfg, x, skips0, Levels(cfg))
    requires h0.batch == x.batch && h0.channels == MidDim(cfg)
    ensures h.batch == x.batch && h.channels == LastUpWidth(cfg)
    ensures Origins(skips) == Upto(Levels(cfg) - UpCount(Levels(cfg)))
    ensures |popped| == UpCount(Levels(cfg)) && UpPairing(popped, Levels(cfg))
  {
    h := h0;
    skips := skips0;
    popped := [];
    var idx := 0;
    while idx < |ups|
      invariant idx <= |ups| && UpInvariant(cfg, qkv, x, t, idx, h, skips, popped)
    {
      h, skips, popped := RunUpLevel(cfg, qkv, x, ups[idx], h, skips, popped, t, idx);
      idx := idx + 1;
    }
    UpDone(cfg, qkv, x, t, h, skips, popped);
  }

  /** When forward succeeds: the time MLP accepts dim and its batch is N or 1,
      x has `channels` channels and is non-empty, the qkv pattern passes
      einops, the size survives the k - 1 down-samplings, and the features
      reaching the final stage have dim channels. */
  predicate UnetAccepts(cfg: UnetConfig, qkv: Pattern, x: Shape, time: nat)
  {
    var k := Levels(cfg);
    && (cfg.withTimeEmb ==> EncoderAccepts(cfg.dim) && (time == x.batch || time == 1))
    && x.channels == cfg.channels && x.height >= 1 && x.width >= 1
    && QkvAccepted(qkv)
    && (k >= 1 ==> Halvable(x.height, k - 1) && Halvable(x.width, k - 1))
    && LastUpWidth(cfg) == cfg.dim
  }

  /** The time embedding forward computes, None without a time MLP */
  function TimeEmbedding(m: UnetModel, time: nat): Result<Option<Emb>>
  {
    if m.timeMlp.Some? then
      var e :- EncoderForward(m.timeMlp.value, time);
      Ok(Some(e))
    else Ok(None)
  }

  lemma TimeEmbeddingContract(cfg: UnetConfig, qkv: Pattern, time: nat, n: nat)
    ensures var e := TimeEmbedding(UnetLayout(cfg, qkv), time);
            && (e.Ok? <==> (cfg.withTimeEmb ==> EncoderAccepts(cfg.dim)))
            && (e.Ok? ==> (EmbFits(cfg, e.value, n) <==> (cfg.withTimeEmb ==> time == n || time == 1)))
            && (e.Ok? && !cfg.withTimeEmb ==> e.value.None?)
  {
    if cfg.withTimeEmb {
      EncoderContract(Encoder(cfg.dim), time);
    }
  }

  /** The time-embedding step of forward, by its contract. */
  method RunTimeEmbedding(ghost cfg: UnetConfig, ghost qkv: Pattern, m: UnetModel, time: nat, ghost n: nat)
    returns (e: Result<Option<Emb>>)
    requires m == UnetLayout(cfg, qkv)
    ensures e.Ok? <==> (cfg.withTimeEmb ==> EncoderAccepts(cfg.dim))
    ensures e.Ok? ==> (EmbFits(cfg, e.value, n) <==> (cfg.withTimeEmb ==> time == n || time == 1))
  {
    TimeEmbeddingContract(cfg, qkv, time, n);
    e := TimeEmbedding(m, time);
  }

  /** The middle of forward, by its contract. */
  method RunMid(ghost cfg: UnetConfig, ghost qkv: Pattern, m: UnetModel, x: Shape, t: Option<Emb>)
    returns (y: Result<Shape>)
    requires m == UnetLayout(cfg, qkv)
    ensures y.Ok? <==> x.channels == MidDim(cfg) && x.height >= 1 && x.width >= 1
                       && EmbFits(cfg, t, x.batch) && QkvAccepted(qkv)
    ensures y.Ok? ==> y.value == Shape(x.batch, MidDim(cfg), x.height, x.width)
  {
    MidContract(cfg, qkv, x, t);
    y := MidForward(m, x, t);
  }

  /** The end of forward: resize to the input's size, final stage, final 1x1
      convolution to out_dim channels. */
  method RunFinal(ghost cfg: UnetConfig, ghost qkv: Pattern, m: UnetModel, up: Shape, height: nat, width: nat)
    returns (r: Result<Shape>)
    requires m == UnetLayout(cfg, qkv) && height >= 1 && width >= 1
    ensures r.Ok? <==> up.channels == cfg.dim
    ensures r.Ok? ==> r.value == Shape(up.batch, OutDim(cfg), height, width)
  {
    var resized := Resize(up, height, width);
    StageContract(cfg.dim, cfg.dim, None, 3, true, resized, None);
    var f := StageForward(m.finalStage, resized, None);
    if f.Err? {
      return Err(f.error);
    }
    SamePaddingPreservesSize(height, 0);
    SamePaddingPreservesSize(width, 0);
    r := Conv2dForward(m.finalConv, f.value);
  }

  /** Unet.forward */
  method Forward(ghost cfg: UnetConfig, ghost qkv: Pattern, m: UnetModel, x: Shape, time: nat)
    returns (r: Result<Shape>, trace: SkipTrace)
    requires m == UnetLayout(cfg, qkv)
    ensures r.Ok? <==> UnetAccepts(cfg, qkv, x, time)
    ensures r.Ok? ==> r.value == Shape(x.batch, OutDim(cfg), x.height, x.width)
    // k pushes, k - 1 pops in LIFO order, the highest-resolution skip left
    ensures r.Ok? ==>
              && trace.pushed == Upto(Levels(cfg))
              && |trace.popped| == UpCount(Levels(cfg)) && UpPairing(trace.popped, Levels(cfg))
              && trace.left == Upto(if Levels(cfg) >= 1 then 1 else 0)
  {
    ghost var k := Levels(cfg);
    trace := SkipTrace([], [], []);
    var te := RunTimeEmbedding(cfg, qkv, m, time, x.batch);
    if te.Err? {
      return Err(te.error), trace;
    }
    var t := te.value;
    var initialHeight, initialWidth := x.height, x.width;

    var down, skips := DownPath(cfg, qkv, m.downs, x, t);
    if down.Err? {
      return Err(down.error), trace;
    }
    IsLevelStackOrigins(cfg, x, skips, k);
    var pushed := Origins(skips);

    if k >= 1 {
      LevelSizePositive(x.height, k - 1, k - 1);
      LevelSizePositive(x.width, k - 1, k - 1);
    }
    var mid := RunMid(cfg, qkv, m, down.value, t);
    if mid.Err? {
      return Err(mid.error), trace;
    }

    var up, left, popped := UpPath(cfg, qkv, m.ups, x, mid.value, skips, t);
    trace := SkipTrace(pushed, popped, Origins(left));
    r := RunFinal(cfg, qkv, m, up, initialHeight, initialWidth);
  }

  // ---------------------------------------------------------------------
  // The two defects, end to end
  // ---------------------------------------------------------------------

  /** With the rearrange pattern as written, no input gets through forward:
      the very first attention layer's einops check raises. */
  lemma SourcePatternRejectsEveryInput(cfg: UnetConfig, x: Shape, time: nat)
    ensures !UnetAccepts(cfg, SourceQkvPattern(), x, time)
  {
    SourceQkvPatternRejected();
  }

  /** With the intended pattern, an input of `channels` channels whose size
      is a multiple of 2^(k-1) goes through, for the default-style
      configurations (even dim other than 2, dim_mults[0] == 1). */
  lemma FixedPatternAcceptsFittingInputs(cfg: UnetConfig, x: Shape, time: nat)
    requires |cfg.dimMults| >= 1 && cfg.dimMults[0] == 1 && EncoderAccepts(cfg.dim) && cfg.dim > 0
    requires x.channels == cfg.channels && time == x.batch
    requires x.height >= Pow2(|cfg.dimMults| - 1) && x.width >= Pow2(|cfg.dimMults| - 1)
    ensures UnetAccepts(cfg, FixedQkvPattern(), x, time)
  {
    FixedQkvPatternAccepted();
    FinalWidthAgrees(cfg, FixedQkvPattern());
    var k := |cfg.dimMults|;
    if k >= 2 {
      HalvableIff(x.height, k - 1);
      HalvableIff(x.width, k - 1);
    }
  }
}
