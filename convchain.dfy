/** union/convchain.py: the ConvChain backbone, a chain of ConvNeXt stages
    whose first half pushes skip connections that the second half pops and
    concatenates, U-Net fashion. */
module ConvChain {
  import opened Shapes
  import opened Skips
  import opened Layers
  import opened ConvNeXt
  import opened Utils

  /** filters_per_layer: one width for every stage, or a list of widths */
  datatype Filters = Uniform(width: nat) | PerBlock(widths: seq<nat>)

  datatype ChainConfig = ChainConfig(inChannels: nat, outChannels: nat, depth: nat,
                                     filters: Filters, frameConditioned: bool)

  /** ch_dims: the list as given, or [filters_per_layer] * depth */
  function ChDims(cfg: ChainConfig): (ch: seq<nat>)
    ensures cfg.filters.PerBlock? ==> ch == cfg.filters.widths
    ensures cfg.filters.Uniform? ==> |ch| == cfg.depth && forall i :: 0 <= i < |ch| ==> ch[i] == cfg.filters.width
  {
    match cfg.filters
    case PerBlock(ws) => ws
    case Uniform(w) => seq(cfg.depth, _ => w)
  }

  /** half_depth = ceil(depth / 2) */
  function Half(depth: nat): (h: nat)
    ensures h + h == depth || h + h == depth + 1
  {
    (depth + 1) / 2
  }

  /** math.ceil(d / 2) for any int d, negative ones included */
  function CeilHalf(d: int): (r: int)
    ensures 2 * r >= d && 2 * r < d + 2
  {
    (d + 1) / 2
  }

  /** Half is math.ceil(depth / 2) on the depths the model admits. */
  lemma HalfIsCeilHalf(depth: nat)
    ensures Half(depth) == CeilHalf(depth)
  {
  }

  /** A negative depth builds and runs as depth 0: with h = ceil(depth / 2),
      range(1, h), range(h) and range(h, depth) are all empty, and
      `[w] * depth` is as empty as `[w] * 0`, so only the stage-0 append,
      ch_dims[0] and ch_dims[-1] are left, as for depth 0. */
  lemma NegativeDepthAsZero(depth: int, w: int)
    requires depth < 0
    ensures CeilHalf(depth) <= 0 && depth <= CeilHalf(depth)
    ensures Repeat(w, depth) == Repeat(w, 0) == []
    ensures Half(0) == 0
  {
  }

  /** The constructor indexes ch_dims[0] and ch_dims[idx] for idx < depth. */
  predicate Buildable(cfg: ChainConfig)
  {
    |ChDims(cfg)| >= 1 && |ChDims(cfg)| >= cfg.depth
  }

  /** embed_dim: the width every stage's embedding projection expects */
  function EmbedDim(cfg: ChainConfig): nat
    requires |ChDims(cfg)| >= 1
  {
    if cfg.frameConditioned then 2 * ChDims(cfg)[0] else ChDims(cfg)[0]
  }

  /** The stage appended at position idx: the input stage (no norm), a down
      stage ch[idx-1] -> ch[idx], or an up stage 2 ch[idx-1] -> ch[idx]. */
  function StageAt(cfg: ChainConfig, idx: nat): ConvNeXtStage
    requires 1 <= |ChDims(cfg)| && idx < |ChDims(cfg)|
  {
    var ch := ChDims(cfg);
    var e := Some(EmbedDim(cfg));
    if idx == 0 then NewStage(cfg.inChannels, ch[0], e, 3, false)
    else if idx < Half(cfg.depth) then NewStage(ch[idx - 1], ch[idx], e, 3, true)
    else NewStage(2 * ch[idx - 1], ch[idx], e, 3, true)
  }

  /** The call the constructor makes for the stage at position idx */
  function StageCallAt(cfg: ChainConfig, idx: nat): StageCall
    requires 1 <= |ChDims(cfg)| && idx < |ChDims(cfg)|
  {
    var ch := ChDims(cfg);
    if idx == 0 then PositionalCall(cfg.inChannels, ch[0], EmbedDim(cfg), false)
    else if idx < Half(cfg.depth) then PositionalCall(ch[idx - 1], ch[idx], EmbedDim(cfg), true)
    else PositionalCall(2 * ch[idx - 1], ch[idx], EmbedDim(cfg), true)
  }

  lemma StageCallAtBinds(cfg: ChainConfig, idx: nat)
    requires 1 <= |ChDims(cfg)| && idx < |ChDims(cfg)|
    ensures ConstructStage(StageCallAt(cfg, idx)) == Ok(StageAt(cfg, idx))
  {
    var ch := ChDims(cfg);
    if idx == 0 {
      PositionalCallBinds(cfg.inChannels, ch[0], EmbedDim(cfg), false);
    } else if idx < Half(cfg.depth) {
      PositionalCallBinds(ch[idx - 1], ch[idx], EmbedDim(cfg), true);
    } else {
      PositionalCallBinds(2 * ch[idx - 1], ch[idx], EmbedDim(cfg), true);
    }
  }

  /** Evaluating the constructor's call for the stage at position idx */
  method BuildStage(cfg: ChainConfig, idx: nat) returns (s: ConvNeXtStage)
    requires 1 <= |ChDims(cfg)| && idx < |ChDims(cfg)|
    ensures s == StageAt(cfg, idx)
  {
    StageCallAtBinds(cfg, idx);
    s := ConstructStage(StageCallAt(cfg, idx)).value;
  }

  /** A built ConvChain */
  datatype ChainModel = ChainModel(depth: nat, frameConditioned: bool, blocks: seq<ConvNeXtStage>,
                                   finalConv: Conv2d, timeEncoder: Encoder, frameEncoder: Option<Encoder>)

  /** How many stages the constructor appends: the input stage, then
      half - 1 down stages and depth - half up stages. */
  function StageCount(depth: nat): nat
  {
    if depth == 0 then 1 else depth
  }

  /** The network ConvChain(...) builds, or the IndexError it raises. */
  function ChainLayout(cfg: ChainConfig): Result<ChainModel>
  {
    if !Buildable(cfg) then Err(IndexError(IndexOutOfRange))
    else
      var ch := ChDims(cfg);
      Ok(ChainModel(
        cfg.depth, cfg.frameConditioned,
        seq(StageCount(cfg.depth), i requires 0 <= i < StageCount(cfg.depth) => StageAt(cfg, i)),
        Conv2d(ch[|ch| - 1], cfg.outChannels, 1, 1, 0),
        Encoder(ch[0]),
        if cfg.frameConditioned then Some(Encoder(ch[0])) else None))
  }

  /** ConvChain.__init__: the input stage, then the down loop and the up loop
      appending stages, then the final 1x1 convolution and the encoders. */
  method Build(cfg: ChainConfig) returns (r: Result<ChainModel>)
    ensures r == ChainLayout(cfg)
  {
    var ch := ChDims(cfg);
    if |ch| == 0 {
      return Err(IndexError(IndexOutOfRange));
    }
    var first := BuildStage(cfg, 0);
    var blocks := [first];
    var half := Half(cfg.depth);
    var idx := 1;
    while idx < half
      invariant 1 <= idx <= (if half >= 1 then half else 1)
      invariant |blocks| == idx
      invariant forall i :: 0 <= i < |blocks| ==> i < |ch| && blocks[i] == StageAt(cfg, i)
    {
      if idx >= |ch| {
        return Err(IndexError(IndexOutOfRange));
      }
      var stage := BuildStage(cfg, idx);
      blocks := blocks + [stage];
      idx := idx + 1;
    }
    idx := half;
    while idx < cfg.depth
      invariant half <= idx <= (if cfg.depth >= 1 then cfg.depth else half)
      invariant |blocks| == StageCount(idx)
      invariant forall i :: 0 <= i < |blocks| ==> i < |ch| && blocks[i] == StageAt(cfg, i)
    {
      if idx >= |ch| {
        return Err(IndexError(IndexOutOfRange));
      }
      var stage := BuildStage(cfg, idx);
      blocks := blocks + [stage];
      idx := idx + 1;
    }
    // every index the loops used was in range, so ch_dims is long enough
    ghost var last := blocks[|blocks| - 1];
    assert |blocks| - 1 < |ch|;
    assert Buildable(cfg);
    var finalConv := Conv2d(ch[|ch| - 1], cfg.outChannels, 1, 1, 0);
    r := Ok(ChainModel(cfg.depth, cfg.frameConditioned, blocks, finalConv, Encoder(ch[0]),
                       if cfg.frameConditioned then Some(Encoder(ch[0])) else None));
    assert blocks == seq(StageCount(cfg.depth), i requires 0 <= i < StageCount(cfg.depth) => StageAt(cfg, i));
  }

  // ---------------------------------------------------------------------
  // Properties of the layout
  // ---------------------------------------------------------------------

  /** What a successful layout is made of. */
  lemma LayoutFacts(cfg: ChainConfig, m: ChainModel)
    requires ChainLayout(cfg) == Ok(m)
    ensures Buildable(cfg) && m.depth == cfg.depth && m.frameConditioned == cfg.frameConditioned
    ensures |m.blocks| == StageCount(cfg.depth)
    ensures forall i :: 0 <= i < |m.blocks| ==> i < |ChDims(cfg)| && m.blocks[i] == StageAt(cfg, i)
    ensures m.finalConv == Conv2d(ChDims(cfg)[|ChDims(cfg)| - 1], cfg.outChannels, 1, 1, 0)
    ensures m.timeEncoder == Encoder(ChDims(cfg)[0])
    ensures m.frameEncoder.Some? <==> cfg.frameConditioned
    ensures m.frameEncoder.Some? ==> m.frameEncoder.value == Encoder(ChDims(cfg)[0])
  {
  }

  /** The constructor succeeds exactly when ch_dims is non-empty and has an
      entry for every stage; it then builds depth stages (one for depth 0),
      of which only the first has no normalisation. */
  lemma LayoutStages(cfg: ChainConfig)
    ensures ChainLayout(cfg).Ok? <==> |ChDims(cfg)| >= 1 && |ChDims(cfg)| >= cfg.depth
    ensures ChainLayout(cfg).Err? ==> ChainLayout(cfg).error == IndexError(IndexOutOfRange)
    ensures ChainLayout(cfg).Ok? ==>
              var b := ChainLayout(cfg).value.blocks;
              && |b| == (if cfg.depth >= 1 then cfg.depth else 1)
              && forall i :: 0 <= i < |b| ==> (b[i].norm.None? <==> i == 0)
  {
    if ChainLayout(cfg).Ok? {
      var m := ChainLayout(cfg).value;
      LayoutFacts(cfg, m);
      forall i | 0 <= i < |m.blocks| ensures m.blocks[i].norm.None? <==> i == 0 {
        assert m.blocks[i] == StageAt(cfg, i);
      }
    }
  }

  /** The declared input width of the stage at position idx */
  function StageInDim(cfg: ChainConfig, idx: nat): nat
    requires 1 <= |ChDims(cfg)| && idx < |ChDims(cfg)|
  {
    var ch := ChDims(cfg);
    if idx == 0 then cfg.inChannels else if idx < Half(cfg.depth) then ch[idx - 1] else 2 * ch[idx - 1]
  }

  /** The stage at position idx is embedding conditioned with embed_dim
      features, outputs ch_dims[idx] channels and takes StageInDim. */
  lemma StageWiring(cfg: ChainConfig, idx: nat)
    requires 1 <= |ChDims(cfg)| && idx < |ChDims(cfg)|
    ensures StageAt(cfg, idx).embedProj == Some(Linear(EmbedDim(cfg), StageAt(cfg, idx).InDim()))
    ensures StageAt(cfg, idx).OutDim() == ChDims(cfg)[idx] && StageAt(cfg, idx).InDim() == StageInDim(cfg, idx)
  {
  }

  /** Every stage is embedding conditioned with embed_dim features, outputs
      ch_dims[idx] channels, takes the input channels (stage 0), the previous
      stage's output (down stages) or twice it (up stages); and the final
      convolution reads the last stage's output when ch_dims has depth entries. */
  lemma LayoutWiring(cfg: ChainConfig)
    requires Buildable(cfg)
    ensures var m := ChainLayout(cfg).value;
            && (forall i :: 0 <= i < |m.blocks| ==>
                  && i < |ChDims(cfg)|
                  && m.blocks[i].embedProj == Some(Linear(EmbedDim(cfg), m.blocks[i].InDim()))
                  && m.blocks[i].OutDim() == ChDims(cfg)[i]
                  && m.blocks[i].InDim() == StageInDim(cfg, i))
            && m.blocks[0].InDim() == cfg.inChannels
            && (forall i :: 1 <= i < |m.blocks| && i < Half(cfg.depth) ==>
                  m.blocks[i].InDim() == m.blocks[i - 1].OutDim())
            && (forall i :: 1 <= i < |m.blocks| && Half(cfg.depth) <= i ==>
                  m.blocks[i].InDim() == 2 * m.blocks[i - 1].OutDim())
            && m.finalConv.inC == ChDims(cfg)[|ChDims(cfg)| - 1]
            && (|ChDims(cfg)| == cfg.depth >= 1 ==> m.finalConv.inC == m.blocks[cfg.depth - 1].OutDim())
  {
    var m := ChainLayout(cfg).value;
    LayoutFacts(cfg, m);
    forall i | 0 <= i < |m.blocks|
      ensures m.blocks[i].embedProj == Some(Linear(EmbedDim(cfg), m.blocks[i].InDim()))
      ensures m.blocks[i].OutDim() == ChDims(cfg)[i] && m.blocks[i].InDim() == StageInDim(cfg, i)
    {
      StageWiring(cfg, i);
    }
    StageWiring(cfg, 0);
    forall i | 1 <= i < |m.blocks|
      ensures i < Half(cfg.depth) ==> m.blocks[i].InDim() == m.blocks[i - 1].OutDim()
      ensures Half(cfg.depth) <= i ==> m.blocks[i].InDim() == 2 * m.blocks[i - 1].OutDim()
    {
      StageWiring(cfg, i);
      StageWiring(cfg, i - 1);
    }
    if |ChDims(cfg)| == cfg.depth >= 1 {
      StageWiring(cfg, cfg.depth - 1);
    }
  }

  /** The up stage at idx concatenates the output of stage idx - 1 with the
      skip pushed by down stage 2 half - 1 - idx; its declared width
      2 ch_dims[idx-1] is that of the concatenation exactly when these agree. */
  predicate PairedWidthsAgree(cfg: ChainConfig, idx: nat)
    requires Buildable(cfg) && Half(cfg.depth) <= idx < cfg.depth
  {
    ChDims(cfg)[2 * Half(cfg.depth) - 1 - idx] == ChDims(cfg)[idx - 1]
  }

  lemma UpStageWidth(cfg: ChainConfig, idx: nat)
    requires Buildable(cfg) && Half(cfg.depth) <= idx < cfg.depth
    ensures var b := ChainLayout(cfg).value.blocks;
            var producer := 2 * Half(cfg.depth) - 1 - idx;
            producer < Half(cfg.depth) &&
            (b[idx].InDim() == b[idx - 1].OutDim() + b[producer].OutDim() <==> PairedWidthsAgree(cfg, idx))
  {
    LayoutWiring(cfg);
  }

  /** With one width for every stage the widths always agree. */
  lemma UniformWidthsAgree(cfg: ChainConfig, idx: nat)
    requires cfg.filters.Uniform? && Buildable(cfg) && Half(cfg.depth) <= idx < cfg.depth
    ensures PairedWidthsAgree(cfg, idx)
  {
  }

  // ---------------------------------------------------------------------
  // forward(x, t, frame_diff)
  // ---------------------------------------------------------------------

  /** The width of the embedding forward hands to the stages: time and frame
      embeddings concatenated when frame conditioned and frame_diff is given,
      the time embedding alone otherwise. */
  function EmbeddingWidth(cfg: ChainConfig, frameDiff: Option<nat>): nat
    requires |ChDims(cfg)| >= 1
  {
    if cfg.frameConditioned && frameDiff.Some? then 2 * ChDims(cfg)[0] else ChDims(cfg)[0]
  }

  /** The embedding handed over has the width the stages expect, except when
      a frame-conditioned chain gets no frame_diff (and ch_dims[0] > 0). */
  lemma EmbeddingWidthAgrees(cfg: ChainConfig, frameDiff: Option<nat>)
    requires |ChDims(cfg)| >= 1
    ensures EmbeddingWidth(cfg, frameDiff) == EmbedDim(cfg) <==>
              !(cfg.frameConditioned && frameDiff.None?) || ChDims(cfg)[0] == 0
  {
  }

  /** When forward succeeds: the encoders accept the width, the frame batch
      matches the time batch, x is non-empty, and (for depth >= 1) x has
      in_channels channels, the embedding has embed_dim features and a
      batch of N or 1, every up stage's widths agree, and the final
      convolution reads the last stage's width. */
  predicate ChainAccepts(cfg: ChainConfig, x: Shape, t: nat, frameDiff: Option<nat>)
  {
    && Buildable(cfg)
    && var ch := ChDims(cfg);
    && EncoderAccepts(ch[0])
    && (cfg.frameConditioned && frameDiff.Some? ==> frameDiff.value == t)
    && x.height >= 1 && x.width >= 1
    && (cfg.depth == 0 ==> x.channels == ch[|ch| - 1])
    && (cfg.depth >= 1 ==>
          && x.channels == cfg.inChannels
          && EmbeddingWidth(cfg, frameDiff) == EmbedDim(cfg)
          && (t == x.batch || t == 1)
          && (forall idx :: Half(cfg.depth) <= idx < cfg.depth ==> PairedWidthsAgree(cfg, idx))
          && ch[cfg.depth - 1] == ch[|ch| - 1])
  }

  /** The pops pair up stage half + k with the skip of down stage
      half - 1 - k: the most recent push first. */
  predicate LifoPairing(popped: seq<(nat, nat)>, half: nat)
  {
    forall k :: 0 <= k < |popped| ==> popped[k].0 == half + k && popped[k].1 + k + 1 == half
  }

  lemma LifoPairingStep(popped: seq<(nat, nat)>, half: nat, consumer: nat, producer: nat)
    requires LifoPairing(popped, half)
    requires consumer == half + |popped| && producer + |popped| + 1 == half
    ensures LifoPairing(popped + [(consumer, producer)], half)
  {
  }

  lemma StageAtContract(cfg: ChainConfig, idx: nat, x: Shape, emb: Option<Emb>)
    requires 1 <= |ChDims(cfg)| && idx < |ChDims(cfg)|
    ensures StageForward(StageAt(cfg, idx), x, emb).Ok? <==> StageAccepts(StageInDim(cfg, idx), Some(EmbedDim(cfg)), x, emb)
    ensures StageForward(StageAt(cfg, idx), x, emb).Ok? ==>
              StageForward(StageAt(cfg, idx), x, emb).value == Shape(x.batch, ChDims(cfg)[idx], x.height, x.width)
  {
    var ch := ChDims(cfg);
    var e := Some(EmbedDim(cfg));
    if idx == 0 {
      StageContract(cfg.inChannels, ch[0], e, 3, false, x, emb);
    } else if idx < Half(cfg.depth) {
      StageContract(ch[idx - 1], ch[idx], e, 3, true, x, emb);
    } else {
      StageContract(2 * ch[idx - 1], ch[idx], e, 3, true, x, emb);
    }
  }

  /** The embedding forward computes: the time embedding, concatenated with
      the frame embedding when frame conditioned and frame_diff is given. */
  function CombinedEmbedding(m: ChainModel, t: nat, frameDiff: Option<nat>): Result<Emb>
    requires m.frameConditioned ==> m.frameEncoder.Some?
  {
    var timeEmb :- EncoderForward(m.timeEncoder, t);
    if m.frameConditioned && frameDiff.Some? then
      var frameEmb :- EncoderForward(m.frameEncoder.value, frameDiff.value);
      CatEmb(timeEmb, frameEmb)
    else Ok(timeEmb)
  }

  /** The encoders accept ch_dims[0] exactly when it is even and not 2, the
      frame batch must equal the time batch, and the result has t rows of
      EmbeddingWidth features. */
  lemma CombinedEmbeddingContract(cfg: ChainConfig, m: ChainModel, t: nat, frameDiff: Option<nat>)
    requires ChainLayout(cfg) == Ok(m)
    ensures m.frameConditioned ==> m.frameEncoder.Some?
    ensures CombinedEmbedding(m, t, frameDiff).Ok? <==>
              EncoderAccepts(ChDims(cfg)[0]) && (cfg.frameConditioned && frameDiff.Some? ==> frameDiff.value == t)
    ensures CombinedEmbedding(m, t, frameDiff).Ok? ==>
              CombinedEmbedding(m, t, frameDiff).value == Emb(t, EmbeddingWidth(cfg, frameDiff))
  {
    LayoutFacts(cfg, m);
    EncoderContract(m.timeEncoder, t);
    if m.frameConditioned && frameDiff.Some? {
      EncoderContract(m.frameEncoder.value, frameDiff.value);
    }
  }

  /** skips holds, bottom to top, the outputs of down stages 0 .. n - 1 */
  predicate IsSkipStack(cfg: ChainConfig, x: Shape, skips: seq<Skip>, n: nat)
    requires n <= |ChDims(cfg)|
  {
    |skips| == n && forall i :: 0 <= i < n ==> skips[i] == Skip(i, Shape(x.batch, ChDims(cfg)[i], x.height, x.width))
  }

  lemma IsSkipStackPush(cfg: ChainConfig, x: Shape, skips: seq<Skip>, n: nat)
    requires n < |ChDims(cfg)| && IsSkipStack(cfg, x, skips, n)
    ensures IsSkipStack(cfg, x, skips + [Skip(n, Shape(x.batch, ChDims(cfg)[n], x.height, x.width))], n + 1)
  {
  }

  lemma IsSkipStackPop(cfg: ChainConfig, x: Shape, skips: seq<Skip>, n: nat)
    requires 0 < n <= |ChDims(cfg)| && IsSkipStack(cfg, x, skips, n)
    ensures skips[n - 1] == Skip(n - 1, Shape(x.batch, ChDims(cfg)[n - 1], x.height, x.width))
    ensures IsSkipStack(cfg, x, skips[..n - 1], n - 1)
  {
  }

  lemma IsSkipStackOrigins(cfg: ChainConfig, x: Shape, skips: seq<Skip>, n: nat)
    requires n <= |ChDims(cfg)| && IsSkipStack(cfg, x, skips, n)
    ensures Origins(skips) == Upto(n)
  {
  }

  /** The input stage accepts x and the embedding */
  predicate InputAccepted(cfg: ChainConfig, x: Shape, emb: Emb)
    requires |ChDims(cfg)| >= 1
  {
    StageAccepts(cfg.inChannels, Some(EmbedDim(cfg)), x, Some(emb))
  }

  /** The down loop of forward: stages 0 .. half - 1, each output pushed. */
  method DownPath(ghost cfg: ChainConfig, m: ChainModel, x: Shape, emb: Emb)
    returns (r: Result<Shape>, skips: seq<Skip>)
    requires ChainLayout(cfg) == Ok(m)
    ensures Half(cfg.depth) <= |ChDims(cfg)|
    ensures r.Ok? <==> Half(cfg.depth) == 0 || InputAccepted(cfg, x, emb)
    ensures r.Ok? ==> IsSkipStack(cfg, x, skips, Half(cfg.depth))
    ensures r.Ok? ==> r.value == if Half(cfg.depth) == 0 then x
                                 else Shape(x.batch, ChDims(cfg)[Half(cfg.depth) - 1], x.height, x.width)
  {
    LayoutFacts(cfg, m);
    var half := Half(m.depth);
    skips := [];
    var h := x;
    var idx := 0;
    while idx < half
      invariant 0 <= idx <= half
      invariant idx == 0 ==> h == x
      invariant idx > 0 ==> InputAccepted(cfg, x, emb) && h == Shape(x.batch, ChDims(cfg)[idx - 1], x.height, x.width)
      invariant IsSkipStack(cfg, x, skips, idx)
    {
      StageAtContract(cfg, idx, h, Some(emb));
      var y := StageForward(m.blocks[idx], h, Some(emb));
      if y.Err? {
        return Err(y.error), skips;
      }
      h := y.value;
      IsSkipStackPush(cfg, x, skips, idx);
      skips := skips + [Skip(idx, h)];
      idx := idx + 1;
    }
    return Ok(h), skips;
  }

  /** Every up stage's widths agree */
  predicate UpWidthsAgree(cfg: ChainConfig)
    requires Buildable(cfg)
  {
    forall idx :: Half(cfg.depth) <= idx < cfg.depth ==> PairedWidthsAgree(cfg, idx)
  }

  /** An up stage fed the concatenation of the previous output and its skip
      succeeds exactly when the paired widths agree. */
  lemma UpStageContract(cfg: ChainConfig, idx: nat, x: Shape, h: Shape, skip: Shape, emb: Emb)
    requires Buildable(cfg) && Half(cfg.depth) <= idx < cfg.depth && InputAccepted(cfg, x, emb)
    requires h == Shape(x.batch, ChDims(cfg)[idx - 1], x.height, x.width)
    requires skip == Shape(x.batch, ChDims(cfg)[2 * Half(cfg.depth) - 1 - idx], x.height, x.width)
    ensures CatChannels(h, skip).Ok?
    ensures var y := StageForward(StageAt(cfg, idx), CatChannels(h, skip).value, Some(emb));
            && (y.Ok? <==> PairedWidthsAgree(cfg, idx))
            && (y.Ok? ==> y.value == Shape(x.batch, ChDims(cfg)[idx], x.height, x.width))
  {
    StageAtContract(cfg, idx, CatChannels(h, skip).value, Some(emb));
  }

  /** The state of the up loop before stage idx: h is the previous stage's
      output (x itself for depth 0), the skips of down stages idx .. half - 1
      have been popped in LIFO order, and every up stage so far succeeded. */
  predicate UpLoopState(cfg: ChainConfig, x: Shape, idx: nat, h: Shape, skips: seq<Skip>, popped: seq<(nat, nat)>)
  {
    && Buildable(cfg) && Half(cfg.depth) <= idx <= |ChDims(cfg)| && idx <= 2 * Half(cfg.depth)
    && (idx == 0 ==> h == x)
    && (idx > 0 ==> h == Shape(x.batch, ChDims(cfg)[idx - 1], x.height, x.width))
    && IsSkipStack(cfg, x, skips, 2 * Half(cfg.depth) - idx)
    && (forall j :: Half(cfg.depth) <= j < idx ==> j < cfg.depth ==> PairedWidthsAgree(cfg, j))
    && |popped| == idx - Half(cfg.depth) && LifoPairing(popped, Half(cfg.depth))
  }

  /** Before up stage idx the skip list is not empty, and its top is the
      output of down stage 2 half - 1 - idx. */
  lemma UpLoopPop(cfg: ChainConfig, x: Shape, idx: nat, h: Shape, skips: seq<Skip>, popped: seq<(nat, nat)>)
    requires idx < cfg.depth && UpLoopState(cfg, x, idx, h, skips, popped)
    ensures |skips| > 0
    ensures skips[|skips| - 1] ==
            Skip(2 * Half(cfg.depth) - 1 - idx, Shape(x.batch, ChDims(cfg)[2 * Half(cfg.depth) - 1 - idx], x.height, x.width))
    ensures IsSkipStack(cfg, x, skips[..|skips| - 1], 2 * Half(cfg.depth) - 1 - idx)
  {
    IsSkipStackPop(cfg, x, skips, |skips|);
  }

  /** A succeeding up stage idx moves the loop state on by one stage. */
  lemma UpLoopStep(cfg: ChainConfig, x: Shape, idx: nat, h: Shape, skips: seq<Skip>, popped: seq<(nat, nat)>, y: Shape)
    requires idx < cfg.depth && UpLoopState(cfg, x, idx, h, skips, popped)
    requires PairedWidthsAgree(cfg, idx)
    requires y == Shape(x.batch, ChDims(cfg)[idx], x.height, x.width)
    ensures |skips| > 0
    ensures UpLoopState(cfg, x, idx + 1, y, skips[..|skips| - 1], popped + [(idx, skips[|skips| - 1].origin)])
  {
    UpLoopPop(cfg, x, idx, h, skips, popped);
    LifoPairingStep(popped, Half(cfg.depth), idx, skips[|skips| - 1].origin);
  }

  /** One pass of the up loop of forward: pop the most recent skip,
      concatenate it onto h and apply the up stage at idx. */
  method RunUpStage(ghost cfg: ChainConfig, stage: ConvNeXtStage, ghost x: Shape, h: Shape,
                    skips: seq<Skip>, popped: seq<(nat, nat)>, emb: Emb, idx: nat)
    returns (y: Result<Shape>, skipsOut: seq<Skip>, poppedOut: seq<(nat, nat)>)
    requires idx < cfg.depth && UpLoopState(cfg, x, idx, h, skips, popped) && InputAccepted(cfg, x, emb)
    requires stage == StageAt(cfg, idx)
    ensures y.Ok? <==> PairedWidthsAgree(cfg, idx)
    ensures y.Ok? ==> UpLoopState(cfg, x, idx + 1, y.value, skipsOut, poppedOut)
  {
    UpLoopPop(cfg, x, idx, h, skips, popped);
    var skipped := skips[|skips| - 1];
    skipsOut := skips[..|skips| - 1];
    poppedOut := popped + [(idx, skipped.origin)];
    UpStageContract(cfg, idx, x, h, skipped.shape, emb);
    var cat := CatChannels(h, skipped.shape).value;
    y := StageForward(stage, cat, Some(emb));
    if y.Ok? {
      UpLoopStep(cfg, x, idx, h, skips, popped, y.value);
    }
  }

  /** Once the up loop has run to the end, every up stage succeeded, h has
      the last stage's width and depth mod 2 skips are left. */
  lemma UpLoopDone(cfg: ChainConfig, x: Shape, h: Shape, skips: seq<Skip>, popped: seq<(nat, nat)>)
    requires UpLoopState(cfg, x, if cfg.depth >= 1 then cfg.depth else Half(cfg.depth), h, skips, popped)
    ensures UpWidthsAgree(cfg)
    ensures h == if cfg.depth == 0 then x else Shape(x.batch, ChDims(cfg)[cfg.depth - 1], x.height, x.width)
    ensures Origins(skips) == Upto(cfg.depth % 2)
    ensures |popped| == cfg.depth - Half(cfg.depth) && LifoPairing(popped, Half(cfg.depth))
  {
    IsSkipStackOrigins(cfg, x, skips, |skips|);
  }

  /** The up loop of forward: stages half .. depth - 1, each concatenating
      the popped skip onto its input. */
  method UpPath(ghost cfg: ChainConfig, m: ChainModel, x: Shape, h0: Shape, skips0: seq<Skip>, emb: Emb)
    returns (r: Result<Shape>, skips: seq<Skip>, popped: seq<(nat, nat)>)
    requires ChainLayout(cfg) == Ok(m)
    requires Half(cfg.depth) <= |ChDims(cfg)| && IsSkipStack(cfg, x, skips0, Half(cfg.depth))
    requires Half(cfg.depth) == 0 ==> h0 == x
    requires Half(cfg.depth) > 0 ==> InputAccepted(cfg, x, emb)
    requires Half(cfg.depth) > 0 ==> h0 == Shape(x.batch, ChDims(cfg)[Half(cfg.depth) - 1], x.height, x.width)
    ensures Buildable(cfg)
    ensures r.Ok? <==> UpWidthsAgree(cfg)
    ensures r.Ok? ==> r.value == if cfg.depth == 0 then x
                                 else Shape(x.batch, ChDims(cfg)[cfg.depth - 1], x.height, x.width)
    ensures r.Ok? ==> Origins(skips) == Upto(cfg.depth % 2)
    ensures r.Ok? ==> |popped| == cfg.depth - Half(cfg.depth) && LifoPairing(popped, Half(cfg.depth))
  {
    LayoutFacts(cfg, m);
    var half := Half(m.depth);
    var h := h0;
    skips := skips0;
    popped := [];
    var idx := half;
    while idx < m.depth
      invariant half <= idx <= (if cfg.depth >= 1 then cfg.depth else half)
      invariant UpLoopState(cfg, x, idx, h, skips, popped)
      decreases m.depth - idx
    {
      var y;
      y, skips, popped := RunUpStage(cfg, m.blocks[idx], x, h, skips, popped, emb, idx);
      if y.Err? {
        return Err(y.error), skips, popped;
      }
      h := y.value;
      idx := idx + 1;
    }
    UpLoopDone(cfg, x, h, skips, popped);
    return Ok(h), skips, popped;
  }

  /** ChainAccepts, stage by stage: the embedding, the input stage, the up
      stages and the final convolution. */
  lemma ChainAcceptsByStage(cfg: ChainConfig, x: Shape, t: nat, frameDiff: Option<nat>)
    requires Buildable(cfg)
    ensures var ch := ChDims(cfg);
            var last := if cfg.depth == 0 then x.channels else ch[cfg.depth - 1];
            ChainAccepts(cfg, x, t, frameDiff) <==>
              && EncoderAccepts(ch[0])
              && (cfg.frameConditioned && frameDiff.Some? ==> frameDiff.value == t)
              && (Half(cfg.depth) > 0 ==> InputAccepted(cfg, x, Emb(t, EmbeddingWidth(cfg, frameDiff))))
              && UpWidthsAgree(cfg)
              && last == ch[|ch| - 1] && x.height >= 1 && x.width >= 1
  {
  }

  /** ConvChain.forward. The skip list is a local sequence used as a stack:
      the down loop appends, the up loop pops from the end. */
  method Forward(ghost cfg: ChainConfig, m: ChainModel, x: Shape, t: nat, frameDiff: Option<nat>)
    returns (r: Result<Shape>, trace: SkipTrace)
    requires ChainLayout(cfg) == Ok(m)
    ensures r.Ok? <==> ChainAccepts(cfg, x, t, frameDiff)
    ensures r.Ok? ==> r.value == Shape(x.batch, cfg.outChannels, x.height, x.width)
    // ceil(D/2) pushes, floor(D/2) pops in LIFO order, D mod 2 skips left
    ensures r.Ok? ==>
              && trace.pushed == Upto(Half(cfg.depth))
              && |trace.popped| == cfg.depth - Half(cfg.depth)
              && LifoPairing(trace.popped, Half(cfg.depth))
              && trace.left == Upto(cfg.depth % 2)
  {
    LayoutFacts(cfg, m);
    ChainAcceptsByStage(cfg, x, t, frameDiff);
    CombinedEmbeddingContract(cfg, m, t, frameDiff);
    trace := SkipTrace([], [], []);
    var e := CombinedEmbedding(m, t, frameDiff);
    if e.Err? {
      return Err(e.error), trace;
    }
    var emb := e.value;
    var down, skips := DownPath(cfg, m, x, emb);
    if down.Err? {
      return Err(down.error), trace;
    }
    IsSkipStackOrigins(cfg, x, skips, Half(cfg.depth));
    var pushed := Origins(skips);
    var up, left, popped := UpPath(cfg, m, x, down.value, skips, emb);
    if up.Err? {
      return Err(up.error), SkipTrace(pushed, popped, Origins(left));
    }
    var h := up.value;
    if h.height >= 1 && h.width >= 1 {
      SamePaddingPreservesSize(h.height, 0);
      SamePaddingPreservesSize(h.width, 0);
    }
    r := Conv2dForward(m.finalConv, h);
    trace := SkipTrace(pushed, popped, Origins(left));
  }
}
