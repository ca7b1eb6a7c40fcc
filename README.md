# Shape-level model of the union diffusion backbones

This project models the wiring of the two denoising backbones of `union`,
ConvChain and Unet, and the small utilities beside them. It uses Dafny and
proves properties of the model. Tensor values are abstracted away:

- a feature map is its shape `(batch, channels, height, width)`;
- a conditioning vector is `(batch, width)`;
- each torch layer is a function from input shape to `Result` of output
  shape. It fails where torch, einops or Python would raise.

What is proved:

- constructor bookkeeping: which stage gets which widths, which level gets
  which resampling, and how Python binds the keyword arguments of a stage
  call;
- the LIFO skip-list discipline of both forward passes;
- exact acceptance conditions and output shapes of each forward pass;
- the partition property of `split_into_batches`;
- `fallback`;
- the width rule of the sinusoidal embedding;
- the exponential moving average of model parameters as an in-place walk
  over an array.

Modules, one per source file or concern:

- `Shapes` and `Skips` (`shapes.dfy`): shapes, the torch layers used,
  convolution arithmetic, and the skip records.
- `Layers` (`layers.dfy`): `SineCosinePosEmb`, the time/frame encoder,
  `Up2x`/`Down2x`, `SpatialLayerNorm`, `PreNormalization` and
  `ResidualAdd`.
- `Attention` (`attention.dfy`): the shape contract of `FastAttention` and
  `FullAttention`, plus the checks einops makes of their `rearrange`
  patterns.
- `ConvNeXt` (`convnext.dfy`): `ConvNeXtStage`, its constructor, argument
  binding and forward pass.
- `Utils` (`utils.dfy`): `fallback`, `split_into_batches` and
  `ExpMovingAvg`.
- `ConvChain` (`convchain.dfy`) and `Unet` (`unet.dfy`): the two backbones.

How the model is shaped:

- The constructors and forward passes are methods with loops, as in the
  source.
  - Each constructor method is proved equal to a layout function of the
    configuration.
  - Each forward method carries its skip list as a local sequence that is
    pushed and popped. Its `ensures` characterise success exactly and give
    the output shape and the push/pop trace.
- Forward methods take the configuration as a ghost parameter and require
  the model to be that configuration's layout.
- `split_into_batches` is a method that builds the list.
- `update_model_params` overwrites an array of optional parameter values in
  place. A missing value (`None`) is one `Option`.

Behaviours of the code worth noting:

- **Odd `emb_dim`.** The sinusoidal embedding does not reject an odd
  width. It yields `emb_dim - 1` features, and the encoder's first
  `Linear` then refuses them.
- **Up-level resampling.** Every up level of the Unet ends in `Up2x`;
  none uses the identity, because `is_last` is never true there.
- **EMA walk.** It follows `zip` and silently stops at the shorter
  parameter list; lists of different lengths raise nothing.
- **Residual add.** It broadcasts. A one-channel input to an attention
  block is broadcast, not rejected.
- **Attention construction.** Building an attention layer accepts every
  channel count; a mismatch shows only in its forward pass.

## Model

| member | source | states |
|---|---|---|
| Shapes.ConvOutSize | union-code/union/modules.py:157-171 | a convolution accepts a non-empty axis exactly when the padded size holds the kernel and the stride is positive |
| Shapes.ConvOutSizeBounds | union-code/union/modules.py:157-171 | the output size is the number of kernel positions that fit: the last starts inside the padded input, the next would not |
| Shapes.TransposedOutSize | union-code/union/modules.py:98-102 | the output size of a transposed convolution along one axis; its contract is Shapes.TransposedOutSizeContract |
| Shapes.TransposedOutSizeContract | union-code/union/modules.py:98-102 | a transposed convolution accepts exactly the non-empty inputs with positive output, and with a positive stride the convolution with the same kernel, stride and padding maps its output back to the input size |
| Shapes.ConvTranspose2dForward | union-code/union/modules.py:98-102 | a transposed convolution succeeds iff the input has its in-channels and both axes have a transposed size; batch kept, out-channels produced |
| Shapes.Conv2dForward | union-code/union/modules.py:157-176 | a convolution succeeds iff the input has its in-channels and both axes fit; batch kept, out-channels produced |
| Shapes.LinearForward | union-code/union/modules.py:150-155 | a linear layer succeeds iff the feature width matches, keeping the batch |
| Shapes.Broadcast | union-code/union/modules.py:69-70 | one broadcast axis: defined iff equal or one side is 1, and the result is the non-1 side |
| Shapes.Elementwise | union-code/union/modules.py:69 | the shape of `x + fn(x)` and of the other element-wise sums; its contract is Shapes.ElementwiseContract |
| Shapes.ElementwiseContract | union-code/union/modules.py:69 | an element-wise sum succeeds iff every axis broadcasts, takes on each axis the side that is not 1, and does not depend on operand order |
| Shapes.AddInPlace | union-code/union/modules.py:185 | the shape of `h += cond`; its contract is Shapes.AddInPlaceContract |
| Shapes.AddInPlaceContract | union-code/union/modules.py:185 | an in-place add succeeds iff each axis of the added tensor is the target's or 1, and leaves the target's shape |
| Shapes.CatChannels | union-code/union/convchain.py:127 | channel concatenation succeeds iff batch and spatial size agree, and adds the channel counts |
| Shapes.CatEmb | union-code/union/convchain.py:111 | embedding concatenation succeeds iff the batches agree, and adds the widths |
| Shapes.Resize | union-code/union/unet.py:111 | resize keeps batch and channels and produces exactly the requested spatial size |
| Shapes.SamePaddingPreservesSize | union-code/union/modules.py:157-171 | a k x k stride-1 convolution padded by (k-1)/2 keeps every non-empty size (the 7x7, 3x3 and 1x1 convolutions of a stage) |
| Shapes.StridedHalves | union-code/union/modules.py:104-108 | the k4/s2/p1 convolution maps H to floor(H/2) and refuses H < 2 |
| Shapes.TransposedDoubles | union-code/union/modules.py:98-102 | the transposed k4/s2/p1 convolution maps H to 2H and refuses an empty input |
| Layers.PosEmbForward | union-code/union/modules.py:85-92 | the output of SineCosinePosEmb(emb_dim) on a batch of timesteps; its contract is Layers.PosEmbWidth |
| Layers.PosEmbWidth | union-code/union/modules.py:85-92 | the embedding raises exactly for emb_dim 2 and 3; otherwise its width is 2 (emb_dim // 2), equal to emb_dim iff emb_dim is even |
| Layers.EncoderForward | union-code/union/convchain.py:73-78 | the time/frame encoder's output; its contract is Layers.EncoderContract |
| Layers.EncoderContract | union-code/union/convchain.py:73-78 | the time/frame encoder succeeds exactly for even widths other than 2 and then returns (batch, dim) |
| Layers.ResampleForward | union-code/union/modules.py:98-108 | the output of Up2x, Down2x or the identity; its contracts are Layers.Down2xShape, Layers.Up2xShape and the two round trips |
| Layers.Down2xShape | union-code/union/modules.py:104-108 | Down2x accepts exactly inputs of its channel count with H, W >= 2, and halves both axes (rounding down) |
| Layers.Up2xShape | union-code/union/modules.py:98-102 | Up2x accepts exactly non-empty inputs of its channel count and doubles both axes |
| Layers.DownUpRoundTrip | union-code/union/modules.py:98-108 | down-sampling then up-sampling restores an even size and loses one row or column of an odd one |
| Layers.UpDownRoundTrip | union-code/union/modules.py:98-108 | up-sampling then down-sampling gives back every non-empty input exactly |
| Layers.NormForward | union-code/union/modules.py:119-128 | the output of SpatialLayerNorm(dim); its contract is Layers.NormPreservesShape |
| Layers.NormPreservesShape | union-code/union/modules.py:119-128 | the norm keeps the shape of a dim-channel input, and is defined iff the channels broadcast against dim |
| Layers.PreNormalizationTransparent | union-code/union/modules.py:130-140 | on dim channels, pre-normalisation hands the wrapped transform an input of the same shape |
| Layers.ResidualAddPreservesShape | union-code/union/modules.py:61-70 | the residual wrapper keeps x's shape when the transform does, and propagates the transform's error |
| Attention.NoRepeatsMeansDistinct | union-code/union/modules.py:209-211 | the recursive duplicate check holds iff all identifiers are pairwise distinct |
| Attention.AllInMeansSubset | union-code/union/modules.py:209-211 | the recursive membership check holds iff every identifier of one list is in the other |
| Attention.RearrangeCheck | union-code/union/modules.py:209-211 | what einops checks of a rearrange recipe before it runs; its contract is Attention.RearrangeCheckContract |
| Attention.RearrangeCheckContract | union-code/union/modules.py:209-211 | einops accepts a recipe iff each side names distinct identifiers, both sides name the same set, and every keyword axis appears in it |
| Attention.SourceQkvPatternRejected | union-code/union/modules.py:209-211 | the q/k/v pattern as written is rejected because identifiers appear on one side only |
| Attention.FixedQkvPatternAccepted | union-code/union/modules.py:209-211 | the pattern with the group written (h d) passes einops' checks with h given by keyword |
| Attention.FastOutPatternAccepted | union-code/union/modules.py:215 | the linear attention's output pattern passes with h, x and y given by keyword |
| Attention.FullOutPatternAccepted | union-code/union/modules.py:243 | the full attention's output pattern passes with x and y given by keyword |
| Attention.OutPatternAccepted | union-code/union/modules.py:193-244 | both variants' output patterns pass einops' checks |
| Attention.AttentionForward | union-code/union/modules.py:205-216 | the output of an attention layer; its contract is Attention.AttentionContract |
| Attention.AttentionContract | union-code/union/modules.py:198-216 | an attention layer succeeds iff channels match, the input is non-empty and both patterns pass, and then returns the input's shape |
| Attention.AttentionBlockForward | union-code/union/unet.py:48 | the output of ResidualAdd(PreNormalization(dim, attention)); its contract is Attention.AttentionBlockContract |
| Attention.AttentionBlockContract | union-code/union/unet.py:48 | ResidualAdd(PreNormalization(dim, attention)) succeeds iff the input has dim or 1 channels, is non-empty and the qkv pattern passes, and then outputs dim channels at the same size |
| Attention.BlockMatchingChannels | union-code/union/modules.py:130-140 | on dim channels the block returns the input's shape exactly when the attention succeeds |
| Attention.BlockBroadcastChannel | union-code/union/modules.py:122-128 | on one channel the norm's gain broadcasts the input to dim channels, and so does the residual add |
| Attention.NormMismatch | union-code/union/modules.py:122-128 | any other channel count makes the pre-normalised attention fail |
| ConvNeXt.NewStageContract | union-code/union/modules.py:147-176 | a new stage is internally consistent: in/out widths as given, hidden width out_dim * expand, shortcut identity iff in_dim == out_dim, projection iff emb_dim, norm iff the flag |
| ConvNeXt.LookupContract | union-code/union/modules.py:147 | a keyword lookup finds a value iff some argument has that name, and returns the first such argument |
| ConvNeXt.ConstructStage | union-code/union/modules.py:147 | evaluating a `ConvNeXtStage(...)` call, argument binding included; its contracts are ConvNeXt.KeywordErrorContract and the call-shape lemmas below |
| ConvNeXt.KeywordErrorContract | union-code/union/modules.py:147 | the keyword arguments raise iff one of them is unknown or names a parameter already bound (self, a positional one, an earlier keyword), and then the first such one in call order decides the error |
| ConvNeXt.KeywordCallKnown | union-code/union/unet.py:46 | the Unet's all-keyword call with norm= passes the keyword check |
| ConvNeXt.UnknownKeywordBeforeArity | union-code/union/modules.py:147 | an unknown keyword is reported before too many positional arguments |
| ConvNeXt.KeywordsInCallOrder | union-code/union/modules.py:147 | a keyword re-binding a positional parameter is reported before a later unknown keyword |
| ConvNeXt.PositionalCallBinds | union-code/union/convchain.py:53 | ConvChain's call shape binds to the intended stage with expand 3 |
| ConvNeXt.KeywordCallBinds | union-code/union/unet.py:46 | with the flag spelled norm, the Unet's all-keyword call shape binds to the intended stage |
| ConvNeXt.KeywordCallLookups | union-code/union/unet.py:46 | in that call each parameter finds its own keyword argument and expand finds none |
| ConvNeXt.UnknownKeywordRaises | union-code/union/modules.py:147 | a keyword outside the signature raises TypeError whatever the other arguments |
| ConvNeXt.UseNormRaises | union-code/union/unet.py:46 | a stage call with use_norm= fails |
| ConvNeXt.ConditionedContract | union-code/union/modules.py:179-185 | depthwise conv plus conditioning succeeds exactly on accepted inputs and keeps x's shape |
| ConvNeXt.ConditionedOn | union-code/union/modules.py:179-185 | the same for any stage with that depthwise convolution and embedding projection |
| ConvNeXt.ConditionAdd | union-code/union/modules.py:185 | the in-place add of a per-channel embedding succeeds iff its batch is h's or 1, and leaves h's shape |
| ConvNeXt.BlockContract | union-code/union/modules.py:166-171 | the block maps (N, in_dim, H, W) to (N, out_dim, H, W) |
| ConvNeXt.ResidualContract | union-code/union/modules.py:173-176 | the residual projection maps (N, in_dim, H, W) to (N, out_dim, H, W) |
| ConvNeXt.StageForward | union-code/union/modules.py:178-188 | the output of a stage's forward pass; its contract is ConvNeXt.StageContract |
| ConvNeXt.StageContract | union-code/union/modules.py:178-188 | a stage succeeds iff x has in_dim channels and is non-empty and, when conditioned, the embedding has emb_dim features and batch N or 1; the output is (N, out_dim, H, W) |
| ConvNeXt.MissingEmbeddingRaises | union-code/union/modules.py:181-183 | a conditioned stage called without an embedding raises the ValueError |
| ConvNeXt.UnconditionedIgnoresEmbedding | union-code/union/modules.py:181 | a stage without emb_dim gives the same result whatever embedding it is passed |
| Utils.Fallback | union-code/union/modules.py:15-16 | a present value is returned (even a falsy one); otherwise the default, called when it is a function |
| Utils.FallbackIdempotent | union-code/union/modules.py:15-16 | falling back on a value already chosen keeps it |
| Utils.FallbackThunkAgrees | union-code/union/modules.py:15-16 | a default value and a function returning it give the same result |
| Utils.FloorDiv | union-code/union/modules.py:28 | Python's // : the quotient rounded toward negative infinity, for either sign of divisor |
| Utils.FloorMod | union-code/union/modules.py:29 | Python's % : quotient times divisor plus remainder is the dividend, with the remainder taking the divisor's sign |
| Utils.Repeat | union-code/union/modules.py:30 | [x] * n has max(n, 0) elements, all x |
| Utils.SumRepeat | union-code/union/modules.py:30 | n copies of x sum to x * n |
| Utils.SplitIntoBatches | union-code/union/modules.py:23-33 | size 0 raises ZeroDivisionError; otherwise a list is returned, a partition of a non-negative total, and the exact outcome for negative totals and sizes |
| Utils.PartitionOfNonNegative | union-code/union/modules.py:28-32 | full batches then the positive remainder sum to total, each lies in (0, size], all but the last are full, and there are total // size (+1) of them |
| Utils.EmaUpdate | union-code/union/modules.py:52-55 | an uninitialised old value yields new; a missing new value next to a present old one raises TypeError; otherwise a value is produced |
| Utils.EmaEndpoints | union-code/union/modules.py:52-55 | beta 0 yields the new value and beta 1 the old one |
| Utils.EmaBetween | union-code/union/modules.py:52-55 | for beta in [0, 1] the average lies between the old and the new value |
| Utils.EmaFixedPoint | union-code/union/modules.py:55 | averaging a value with itself leaves it unchanged for any beta |
| Utils.FirstFailure | union-code/union/modules.py:47-50 | the length of the prefix of the zip walk that updates without raising, with the next pair raising |
| Utils.EmaApplied | union-code/union/modules.py:47-50 | the walked prefix is updated pairwise in order; unreached and unpaired target parameters are unchanged |
| Utils.UpdateModelParams | union-code/union/modules.py:47-50 | the array afterwards is the walked result, success iff no pair of the zip raises, the error a TypeError |
| Utils.ZeroBetaCopiesSource | union-code/union/modules.py:47-55 | with beta 0 the paired target parameters become the source's and the rest stay |
| Utils.OneBetaKeepsTarget | union-code/union/modules.py:47-55 | with beta 1 the target is left as it was |
| Utils.UninitialisedTargetCopies | union-code/union/modules.py:47-54 | an uninitialised target takes the source parameters as they are |
| ConvChain.ChDims | union-code/union/convchain.py:38-41 | per-stage widths are the given list, or depth copies of the single width |
| ConvChain.Half | union-code/union/convchain.py:57 | half_depth is the ceiling of depth / 2 |
| ConvChain.CeilHalf | union-code/union/convchain.py:57 | math.ceil(d / 2) for any integer d: the integer r with d <= 2r < d + 2 |
| ConvChain.HalfIsCeilHalf | union-code/union/convchain.py:57 | half_depth of a non-negative depth is math.ceil(depth / 2) |
| ConvChain.NegativeDepthAsZero | union-code/union/convchain.py:38-67 | for a negative depth every range of the constructor and forward is empty and `[w] * depth` is empty, exactly as for depth 0 |
| ConvChain.StageCallAtBinds | union-code/union/convchain.py:52-67 | the call the constructor makes for stage idx binds to that stage's spec |
| ConvChain.BuildStage | union-code/union/convchain.py:52-67 | building one stage yields that stage's spec |
| ConvChain.Build | union-code/union/convchain.py:15-89 | the constructor's stage-0 append and its two loops yield exactly the layout of the configuration, or its IndexError |
| ConvChain.ChainLayout | union-code/union/convchain.py:36-89 | the chain the constructor builds; its contracts are ConvChain.LayoutFacts, ConvChain.LayoutStages and ConvChain.LayoutWiring |
| ConvChain.LayoutFacts | union-code/union/convchain.py:44-89 | a built chain has max(depth, 1) stages with the specified widths, the final conv from ch_dims[-1], and encoders of ch_dims[0], the frame encoder iff frame conditioned |
| ConvChain.LayoutStages | union-code/union/convchain.py:52-67 | construction succeeds iff ch_dims is non-empty and has at least depth widths, else IndexError; for depth >= 1 it builds exactly depth stages, and only stage 0 is unnormalised |
| ConvChain.StageWiring | union-code/union/convchain.py:46-66 | stage idx projects embed_dim features to its in_dim and outputs ch_dims[idx] |
| ConvChain.LayoutWiring | union-code/union/convchain.py:52-70 | stage 0 reads in_channels, each down stage reads the previous output, each up stage twice it, and the final conv reads the last stage's output when len(ch_dims) == depth |
| ConvChain.UpStageWidth | union-code/union/convchain.py:64-67 | an up stage's declared in_dim equals the width of cat(x, skipped) iff ch_dims[idx-1] == ch_dims[2 half - 1 - idx] |
| ConvChain.UniformWidthsAgree | union-code/union/convchain.py:41 | with a single filter width every up stage's declared width equals what it receives |
| ConvChain.EmbeddingWidthAgrees | union-code/union/convchain.py:109-113 | the embedding passed on has embed_dim features except when a frame-conditioned chain gets no frame_diff |
| ConvChain.CombinedEmbedding | union-code/union/convchain.py:106-113 | the embedding forward passes to every stage; its contract is ConvChain.CombinedEmbeddingContract |
| ConvChain.CombinedEmbeddingContract | union-code/union/convchain.py:106-113 | the combined embedding succeeds iff the encoders accept ch_dims[0] and the frame batch matches the time batch; its width is time plus frame width |
| ConvChain.StageAtContract | union-code/union/convchain.py:121 | a stage of the chain succeeds exactly on accepted inputs and outputs ch_dims[idx] channels at the same size |
| ConvChain.LifoPairingStep | union-code/union/convchain.py:125-126 | popping the skip of down stage half - 1 - k at up stage half + k extends the LIFO pairing |
| ConvChain.IsSkipStackPush | union-code/union/convchain.py:122 | appending down stage n's output extends the skip stack to n entries |
| ConvChain.IsSkipStackPop | union-code/union/convchain.py:126 | the top of an n-entry skip stack is stage n-1's output, and popping it leaves the (n-1)-entry stack |
| ConvChain.IsSkipStackOrigins | union-code/union/convchain.py:117-122 | an n-entry stack holds the outputs of stages 0 .. n-1 in push order |
| ConvChain.DownPath | union-code/union/convchain.py:120-122 | the down loop succeeds iff the input is accepted (or there is no down stage); it pushes ceil(D/2) skips, stage i's output at position i, and returns the last down output |
| ConvChain.UpStageContract | union-code/union/convchain.py:125-128 | an up stage fed the current features and the popped skip succeeds iff its widths agree, outputting ch_dims[idx] channels |
| ConvChain.UpLoopPop | union-code/union/convchain.py:126 | inside the up loop the pop never finds an empty list and returns the skip of down stage 2 half - 1 - idx |
| ConvChain.UpLoopStep | union-code/union/convchain.py:125-128 | one up stage preserves the loop invariant: one skip fewer, one more LIFO pair |
| ConvChain.RunUpStage | union-code/union/convchain.py:126-128 | one pass of the up loop succeeds iff the stage's widths agree and then keeps the invariant |
| ConvChain.UpLoopDone | union-code/union/convchain.py:125-128 | after the up loop floor(D/2) pops have been made in LIFO order and D mod 2 skips remain |
| ConvChain.UpPath | union-code/union/convchain.py:125-128 | the up loop succeeds iff every up stage's widths agree; output width ch_dims[D-1], LIFO pairs, D mod 2 skips left |
| ConvChain.ChainAcceptsByStage | union-code/union/convchain.py:91-131 | the acceptance condition of forward, stage by stage: the encoders, the down path's input, every up stage's widths, the final conv's width |
| ConvChain.Forward | union-code/union/convchain.py:91-131 | forward succeeds iff the input is accepted, returns (N, out_channels, H, W), pushes ceil(D/2) skips, pops floor(D/2) in LIFO order and leaves D mod 2 |
| Unet.Dims | union-code/union/unet.py:20 | dims has one width per multiplier plus the input channels |
| Unet.DimsAt | union-code/union/unet.py:20 | dims[0] is channels and dims[i] is dim * dim_mults[i-1] |
| Unet.InOut | union-code/union/unet.py:21 | in_out has one pair per multiplier |
| Unet.InOutAt | union-code/union/unet.py:21 | in_out[i] is the consecutive pair (dims[i], dims[i+1]) |
| Unet.StageCallResult | union-code/union/unet.py:46 | a stage call binds to the intended stage when the flag is spelled norm, and raises TypeError for a keyword the stage lacks |
| Unet.CallStage | union-code/union/unet.py:46 | the same, as the constructor's call |
| Unet.BuildDownLevel | union-code/union/unet.py:43-50 | a down level is built as specified once the flag is spelled norm, and raises TypeError as written |
| Unet.BuildUpLevel | union-code/union/unet.py:63-70 | an up level is built as specified once the flag is spelled norm, and raises TypeError as written |
| Unet.BuildDowns | union-code/union/unet.py:43-50 | the down loop builds every level, or raises at the first one as written |
| Unet.BuildUps | union-code/union/unet.py:63-70 | the up loop builds len(in_out) - 1 levels, or raises at the first one as written |
| Unet.BuildMid | union-code/union/unet.py:55-58 | the middle block is built at dims[-1], or raises as written |
| Unet.BuildUnet | union-code/union/unet.py:7-79 | the constructor with the flag spelled norm yields the layout of the configuration; with use_norm= it raises TypeError |
| Unet.UnetLayout | union-code/union/unet.py:7-79 | the Unet the constructor builds with norm= spelled right; its contracts are Unet.BuildUnet, Unet.DownResampling, Unet.UpResampling, Unet.UpConcatWidth and Unet.FinalWidthAgrees |
| Unet.DownResampling | union-code/union/unet.py:44-49 | exactly the last down level uses the identity; every other one uses Down2x at its output width |
| Unet.UpResampling | union-code/union/unet.py:63-69 | every up level ends in Up2x at its output width: is_last is never true |
| Unet.UpConcatWidth | union-code/union/unet.py:63-70 | at each up level the current features and the popped skip both have dim_out_ channels, and the first stage declares their sum |
| Unet.FinalWidthAgrees | union-code/union/unet.py:76-79 | the last up level outputs dim * dim_mults[0]; the final stage expects dim; they agree iff dim_mults[0] == 1 |
| Unet.ScaleIsIdentity | union-code/union/unet.py:20 | scaling a positive dim gives dim back iff the multiplier is 1 |
| Unet.OutDimDefault | union-code/union/unet.py:73 | the output width is out_dim when given, else channels |
| Unet.LevelSizeAtLeast | union-code/union/unet.py:95 | after i halvings at least c remain iff the size is at least c * 2^i |
| Unet.LevelSizeShrinks | union-code/union/unet.py:95 | more halvings never give a larger size |
| Unet.HalvableIff | union-code/union/unet.py:90-95 | n down-samplings all succeed iff the size is at least 2^n |
| Unet.LevelSizePositive | union-code/union/unet.py:90-95 | after successful halvings every level's size is non-empty |
| Unet.DownLevelForward | union-code/union/unet.py:90-93 | one down level's stages and attention; its contract is Unet.DownLevelContract |
| Unet.DownLevelContract | union-code/union/unet.py:90-93 | a down level's stages and attention succeed exactly on fitting inputs and output dims[idx+1] channels at the same size |
| Unet.MidForward | union-code/union/unet.py:100-102 | the middle block; its contract is Unet.MidContract |
| Unet.MidContract | union-code/union/unet.py:100-102 | the middle block succeeds exactly on fitting inputs and keeps the shape |
| Unet.UpLevelForward | union-code/union/unet.py:107-117 | one up level; its contract is Unet.UpLevelContract |
| Unet.UpLevelContract | union-code/union/unet.py:107-117 | an up level given features and a skip of dim_out_ channels outputs dim_in channels at twice the skip's size |
| Unet.TwoStagesContract | union-code/union/unet.py:114-115 | a level's two stages map w to w' channels and keep the spatial size |
| Unet.IsLevelStackPush | union-code/union/unet.py:94 | pushing level n's output extends the skip stack to n entries |
| Unet.IsLevelStackPop | union-code/union/unet.py:109 | the top of an n-entry stack is level n-1's skip, and popping it leaves the (n-1)-entry stack |
| Unet.IsLevelStackOrigins | union-code/union/unet.py:90-94 | an n-entry stack holds the skips of levels 0 .. n-1 in push order |
| Unet.DownResampleContract | union-code/union/unet.py:95 | a level's resampling succeeds iff it is the last level or the size is at least 2, and yields the next level's size |
| Unet.DownStepFails | union-code/union/unet.py:90-95 | a failing pass of the down loop means the input is not accepted |
| Unet.DownStepSucceeds | union-code/union/unet.py:90-95 | a successful pass pushes that level's skip and establishes the invariant for the next level |
| Unet.DownInvariantNext | union-code/union/unet.py:90-95 | the down-loop invariant advances by one level |
| Unet.HalvableNext | union-code/union/unet.py:95 | one more successful halving extends the halvable prefix |
| Unet.DownInvariantDone | union-code/union/unet.py:90-95 | after the down loop the input is accepted and the features are at dims[-1] and the deepest level's size |
| Unet.RunDownLevel | union-code/union/unet.py:91-95 | one pass of the down loop either proves the input unaccepted or pushes the level's skip and keeps the invariant |
| Unet.DownPath | union-code/union/unet.py:90-95 | the down loop succeeds iff the input is accepted, pushes len(in_out) skips, level i's at position i, and returns dims[-1] channels at the deepest size |
| Unet.UpPairingStep | union-code/union/unet.py:109 | popping level k - 1 - j's skip at up level j extends the LIFO pairing |
| Unet.UpPop | union-code/union/unet.py:109 | inside the up loop the pop never finds an empty list and returns the skip of down level k - 1 - j |
| Unet.UpAdvance | union-code/union/unet.py:107-117 | one up level keeps the loop invariant: one skip fewer, one more LIFO pair |
| Unet.UpReady | union-code/union/unet.py:109-112 | in the up loop the current features and the skip on top are what the next up level needs |
| Unet.ApplyUpLevel | union-code/union/unet.py:111-117 | an up level applied to fitting features and skip outputs dim_in channels at twice the skip's size |
| Unet.RunUpLevel | union-code/union/unet.py:107-117 | one pass of the up loop keeps the invariant |
| Unet.UpDone | union-code/union/unet.py:107-117 | after the up loop the features have dims[1] channels and the highest-resolution skip alone remains |
| Unet.UpPath | union-code/union/unet.py:107-117 | the up loop pops len(in_out) - 1 skips in LIFO order, never underflows, and leaves level 0's skip |
| Unet.TimeEmbeddingContract | union-code/union/unet.py:83 | the time embedding succeeds iff the MLP (when present) accepts dim, fits the batch iff its batch is N or 1, and is None without an MLP |
| Unet.RunTimeEmbedding | union-code/union/unet.py:83 | the same, as forward computes it |
| Unet.RunMid | union-code/union/unet.py:100-102 | the middle block as forward runs it: success exactly on fitting inputs, shape kept |
| Unet.RunFinal | union-code/union/unet.py:120-121 | the final resize, stage and 1x1 conv succeed iff the features have dim channels and give out_dim channels at the requested size |
| Unet.Forward | union-code/union/unet.py:81-121 | forward succeeds iff the input is accepted, returns (N, out_dim, H, W) at the input's size, pushes len(in_out) skips, pops one fewer in LIFO order and leaves the highest-resolution skip |
| Unet.SourcePatternRejectsEveryInput | union-code/union/modules.py:209-211 | with the q/k/v pattern as written, no input is accepted by the Unet's forward |
| Unet.FixedPatternAcceptsFittingInputs | union-code/union/modules.py:209-211 | with the corrected pattern, dim_mults[0] == 1, an even dim other than 2, matching channels and batch, and a size of at least 2^(k-1), forward succeeds |

## Left out

- Tensor values: convolution weights, GELU, softmax, the attention einsums, the normalisation statistics and eps, and the sin/cos values. Only shapes and widths are modelled.
- The chunk into q, k, v and the attention scale: only the shape contract of the attention layers and einops' pattern checks are modelled.
- `resize` comes from a library that is not part of this model. Only its contract is modelled: the requested spatial size, channels kept.
- torch's validation of zero or negative channel counts and of `groups=in_dim`: widths are `nat`, and a zero width is accepted.
- `cycle_iter`: an infinite generator over an external data loader.
- `main.py`: training orchestration, I/O, logging and plotting.
- Devices, autograd and `.detach()`, parameter counting and checkpointing.
- `is_not_none` is inlined as the `Some?`/`None?` test of an `Option`.
- The timestep and frame-difference tensors are reduced to their lengths.
- `Utils.UpdateModelParams`: each parameter is one `real`, not a float tensor, so float rounding is not modelled. `parameters()` is given as an array and a sequence in iteration order. `ExpMovingAvg` keeps no state but beta, so it is not a class.
- `ConvChain.Half`: `math.ceil(depth / 2)` goes through a float. The integer ceiling is used, so rounding for depths beyond 2^53 is not modelled.
- `ConvChain.ChainConfig`: a list and a tuple of widths are the same; a non-integer `filters_per_layer` is not modelled.
- `ConvChain.ChainConfig`: `depth` is a `nat`. A negative depth builds and runs as depth 0 does (`ConvChain.NegativeDepthAsZero`): one stage from a list of widths, and an IndexError from a single width. So the model admits only depth >= 0, and the stored negative `self.depth` is not modelled.
- `Unet.BuildUnet`: the result is stated for the keyword `norm` and for keywords the stage does not have; for the other names of the signature (`in_dim`, `expand`) the Unet's call is bound by `ConvNeXt.ConstructStage`, but no contract of `Unet.BuildUnet` states the result.
- `ConvNeXt.ConstructStage`: the TypeError messages are fixed prefixes of CPython's, without the argument names and counts.
- `Unet.Forward` and `ConvChain.Forward` state the skip trace only for a successful pass.

## Findings

| source | as written | input that shows it | evidently intended | confidence | as-written member | corrected member |
|---|---|---|---|---|---|---|
| union-code/union/unet.py:46 | every stage is constructed with `use_norm=`, which `ConvNeXtStage(in_dim, out_dim, *, emb_dim=None, expand=3, norm=True)` does not accept, so `Unet(...)` raises TypeError | `Unet(dim=64)` with any arguments | pass the flag as `norm=` | not executed | ConvNeXt.UseNormRaises | Unet.BuildUnet |
| union-code/union/modules.py:209-211 | the q/k/v pattern `'b (hd) x y -> b h d (x y)'` names `hd` on the left and `h`, `d` on the right, so einops rejects it and every attention forward raises | any input reaching the first attention layer | `'b (h d) x y -> b h d (x y)'` | not executed | Attention.SourceQkvPatternRejected | Attention.FixedQkvPatternAccepted |

The first row at Unet level: `Unet.BuildUnet` with `normKeyword = "use_norm"` yields `Err(TypeError)` (its second `ensures`, through `ConvNeXt.UseNormRaises`). With `"norm"` it yields `UnetLayout`, which the forward pass uses.

The second row at Unet level:

- as written, `Unet.SourcePatternRejectsEveryInput`: no input passes the forward with the pattern as written;
- corrected, `Unet.FixedPatternAcceptsFittingInputs`: the forward accepts inputs built to fit the configuration.

The same pattern is written at `union-code/union/modules.py:233-235` in `FullAttention`. Both attention variants take the pattern as a parameter, so the fix covers both.
