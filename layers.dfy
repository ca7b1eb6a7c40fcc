/** The small building blocks of union/modules.py at shape level: the
    sinusoidal positional embedding and the encoder built on it, the 2x
    down/up samplers, channel-wise layer normalisation and the two wrappers
    around a transform (pre-normalisation and residual add). */
module Layers {
  import opened Shapes

  /** SineCosinePosEmb(embDim) applied to a 1-d tensor of `batch` scalars.
      half = embDim // 2 frequencies; the exponent divides by half - 1, which
      raises in Python when half == 1 (embDim 2 or 3). Output (batch, 2 half). */
  function PosEmbForward(embDim: nat, batch: nat): Result<Emb>
  {
    var half := embDim / 2;
    if half - 1 == 0 then Err(ZeroDivisionError)
    else Ok(Emb(batch, 2 * half))
  }

  /** The output width is 2 (embDim // 2): it equals embDim exactly for even
      embDim; embDim 2 and 3 divide by zero. */
  lemma PosEmbWidth(embDim: nat, batch: nat)
    ensures PosEmbForward(embDim, batch).Err? <==> embDim == 2 || embDim == 3
    ensures PosEmbForward(embDim, batch).Ok? ==>
              PosEmbForward(embDim, batch).value.batch == batch &&
              PosEmbForward(embDim, batch).value.width == 2 * (embDim / 2) &&
              (PosEmbForward(embDim, batch).value.width == embDim <==> embDim % 2 == 0)
  {
  }

  /** Sequential(SineCosinePosEmb(dim), Linear(dim, 4 dim), GELU, Linear(4 dim, dim)):
      the time encoder (and frame encoder) of both backbones. */
  datatype Encoder = Encoder(dim: nat)

  function EncoderForward(enc: Encoder, batch: nat): Result<Emb>
  {
    var p :- PosEmbForward(enc.dim, batch);
    var a :- LinearForward(Linear(enc.dim, 4 * enc.dim), p);
    LinearForward(Linear(4 * enc.dim, enc.dim), a)
  }

  /** The encoder works for exactly the even widths other than 2; an odd width
      yields dim - 1 features, which the first Linear refuses. */
  predicate EncoderAccepts(dim: nat)
  {
    dim % 2 == 0 && dim != 2
  }

  lemma EncoderContract(enc: Encoder, batch: nat)
    ensures EncoderForward(enc, batch).Ok? <==> EncoderAccepts(enc.dim)
    ensures EncoderForward(enc, batch).Ok? ==> EncoderForward(enc, batch).value == Emb(batch, enc.dim)
  {
    PosEmbWidth(enc.dim, batch);
  }

  /** Up2x / Down2x: the 2x resampling operators, or nn.Identity. */
  datatype Resample = NoResample | Down2x(channels: nat) | Up2x(channels: nat)

  function ResampleForward(op: Resample, x: Shape): Result<Shape>
  {
    match op
    case NoResample => Ok(x)
    case Down2x(c) => Conv2dForward(Conv2d(c, c, 4, 2, 1), x)
    case Up2x(c) => ConvTranspose2dForward(ConvTranspose2d(c, c, 4, 2, 1), x)
  }

  /** Down2x maps H to floor(H / 2) and refuses H < 2; channels are unchanged. */
  lemma Down2xShape(c: nat, x: Shape)
    ensures ResampleForward(Down2x(c), x).Ok? <==> x.channels == c && x.height >= 2 && x.width >= 2
    ensures ResampleForward(Down2x(c), x).Ok? ==>
              ResampleForward(Down2x(c), x).value == Shape(x.batch, c, x.height / 2, x.width / 2)
  {
    StridedHalves(x.height);
    StridedHalves(x.width);
  }

  /** Up2x maps H to 2 H for every non-empty input; channels are unchanged. */
  lemma Up2xShape(c: nat, x: Shape)
    ensures ResampleForward(Up2x(c), x).Ok? <==> x.channels == c && x.height >= 1 && x.width >= 1
    ensures ResampleForward(Up2x(c), x).Ok? ==>
              ResampleForward(Up2x(c), x).value == Shape(x.batch, c, 2 * x.height, 2 * x.width)
  {
    TransposedDoubles(x.height);
    TransposedDoubles(x.width);
  }

  /** Down2x followed by Up2x restores an even size and loses one row (column)
      of an odd one. */
  lemma DownUpRoundTrip(c: nat, x: Shape)
    requires x.channels == c && x.height >= 2 && x.width >= 2
    ensures ResampleForward(Down2x(c), x).Ok?
    ensures var y := ResampleForward(Up2x(c), ResampleForward(Down2x(c), x).value);
            y == Ok(Shape(x.batch, c, x.height - x.height % 2, x.width - x.width % 2))
  {
    Down2xShape(c, x);
    var d := ResampleForward(Down2x(c), x).value;
    Up2xShape(c, d);
  }

  /** Up2x followed by Down2x gives back every non-empty input. */
  lemma UpDownRoundTrip(c: nat, x: Shape)
    requires x.channels == c && x.height >= 1 && x.width >= 1
    ensures ResampleForward(Up2x(c), x).Ok?
    ensures ResampleForward(Down2x(c), ResampleForward(Up2x(c), x).value) == Ok(x)
  {
    Up2xShape(c, x);
    Down2xShape(c, ResampleForward(Up2x(c), x).value);
  }

  /** SpatialLayerNorm(dim): (x - mean) / sqrt(var + eps) * gain + bias, with
      gain and bias of shape (1, dim, 1, 1); only the broadcast shape matters. */
  function NormForward(dim: nat, x: Shape): Result<Shape>
  {
    Elementwise(x, Shape(1, dim, 1, 1))
  }

  lemma NormPreservesShape(dim: nat, x: Shape)
    ensures x.channels == dim ==> NormForward(dim, x) == Ok(x)
    ensures NormForward(dim, x).Ok? <==> x.channels == dim || x.channels == 1 || dim == 1
  {
  }

  /** PreNormalization(dim, fn): fn(norm(x)). */
  function PreNormalization(dim: nat, fn: Shape -> Result<Shape>, x: Shape): Result<Shape>
  {
    var n :- NormForward(dim, x);
    fn(n)
  }

  /** ResidualAdd(fn): x + fn(x). */
  function ResidualAdd(fn: Shape -> Result<Shape>, x: Shape): Result<Shape>
  {
    var y :- fn(x);
    Elementwise(x, y)
  }

  /** Pre-normalisation does not change what the wrapped transform sees. */
  lemma PreNormalizationTransparent(dim: nat, fn: Shape -> Result<Shape>, x: Shape)
    requires x.channels == dim
    ensures PreNormalization(dim, fn, x) == fn(x)
  {
    NormPreservesShape(dim, x);
  }

  /** The residual wrapper keeps x's shape when the wrapped transform does, and
      fails when the transform fails. */
  lemma ResidualAddPreservesShape(fn: Shape -> Result<Shape>, x: Shape)
    ensures fn(x) == Ok(x) ==> ResidualAdd(fn, x) == Ok(x)
    ensures fn(x).Err? ==> ResidualAdd(fn, x) == Err(fn(x).error)
  {
    ElementwiseSame(x);
  }
}
