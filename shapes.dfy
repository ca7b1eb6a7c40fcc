/** Shape-level abstraction of the tensors and torch layers the backbones are
    built from. A feature map is reduced to its shape (batch, channels, height,
    width) and a conditioning vector to (batch, width); every layer becomes a
    function from input shape to output shape that fails where torch raises. */
module Shapes {

  /** The Python exceptions the modelled code can raise. */
  datatype Error =
    | IndexError(msg: string)
    | TypeError(msg: string)
    | ValueError(msg: string)
    | ZeroDivisionError
    | RuntimeError(msg: string)
    | EinopsError(msg: string)

  datatype Option<+T> = None | Some(value: T)

  datatype Result<+T> = Ok(value: T) | Err(error: Error) {
    predicate IsFailure() { Err? }
    function PropagateFailure<U>(): Result<U>
      requires Err?
    {
      Err(error)
    }
    function Extract(): T
      requires Ok?
    {
      value
    }
  }

  const PopFromEmpty: string := "pop from empty list"
  const IndexOutOfRange: string := "list index out of range"

  /** A 4-d feature map (N, C, H, W) */
  datatype Shape = Shape(batch: nat, channels: nat, height: nat, width: nat)

  /** A 2-d conditioning vector (B, D) */
  datatype Emb = Emb(batch: nat, width: nat)

  /** nn.Conv2d(inC, outC, kernel, stride, padding) with square kernels */
  datatype Conv2d = Conv2d(inC: nat, outC: nat, kernel: nat, stride: nat, padding: nat)

  /** nn.ConvTranspose2d(inC, outC, kernel, stride, padding) */
  datatype ConvTranspose2d = ConvTranspose2d(inC: nat, outC: nat, kernel: nat, stride: nat, padding: nat)

  /** nn.Linear(inF, outF) */
  datatype Linear = Linear(inF: nat, outF: nat)

  /** Output size of a convolution along one axis: floor((size + 2p - k) / s) + 1.
      torch refuses an empty input and a kernel larger than the padded input. */
  function ConvOutSize(size: nat, kernel: nat, stride: nat, padding: nat): (r: Result<nat>)
    ensures r.Ok? <==> size >= 1 && stride >= 1 && size + 2 * padding >= kernel
  {
    if size == 0 || stride == 0 || size + 2 * padding < kernel then
      Result<nat>.Err(RuntimeError("Kernel size can't be greater than actual input size"))
    else
      Ok((size + 2 * padding - kernel) / stride + 1)
  }

  /** The output size is the number of kernel positions that fit: at least
      one, the last one starting within the padded input and the next one not. */
  lemma ConvOutSizeBounds(size: nat, kernel: nat, stride: nat, padding: nat)
    ensures var r := ConvOutSize(size, kernel, stride, padding);
            r.Ok? ==> r.value >= 1 && (r.value - 1) * stride <= size + 2 * padding - kernel
                      && size + 2 * padding - kernel < r.value * stride
  {
  }

  /** Output size of a transposed convolution along one axis: (size - 1) s - 2p + k. */
  function TransposedOutSize(size: nat, kernel: nat, stride: nat, padding: nat): Result<nat>
  {
    var out := (size - 1) * stride - 2 * padding + kernel;
    if size == 0 || out < 1 then Err(RuntimeError("output size is too small"))
    else Ok(out)
  }

  /** A transposed convolution accepts a non-empty input whose output is at
      least one, and inverts the convolution with the same kernel, stride and
      padding: convolving its output gives the input size back. */
  lemma TransposedOutSizeContract(size: nat, kernel: nat, stride: nat, padding: nat)
    ensures var r := TransposedOutSize(size, kernel, stride, padding);
            && (r.Ok? <==> size >= 1 && (size - 1) * stride + kernel > 2 * padding)
            && (r.Ok? && stride >= 1 ==> ConvOutSize(r.value, kernel, stride, padding) == Ok(size))
  {
    var r := TransposedOutSize(size, kernel, stride, padding);
    if r.Ok? && stride >= 1 {
      var a: nat := size - 1;
      var span := a * stride;
      assert r.value + 2 * padding - kernel == span;
      MulDivCancel(a, stride, span);
    }
  }

  /** (a * s) / s == a, with the product passed as an atom */
  lemma MulDivCancel(a: nat, s: nat, p: nat)
    requires s >= 1 && p == a * s
    ensures p / s == a
  {
    var q, m := p / s, p % s;
    assert p == q * s + m && 0 <= m < s;
    if q < a {
      MulAtLeast(a - q, s, a * s - q * s);
    } else if q > a {
      MulAtLeast(q - a, s, q * s - a * s);
    }
  }

  /** d * s >= s for d >= 1, with the product passed as an atom */
  lemma MulAtLeast(d: int, s: nat, p: int)
    requires d >= 1 && p == d * s
    ensures p >= s
  {
    var e: nat := d - 1;
    assert p == e * s + s;
  }

  function Conv2dForward(c: Conv2d, x: Shape): (r: Result<Shape>)
    ensures r.Ok? <==> x.channels == c.inC && ConvOutSize(x.height, c.kernel, c.stride, c.padding).Ok?
                       && ConvOutSize(x.width, c.kernel, c.stride, c.padding).Ok?
    ensures r.Ok? ==> r.value.batch == x.batch && r.value.channels == c.outC
  {
    if x.channels != c.inC then Err(RuntimeError("expected input to have inC channels"))
    else
      var h :- ConvOutSize(x.height, c.kernel, c.stride, c.padding);
      var w :- ConvOutSize(x.width, c.kernel, c.stride, c.padding);
      Ok(Shape(x.batch, c.outC, h, w))
  }

  function ConvTranspose2dForward(c: ConvTranspose2d, x: Shape): (r: Result<Shape>)
    ensures r.Ok? <==> x.channels == c.inC && TransposedOutSize(x.height, c.kernel, c.stride, c.padding).Ok?
                       && TransposedOutSize(x.width, c.kernel, c.stride, c.padding).Ok?
    ensures r.Ok? ==> r.value.batch == x.batch && r.value.channels == c.outC
  {
    if x.channels != c.inC then Err(RuntimeError("expected input to have inC channels"))
    else
      var h :- TransposedOutSize(x.height, c.kernel, c.stride, c.padding);
      var w :- TransposedOutSize(x.width, c.kernel, c.stride, c.padding);
      Ok(Shape(x.batch, c.outC, h, w))
  }

  function LinearForward(l: Linear, e: Emb): (r: Result<Emb>)
    ensures r.Ok? <==> e.width == l.inF
    ensures r.Ok? ==> r.value == Emb(e.batch, l.outF)
  {
    if e.width != l.inF then Err(RuntimeError("mat1 and mat2 shapes cannot be multiplied"))
    else Ok(Emb(e.batch, l.outF))
  }

  /** Broadcasting of one dimension: equal sizes, or one of them is 1. */
  function Broadcast(a: nat, b: nat): (r: Result<nat>)
    ensures r.Ok? <==> a == b || a == 1 || b == 1
    ensures r.Ok? ==> (r.value == a || r.value == b) && (a != 1 ==> r.value == a) && (b != 1 ==> r.value == b)
  {
    if a == b then Ok(a)
    else if a == 1 then Ok(b)
    else if b == 1 then Ok(a)
    else Err(RuntimeError("The size of tensor a must match the size of tensor b"))
  }

  /** Shape of an element-wise binary operation (a + b, a * b) on 4-d tensors. */
  function Elementwise(a: Shape, b: Shape): Result<Shape>
  {
    var n :- Broadcast(a.batch, b.batch);
    var c :- Broadcast(a.channels, b.channels);
    var h :- Broadcast(a.height, b.height);
    var w :- Broadcast(a.width, b.width);
    Ok(Shape(n, c, h, w))
  }

  /** `a += b`: broadcasting must reproduce a's own shape. */
  function AddInPlace(a: Shape, b: Shape): Result<Shape>
  {
    var s :- Elementwise(a, b);
    if s != a then Err(RuntimeError("output with shape doesn't match the broadcast shape"))
    else Ok(a)
  }

  lemma ElementwiseSame(a: Shape)
    ensures Elementwise(a, a) == Ok(a)
  {
  }

  /** Sizes x and y of one axis broadcast against each other */
  predicate Compatible(x: nat, y: nat)
  {
    x == y || x == 1 || y == 1
  }

  /** The broadcast size of one axis: the side that is not 1 */
  function Wider(x: nat, y: nat): nat
  {
    if x == 1 then y else x
  }

  /** An element-wise operation succeeds iff every axis broadcasts, gives each
      axis the side that is not 1, and does not depend on operand order. */
  lemma ElementwiseContract(a: Shape, b: Shape)
    ensures Elementwise(a, b).Ok? <==> Compatible(a.batch, b.batch) && Compatible(a.channels, b.channels)
                                        && Compatible(a.height, b.height) && Compatible(a.width, b.width)
    ensures Elementwise(a, b).Ok? ==>
              Elementwise(a, b).value == Shape(Wider(a.batch, b.batch), Wider(a.channels, b.channels),
                                               Wider(a.height, b.height), Wider(a.width, b.width))
    ensures Elementwise(a, b) == Elementwise(b, a)
  {
  }

  /** `a += b` succeeds iff each axis of b is a's or 1, and leaves a's shape. */
  lemma AddInPlaceContract(a: Shape, b: Shape)
    ensures AddInPlace(a, b).Ok? <==> (b.batch == a.batch || b.batch == 1) && (b.channels == a.channels || b.channels == 1)
                                       && (b.height == a.height || b.height == 1) && (b.width == a.width || b.width == 1)
    ensures AddInPlace(a, b).Ok? ==> AddInPlace(a, b).value == a
  {
  }

  /** torch.cat((a, b), dim=1) */
  function CatChannels(a: Shape, b: Shape): (r: Result<Shape>)
    ensures r.Ok? <==> a.batch == b.batch && a.height == b.height && a.width == b.width
    ensures r.Ok? ==> r.value == a.(channels := a.channels + b.channels)
  {
    if a.batch != b.batch || a.height != b.height || a.width != b.width then
      Err(RuntimeError("Sizes of tensors must match except in dimension 1"))
    else Ok(Shape(a.batch, a.channels + b.channels, a.height, a.width))
  }

  /** torch.cat([a, b], dim=1) on conditioning vectors */
  function CatEmb(a: Emb, b: Emb): (r: Result<Emb>)
    ensures r.Ok? <==> a.batch == b.batch
    ensures r.Ok? ==> r.value == Emb(a.batch, a.width + b.width)
  {
    if a.batch != b.batch then Err(RuntimeError("Sizes of tensors must match except in dimension 1"))
    else Ok(Emb(a.batch, a.width + b.width))
  }

  /** resize(x, out_shape=(h, w)): the interpolation library is foreign; only its
      contract is modelled: spatial size becomes the requested one. */
  function Resize(x: Shape, h: nat, w: nat): (r: Shape)
    ensures r.batch == x.batch && r.channels == x.channels && r.height == h && r.width == w
  {
    Shape(x.batch, x.channels, h, w)
  }

  /** A k x k convolution with stride 1 and padding (k - 1) / 2 keeps the size:
      the 7x7/pad 3, 3x3/pad 1 and 1x1/pad 0 convolutions of a stage. */
  lemma SamePaddingPreservesSize(size: nat, padding: nat)
    requires size >= 1
    ensures ConvOutSize(size, 2 * padding + 1, 1, padding) == Ok(size)
  {
  }

  /** Conv2d(k=4, s=2, p=1) halves (rounding down); input 1 is too small. */
  lemma StridedHalves(size: nat)
    ensures ConvOutSize(size, 4, 2, 1) == if size >= 2 then Ok(size / 2) else Err(RuntimeError("Kernel size can't be greater than actual input size"))
  {
  }

  /** ConvTranspose2d(k=4, s=2, p=1) doubles; empty input is refused. */
  lemma TransposedDoubles(size: nat)
    ensures TransposedOutSize(size, 4, 2, 1) == if size >= 1 then Ok(2 * size) else Err(RuntimeError("output size is too small"))
  {
  }
}

/** The skip connections of a forward pass. A skip carries the index of the
    stage or level that produced it so that the pairing can be stated. */
module Skips {
  import opened Shapes

  datatype Skip = Skip(origin: nat, shape: Shape)

  /** What happened to the skip list during one forward pass: producer indices
      in push order, (consumer, producer) pairs in pop order, and the
      producers still on the list when the pass returns. */
  datatype SkipTrace = SkipTrace(pushed: seq<nat>, popped: seq<(nat, nat)>, left: seq<nat>)

  function Origins(s: seq<Skip>): (r: seq<nat>)
    ensures |r| == |s| && forall i :: 0 <= i < |s| ==> r[i] == s[i].origin
  {
    seq(|s|, i requires 0 <= i < |s| => s[i].origin)
  }

  /** 0, 1, ..., n - 1 */
  function Upto(n: nat): (r: seq<nat>)
    ensures |r| == n && forall i :: 0 <= i < n ==> r[i] == i
  {
    seq(n, i => i)
  }
}
