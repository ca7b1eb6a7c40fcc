/** FastAttention and FullAttention at shape level, and the einops
    `rearrange` patterns they use. The tensor arithmetic (softmax, einsums) is
    not modelled; what is modelled is the shape contract (channels in =
    channels out) and einops' validation of the pattern strings. */
module Attention {
  import opened Shapes
  import opened Layers

  /** One term of an einops expression: a named axis or a parenthesised group. */
  datatype AxisTerm = Axis(name: string) | Group(names: seq<string>)

  /** `lhs -> rhs` */
  datatype Pattern = Pattern(lhs: seq<AxisTerm>, rhs: seq<AxisTerm>)

  function TermNames(t: AxisTerm): seq<string>
  {
    match t
    case Axis(n) => [n]
    case Group(ns) => ns
  }

  /** The identifiers of one side, in order of appearance. */
  function Names(side: seq<AxisTerm>): seq<string>
  {
    if side == [] then [] else TermNames(side[0]) + Names(side[1..])
  }

  /** No identifier occurs twice. */
  predicate NoRepeats(s: seq<string>)
  {
    s == [] || (s[0] !in s[1..] && NoRepeats(s[1..]))
  }

  /** Every identifier of a also occurs in b. */
  predicate AllIn(a: seq<string>, b: seq<string>)
  {
    a == [] || (a[0] in b && AllIn(a[1..], b))
  }

  lemma {:induction false} NoRepeatsMeansDistinct(s: seq<string>)
    ensures NoRepeats(s) <==> forall i, j :: 0 <= i < j < |s| ==> s[i] != s[j]
  {
    if s != [] {
      NoRepeatsMeansDistinct(s[1..]);
      if NoRepeats(s) {
        forall i, j | 0 <= i < j < |s| ensures s[i] != s[j] {
          if i == 0 { assert s[j] == s[1..][j - 1]; } else { assert s[i] == s[1..][i - 1] && s[j] == s[1..][j - 1]; }
        }
      } else if s[0] in s[1..] {
        var k :| 0 <= k < |s[1..]| && s[1..][k] == s[0];
        assert s[0] == s[k + 1];
      } else {
        var i, j :| 0 <= i < j < |s[1..]| && s[1..][i] == s[1..][j];
        assert s[i + 1] == s[j + 1];
      }
    }
  }

  lemma {:induction false} AllInMeansSubset(a: seq<string>, b: seq<string>)
    ensures AllIn(a, b) <==> forall n :: n in a ==> n in b
  {
    if a != [] {
      AllInMeansSubset(a[1..], b);
      assert a == [a[0]] + a[1..];
    }
  }

  /** einops' checks on a rearrange recipe, in the order einops makes them: no
      identifier twice on one side, the same identifiers on both sides, and
      every axis given a length by keyword used in the expression. */
  function RearrangeCheck(p: Pattern, lengths: seq<string>): Result<()>
  {
    var l := Names(p.lhs);
    var rr := Names(p.rhs);
    if !NoRepeats(l) || !NoRepeats(rr) then Err(EinopsError("Indexing expression contains duplicate dimension"))
    else if !AllIn(l, rr) || !AllIn(rr, l) then
      Err(EinopsError("Identifiers only on one side of expression (should be on both)"))
    else if !AllIn(lengths, l) then Err(EinopsError("Axis is not used in transform"))
    else Ok(())
  }

  /** A recipe is accepted exactly when each side names distinct identifiers,
      both sides name the same set, and every keyword axis is among them. */
  lemma RearrangeCheckContract(p: Pattern, lengths: seq<string>)
    ensures var l := Names(p.lhs); var rr := Names(p.rhs);
            RearrangeCheck(p, lengths).Ok? <==>
              && (forall i, j :: 0 <= i < j < |l| ==> l[i] != l[j])
              && (forall i, j :: 0 <= i < j < |rr| ==> rr[i] != rr[j])
              && (forall n :: n in l <==> n in rr)
              && (forall n :: n in lengths ==> n in l)
  {
    var l := Names(p.lhs);
    var rr := Names(p.rhs);
    NoRepeatsMeansDistinct(l);
    NoRepeatsMeansDistinct(rr);
    AllInMeansSubset(l, rr);
    AllInMeansSubset(rr, l);
    AllInMeansSubset(lengths, l);
  }

  /** The check einops makes of the q, k, v pattern (h is given by keyword). */
  predicate QkvAccepted(qkv: Pattern)
  {
    RearrangeCheck(qkv, ["h"]).Ok?
  }

  /** 'b (hd) x y -> b h d (x y)', as written for q, k and v in both variants:
      the group holds the single identifier hd, while h and d appear only on the
      right. */
  function SourceQkvPattern(): Pattern
  {
    Pattern([Axis("b"), Group(["hd"]), Axis("x"), Axis("y")],
            [Axis("b"), Axis("h"), Axis("d"), Group(["x", "y"])])
  }

  /** 'b (h d) x y -> b h d (x y)': the evidently intended split of the hidden
      channels into heads. */
  function FixedQkvPattern(): Pattern
  {
    Pattern([Axis("b"), Group(["h", "d"]), Axis("x"), Axis("y")],
            [Axis("b"), Axis("h"), Axis("d"), Group(["x", "y"])])
  }

  /** 'b h d (x y) -> b (h d) x y' (FastAttention output, with h, x, y given) */
  function FastOutPattern(): Pattern
  {
    Pattern([Axis("b"), Axis("h"), Axis("d"), Group(["x", "y"])],
            [Axis("b"), Group(["h", "d"]), Axis("x"), Axis("y")])
  }

  /** 'b h (x y) d -> b (h d) x y' (FullAttention output, with x, y given) */
  function FullOutPattern(): Pattern
  {
    Pattern([Axis("b"), Axis("h"), Group(["x", "y"]), Axis("d")],
            [Axis("b"), Group(["h", "d"]), Axis("x"), Axis("y")])
  }

  lemma NamesCons(t: AxisTerm, rest: seq<AxisTerm>)
    ensures Names([t] + rest) == TermNames(t) + Names(rest)
  {
    assert ([t] + rest)[1..] == rest;
  }

  /** The identifiers of a four-term side are those of its terms, in order. */
  lemma NamesOfFour(a: AxisTerm, b: AxisTerm, c: AxisTerm, d: AxisTerm)
    ensures Names([a, b, c, d]) == TermNames(a) + TermNames(b) + TermNames(c) + TermNames(d)
  {
    NamesCons(d, []);
    assert [d] == [d] + [];
    NamesCons(c, [d]);
    assert [c, d] == [c] + [d];
    NamesCons(b, [c, d]);
    assert [b, c, d] == [b] + [c, d];
    NamesCons(a, [b, c, d]);
    assert [a, b, c, d] == [a] + [b, c, d];
  }

  /** b h d x y, in either of the two orders the patterns use */
  lemma FiveIdentifiers(l: seq<string>)
    requires l == ["b", "h", "d", "x", "y"] || l == ["b", "h", "x", "y", "d"]
    ensures NoRepeats(l)
  {
    NoRepeatsMeansDistinct(l);
  }

  lemma SourceQkvNames()
    ensures Names(SourceQkvPattern().lhs) == ["b", "hd", "x", "y"]
    ensures Names(SourceQkvPattern().rhs) == ["b", "h", "d", "x", "y"]
  {
    NamesOfFour(Axis("b"), Group(["hd"]), Axis("x"), Axis("y"));
    NamesOfFour(Axis("b"), Axis("h"), Axis("d"), Group(["x", "y"]));
  }

  lemma FourDistinct(l: seq<string>)
    requires l == ["b", "hd", "x", "y"]
    ensures NoRepeats(l)
  {
    NoRepeatsMeansDistinct(l);
  }

  /** einops rejects the pattern as written: hd is only on the left, h and d
      only on the right. */
  lemma SourceQkvPatternRejected()
    ensures RearrangeCheck(SourceQkvPattern(), ["h"]) ==
            Err(EinopsError("Identifiers only on one side of expression (should be on both)"))
  {
    var p := SourceQkvPattern();
    SourceQkvNames();
    FourDistinct(Names(p.lhs));
    FiveIdentifiers(Names(p.rhs));
    AllInMeansSubset(Names(p.lhs), Names(p.rhs));
    assert Names(p.lhs)[1] == "hd" && "hd" !in Names(p.rhs);
  }

  lemma FixedQkvNames()
    ensures Names(FixedQkvPattern().lhs) == ["b", "h", "d", "x", "y"]
    ensures Names(FixedQkvPattern().rhs) == ["b", "h", "d", "x", "y"]
  {
    NamesOfFour(Axis("b"), Group(["h", "d"]), Axis("x"), Axis("y"));
    NamesOfFour(Axis("b"), Axis("h"), Axis("d"), Group(["x", "y"]));
  }

  /** The intended qkv pattern passes einops' checks. */
  lemma FixedQkvPatternAccepted()
    ensures QkvAccepted(FixedQkvPattern())
  {
    var l := Names(FixedQkvPattern().lhs);
    FixedQkvNames();
    FiveIdentifiers(l);
    AllInMeansSubset(l, l);
    AllInMeansSubset(["h"], l);
  }

  lemma FastOutNames()
    ensures Names(FastOutPattern().lhs) == ["b", "h", "d", "x", "y"]
    ensures Names(FastOutPattern().rhs) == ["b", "h", "d", "x", "y"]
  {
    NamesOfFour(Axis("b"), Axis("h"), Axis("d"), Group(["x", "y"]));
    NamesOfFour(Axis("b"), Group(["h", "d"]), Axis("x"), Axis("y"));
  }

  lemma FullOutNames()
    ensures Names(FullOutPattern().lhs) == ["b", "h", "x", "y", "d"]
    ensures Names(FullOutPattern().rhs) == ["b", "h", "d", "x", "y"]
  {
    NamesOfFour(Axis("b"), Group(["h", "d"]), Axis("x"), Axis("y"));
    NamesOfFour(Axis("b"), Axis("h"), Group(["x", "y"]), Axis("d"));
  }

  /** FastAttention's output pattern passes einops' checks with h, x and y given. */
  lemma FastOutPatternAccepted()
    ensures RearrangeCheck(FastOutPattern(), ["h", "x", "y"]).Ok?
  {
    var l := Names(FastOutPattern().lhs);
    FastOutNames();
    FiveIdentifiers(l);
    AllInMeansSubset(l, l);
    AllInMeansSubset(["h", "x", "y"], l);
  }

  /** FullAttention's output pattern passes einops' checks with x and y given. */
  lemma FullOutPatternAccepted()
    ensures RearrangeCheck(FullOutPattern(), ["x", "y"]).Ok?
  {
    var l := Names(FullOutPattern().lhs);
    var rr := Names(FullOutPattern().rhs);
    FullOutNames();
    FiveIdentifiers(l);
    FiveIdentifiers(rr);
    AllInMeansSubset(l, rr);
    AllInMeansSubset(rr, l);
    AllInMeansSubset(["x", "y"], l);
  }

  /** An attention layer (either variant): to_qkv = Conv2d(channels, 3 hidden, 1),
      to_output = Conv2d(hidden, channels, 1), hidden = heads * dimHead; the
      pattern used on q, k, v, the output pattern and the axes it names by
      keyword. */
  datatype AttentionLayer = AttentionLayer(channels: nat, heads: nat, dimHead: nat,
                                           qkvPattern: Pattern, outPattern: Pattern, outLengths: seq<string>)

  /** FastAttention(channels) with heads=4, dim_head=32 */
  function FastAttention(channels: nat, qkv: Pattern): AttentionLayer
  {
    AttentionLayer(channels, 4, 32, qkv, FastOutPattern(), ["h", "x", "y"])
  }

  /** FullAttention(channels) with heads=4, dim_head=32 */
  function FullAttention(channels: nat, qkv: Pattern): AttentionLayer
  {
    AttentionLayer(channels, 4, 32, qkv, FullOutPattern(), ["x", "y"])
  }

  function AttentionForward(a: AttentionLayer, x: Shape): Result<Shape>
  {
    var hidden := a.heads * a.dimHead;
    var qkv :- Conv2dForward(Conv2d(a.channels, 3 * hidden, 1, 1, 0), x);
    var _ :- RearrangeCheck(a.qkvPattern, ["h"]);
    var _ :- RearrangeCheck(a.outPattern, a.outLengths);
    Conv2dForward(Conv2d(hidden, a.channels, 1, 1, 0), Shape(x.batch, hidden, x.height, x.width))
  }

  /** Either attention keeps the input's shape, and fails exactly on a channel
      mismatch, an empty input or a pattern einops rejects. */
  lemma AttentionContract(a: AttentionLayer, x: Shape)
    ensures AttentionForward(a, x).Ok? <==>
              x.channels == a.channels && x.height >= 1 && x.width >= 1
              && RearrangeCheck(a.qkvPattern, ["h"]).Ok? && RearrangeCheck(a.outPattern, a.outLengths).Ok?
    ensures AttentionForward(a, x).Ok? ==> AttentionForward(a, x) == Ok(x)
  {
    if x.height >= 1 && x.width >= 1 {
      SamePaddingPreservesSize(x.height, 0);
      SamePaddingPreservesSize(x.width, 0);
    }
  }

  /** ResidualAdd(PreNormalization(dim, attention)) */
  datatype AttentionBlock = AttentionBlock(normDim: nat, attention: AttentionLayer)

  function AttentionBlockForward(b: AttentionBlock, x: Shape): Result<Shape>
  {
    ResidualAdd(y => PreNormalization(b.normDim, z => AttentionForward(b.attention, z), y), x)
  }

  /** A block built as the Unet builds it (norm and attention over the same
      channel count) outputs dim channels at the input's spatial size. It
      accepts exactly inputs of dim channels, or of one channel, which the
      normalisation's gain broadcasts to dim; it fails where its attention does. */
  lemma AttentionBlockContract(dim: nat, a: AttentionLayer, x: Shape)
    requires a == FastAttention(dim, a.qkvPattern) || a == FullAttention(dim, a.qkvPattern)
    ensures AttentionBlockForward(AttentionBlock(dim, a), x).Ok? <==>
              (x.channels == dim || x.channels == 1) && x.height >= 1 && x.width >= 1 && QkvAccepted(a.qkvPattern)
    ensures AttentionBlockForward(AttentionBlock(dim, a), x).Ok? ==>
              AttentionBlockForward(AttentionBlock(dim, a), x) == Ok(x.(channels := dim))
  {
    var attn := z => AttentionForward(a, z);
    var inner := y => PreNormalization(dim, attn, y);
    assert AttentionBlockForward(AttentionBlock(dim, a), x) == ResidualAdd(inner, x);
    OutPatternAccepted(a);
    AttentionContract(a, x);
    if x.channels == dim {
      BlockMatchingChannels(dim, a, x);
    } else if x.channels == 1 {
      AttentionContract(a, x.(channels := dim));
      BlockBroadcastChannel(dim, a, x);
    } else {
      NormMismatch(dim, a, x);
    }
  }

  /** Either variant's output pattern passes einops' checks. */
  lemma OutPatternAccepted(a: AttentionLayer)
    requires a == FastAttention(a.channels, a.qkvPattern) || a == FullAttention(a.channels, a.qkvPattern)
    ensures RearrangeCheck(a.outPattern, a.outLengths).Ok?
  {
    FastOutPatternAccepted();
    FullOutPatternAccepted();
  }

  /** On dim channels the normalisation is transparent and the residual add
      keeps the shape. */
  lemma BlockMatchingChannels(dim: nat, a: AttentionLayer, x: Shape)
    requires a.channels == dim && x.channels == dim
    ensures AttentionForward(a, x).Ok? ==>
              ResidualAdd(y => PreNormalization(dim, z => AttentionForward(a, z), y), x) == Ok(x)
    ensures AttentionForward(a, x).Err? ==>
              ResidualAdd(y => PreNormalization(dim, z => AttentionForward(a, z), y), x).Err?
  {
    var attn := z => AttentionForward(a, z);
    var inner := y => PreNormalization(dim, attn, y);
    AttentionContract(a, x);
    PreNormalizationTransparent(dim, attn, x);
    ResidualAddPreservesShape(inner, x);
  }

  /** On one channel the normalisation's gain broadcasts x to dim channels,
      and so does the residual add. */
  lemma BlockBroadcastChannel(dim: nat, a: AttentionLayer, x: Shape)
    requires a.channels == dim && x.channels == 1
    ensures AttentionForward(a, x.(channels := dim)).Ok? ==>
              ResidualAdd(y => PreNormalization(dim, z => AttentionForward(a, z), y), x) == Ok(x.(channels := dim))
    ensures AttentionForward(a, x.(channels := dim)).Err? ==>
              ResidualAdd(y => PreNormalization(dim, z => AttentionForward(a, z), y), x).Err?
  {
    var n := NormForward(dim, x);
    assert n == Ok(x.(channels := dim));
    AttentionContract(a, n.value);
  }

  lemma NormMismatch(dim: nat, a: AttentionLayer, x: Shape)
    requires a.channels == dim && x.channels != dim && x.channels != 1
    ensures PreNormalization(dim, z => AttentionForward(a, z), x).Err?
  {
    var n := NormForward(dim, x);
    if n.Ok? {
      AttentionContract(a, n.value);
      assert n.value.channels != dim;
    }
  }
}
