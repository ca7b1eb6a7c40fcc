/** ConvNeXtStage of union/modules.py: its constructor (including how Python
    binds the arguments of a call to it) and its forward pass, at shape level. */
module ConvNeXt {
  import opened Shapes
  import opened Layers

  /** The layers one stage owns. */
  datatype ConvNeXtStage = ConvNeXtStage(
    embedProj: Option<Linear>,   // GELU then Linear(emb_dim, in_dim), when emb_dim is given
    depthwise: Conv2d,           // in_dim -> in_dim, 7x7, padding 3, groups in_dim
    norm: Option<nat>,           // SpatialLayerNorm(in_dim), or nn.Identity
    expandConv: Conv2d,          // in_dim -> out_dim * expand, 3x3, padding 1
    projectConv: Conv2d,         // out_dim * expand -> out_dim, 3x3, padding 1
    shortcut: Option<Conv2d>)    // Conv2d(in_dim, out_dim, 1), or nn.Identity
  {
    function InDim(): nat { depthwise.inC }
    function OutDim(): nat { projectConv.outC }
    function HiddenDim(): nat { expandConv.outC }
  }

  /** ConvNeXtStage.__init__(in_dim, out_dim, emb_dim, expand, norm) */
  function NewStage(inDim: nat, outDim: nat, embDim: Option<nat>, expand: nat, norm: bool): ConvNeXtStage
  {
    ConvNeXtStage(
      if embDim.Some? then Some(Linear(embDim.value, inDim)) else None,
      Conv2d(inDim, inDim, 7, 1, 3),
      if norm then Some(inDim) else None,
      Conv2d(inDim, outDim * expand, 3, 1, 1),
      Conv2d(outDim * expand, outDim, 3, 1, 1),
      if inDim != outDim then Some(Conv2d(inDim, outDim, 1, 1, 0)) else None)
  }

  /** Every layer takes what the previous one gives: the depthwise conv keeps
      in_dim channels, the embedding projection and the norm work on in_dim
      channels, the hidden width is out_dim * expand, and the shortcut maps
      in_dim to out_dim. */
  predicate WellWired(s: ConvNeXtStage)
  {
    && s.depthwise.outC == s.depthwise.inC
    && (s.embedProj.Some? ==> s.embedProj.value.outF == s.InDim())
    && (s.norm.Some? ==> s.norm.value == s.InDim())
    && s.expandConv.inC == s.InDim()
    && s.projectConv.inC == s.expandConv.outC
    && (s.shortcut.Some? ==> s.shortcut.value.inC == s.InDim() && s.shortcut.value.outC == s.OutDim())
  }

  lemma NewStageContract(inDim: nat, outDim: nat, embDim: Option<nat>, expand: nat, norm: bool)
    ensures var s := NewStage(inDim, outDim, embDim, expand, norm);
            && WellWired(s)
            && s.InDim() == inDim && s.OutDim() == outDim
            && s.HiddenDim() == outDim * expand
            && (s.shortcut.None? <==> inDim == outDim)
            && (s.embedProj.Some? <==> embDim.Some?)
            && (embDim.Some? ==> s.embedProj.value.inF == embDim.value)
            && (s.norm.Some? <==> norm)
  {
  }

  // ---------------------------------------------------------------------
  // Binding a Python call to ConvNeXtStage(in_dim, out_dim, *, emb_dim=None,
  // expand=3, norm=True)
  // ---------------------------------------------------------------------

  datatype ArgValue = IntArg(n: nat) | BoolArg(b: bool) | NoneArg

  /** A call: positional arguments and keyword arguments in source order. */
  datatype StageCall = StageCall(args: seq<ArgValue>, kwargs: seq<(string, ArgValue)>)

  /** The parameter names of __init__, self included */
  const StageKeywords: set<string> := {"self", "in_dim", "out_dim", "emb_dim", "expand", "norm"}

  const UnexpectedKeywordMsg: string := "__init__() got an unexpected keyword argument"
  const MultipleValuesMsg: string := "__init__() got multiple values for argument"

  /** kwargs.get(name): the value of the first keyword argument named name */
  function Lookup(kwargs: seq<(string, ArgValue)>, name: string): Option<ArgValue>
  {
    if kwargs == [] then None
    else if kwargs[0].0 == name then Some(kwargs[0].1)
    else Lookup(kwargs[1..], name)
  }

  /** A lookup succeeds exactly when some argument has the name, and then
      returns the value of the first such argument. */
  lemma {:induction false} LookupContract(kwargs: seq<(string, ArgValue)>, name: string)
    ensures Lookup(kwargs, name).Some? <==> exists i :: 0 <= i < |kwargs| && kwargs[i].0 == name
    ensures Lookup(kwargs, name).Some? ==>
              exists i :: 0 <= i < |kwargs| && kwargs[i] == (name, Lookup(kwargs, name).value)
                          && forall j :: 0 <= j < i ==> kwargs[j].0 != name
  {
    if kwargs != [] && kwargs[0].0 != name {
      LookupContract(kwargs[1..], name);
      assert forall i :: 1 <= i < |kwargs| ==> kwargs[i] == kwargs[1..][i - 1];
      if Lookup(kwargs, name).Some? {
        var i :| 0 <= i < |kwargs[1..]| && kwargs[1..][i] == (name, Lookup(kwargs, name).value)
                 && forall j :: 0 <= j < i ==> kwargs[1..][j].0 != name;
        assert forall j :: 1 <= j < i + 1 ==> kwargs[j].0 != name;
        assert kwargs[i + 1] == (name, Lookup(kwargs, name).value);
      }
    } else if kwargs != [] {
      assert kwargs[0] == (name, Lookup(kwargs, name).value);
    }
  }

  /** Looking a name up in two keyword arguments checks them in order. */
  lemma LookupTwo(a: (string, ArgValue), b: (string, ArgValue), name: string)
    ensures Lookup([a, b], name) == if a.0 == name then Some(a.1) else if b.0 == name then Some(b.1) else None
  {
    assert [a, b][1..] == [b];
    assert [b][1..] == [];
    assert Lookup([b], name) == if b.0 == name then Some(b.1) else None;
  }

  /** Looking a name up in four keyword arguments checks them in order. */
  lemma LookupFour(a: (string, ArgValue), b: (string, ArgValue), c: (string, ArgValue), d: (string, ArgValue), name: string)
    ensures Lookup([a, b, c, d], name) ==
            if a.0 == name then Some(a.1) else if b.0 == name then Some(b.1)
            else if c.0 == name then Some(c.1) else if d.0 == name then Some(d.1) else None
  {
    assert [a, b, c, d][1..] == [b, c, d];
    assert [b, c, d][1..] == [c, d];
    assert [c, d][1..] == [d];
    assert [d][1..] == [];
    assert Lookup([d], name) == if d.0 == name then Some(d.1) else None;
    assert Lookup([c, d], name) == if c.0 == name then Some(c.1) else Lookup([d], name);
    assert Lookup([b, c, d], name) == if b.0 == name then Some(b.1) else Lookup([c, d], name);
  }

  function KeywordOr(kwargs: seq<(string, ArgValue)>, name: string, default: ArgValue): ArgValue
  {
    var v := Lookup(kwargs, name);
    if v.Some? then v.value else default
  }

  /** An argument used as a channel count (bool is an int in Python; None
      makes torch's constructors raise TypeError). */
  function AsDim(v: ArgValue): Result<nat>
  {
    match v
    case IntArg(n) => Ok(n)
    case BoolArg(b) => Ok(if b then 1 else 0)
    case NoneArg => Err(TypeError("unsupported operand type(s): 'NoneType'"))
  }

  function AsOptionalDim(v: ArgValue): Result<Option<nat>>
  {
    if v.NoneArg? then Ok(None) else var d :- AsDim(v); Ok(Some(d))
  }

  /** Python truthiness of the `norm` flag */
  function Truthy(v: ArgValue): bool
  {
    match v
    case IntArg(n) => n != 0
    case BoolArg(b) => b
    case NoneArg => false
  }

  /** Keyword argument i names a parameter that already has a value: self,
      a parameter the nPos positional arguments filled, or one an earlier
      keyword argument named. */
  predicate SlotFilled(nPos: nat, kwargs: seq<(string, ArgValue)>, i: nat)
    requires i < |kwargs|
  {
    var name := kwargs[i].0;
    || name == "self"
    || (name == "in_dim" && nPos >= 1)
    || (name == "out_dim" && nPos >= 2)
    || exists j :: 0 <= j < i && kwargs[j].0 == name
  }

  predicate KeywordOk(nPos: nat, kwargs: seq<(string, ArgValue)>, i: nat)
    requires i < |kwargs|
  {
    kwargs[i].0 in StageKeywords && !SlotFilled(nPos, kwargs, i)
  }

  /** The TypeError a bad keyword argument raises */
  function KeywordFailure(kwargs: seq<(string, ArgValue)>, i: nat): Error
    requires i < |kwargs|
  {
    if kwargs[i].0 !in StageKeywords then TypeError(UnexpectedKeywordMsg) else TypeError(MultipleValuesMsg)
  }

  /** CPython's pass over the keyword arguments, in call order from i, once
      the positional arguments are bound: the first bad one raises. */
  function KeywordError(nPos: nat, kwargs: seq<(string, ArgValue)>, i: nat): Option<Error>
    decreases |kwargs| - i
  {
    if i >= |kwargs| then None
    else if !KeywordOk(nPos, kwargs, i) then Some(KeywordFailure(kwargs, i))
    else KeywordError(nPos, kwargs, i + 1)
  }

  /** The keyword pass raises iff some keyword argument from i on is bad, and
      then raises the error of the first bad one. */
  lemma {:induction false} KeywordErrorContract(nPos: nat, kwargs: seq<(string, ArgValue)>, i: nat)
    ensures KeywordError(nPos, kwargs, i).None? <==> forall m :: i <= m < |kwargs| ==> KeywordOk(nPos, kwargs, m)
    ensures KeywordError(nPos, kwargs, i).Some? ==>
              exists m :: i <= m < |kwargs| && !KeywordOk(nPos, kwargs, m)
                          && (forall l :: i <= l < m ==> KeywordOk(nPos, kwargs, l))
                          && KeywordError(nPos, kwargs, i).value == KeywordFailure(kwargs, m)
    decreases |kwargs| - i
  {
    if i < |kwargs| {
      if KeywordOk(nPos, kwargs, i) {
        KeywordErrorContract(nPos, kwargs, i + 1);
        if KeywordError(nPos, kwargs, i).Some? {
          var m :| i + 1 <= m < |kwargs| && !KeywordOk(nPos, kwargs, m)
                   && (forall l :: i + 1 <= l < m ==> KeywordOk(nPos, kwargs, l))
                   && KeywordError(nPos, kwargs, i + 1).value == KeywordFailure(kwargs, m);
          assert forall l :: i <= l < m ==> KeywordOk(nPos, kwargs, l);
        }
      } else {
        assert !KeywordOk(nPos, kwargs, i);
      }
    }
  }

  /** Evaluating `ConvNeXtStage(*args, **kwargs)` as CPython binds a call:
      positional arguments fill in_dim and out_dim, the keyword arguments are
      checked in order, then the positional count, then the missing
      parameters; then the constructor runs. */
  function ConstructStage(c: StageCall): Result<ConvNeXtStage>
  {
    var kwError := KeywordError(|c.args|, c.kwargs, 0);
    if kwError.Some? then Err(kwError.value)
    else if |c.args| > 2 then Err(TypeError("__init__() takes 3 positional arguments"))
    else
      var inArg := if |c.args| >= 1 then Some(c.args[0]) else Lookup(c.kwargs, "in_dim");
      var outArg := if |c.args| >= 2 then Some(c.args[1]) else Lookup(c.kwargs, "out_dim");
      if inArg.None? || outArg.None? then Err(TypeError("__init__() missing required positional argument"))
      else
        var inDim :- AsDim(inArg.value);
        var outDim :- AsDim(outArg.value);
        var embDim :- AsOptionalDim(KeywordOr(c.kwargs, "emb_dim", NoneArg));
        var expand :- AsDim(KeywordOr(c.kwargs, "expand", IntArg(3)));
        Ok(NewStage(inDim, outDim, embDim, expand, Truthy(KeywordOr(c.kwargs, "norm", BoolArg(true)))))
  }

  function OptionArg(d: Option<nat>): ArgValue
  {
    if d.Some? then IntArg(d.value) else NoneArg
  }

  /** ConvNeXtStage(in_dim, out_dim, emb_dim=e, norm=n), the call shape ConvChain uses */
  function PositionalCall(inDim: nat, outDim: nat, embDim: nat, norm: bool): StageCall
  {
    StageCall([IntArg(inDim), IntArg(outDim)], [("emb_dim", IntArg(embDim)), ("norm", BoolArg(norm))])
  }

  /** ConvNeXtStage(in_dim=i, out_dim=o, emb_dim=e, <normKeyword>=n), the call
      shape the Unet uses; the Unet spells normKeyword `use_norm`. */
  function KeywordCall(inDim: nat, outDim: nat, embDim: Option<nat>, normKeyword: string, norm: bool): StageCall
  {
    StageCall([], [("in_dim", IntArg(inDim)), ("out_dim", IntArg(outDim)),
                   ("emb_dim", OptionArg(embDim)), (normKeyword, BoolArg(norm))])
  }

  /** ConvChain's calls bind as intended. */
  lemma PositionalCallBinds(inDim: nat, outDim: nat, embDim: nat, norm: bool)
    ensures ConstructStage(PositionalCall(inDim, outDim, embDim, norm)) == Ok(NewStage(inDim, outDim, Some(embDim), 3, norm))
  {
    var c := PositionalCall(inDim, outDim, embDim, norm);
    assert KeywordOk(2, c.kwargs, 0);
    assert KeywordOk(2, c.kwargs, 1) by {
      assert c.kwargs[0].0 != "norm";
    }
    KeywordErrorContract(2, c.kwargs, 0);
    var a0, a1 := c.kwargs[0], c.kwargs[1];
    assert c.kwargs == [a0, a1];
    LookupTwo(a0, a1, "in_dim");
    LookupTwo(a0, a1, "out_dim");
    LookupTwo(a0, a1, "emb_dim");
    LookupTwo(a0, a1, "expand");
    LookupTwo(a0, a1, "norm");
  }

  /** With the keyword spelled `norm`, the Unet's calls bind as intended. */
  lemma KeywordCallBinds(inDim: nat, outDim: nat, embDim: Option<nat>, norm: bool)
    ensures ConstructStage(KeywordCall(inDim, outDim, embDim, "norm", norm)) == Ok(NewStage(inDim, outDim, embDim, 3, norm))
  {
    KeywordCallKnown(inDim, outDim, embDim, norm);
    KeywordCallLookups(inDim, outDim, embDim, norm);
  }

  lemma KeywordCallKnown(inDim: nat, outDim: nat, embDim: Option<nat>, norm: bool)
    ensures KeywordError(0, KeywordCall(inDim, outDim, embDim, "norm", norm).kwargs, 0).None?
  {
    var c := KeywordCall(inDim, outDim, embDim, "norm", norm);
    KeywordsDistinctOk(c.kwargs);
    KeywordErrorContract(0, c.kwargs, 0);
  }

  /** Four keyword arguments naming in_dim, out_dim, emb_dim and norm, in
      that order and with no positional argument, all bind. */
  lemma KeywordsDistinctOk(kw: seq<(string, ArgValue)>)
    requires |kw| == 4 && kw[0].0 == "in_dim" && kw[1].0 == "out_dim" && kw[2].0 == "emb_dim" && kw[3].0 == "norm"
    ensures forall m :: 0 <= m < |kw| ==> KeywordOk(0, kw, m)
  {
    assert "in_dim" != "out_dim" && "in_dim" != "emb_dim" && "out_dim" != "emb_dim";
    assert "in_dim" != "norm" && "out_dim" != "norm" && "emb_dim" != "norm";
    assert KeywordOk(0, kw, 0);
    assert KeywordOk(0, kw, 1);
    assert KeywordOk(0, kw, 2);
    assert KeywordOk(0, kw, 3);
  }

  /** Each parameter finds its own keyword argument; expand finds none. */
  lemma KeywordCallLookups(inDim: nat, outDim: nat, embDim: Option<nat>, norm: bool)
    ensures var kw := KeywordCall(inDim, outDim, embDim, "norm", norm).kwargs;
            && Lookup(kw, "in_dim") == Some(IntArg(inDim))
            && Lookup(kw, "out_dim") == Some(IntArg(outDim))
            && Lookup(kw, "emb_dim") == Some(OptionArg(embDim))
            && Lookup(kw, "expand").None?
            && Lookup(kw, "norm") == Some(BoolArg(norm))
  {
    var c := KeywordCall(inDim, outDim, embDim, "norm", norm);
    var a0, a1, a2, a3 := c.kwargs[0], c.kwargs[1], c.kwargs[2], c.kwargs[3];
    assert c.kwargs == [a0, a1, a2, a3];
    LookupFour(a0, a1, a2, a3, "in_dim");
    LookupFour(a0, a1, a2, a3, "out_dim");
    LookupFour(a0, a1, a2, a3, "emb_dim");
    LookupFour(a0, a1, a2, a3, "expand");
    LookupFour(a0, a1, a2, a3, "norm");
  }

  /** A keyword the signature does not have raises TypeError, whatever the
      other arguments: this is what `use_norm=` does. */
  lemma UnknownKeywordRaises(inDim: nat, outDim: nat, embDim: Option<nat>, normKeyword: string, norm: bool)
    requires normKeyword !in StageKeywords
    ensures ConstructStage(KeywordCall(inDim, outDim, embDim, normKeyword, norm)) ==
            Err(TypeError(UnexpectedKeywordMsg))
  {
    var c := KeywordCall(inDim, outDim, embDim, normKeyword, norm);
    assert "in_dim" != "out_dim" && "in_dim" != "emb_dim" && "out_dim" != "emb_dim";
    assert KeywordOk(0, c.kwargs, 0);
    assert KeywordOk(0, c.kwargs, 1);
    assert KeywordOk(0, c.kwargs, 2);
    assert !KeywordOk(0, c.kwargs, 3);
    KeywordErrorContract(0, c.kwargs, 0);
    var m :| 0 <= m < 4 && !KeywordOk(0, c.kwargs, m) && (forall l :: 0 <= l < m ==> KeywordOk(0, c.kwargs, l))
             && KeywordError(0, c.kwargs, 0).value == KeywordFailure(c.kwargs, m);
    assert m == 3;
  }

  /** The keyword pass comes before the positional count: with three
      positional arguments and an unknown keyword, the keyword is reported. */
  lemma UnknownKeywordBeforeArity()
    ensures ConstructStage(StageCall([IntArg(1), IntArg(2), IntArg(3)], [("use_norm", BoolArg(true))]))
            == Err(TypeError(UnexpectedKeywordMsg))
  {
    var kw := [("use_norm", BoolArg(true))];
    assert !KeywordOk(3, kw, 0);
  }

  /** Keywords are checked in call order: a keyword re-naming a positional
      parameter is reported before a later unknown one. */
  lemma KeywordsInCallOrder()
    ensures ConstructStage(StageCall([IntArg(1)], [("in_dim", IntArg(4)), ("use_norm", BoolArg(true))]))
            == Err(TypeError(MultipleValuesMsg))
  {
    var kw := [("in_dim", IntArg(4)), ("use_norm", BoolArg(true))];
    assert !KeywordOk(1, kw, 0);
  }

  lemma UseNormRaises(inDim: nat, outDim: nat, embDim: Option<nat>, norm: bool)
    ensures ConstructStage(KeywordCall(inDim, outDim, embDim, "use_norm", norm)).Err?
  {
    UnknownKeywordRaises(inDim, outDim, embDim, "use_norm", norm);
  }

  // ---------------------------------------------------------------------
  // forward(x, emb=None)
  // ---------------------------------------------------------------------

  const MissingEmbedding: string := "Embeddings must be provided if emb_dim was set."

  /** h = depthwise(x), then h += embed_proj(emb)[..., None, None] when the
      stage is embedding conditioned */
  function ConditionedDepthwise(s: ConvNeXtStage, x: Shape, emb: Option<Emb>): Result<Shape>
  {
    var h :- Conv2dForward(s.depthwise, x);
    if s.embedProj.None? then Ok(h)
    else if emb.None? then Err(ValueError(MissingEmbedding))
    else
      var cond :- LinearForward(s.embedProj.value, emb.value);
      AddInPlace(h, Shape(cond.batch, cond.width, 1, 1))
  }

  /** self.block: the norm (or identity), the expanding 3x3 convolution, GELU
      (which keeps the shape) and the projecting 3x3 convolution */
  function BlockForward(s: ConvNeXtStage, h: Shape): Result<Shape>
  {
    var n :- if s.norm.None? then Ok(h) else NormForward(s.norm.value, h);
    var e :- Conv2dForward(s.expandConv, n);
    Conv2dForward(s.projectConv, e)
  }

  /** self.residual_proj(x) */
  function ResidualForward(s: ConvNeXtStage, x: Shape): Result<Shape>
  {
    if s.shortcut.None? then Ok(x) else Conv2dForward(s.shortcut.value, x)
  }

  function StageForward(s: ConvNeXtStage, x: Shape, emb: Option<Emb>): Result<Shape>
  {
    var h :- ConditionedDepthwise(s, x, emb);
    var b :- BlockForward(s, h);
    var res :- ResidualForward(s, x);
    Elementwise(b, res)
  }

  /** What a stage accepts: in_dim channels, a non-empty spatial size, and,
      when it is embedding conditioned, an embedding of emb_dim features whose
      batch is x's or 1 (the in-place add cannot grow h). */
  predicate StageAccepts(inDim: nat, embDim: Option<nat>, x: Shape, emb: Option<Emb>)
  {
    && x.channels == inDim && x.height >= 1 && x.width >= 1
    && (embDim.Some? ==> emb.Some? && emb.value.width == embDim.value
                         && (emb.value.batch == x.batch || emb.value.batch == 1))
  }

  /** The depthwise convolution keeps x's shape; the conditioning add succeeds
      exactly for an embedding of emb_dim features and batch N or 1. */
  lemma ConditionedContract(inDim: nat, outDim: nat, embDim: Option<nat>, expand: nat, norm: bool, x: Shape, emb: Option<Emb>)
    ensures var h := ConditionedDepthwise(NewStage(inDim, outDim, embDim, expand, norm), x, emb);
            && (h.Ok? <==> StageAccepts(inDim, embDim, x, emb))
            && (h.Ok? ==> h.value == x)
  {
    var s := NewStage(inDim, outDim, embDim, expand, norm);
    ConditionedOn(s, inDim, embDim, x, emb);
  }

  /** The same for any stage with that depthwise convolution and projection. */
  lemma ConditionedOn(s: ConvNeXtStage, inDim: nat, embDim: Option<nat>, x: Shape, emb: Option<Emb>)
    requires s.depthwise == Conv2d(inDim, inDim, 7, 1, 3)
    requires s.embedProj == if embDim.Some? then Some(Linear(embDim.value, inDim)) else None
    ensures var h := ConditionedDepthwise(s, x, emb);
            && (h.Ok? <==> StageAccepts(inDim, embDim, x, emb))
            && (h.Ok? ==> h.value == x)
  {
    if x.height >= 1 && x.width >= 1 {
      SamePaddingPreservesSize(x.height, 3);
      SamePaddingPreservesSize(x.width, 3);
      if x.channels == inDim && embDim.Some? && emb.Some? && emb.value.width == embDim.value {
        ConditionAdd(x, Emb(emb.value.batch, inDim));
      }
    }
  }

  /** `h += cond[:, :, None, None]` with one value per channel: the add cannot
      grow h's batch, so the embedding's batch must be h's or 1. */
  lemma ConditionAdd(h: Shape, cond: Emb)
    requires cond.width == h.channels && h.height >= 1 && h.width >= 1
    ensures AddInPlace(h, Shape(cond.batch, cond.width, 1, 1)).Ok? <==> cond.batch == h.batch || cond.batch == 1
    ensures AddInPlace(h, Shape(cond.batch, cond.width, 1, 1)).Ok? ==> AddInPlace(h, Shape(cond.batch, cond.width, 1, 1)).value == h
  {
  }

  /** The block maps (N, in_dim, H, W) to (N, out_dim, H, W). */
  lemma BlockContract(inDim: nat, outDim: nat, embDim: Option<nat>, expand: nat, norm: bool, h: Shape)
    requires h.channels == inDim && h.height >= 1 && h.width >= 1
    ensures BlockForward(NewStage(inDim, outDim, embDim, expand, norm), h) == Ok(Shape(h.batch, outDim, h.height, h.width))
  {
    SamePaddingPreservesSize(h.height, 1);
    SamePaddingPreservesSize(h.width, 1);
  }

  /** The residual path maps (N, in_dim, H, W) to (N, out_dim, H, W). */
  lemma ResidualContract(inDim: nat, outDim: nat, embDim: Option<nat>, expand: nat, norm: bool, x: Shape)
    requires x.channels == inDim && x.height >= 1 && x.width >= 1
    ensures ResidualForward(NewStage(inDim, outDim, embDim, expand, norm), x) == Ok(Shape(x.batch, outDim, x.height, x.width))
  {
    SamePaddingPreservesSize(x.height, 0);
    SamePaddingPreservesSize(x.width, 0);
  }

  /** The stage outputs out_dim channels at the input's spatial size, and
      succeeds exactly on the inputs it accepts. */
  lemma StageContract(inDim: nat, outDim: nat, embDim: Option<nat>, expand: nat, norm: bool, x: Shape, emb: Option<Emb>)
    ensures var r := StageForward(NewStage(inDim, outDim, embDim, expand, norm), x, emb);
            && (r.Ok? <==> StageAccepts(inDim, embDim, x, emb))
            && (r.Ok? ==> r.value == Shape(x.batch, outDim, x.height, x.width))
  {
    ConditionedContract(inDim, outDim, embDim, expand, norm, x, emb);
    if StageAccepts(inDim, embDim, x, emb) {
      BlockContract(inDim, outDim, embDim, expand, norm, x);
      ResidualContract(inDim, outDim, embDim, expand, norm, x);
      ElementwiseSame(Shape(x.batch, outDim, x.height, x.width));
    }
  }

  /** An embedding-conditioned stage called without an embedding raises
      ValueError (once the depthwise convolution has accepted x). */
  lemma MissingEmbeddingRaises(inDim: nat, outDim: nat, embDim: nat, expand: nat, norm: bool, x: Shape)
    requires x.channels == inDim && x.height >= 1 && x.width >= 1
    ensures StageForward(NewStage(inDim, outDim, Some(embDim), expand, norm), x, None) == Err(ValueError(MissingEmbedding))
  {
    SamePaddingPreservesSize(x.height, 3);
    SamePaddingPreservesSize(x.width, 3);
  }

  /** A stage built without emb_dim ignores whatever embedding it is given. */
  lemma UnconditionedIgnoresEmbedding(inDim: nat, outDim: nat, expand: nat, norm: bool, x: Shape, e1: Option<Emb>, e2: Option<Emb>)
    ensures StageForward(NewStage(inDim, outDim, None, expand, norm), x, e1) ==
            StageForward(NewStage(inDim, outDim, None, expand, norm), x, e2)
  {
  }
}
