/** The small utilities of union/modules.py: `fallback`, `split_into_batches`
    and the exponential moving average of model parameters. */
module Utils {
  import opened Shapes

  // ---------------------------------------------------------------------
  // fallback(val, d)
  // ---------------------------------------------------------------------

  /** The default of `fallback`: a plain value, or a function called for it. */
  datatype Default<T> = Value(v: T) | Thunk(f: () -> T)

  /** `val` unless it is None (a present falsy value such as 0 is kept);
      otherwise the default, called when it is a function. */
  function Fallback<T>(val: Option<T>, d: Default<T>): (r: T)
    ensures val.Some? ==> r == val.value
    ensures val.None? ==> r == (if d.Thunk? then d.f() else d.v)
  {
    if val.Some? then val.value
    else match d
      case Value(v) => v
      case Thunk(f) => f()
  }

  /** Falling back twice is falling back once: a value once chosen is kept. */
  lemma FallbackIdempotent<T>(val: Option<T>, d: Default<T>, d2: Default<T>)
    ensures Fallback(Some(Fallback(val, d)), d2) == Fallback(val, d)
  {
  }

  /** A value default and a function returning it give the same result. */
  lemma FallbackThunkAgrees<T>(val: Option<T>, x: T)
    ensures Fallback(val, Thunk(() => x)) == Fallback(val, Value(x))
  {
  }

  // ---------------------------------------------------------------------
  // split_into_batches(total, size)
  // ---------------------------------------------------------------------

  /** Python's `//` (rounds toward negative infinity) */
  function FloorDiv(a: int, b: int): (q: int)
    requires b != 0
    ensures b > 0 ==> q * b <= a < q * b + b
    ensures b < 0 ==> q * b >= a > q * b + b
  {
    if b > 0 then a / b else (-a) / (-b)
  }

  /** Python's `%` (takes the sign of the divisor) */
  function FloorMod(a: int, b: int): (m: int)
    requires b != 0
    ensures a == FloorDiv(a, b) * b + m
    ensures b > 0 ==> 0 <= m < b
    ensures b < 0 ==> b < m <= 0
  {
    a - b * FloorDiv(a, b)
  }

  /** `[x] * n`: empty for n <= 0 */
  function Repeat(x: int, n: int): (r: seq<int>)
    ensures |r| == if n > 0 then n else 0
    ensures forall i :: 0 <= i < |r| ==> r[i] == x
    decreases n
  {
    if n <= 0 then [] else Repeat(x, n - 1) + [x]
  }

  function Sum(s: seq<int>): int
  {
    if s == [] then 0 else Sum(s[..|s| - 1]) + s[|s| - 1]
  }

  lemma {:induction false} SumRepeat(x: int, n: nat)
    ensures Sum(Repeat(x, n)) == x * n
  {
    if n > 0 {
      var r := Repeat(x, n);
      assert r[..|r| - 1] == Repeat(x, n - 1);
      SumRepeat(x, n - 1);
    }
  }

  lemma SumAppend(s: seq<int>, x: int)
    ensures Sum(s + [x]) == Sum(s) + x
  {
    assert (s + [x])[..|s|] == s;
  }

  /** The batch sizes `total` splits into: n_full = total // size batches of
      `size`, then the remainder total % size when it is positive. */
  method SplitIntoBatches(total: int, size: int) returns (r: Result<seq<int>>)
    ensures r.Err? <==> size == 0
    ensures r.Err? ==> r.error == ZeroDivisionError
    // the documented case: a partition of total into batches of at most size
    ensures size > 0 && total >= 0 ==> r.Ok? && IsPartition(r.value, total, size)
    // a negative total yields no full batch, only the (positive) Python remainder
    ensures size > 0 && total < 0 ==>
              r == Ok(if FloorMod(total, size) > 0 then [FloorMod(total, size)] else [])
    // a negative size never appends a remainder (it is <= 0)
    ensures size < 0 ==>
              && r.Ok?
              && |r.value| == (if FloorDiv(total, size) > 0 then FloorDiv(total, size) else 0)
              && (forall i :: 0 <= i < |r.value| ==> r.value[i] == size)
  {
    if size == 0 {
      return Err(ZeroDivisionError);
    }
    var nFull := FloorDiv(total, size);
    var remainder := FloorMod(total, size);
    var result := Repeat(size, nFull);
    if remainder > 0 {
      result := result + [remainder];
    }
    if size > 0 && total >= 0 {
      PartitionOfNonNegative(total, size, nFull, remainder, result);
    } else if size > 0 {
      assert nFull < 0;
      assert Repeat(size, nFull) == [];
      assert result == (if remainder > 0 then [remainder] else []);
    } else {
      assert remainder <= 0;
    }
    return Ok(result);
  }

  /** total split into batches of size: they sum to total, each is in
      (0, size], all but the last are full, and there are
      total / size + (1 if a remainder is left) of them. */
  predicate IsPartition(r: seq<int>, total: int, size: int)
    requires size > 0
  {
    && Sum(r) == total
    && (forall i :: 0 <= i < |r| ==> 0 < r[i] <= size)
    && (forall i :: 0 <= i < |r| - 1 ==> r[i] == size)
    && |r| == total / size + (if total % size > 0 then 1 else 0)
  }

  lemma PartitionOfNonNegative(total: int, size: int, nFull: int, remainder: int, result: seq<int>)
    requires size > 0 && total >= 0
    requires nFull == total / size && remainder == total % size
    requires result == Repeat(size, nFull) + (if remainder > 0 then [remainder] else [])
    ensures IsPartition(result, total, size)
  {
    DivModParts(total, size);
    PartitionSum(size, nFull, remainder, result);
    PartitionBatches(size, nFull, remainder, result);
  }

  /** Euclidean division of a non-negative total, as linear facts */
  lemma DivModParts(total: int, size: int)
    requires size > 0 && total >= 0
    ensures total / size >= 0 && 0 <= total % size < size
    ensures total == size * (total / size) + total % size
  {
  }

  lemma PartitionSum(size: int, nFull: nat, remainder: int, result: seq<int>)
    requires result == Repeat(size, nFull) + (if remainder > 0 then [remainder] else [])
    ensures Sum(result) == size * nFull + (if remainder > 0 then remainder else 0)
  {
    var full := Repeat(size, nFull);
    SumRepeat(size, nFull);
    if remainder > 0 {
      SumAppend(full, remainder);
    } else {
      assert result == full;
    }
  }

  lemma PartitionBatches(size: int, nFull: nat, remainder: int, result: seq<int>)
    requires size > 0 && remainder < size
    requires result == Repeat(size, nFull) + (if remainder > 0 then [remainder] else [])
    ensures forall i :: 0 <= i < |result| ==> 0 < result[i] <= size
    ensures forall i :: 0 <= i < |result| - 1 ==> result[i] == size
    ensures |result| == nFull + (if remainder > 0 then 1 else 0)
  {
  }

  // ---------------------------------------------------------------------
  // ExpMovingAvg
  // ---------------------------------------------------------------------

  const NoneOperand: string := "unsupported operand type(s) for *: 'float' and 'NoneType'"

  /** _ema_update(old, new): new when old is None, else old * beta + (1 - beta) * new;
      the arithmetic raises TypeError when new is None. */
  function EmaUpdate(beta: real, oldW: Option<real>, newW: Option<real>): (r: Result<Option<real>>)
    ensures oldW.None? ==> r == Ok(newW)
    ensures oldW.Some? ==> (r.Ok? <==> newW.Some?)
    ensures oldW.Some? && newW.None? ==> r == Err(TypeError(NoneOperand))
    ensures r.Ok? && oldW.Some? ==> r.value.Some?
  {
    if oldW.None? then Ok(newW)
    else if newW.None? then Err(TypeError(NoneOperand))
    else Ok(Some(oldW.value * beta + (1.0 - beta) * newW.value))
  }

  /** beta = 0 copies the source parameter, beta = 1 keeps the target's. */
  lemma EmaEndpoints(o: real, n: real)
    ensures EmaUpdate(0.0, Some(o), Some(n)) == Ok(Some(n))
    ensures EmaUpdate(1.0, Some(o), Some(n)) == Ok(Some(o))
  {
  }

  /** For 0 <= beta <= 1 the average lies between the old and the new value. */
  lemma EmaBetween(beta: real, o: real, n: real)
    requires 0.0 <= beta <= 1.0
    ensures EmaUpdate(beta, Some(o), Some(n)).Ok?
    ensures var v := EmaUpdate(beta, Some(o), Some(n)).value.value;
            (o <= n ==> o <= v <= n) && (n <= o ==> n <= v <= o)
  {
    var v := o * beta + (1.0 - beta) * n;
    assert EmaUpdate(beta, Some(o), Some(n)) == Ok(Some(v));
    if o <= n {
      EmaFromOld(beta, o, n);
      StepWithin(1.0 - beta, n - o, o, v);
    }
    if n <= o {
      EmaAsStep(beta, o, n);
      StepWithin(beta, o - n, n, v);
    }
  }

  /** A fraction c of a non-negative distance d, added to base, stays within
      [base, base + d]. */
  lemma StepWithin(c: real, d: real, base: real, v: real)
    requires 0.0 <= c <= 1.0 && d >= 0.0 && v == base + c * d
    ensures base <= v <= base + d
  {
    ScaledBetween(c, d);
  }

  /** The average moves from old toward new by the fraction 1 - beta. */
  lemma EmaFromOld(beta: real, o: real, n: real)
    ensures o * beta + (1.0 - beta) * n == o + (1.0 - beta) * (n - o)
  {
    assert (1.0 - beta) * (n - o) == (1.0 - beta) * n - (1.0 - beta) * o;
    assert (1.0 - beta) * o == o - beta * o;
  }

  /** The average moves from new toward old by the fraction beta. */
  lemma EmaAsStep(beta: real, o: real, n: real)
    ensures o * beta + (1.0 - beta) * n == n + beta * (o - n)
  {
    assert (1.0 - beta) * n == n - beta * n;
    assert beta * (o - n) == beta * o - beta * n;
  }

  lemma ScaledBetween(beta: real, d: real)
    requires 0.0 <= beta <= 1.0 && d >= 0.0
    ensures 0.0 <= beta * d <= d
  {
    assert d - beta * d == (1.0 - beta) * d;
  }

  /** Averaging a value with itself leaves it unchanged, whatever beta. */
  lemma EmaFixedPoint(beta: real, o: real)
    ensures EmaUpdate(beta, Some(o), Some(o)) == Ok(Some(o))
  {
    assert o * beta + (1.0 - beta) * o == o;
  }

  function Min(a: nat, b: nat): nat
  {
    if a <= b then a else b
  }

  /** How many leading pairs of the zip walk update without raising. */
  function FirstFailure(beta: real, ws: seq<Option<real>>, src: seq<Option<real>>): (k: nat)
    ensures k <= Min(|ws|, |src|)
    ensures forall i :: 0 <= i < k ==> EmaUpdate(beta, ws[i], src[i]).Ok?
    ensures k < Min(|ws|, |src|) ==> EmaUpdate(beta, ws[k], src[k]).Err?
  {
    if ws == [] || src == [] then 0
    else if EmaUpdate(beta, ws[0], src[0]).Err? then 0
    else
      var k := FirstFailure(beta, ws[1..], src[1..]);
      assert forall i :: 1 <= i < 1 + k ==> ws[1..][i - 1] == ws[i] && src[1..][i - 1] == src[i];
      1 + k
  }

  /** The target parameters after the zip walk: each pair updated in order
      until one raises; unpaired and unreached target parameters unchanged. */
  function EmaApplied(beta: real, ws: seq<Option<real>>, src: seq<Option<real>>): (r: seq<Option<real>>)
    ensures |r| == |ws|
    ensures forall i :: 0 <= i < |ws| ==>
              r[i] == if i < FirstFailure(beta, ws, src) then EmaUpdate(beta, ws[i], src[i]).value else ws[i]
  {
    if ws == [] || src == [] then ws
    else match EmaUpdate(beta, ws[0], src[0])
      case Err(_) => ws
      case Ok(v) =>
        var rest := EmaApplied(beta, ws[1..], src[1..]);
        assert forall i :: 1 <= i < |ws| ==> ws[1..][i - 1] == ws[i];
        assert forall i :: 1 <= i < |src| ==> src[1..][i - 1] == src[i];
        [v] + rest
  }

  /** ExpMovingAvg(beta).update_model_params: the parameters of `target` are
      overwritten in place, pair by pair along zip(target, source). A pair
      that raises stops the walk with the earlier updates already made. */
  method UpdateModelParams(beta: real, target: array<Option<real>>, source: seq<Option<real>>) returns (r: Result<()>)
    modifies target
    ensures target[..] == EmaApplied(beta, old(target[..]), source)
    ensures r.Ok? <==> FirstFailure(beta, old(target[..]), source) == Min(target.Length, |source|)
    ensures r.Err? ==> r.error == TypeError(NoneOperand)
  {
    ghost var before := target[..];
    var i := 0;
    while i < target.Length && i < |source|
      invariant 0 <= i <= target.Length && i <= |source|
      invariant forall k :: 0 <= k < i ==> EmaUpdate(beta, before[k], source[k]).Ok?
      invariant forall k :: 0 <= k < target.Length ==>
                  target[k] == if k < i then EmaUpdate(beta, before[k], source[k]).value else before[k]
    {
      var u := EmaUpdate(beta, target[i], source[i]);
      if u.Err? {
        assert FirstFailure(beta, before, source) == i;
        assert target[..] == EmaApplied(beta, before, source);
        return Err(u.error);
      }
      target[i] := u.value;
      i := i + 1;
    }
    assert FirstFailure(beta, before, source) == i;
    assert target[..] == EmaApplied(beta, before, source);
    return Ok(());
  }

  /** With beta = 0 and every parameter present, target takes the source's
      values on the paired positions and keeps its own beyond them. */
  lemma ZeroBetaCopiesSource(ws: seq<Option<real>>, src: seq<Option<real>>)
    requires forall i :: 0 <= i < |ws| ==> ws[i].Some?
    requires forall i :: 0 <= i < |src| ==> src[i].Some?
    ensures var r := EmaApplied(0.0, ws, src);
            && (forall i :: 0 <= i < Min(|ws|, |src|) ==> r[i] == src[i])
            && (forall i :: Min(|ws|, |src|) <= i < |ws| ==> r[i] == ws[i])
  {
    var r := EmaApplied(0.0, ws, src);
    assert FirstFailure(0.0, ws, src) == Min(|ws|, |src|);
    forall i | 0 <= i < Min(|ws|, |src|) ensures r[i] == src[i] {
      EmaEndpoints(ws[i].value, src[i].value);
    }
  }

  /** With beta = 1 and every parameter present, the walk leaves target as it was. */
  lemma OneBetaKeepsTarget(ws: seq<Option<real>>, src: seq<Option<real>>)
    requires forall i :: 0 <= i < |ws| ==> ws[i].Some?
    requires forall i :: 0 <= i < |src| ==> src[i].Some?
    ensures EmaApplied(1.0, ws, src) == ws
  {
    var r := EmaApplied(1.0, ws, src);
    assert FirstFailure(1.0, ws, src) == Min(|ws|, |src|);
    forall i | 0 <= i < |ws| ensures r[i] == ws[i] {
      if i < Min(|ws|, |src|) {
        EmaEndpoints(ws[i].value, src[i].value);
      }
    }
  }

  /** An uninitialised target takes the source parameters as they are. */
  lemma UninitialisedTargetCopies(beta: real, ws: seq<Option<real>>, src: seq<Option<real>>)
    requires forall i :: 0 <= i < |ws| ==> ws[i].None?
    ensures var r := EmaApplied(beta, ws, src);
            forall i :: 0 <= i < |ws| ==> r[i] == if i < |src| then src[i] else ws[i]
  {
    assert FirstFailure(beta, ws, src) == Min(|ws|, |src|);
  }
}
