/** Python and PyTorch semantics the training core relies on: optional values,
    raised exceptions as results, negative-index slicing, floor and ceiling
    division, `range` and substring containment. */
module Py {

  datatype Option<+T> = None | Some(value: T) {
    function GetOr(default: T): T {
      match this
      case Some(v) => v
      case None => default
    }
  }

  /** The exceptions the core raises, one constructor per raise site kind. */
  datatype Error =
    | BothInputs            // ValueError: input_ids and inputs_embeds both given
    | NoInputs              // ValueError: neither input_ids nor inputs_embeds given
    | IndexOutOfRange       // IndexError from list or tensor indexing
    | MustReturnDict        // AssertionError in the causal LM forward
    | MustNotOutputAttentions
    | InvalidLearningRate   // ValueError in Minato construction
    | InvalidBeta
    | InvalidWeightDecay
    | EmptyParamList        // ValueError from torch's Optimizer: empty parameter list
    | SparseGradient        // RuntimeError in Minato.step
    | InvalidOptimizer      // ValueError from the trainer's name dispatch
    | InvalidLossFunction
    | InvalidDataset
    | ZeroDivision          // ZeroDivisionError from `/` or `//`
    | RangeStepZero         // ValueError: range() arg 3 must not be zero
    | InvalidSplitSize      // RuntimeError: torch.split with a non-positive size

  datatype Result<+T> = Ok(value: T) | Err(error: Error) {
    predicate IsFailure() {
      Err?
    }

    function PropagateFailure<U>(): Result<U>
      requires Err?
    {
      Err(error)
    }

    function Extract(): T
      requires Ok?
    {
      value
    }
  }

  function Min(a: int, b: int): int {
    if a <= b then a else b
  }

  function Max(a: int, b: int): int {
    if a >= b then a else b
  }

  function MinReal(a: real, b: real): real {
    if a <= b then a else b
  }

  function MaxReal(a: real, b: real): real {
    if a >= b then a else b
  }

  /** The index at which Python's `s[start:]` begins on a sequence of length
      `n`: a negative start counts from the end and both are clamped. */
  function SliceStart(n: nat, start: int): (k: nat)
    ensures k <= n
    ensures start < 0 ==> k == Max(n + start, 0)
    ensures start >= 0 ==> k == Min(start, n)
  {
    if start < 0 then (if n + start < 0 then 0 else n + start)
    else if start < n then start else n
  }

  /** Python's `s[start:]`: a negative start keeps the last `-start`
      elements (all of them when there are fewer), a non-negative one drops
      the first `start` (all of them when there are fewer). */
  function Suffix<T>(s: seq<T>, start: int): (r: seq<T>)
    ensures |r| == (if start < 0 then Min(-start, |s|) else Max(|s| - start, 0))
    ensures r == s[|s| - (if start < 0 then Min(-start, |s|) else Max(|s| - start, 0))..]
  {
    s[SliceStart(|s|, start)..]
  }

  /** Python's `a // b` on integers: rounds toward negative infinity and
      raises ZeroDivisionError on a zero divisor. */
  function FloorDiv(a: int, b: int): (r: Result<int>)
    ensures r.Ok? <==> b != 0
    ensures r.Err? ==> r.error == ZeroDivision
    ensures b > 0 && r.Ok? ==> r.value * b <= a < r.value * b + b
    ensures b < 0 && r.Ok? ==> r.value * b + b < a <= r.value * b
  {
    if b == 0 then Err(ZeroDivision)
    else if b > 0 then Ok(a / b)
    else Ok((-a) / (-b))
  }

  /** `ceil(a / b)` for a nonzero integer divisor, computed exactly. */
  function CeilDiv(a: int, b: int): (q: int)
    requires b != 0
    ensures b > 0 ==> (q - 1) * b < a <= q * b
    ensures b < 0 ==> q * b <= a < (q - 1) * b
  {
    if b > 0 then -((-a) / b) else -(a / (-b))
  }

  /** The elements of Python's `range(start, stop, step)` for `step != 0`. */
  function RangeSeq(start: int, stop: int, step: int): (r: seq<int>)
    requires step != 0
    decreases if step > 0 then stop - start else start - stop
  {
    if step > 0 then
      if start >= stop then [] else [start] + RangeSeq(start + step, stop, step)
    else
      if start <= stop then [] else [start] + RangeSeq(start + step, stop, step)
  }

  /** Python's `list(range(start, stop, step))`. */
  function Range(start: int, stop: int, step: int): (r: Result<seq<int>>)
    ensures r.Ok? <==> step != 0
    ensures r.Err? ==> r.error == RangeStepZero
  {
    if step == 0 then Err(RangeStepZero) else Ok(RangeSeq(start, stop, step))
  }

  /** For a positive step, `range` holds exactly the values from `start` up to
      `stop` that are congruent to `start` modulo `step`. */
  lemma {:induction false} RangeMembership(start: int, stop: int, step: int, x: int)
    requires step > 0
    ensures x in RangeSeq(start, stop, step) <==> start <= x < stop && (x - start) % step == 0
    decreases stop - start
  {
    if start < stop {
      RangeMembership(start + step, stop, step, x);
      if start + step <= x {
        ModShift(x - (start + step), step);
      } else if start <= x {
        ModSmall(x - start, step);
      }
    }
  }

  lemma ModShift(a: int, b: int)
    requires b > 0
    ensures (a + b) % b == a % b
  {
    var q, r := a / b, a % b;
    assert a + b == (q + 1) * b + r;
    DivModUnique(a + b, b, q + 1, r);
  }

  lemma ModSmall(a: int, b: int)
    requires 0 <= a < b
    ensures a % b == a
  {
    DivModUnique(a, b, 0, a);
  }

  /** Euclidean division is determined by quotient and remainder. */
  lemma DivModUnique(a: int, b: int, q: int, r: int)
    requires b > 0 && 0 <= r < b && a == q * b + r
    ensures a / b == q && a % b == r
  {
    var q', r' := a / b, a % b;
    var d := q - q';
    assert d * b == r' - r by {
      assert q * b + r == q' * b + r';
      assert q * b - q' * b == d * b;
    }
    if d >= 1 {
      MulAtLeast(d, b);
    } else if d <= -1 {
      MulAtLeast(-d, b);
    }
  }

  lemma MulAtLeast(k: int, b: int)
    requires k >= 1 && b > 0
    ensures k * b >= b
  {
    assert k * b == (k - 1) * b + b;
  }

  /** Every element of an ascending `range` lies in `[start, stop)`, and the
      list is strictly increasing. */
  lemma {:induction false} RangeAscending(start: int, stop: int, step: int)
    requires step > 0
    ensures forall i :: 0 <= i < |RangeSeq(start, stop, step)| ==> start <= RangeSeq(start, stop, step)[i] < stop
    ensures forall i, j :: 0 <= i < j < |RangeSeq(start, stop, step)| ==> RangeSeq(start, stop, step)[i] < RangeSeq(start, stop, step)[j]
    decreases stop - start
  {
    if start < stop {
      RangeAscending(start + step, stop, step);
    }
  }

  /** Python's `pat in s` for strings: `pat` occurs as a contiguous block. */
  function Contains(s: string, pat: string): (b: bool)
    decreases |s|
    ensures b ==> |pat| <= |s|
    ensures |pat| == 0 ==> b
    ensures pat == s ==> b
  {
    if |pat| > |s| then false
    else if s[..|pat|] == pat then true
    else Contains(s[1..], pat)
  }

  /** Reference meaning of substring containment: some offset matches. */
  ghost predicate OccursAt(s: string, pat: string, i: int) {
    0 <= i && i + |pat| <= |s| && s[i..i + |pat|] == pat
  }

  lemma {:induction false} ContainsIffOccurs(s: string, pat: string)
    ensures Contains(s, pat) <==> exists i :: OccursAt(s, pat, i)
    decreases |s|
  {
    if |pat| > |s| {
    } else if s[..|pat|] == pat {
      assert OccursAt(s, pat, 0);
    } else {
      ContainsIffOccurs(s[1..], pat);
      if exists i :: OccursAt(s[1..], pat, i) {
        var i :| OccursAt(s[1..], pat, i);
        assert s[1..][i..i + |pat|] == s[i + 1..i + 1 + |pat|];
        assert OccursAt(s, pat, i + 1);
      }
      if exists i :: OccursAt(s, pat, i) {
        var i :| OccursAt(s, pat, i);
        assert i != 0;
        assert s[1..][i - 1..i - 1 + |pat|] == s[i..i + |pat|];
        assert OccursAt(s[1..], pat, i - 1);
      }
    }
  }
}
