/**
  Prompt-equal loss denominators and rollout-id filling
  (dressage/rollout/convert_samples.py). Weights are exact reals; the source uses floats.
 */
module ConvertSamples {

  import opened Wrappers

  datatype Result<+T> = Ok(value: T) | AssertionFailed

  /** The fields of a training sample that the aggregation reads; `mask` is the final loss mask. */
  datatype Sample = Sample(
    parentTraj: Option<string>,
    instanceId: Option<string>,
    groupIndex: Option<int>,
    dead: bool,
    mask: seq<int>)

  function SumMask(mask: seq<int>): int {
    if mask == [] then 0 else mask[0] + SumMask(mask[1..])
  }

  /** What the assertions in the aggregation loop demand of each sample. */
  predicate WellFormed(s: Sample) {
    s.parentTraj.Some? && s.instanceId.Some? && (s.dead || s.groupIndex.Some?)
  }

  function PromptOf(s: Sample): string {
    if s.instanceId.Some? then s.instanceId.value else ""
  }

  predicate LiveIn(s: Sample, p: string) {
    !s.dead && s.instanceId == Some(p)
  }

  /** M_P: the mask total over the live samples of prompt `p`. */
  function PromptMask(samples: seq<Sample>, p: string): int {
    if samples == [] then 0
    else
      var last := samples[|samples| - 1];
      PromptMask(samples[..|samples| - 1], p) + if LiveIn(last, p) then SumMask(last.mask) else 0
  }

  /** Prompts with at least one live sample. */
  function LivePrompts(samples: seq<Sample>): set<string> {
    set s | s in samples && !s.dead && s.instanceId.Some? :: s.instanceId.value
  }

  /** N_P / gbs, or 0 when either count is not positive. */
  function Scale(prompts: nat, gbs: int): real {
    if gbs > 0 && prompts > 0 then prompts as real / gbs as real else 0.0
  }

  /** M_P * N_P / gbs. */
  function Denominator(samples: seq<Sample>, gbs: int, p: string): real {
    PromptMask(samples, p) as real * Scale(|LivePrompts(samples)|, gbs)
  }

  /** The running totals of the first loop are those of the samples seen. */
  ghost predicate Tallied(samples: seq<Sample>, counts: map<string, int>, realPrompts: set<string>) {
    && realPrompts == LivePrompts(samples)
    && forall p :: PromptMask(samples, p) == if p in counts then counts[p] else 0
  }

  lemma SampleTallied(seen: seq<Sample>, s: Sample, counts: map<string, int>, realPrompts: set<string>)
    requires Tallied(seen, counts, realPrompts) && WellFormed(s)
    ensures s.dead ==> Tallied(seen + [s], counts, realPrompts)
    ensures !s.dead ==>
              var p := s.instanceId.value;
              var total := (if p in counts then counts[p] else 0) + SumMask(s.mask);
              Tallied(seen + [s], counts[p := total], realPrompts + {p})
  {
    assert (seen + [s])[..|seen|] == seen;
  }

  /** The first loop: check every sample, total the masks of each live prompt, collect the live prompts. */
  method CountMasks(samples: seq<Sample>)
    returns (ok: bool, counts: map<string, int>, realPrompts: set<string>)
    ensures ok <==> forall s | s in samples :: WellFormed(s)
    ensures ok ==> realPrompts == LivePrompts(samples)
    ensures ok ==> forall p :: PromptMask(samples, p) == if p in counts then counts[p] else 0
  {
    counts, realPrompts := map[], {};
    var i := 0;
    while i < |samples|
      invariant 0 <= i <= |samples|
      invariant forall j | 0 <= j < i :: WellFormed(samples[j])
      invariant Tallied(samples[..i], counts, realPrompts)
    {
      var s := samples[i];
      if s.parentTraj.None? || s.instanceId.None? || (!s.dead && s.groupIndex.None?) {
        assert s in samples && !WellFormed(s);
        return false, counts, realPrompts;
      }
      SampleTallied(samples[..i], s, counts, realPrompts);
      assert samples[..i + 1] == samples[..i] + [s];
      if !s.dead {
        var p := s.instanceId.value;
        realPrompts := realPrompts + {p};
        counts := counts[p := (if p in counts then counts[p] else 0) + SumMask(s.mask)];
      }
      i := i + 1;
    }
    assert samples[..i] == samples;
    ok := true;
  }

  method PromptEqualMaskSums(samples: seq<Sample>, gbs: int) returns (r: Result<seq<real>>)
    ensures r.Ok? <==> forall s | s in samples :: WellFormed(s)
    ensures r.Ok? ==> |r.value| == |samples|
    ensures r.Ok? ==> forall i | 0 <= i < |samples| :: r.value[i] == Denominator(samples, gbs, PromptOf(samples[i]))
  {
    var ok, counts, realPrompts := CountMasks(samples);
    if !ok {
      return AssertionFailed;
    }
    var scale := if gbs > 0 && |realPrompts| > 0 then |realPrompts| as real / gbs as real else 0.0;
    var result: seq<real> := [];
    var i := 0;
    while i < |samples|
      invariant 0 <= i <= |samples| && |result| == i
      invariant forall j | 0 <= j < i :: result[j] == Denominator(samples, gbs, PromptOf(samples[j]))
    {
      var p := PromptOf(samples[i]);
      result := result + [(if p in counts then counts[p] else 0) as real * scale];
      i := i + 1;
    }
    return Ok(result);
  }

  // ------------------------------------------------- what the loss then sees

  /** The summed weights, mask total over denominator `d`, of the live samples of prompt `p`. */
  function WeightAt(samples: seq<Sample>, p: string, d: real): real
    requires d != 0.0
  {
    if samples == [] then 0.0
    else
      var last := samples[|samples| - 1];
      WeightAt(samples[..|samples| - 1], p, d) + if LiveIn(last, p) then SumMask(last.mask) as real / d else 0.0
  }

  /** A live prompt that has trained tokens. */
  predicate Trained(samples: seq<Sample>, p: string) {
    p in LivePrompts(samples) && PromptMask(samples, p) != 0
  }

  function PromptWeight(samples: seq<Sample>, gbs: int, p: string): real
    requires gbs > 0 && Trained(samples, p)
  {
    DenominatorNonzero(samples, gbs, p);
    WeightAt(samples, p, Denominator(samples, gbs, p))
  }

  lemma ProductNonzero(a: real, b: real)
    requires a != 0.0 && b != 0.0
    ensures a * b != 0.0
  {
  }

  lemma DenominatorNonzero(samples: seq<Sample>, gbs: int, p: string)
    requires gbs > 0 && Trained(samples, p)
    ensures |LivePrompts(samples)| > 0
    ensures Denominator(samples, gbs, p) != 0.0
  {
    ProductNonzero(PromptMask(samples, p) as real, Scale(|LivePrompts(samples)|, gbs));
  }

  lemma DivisionAdds(a: real, b: real, d: real)
    requires d != 0.0
    ensures a / d + b / d == (a + b) / d
  {
  }

  lemma {:induction false} WeightIsMaskOver(samples: seq<Sample>, p: string, d: real)
    requires d != 0.0
    ensures WeightAt(samples, p, d) == PromptMask(samples, p) as real / d
  {
    if samples != [] {
      var front, last := samples[..|samples| - 1], samples[|samples| - 1];
      WeightIsMaskOver(front, p, d);
      if LiveIn(last, p) {
        DivisionAdds(PromptMask(front, p) as real, SumMask(last.mask) as real, d);
      }
    }
  }

  lemma Quotient(a: real, b: real, q: real)
    requires b != 0.0 && q * b == a
    ensures a / b == q
  {
  }

  lemma Whole(n: real, g: real)
    requires n != 0.0
    ensures n * (g / n) == g
  {
  }

  lemma Regroup(u: real, v: real, g: real)
    ensures u * v * g == (g * v) * u
  {
  }

  lemma Associate(a: real, b: real, c: real)
    ensures a * (b * c) == b * (a * c)
  {
  }

  lemma Reciprocal(n: real, g: real)
    requires n != 0.0 && g != 0.0
    ensures (g / n) * (n / g) == 1.0
  {
    var u, v := g / n, n / g;
    calc {
      u * v * g;
      { Regroup(u, v, g); }
      (g * v) * u;
      { Whole(g, n); }
      n * u;
      { Whole(n, g); }
      g;
    }
    Quotient(g, g, u * v);
    Quotient(g, g, 1.0);
  }

  lemma Cancel(m: real, n: real, g: real)
    requires m != 0.0 && n != 0.0 && g != 0.0
    ensures m * (n / g) != 0.0 && m / (m * (n / g)) == g / n
  {
    ProductNonzero(m, n / g);
    Reciprocal(n, g);
    Associate(g / n, m, n / g);
    Quotient(m, m * (n / g), g / n);
  }

  /**
    Every live prompt with a nonzero mask contributes gbs / N_P, however its tokens are split
    into samples.
   */
  lemma EveryPromptWeighsTheSame(samples: seq<Sample>, gbs: int, p: string)
    requires gbs > 0 && Trained(samples, p)
    ensures |LivePrompts(samples)| > 0
    ensures PromptWeight(samples, gbs, p) == gbs as real / |LivePrompts(samples)| as real
  {
    DenominatorNonzero(samples, gbs, p);
    WeightIsMaskOver(samples, p, Denominator(samples, gbs, p));
    Cancel(PromptMask(samples, p) as real, |LivePrompts(samples)| as real, gbs as real);
  }

  ghost function SumOver(ps: set<string>, f: string -> real): real {
    if ps == {} then 0.0
    else
      var p :| p in ps;
      f(p) + SumOver(ps - {p}, f)
  }

  /** k * each, by repeated addition. */
  function Repeated(k: nat, each: real): real {
    if k == 0 then 0.0 else Repeated(k - 1, each) + each
  }

  lemma {:induction false} RepeatedIsProduct(k: nat, each: real)
    ensures Repeated(k, each) == k as real * each
  {
    if k > 0 {
      RepeatedIsProduct(k - 1, each);
    }
  }

  lemma RepeatedShares(k: nat, whole: real)
    requires k > 0
    ensures Repeated(k, whole / k as real) == whole
  {
    RepeatedIsProduct(k, whole / k as real);
    Whole(k as real, whole);
  }

  lemma {:induction false} SumOfEquals(ps: set<string>, f: string -> real, each: real)
    requires forall p | p in ps :: f(p) == each
    ensures SumOver(ps, f) == Repeated(|ps|, each)
  {
    if ps != {} {
      var p :| p in ps && SumOver(ps, f) == f(p) + SumOver(ps - {p}, f);
      SumOfEquals(ps - {p}, f, each);
      assert |ps| == |ps - {p}| + 1;
    }
  }

  /** When no live prompt has a zero mask, the whole batch weighs exactly gbs. */
  lemma BatchWeighsGlobalBatchSize(samples: seq<Sample>, gbs: int)
    requires gbs > 0 && LivePrompts(samples) != {}
    requires forall p | p in LivePrompts(samples) :: Trained(samples, p)
    ensures SumOver(LivePrompts(samples), p => if Trained(samples, p) then PromptWeight(samples, gbs, p) else 0.0)
         == gbs as real
  {
    var n := |LivePrompts(samples)| as real;
    var f := p => if Trained(samples, p) then PromptWeight(samples, gbs, p) else 0.0;
    forall p | p in LivePrompts(samples) ensures f(p) == gbs as real / n {
      EveryPromptWeighsTheSame(samples, gbs, p);
    }
    SumOfEquals(LivePrompts(samples), f, gbs as real / n);
    RepeatedShares(|LivePrompts(samples)|, gbs as real);
  }

  // --------------------------------------------------------- rollout ids

  /** The values already present. */
  function Given(ids: seq<Option<int>>): set<int> {
    set id | id in ids && id.Some? :: id.value
  }

  /** The least natural number at or above `from` that is not in `used`. */
  predicate IsNextFree(used: set<int>, from: int, id: int) {
    from <= id && id !in used && forall x | from <= x < id :: x in used
  }

  method NextFree(used: set<int>, from: int) returns (id: int)
    ensures IsNextFree(used, from, id)
  {
    id := from;
    ghost var left := set x | x in used && id <= x;
    while id in used
      invariant from <= id
      invariant forall x | from <= x < id :: x in used
      invariant left == set x | x in used && id <= x
      decreases |left|
    {
      ghost var next := left - {id};
      assert |next| < |left|;
      assert next == set x | x in used && id + 1 <= x;
      left := next;
      id := id + 1;
    }
  }

  /** Every id in use once `filled` has been assigned to the first entries of `ids`. */
  function InUse(ids: seq<Option<int>>, filled: seq<int>): set<int>
    requires |filled| <= |ids|
  {
    Given(ids) + set j | 0 <= j < |filled| && ids[j].None? :: filled[j]
  }

  /** The id at position i is kept if given, and otherwise the smallest natural not in use before it. */
  predicate FilledAt(ids: seq<Option<int>>, filled: seq<int>, i: nat)
    requires i < |filled| <= |ids|
  {
    if ids[i].Some? then filled[i] == ids[i].value else IsNextFree(InUse(ids, filled[..i]), 0, filled[i])
  }

  method FillRolloutIds(ids: seq<Option<int>>) returns (filled: seq<int>)
    ensures |filled| == |ids|
    ensures forall i | 0 <= i < |ids| :: FilledAt(ids, filled, i)
  {
    filled := [];
    var used := Given(ids);
    var tmp := 0;
    var i := 0;
    while i < |ids|
      invariant 0 <= i <= |ids| && |filled| == i && 0 <= tmp
      invariant used == InUse(ids, filled)
      invariant forall x | 0 <= x < tmp :: x in used
      invariant forall j | 0 <= j < i :: FilledAt(ids, filled, j)
    {
      ghost var before := filled;
      if ids[i].Some? {
        InUseKept(ids, filled, ids[i].value);
        filled := filled + [ids[i].value];
      } else {
        tmp := NextFree(used, tmp);
        InUseGrows(ids, filled, tmp);
        filled := filled + [tmp];
        used := used + {tmp};
      }
      FilledAtKept(ids, before, filled);
      assert filled[..i] == before;
      i := i + 1;
    }
  }

  lemma FilledAtKept(ids: seq<Option<int>>, before: seq<int>, after: seq<int>)
    requires |before| <= |after| <= |ids| && after[..|before|] == before
    requires forall j | 0 <= j < |before| :: FilledAt(ids, before, j)
    ensures forall j | 0 <= j < |before| :: FilledAt(ids, after, j)
  {
    forall j | 0 <= j < |before| ensures FilledAt(ids, after, j) {
      assert FilledAt(ids, before, j);
      assert after[..j] == before[..j];
      assert after[j] == before[j];
    }
  }

  lemma InUseKept(ids: seq<Option<int>>, filled: seq<int>, v: int)
    requires |filled| < |ids| && ids[|filled|].Some?
    ensures InUse(ids, filled + [v]) == InUse(ids, filled)
  {
    var more := filled + [v];
    forall x | x in InUse(ids, filled) && x !in Given(ids) ensures x in InUse(ids, more) {
      var j :| 0 <= j < |filled| && ids[j].None? && filled[j] == x;
      assert more[j] == x;
    }
  }

  lemma InUseGrows(ids: seq<Option<int>>, filled: seq<int>, v: int)
    requires |filled| < |ids| && ids[|filled|].None?
    ensures InUse(ids, filled + [v]) == InUse(ids, filled) + {v}
  {
    var more := filled + [v];
    assert more[|filled|] == v;
    forall x | x in InUse(ids, filled) && x !in Given(ids) ensures x in InUse(ids, more) {
      var j :| 0 <= j < |filled| && ids[j].None? && filled[j] == x;
      assert more[j] == x;
    }
  }

  /** Every assigned id is a natural that was not given. */
  lemma FilledIdIsFresh(ids: seq<Option<int>>, filled: seq<int>, i: nat)
    requires |filled| == |ids| && forall k | 0 <= k < |ids| :: FilledAt(ids, filled, k)
    requires i < |ids| && ids[i].None?
    ensures 0 <= filled[i] && filled[i] !in Given(ids)
  {
    assert FilledAt(ids, filled, i);
  }

  /** No two assigned ids are equal. */
  lemma FilledIdsAreDistinct(ids: seq<Option<int>>, filled: seq<int>, i: nat, j: nat)
    requires |filled| == |ids| && forall k | 0 <= k < |ids| :: FilledAt(ids, filled, k)
    requires i < j < |ids| && ids[i].None? && ids[j].None?
    ensures filled[i] != filled[j]
  {
    assert FilledAt(ids, filled, i) && FilledAt(ids, filled, j);
    assert filled[..j][i] == filled[i];
    assert filled[i] in InUse(ids, filled[..j]);
  }
}
