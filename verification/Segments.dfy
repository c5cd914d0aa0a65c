/**
  What finalize makes of a session in token build mode "tito": lineages are cut into segments at their
  boundaries and every segment becomes one training record (dressage/proxy/server.py:670-706, 1267-1275,
  1509-1639, 2800-2814).
 */
module Segments {
  import opened Wrappers
  import opened Sequences
  import opened Lineages
  import RoutedExperts

  /** The segments closed so far and the one still open. */
  datatype Cut = Cut(done: seq<seq<Step>>, current: seq<Step>)

  function Extend(c: Cut, step: Step): Cut {
    if step.boundary && |c.current| > 0 then Cut(c.done + [c.current], [step]) else Cut(c.done, c.current + [step])
  }

  function CutUp(mine: seq<Step>): Cut {
    if mine == [] then Cut([], []) else Extend(CutUp(mine[..|mine| - 1]), mine[|mine| - 1])
  }

  function Closed(c: Cut): seq<seq<Step>> {
    if |c.current| == 0 then c.done else c.done + [c.current]
  }

  /** The steps of one lineage, cut before every boundary. */
  function Groups(mine: seq<Step>): seq<seq<Step>> {
    Closed(CutUp(mine))
  }

  function FlattenTo<T>(xss: seq<seq<T>>, n: nat): seq<T>
    requires n <= |xss|
  {
    if n == 0 then [] else FlattenTo(xss, n - 1) + xss[n - 1]
  }

  function Flatten<T>(xss: seq<seq<T>>): seq<T> {
    FlattenTo(xss, |xss|)
  }

  /** The segments of the first `n` lineages, in lineage order. */
  function SegmentsUpTo(steps: seq<Step>, n: nat): seq<seq<Step>> {
    if n == 0 then [] else SegmentsUpTo(steps, n - 1) + Groups(LineageSteps(steps, n - 1))
  }

  function LineageSegments(s: Session): (r: seq<seq<Step>>)
    ensures forall k | 0 <= k < |r| :: |r[k]| > 0
  {
    SegmentsNonEmpty(s.steps, |s.lineages|);
    SegmentsUpTo(s.steps, |s.lineages|)
  }

  // ------------------------------------------------- properties of every segment

  ghost predicate Every(segments: seq<seq<Step>>, p: seq<Step> -> bool) {
    forall k | 0 <= k < |segments| :: p(segments[k])
  }

  lemma EveryConcat(a: seq<seq<Step>>, b: seq<seq<Step>>, p: seq<Step> -> bool)
    requires Every(a, p) && Every(b, p)
    ensures Every(a + b, p)
  {
  }

  lemma EveryClosed(c: Cut, p: seq<Step> -> bool)
    requires Every(c.done, p) && (|c.current| > 0 ==> p(c.current))
    ensures Every(Closed(c), p)
  {
  }

  /** What holds of every segment of every lineage holds of every segment. */
  lemma {:induction false} EverySegment(steps: seq<Step>, n: nat, p: seq<Step> -> bool)
    requires forall l | 0 <= l < n :: Every(Groups(LineageSteps(steps, l)), p)
    ensures Every(SegmentsUpTo(steps, n), p)
  {
    if n > 0 {
      EverySegment(steps, n - 1, p);
      EveryConcat(SegmentsUpTo(steps, n - 1), Groups(LineageSteps(steps, n - 1)), p);
    }
  }

  predicate NonEmpty(g: seq<Step>) { |g| > 0 }

  lemma {:induction false} CutNonEmpty(mine: seq<Step>)
    ensures Every(CutUp(mine).done, NonEmpty) && (|CutUp(mine).current| == 0 <==> |mine| == 0)
  {
    if mine != [] {
      CutNonEmpty(mine[..|mine| - 1]);
    }
  }

  lemma SegmentsNonEmpty(steps: seq<Step>, n: nat)
    ensures forall k | 0 <= k < |SegmentsUpTo(steps, n)| :: |SegmentsUpTo(steps, n)[k]| > 0
  {
    forall l | 0 <= l < n ensures Every(Groups(LineageSteps(steps, l)), NonEmpty) {
      CutNonEmpty(LineageSteps(steps, l));
      EveryClosed(CutUp(LineageSteps(steps, l)), NonEmpty);
    }
    EverySegment(steps, n, NonEmpty);
  }

  // ---------------------------------------------------------------- partition

  lemma {:induction false} FlattenPrefix<T>(a: seq<seq<T>>, b: seq<seq<T>>, n: nat)
    requires n <= |a|
    ensures FlattenTo(a + b, n) == FlattenTo(a, n)
  {
    if n > 0 {
      FlattenPrefix(a, b, n - 1);
    }
  }

  lemma FlattenSnoc<T>(xss: seq<seq<T>>, xs: seq<T>)
    ensures Flatten(xss + [xs]) == Flatten(xss) + xs
  {
    FlattenPrefix(xss, [xs], |xss|);
  }

  lemma ExtendPartition(c: Cut, step: Step)
    ensures var c' := Extend(c, step);
            Flatten(c'.done) + c'.current == Flatten(c.done) + c.current + [step]
  {
    FlattenSnoc(c.done, c.current);
    Regroup(Flatten(c.done), c.current, [step]);
  }

  ghost predicate IsPartition(c: Cut, mine: seq<Step>) {
    Flatten(c.done) + c.current == mine
  }

  lemma ExtendKeepsPartition(c: Cut, mine: seq<Step>, step: Step)
    requires IsPartition(c, mine)
    ensures IsPartition(Extend(c, step), mine + [step])
  {
    ExtendPartition(c, step);
  }

  lemma {:induction false} CutPartition(mine: seq<Step>)
    ensures IsPartition(CutUp(mine), mine)
  {
    if mine != [] {
      var before, last := mine[..|mine| - 1], mine[|mine| - 1];
      CutPartition(before);
      ExtendKeepsPartition(CutUp(before), before, last);
      assert before + [last] == mine;
    }
  }

  /** Cutting loses nothing and keeps the order. */
  lemma GroupsPartition(mine: seq<Step>)
    ensures Flatten(Groups(mine)) == mine
  {
    var c := CutUp(mine);
    CutPartition(mine);
    FlattenSnoc(c.done, c.current);
    assert |c.current| == 0 ==> Flatten(c.done) + c.current == Flatten(c.done);
  }

  /** A segment has no boundary inside. */
  predicate CutInside(g: seq<Step>) {
    forall j | 1 <= j < |g| :: !g[j].boundary
  }

  /** Every segment of a lineage after the first starts at a boundary. */
  ghost predicate StartAtBoundaries(gs: seq<seq<Step>>) {
    forall k | 1 <= k < |gs| :: |gs[k]| > 0 && gs[k][0].boundary
  }

  lemma {:induction false} CutsAreBoundaries(mine: seq<Step>)
    ensures Every(CutUp(mine).done, CutInside) && CutInside(CutUp(mine).current)
    ensures StartAtBoundaries(CutUp(mine).done)
    ensures var c := CutUp(mine); |c.done| > 0 ==> |c.current| > 0 && c.current[0].boundary
  {
    if mine != [] {
      CutsAreBoundaries(mine[..|mine| - 1]);
    }
  }

  lemma GroupsCutAtBoundaries(mine: seq<Step>)
    ensures Every(Groups(mine), CutInside) && StartAtBoundaries(Groups(mine))
  {
    CutsAreBoundaries(mine);
    EveryClosed(CutUp(mine), CutInside);
  }

  // ------------------------------------------------------------- conservation

  /** Any quantity summed over steps. */
  ghost function Sum(steps: seq<Step>, w: Step -> nat): nat {
    if steps == [] then 0 else Sum(steps[..|steps| - 1], w) + w(steps[|steps| - 1])
  }

  ghost function SumBelow(steps: seq<Step>, w: Step -> nat, n: nat): nat {
    if steps == [] then 0
    else SumBelow(steps[..|steps| - 1], w, n) + if steps[|steps| - 1].lineage < n then w(steps[|steps| - 1]) else 0
  }

  lemma {:induction false} SumConcat(a: seq<Step>, b: seq<Step>, w: Step -> nat)
    ensures Sum(a + b, w) == Sum(a, w) + Sum(b, w)
  {
    if b == [] {
      assert a + b == a;
    } else {
      assert (a + b)[..|a + b| - 1] == a + b[..|b| - 1];
      SumConcat(a, b[..|b| - 1], w);
    }
  }

  lemma SumSnoc(steps: seq<Step>, step: Step, w: Step -> nat)
    ensures Sum(steps + [step], w) == Sum(steps, w) + w(step)
  {
    assert (steps + [step])[..|steps|] == steps;
  }

  lemma {:induction false} NextLineageAdds(steps: seq<Step>, w: Step -> nat, n: nat)
    ensures SumBelow(steps, w, n + 1) == SumBelow(steps, w, n) + Sum(LineageSteps(steps, n), w)
  {
    if steps != [] {
      var before := steps[..|steps| - 1];
      NextLineageAdds(before, w, n);
      SumConcat(LineageSteps(before, n), if steps[|steps| - 1].lineage == n then [steps[|steps| - 1]] else [], w);
      SumSnoc([], steps[|steps| - 1], w);
      assert [] + [steps[|steps| - 1]] == [steps[|steps| - 1]];
    }
  }

  lemma {:induction false} NothingBelowZero(steps: seq<Step>, w: Step -> nat)
    ensures SumBelow(steps, w, 0) == 0
  {
    if steps != [] {
      NothingBelowZero(steps[..|steps| - 1], w);
    }
  }

  lemma {:induction false} AllBelow(steps: seq<Step>, w: Step -> nat, n: nat)
    requires forall i | 0 <= i < |steps| :: steps[i].lineage < n
    ensures SumBelow(steps, w, n) == Sum(steps, w)
  {
    if steps != [] {
      AllBelow(steps[..|steps| - 1], w, n);
    }
  }

  lemma {:induction false} FlattenRest<T>(a: seq<seq<T>>, b: seq<seq<T>>, n: nat)
    requires n <= |b|
    ensures FlattenTo(a + b, |a| + n) == Flatten(a) + FlattenTo(b, n)
  {
    if n == 0 {
      FlattenPrefix(a, b, |a|);
    } else {
      FlattenRest(a, b, n - 1);
      Regroup(Flatten(a), FlattenTo(b, n - 1), b[n - 1]);
    }
  }

  lemma FlattenConcat<T>(a: seq<seq<T>>, b: seq<seq<T>>)
    ensures Flatten(a + b) == Flatten(a) + Flatten(b)
  {
    FlattenRest(a, b, |b|);
  }

  lemma FlattenNext(steps: seq<Step>, n: nat)
    ensures Flatten(SegmentsUpTo(steps, n + 1)) == Flatten(SegmentsUpTo(steps, n)) + LineageSteps(steps, n)
  {
    FlattenConcat(SegmentsUpTo(steps, n), Groups(LineageSteps(steps, n)));
    GroupsPartition(LineageSteps(steps, n));
  }

  /** The steps of the first `n` lineages, lineage by lineage, each in recording order. */
  function ByLineage(steps: seq<Step>, n: nat): seq<Step> {
    if n == 0 then [] else ByLineage(steps, n - 1) + LineageSteps(steps, n - 1)
  }

  /** The segments, read one after the other, are the lineages read one after the other. */
  lemma {:induction false} SegmentsPartitionLineages(steps: seq<Step>, n: nat)
    ensures Flatten(SegmentsUpTo(steps, n)) == ByLineage(steps, n)
  {
    if n > 0 {
      SegmentsPartitionLineages(steps, n - 1);
      FlattenNext(steps, n - 1);
    }
  }

  lemma SumNextLineage(steps: seq<Step>, w: Step -> nat, n: nat)
    ensures Sum(ByLineage(steps, n + 1), w) == Sum(ByLineage(steps, n), w) + Sum(LineageSteps(steps, n), w)
  {
    SumConcat(ByLineage(steps, n), LineageSteps(steps, n), w);
  }

  lemma NextLineageHolds(steps: seq<Step>, w: Step -> nat, n: nat)
    requires Sum(ByLineage(steps, n), w) == SumBelow(steps, w, n)
    ensures Sum(ByLineage(steps, n + 1), w) == SumBelow(steps, w, n + 1)
  {
    SumNextLineage(steps, w, n);
    NextLineageAdds(steps, w, n);
  }

  lemma {:induction false} LineagesHoldBelow(steps: seq<Step>, w: Step -> nat, n: nat)
    ensures Sum(ByLineage(steps, n), w) == SumBelow(steps, w, n)
  {
    if n == 0 {
      NothingBelowZero(steps, w);
    } else {
      LineagesHoldBelow(steps, w, n - 1);
      NextLineageHolds(steps, w, n - 1);
    }
  }

  /** Whatever is counted over steps, the segments hold exactly what the session holds. */
  lemma SegmentsConserve(s: Session, w: Step -> nat)
    requires Registered(s)
    ensures Sum(Flatten(LineageSegments(s)), w) == Sum(s.steps, w)
  {
    SegmentsPartitionLineages(s.steps, |s.lineages|);
    LineagesHoldBelow(s.steps, w, |s.lineages|);
    AllBelow(s.steps, w, |s.lineages|);
  }

  lemma {:induction false} DistinctSum(s: Session, n: nat, i: nat)
    requires Ids(s) && i < |s.steps| && n <= |s.steps|
    ensures Sum(s.steps[..n], (x: Step) => if x.id == s.steps[i].id then 1 else 0) == if i < n then 1 else 0
    decreases n
  {
    if n > 0 {
      assert s.steps[..n][..n - 1] == s.steps[..n - 1];
      DistinctSum(s, n - 1, i);
    }
  }

  /** Every recorded step is in exactly one place of exactly one segment. */
  lemma EveryStepInOneSegment(s: Session, i: nat)
    requires Inv(s) && i < |s.steps|
    ensures Sum(Flatten(LineageSegments(s)), (x: Step) => if x.id == s.steps[i].id then 1 else 0) == 1
  {
    SegmentsConserve(s, (x: Step) => if x.id == s.steps[i].id then 1 else 0);
    DistinctSum(s, |s.steps|, i);
    assert s.steps[..|s.steps|] == s.steps;
  }

  // ------------------------------------------------------- a segment's tokens

  /** The recorded tokens of a segment are all its last step saw and said. */
  predicate EndsExactly(g: seq<Step>) {
    |g| > 0 && Flat(g) == g[|g| - 1].allTokens
  }

  /** So does the segment cut after any of its steps. */
  predicate ExactThroughout(g: seq<Step>) {
    |g| > 0 && forall n | 0 < n <= |g| :: EndsExactly(g[..n])
  }

  lemma ThroughoutMeansEnd(g: seq<Step>)
    requires ExactThroughout(g)
    ensures EndsExactly(g)
  {
    assert g[..|g|] == g;
  }

  lemma SnocPrefix<T>(xs: seq<T>, x: T, n: nat)
    requires n <= |xs| + 1
    ensures (xs + [x])[..n] == if n <= |xs| then xs[..n] else xs + [x]
  {
  }

  lemma OneMoreExact(g: seq<Step>, step: Step)
    requires (|g| > 0 ==> ExactThroughout(g)) && Flat(g + [step]) == step.allTokens
    ensures ExactThroughout(g + [step])
  {
    var all := g + [step];
    assert EndsExactly(all);
    forall n | 0 < n <= |all| ensures EndsExactly(all[..n]) {
      SnocPrefix(g, step, n);
    }
  }

  lemma ExtendFlat(c: Cut, step: Step)
    ensures Flat(Extend(c, step).current) ==
            if step.boundary then step.concatTokens else Flat(c.current) + step.concatTokens
  {
    FlatSnoc(c.current, step);
    FlatSnoc([], step);
    assert [] + [step] == [step] && [] + step.concatTokens == step.concatTokens;
  }

  ghost predicate OpenIsCurrent(steps: seq<Step>, lineage: nat) {
    Flat(CutUp(LineageSteps(steps, lineage)).current) == SegmentTokens(steps, lineage)
  }

  lemma OpenStaysCurrent(steps: seq<Step>, last: Step, lineage: nat)
    requires OpenIsCurrent(steps, lineage)
    ensures OpenIsCurrent(steps + [last], lineage)
  {
    LineageSnoc(steps, last, lineage);
    AppendedReads(steps, last, lineage);
    if last.lineage == lineage {
      ExtendFlat(CutUp(LineageSteps(steps, lineage)), last);
    }
  }

  lemma NothingIsOpen(lineage: nat)
    ensures OpenIsCurrent([], lineage)
  {
  }

  /** The open segment of a lineage holds what the lineage recorded since its last boundary. */
  lemma {:induction false} OpenSegmentIsCurrent(steps: seq<Step>, lineage: nat)
    ensures OpenIsCurrent(steps, lineage)
  {
    if steps != [] {
      var before, last := steps[..|steps| - 1], steps[|steps| - 1];
      assert steps == before + [last];
      OpenSegmentIsCurrent(before, lineage);
      OpenStaysCurrent(before, last, lineage);
    } else {
      NothingIsOpen(lineage);
    }
  }

  lemma LineageSnoc(steps: seq<Step>, last: Step, lineage: nat)
    ensures var mine := LineageSteps(steps, lineage);
            && LineageSteps(steps + [last], lineage) == (if last.lineage == lineage then mine + [last] else mine)
            && CutUp(LineageSteps(steps + [last], lineage))
            == (if last.lineage == lineage then Extend(CutUp(mine), last) else CutUp(mine))
  {
    var mine := LineageSteps(steps, lineage);
    assert (steps + [last])[..|steps|] == steps;
    assert (mine + [last])[..|mine|] == mine;
    assert mine + [] == mine;
  }

  ghost predicate AllExact(c: Cut) {
    Every(c.done, ExactThroughout) && (|c.current| > 0 ==> ExactThroughout(c.current))
  }

  lemma NewestIsExact(steps: seq<Step>)
    requires TokenExact(steps) && |steps| > 0
    ensures SegmentTokens(steps, steps[|steps| - 1].lineage) == steps[|steps| - 1].allTokens
  {
    assert steps[..|steps| - 1 + 1] == steps;
    assert ExactAt(steps, |steps| - 1);
  }

  lemma LineageTokensStep(steps: seq<Step>, last: Step, lineage: nat)
    requires AllExact(CutUp(LineageSteps(steps, lineage)))
    requires SegmentTokens(steps + [last], last.lineage) == last.allTokens
    ensures AllExact(CutUp(LineageSteps(steps + [last], lineage)))
  {
    LineageSnoc(steps, last, lineage);
    if last.lineage == lineage {
      OpenSegmentIsCurrent(steps + [last], lineage);
      ExtendStaysExact(CutUp(LineageSteps(steps, lineage)), last);
    }
  }

  lemma {:induction false} LineageTokens(steps: seq<Step>, lineage: nat)
    requires TokenExact(steps)
    ensures AllExact(CutUp(LineageSteps(steps, lineage)))
  {
    if steps != [] {
      var before, last := steps[..|steps| - 1], steps[|steps| - 1];
      DroppingKeepsExact(steps);
      LineageTokens(before, lineage);
      NewestIsExact(steps);
      assert before + [last] == steps;
      LineageTokensStep(before, last, lineage);
    }
  }

  lemma ExtendStaysExact(c: Cut, step: Step)
    requires AllExact(c) && Flat(Extend(c, step).current) == step.allTokens
    ensures AllExact(Extend(c, step))
  {
    if step.boundary && |c.current| > 0 {
      assert [] + [step] == [step];
      OneMoreExact([], step);
    } else {
      OneMoreExact(c.current, step);
    }
  }

  /** In every segment finalize builds, the tokens recorded up to any step are all that step saw and said. */
  lemma SegmentTokensAreSteps(s: Session)
    requires Inv(s)
    ensures Every(LineageSegments(s), ExactThroughout)
  {
    forall l | 0 <= l < |s.lineages| ensures Every(Groups(LineageSteps(s.steps, l)), ExactThroughout) {
      LineageTokens(s.steps, l);
      EveryClosed(CutUp(LineageSteps(s.steps, l)), ExactThroughout);
    }
    EverySegment(s.steps, |s.lineages|, ExactThroughout);
  }

  /** What is trained on is what the model saw: for every segment finalize builds. */
  lemma SegmentTokensAreLastStep(s: Session)
    requires Inv(s)
    ensures Every(LineageSegments(s), EndsExactly)
  {
    SegmentTokensAreSteps(s);
    forall k | 0 <= k < |LineageSegments(s)| ensures EndsExactly(LineageSegments(s)[k]) {
      assert ExactThroughout(LineageSegments(s)[k]);
      ThroughoutMeansEnd(LineageSegments(s)[k]);
    }
  }

  // ---------------------------------------------------------------- the record

  /** The aligned arrays of one training record. */
  datatype TrainingRecord = TrainingRecord(tokens: seq<Token>, mask: seq<nat>, versions: seq<string>)

  function FlatMask(steps: seq<Step>): seq<nat> {
    if steps == [] then [] else FlatMask(steps[..|steps| - 1]) + steps[|steps| - 1].concatMask
  }

  function FlatVersions(steps: seq<Step>): seq<string> {
    if steps == [] then [] else FlatVersions(steps[..|steps| - 1]) + steps[|steps| - 1].concatVersions
  }

  function RecordOf(g: seq<Step>): TrainingRecord {
    TrainingRecord(Flat(g), FlatMask(g), FlatVersions(g))
  }

  lemma OneStepMore(g: seq<Step>, a: nat)
    requires a < |g|
    ensures Flat(g[..a + 1]) == Flat(g[..a]) + g[a].concatTokens
    ensures FlatMask(g[..a + 1]) == FlatMask(g[..a]) + g[a].concatMask
    ensures FlatVersions(g[..a + 1]) == FlatVersions(g[..a]) + g[a].concatVersions
  {
    assert g[..a + 1][..a] == g[..a];
  }

  /** A response token: the `k`-th of the step with this id. */
  datatype Origin = Origin(id: nat, k: nat)

  /** Where each recorded position comes from; context positions come from no response. */
  ghost function StepOrigins(step: Step): seq<Option<Origin>> {
    seq(|step.concatTokens|, p =>
      if p < |step.concatTokens| - |step.response| || |step.concatTokens| < |step.response| then None
      else Some(Origin(step.id, p - (|step.concatTokens| - |step.response|))))
  }

  ghost function FlatOrigins(steps: seq<Step>): seq<Option<Origin>> {
    if steps == [] then [] else FlatOrigins(steps[..|steps| - 1]) + StepOrigins(steps[|steps| - 1])
  }

  /** Loss mask 1 marks exactly the response tokens, and each holds the token the model produced and its version. */
  ghost predicate Labelled(tokens: seq<Token>, mask: seq<nat>, versions: seq<string>, origins: seq<Option<Origin>>,
                           steps: seq<Step>) {
    && |tokens| == |mask| == |versions| == |origins|
    && (forall p | 0 <= p < |mask| :: mask[p] == if origins[p].Some? then 1 else 0)
    && (forall p | 0 <= p < |mask| && origins[p].None? :: versions[p] == InputTokenVersion)
    && (forall p | 0 <= p < |mask| && origins[p].Some? ::
          exists i | 0 <= i < |steps| ::
            && steps[i].id == origins[p].value.id
            && origins[p].value.k < |steps[i].response| == |steps[i].responseVersions|
            && tokens[p] == steps[i].response[origins[p].value.k]
            && versions[p] == steps[i].responseVersions[origins[p].value.k])
  }

  lemma StepIsLabelled(step: Step)
    requires Masked(step)
    ensures Labelled(step.concatTokens, step.concatMask, step.concatVersions, StepOrigins(step), [step])
  {
    assert [step][0] == step;
  }

  lemma {:induction false} RecordIsLabelled(g: seq<Step>)
    requires AllMasked(g)
    ensures var r := RecordOf(g); Labelled(r.tokens, r.mask, r.versions, FlatOrigins(g), g)
  {
    if g != [] {
      RecordIsLabelled(g[..|g| - 1]);
      StepIsLabelled(g[|g| - 1]);
      var before := RecordOf(g[..|g| - 1]);
      LabelledConcat(before, FlatOrigins(g[..|g| - 1]), g[..|g| - 1], g[|g| - 1]);
      assert g == g[..|g| - 1] + [g[|g| - 1]];
    }
  }

  lemma LabelledConcat(r: TrainingRecord, origins: seq<Option<Origin>>, g: seq<Step>, step: Step)
    requires Labelled(r.tokens, r.mask, r.versions, origins, g)
    requires Labelled(step.concatTokens, step.concatMask, step.concatVersions, StepOrigins(step), [step])
    ensures Labelled(r.tokens + step.concatTokens, r.mask + step.concatMask, r.versions + step.concatVersions,
                     origins + StepOrigins(step), g + [step])
  {
    var tokens, versions := r.tokens + step.concatTokens, r.versions + step.concatVersions;
    var all := origins + StepOrigins(step);
    forall p | 0 <= p < |all| && all[p].Some?
      ensures exists i | 0 <= i < |g + [step]| ::
                && (g + [step])[i].id == all[p].value.id
                && all[p].value.k < |(g + [step])[i].response| == |(g + [step])[i].responseVersions|
                && tokens[p] == (g + [step])[i].response[all[p].value.k]
                && versions[p] == (g + [step])[i].responseVersions[all[p].value.k]
    {
      if p < |origins| {
        var i :| 0 <= i < |g| && g[i].id == origins[p].value.id
          && origins[p].value.k < |g[i].response| == |g[i].responseVersions|
          && r.tokens[p] == g[i].response[origins[p].value.k]
          && r.versions[p] == g[i].responseVersions[origins[p].value.k];
        assert (g + [step])[i] == g[i];
      } else {
        assert (g + [step])[|g|] == step;
      }
    }
  }

  // ------------------------------------------------------- trained exactly once

  ghost function Count(origins: seq<Option<Origin>>, x: Option<Origin>): nat {
    if origins == [] then 0 else Count(origins[..|origins| - 1], x) + if origins[|origins| - 1] == x then 1 else 0
  }

  lemma {:induction false} CountConcat(a: seq<Option<Origin>>, b: seq<Option<Origin>>, x: Option<Origin>)
    ensures Count(a + b, x) == Count(a, x) + Count(b, x)
  {
    if b == [] {
      assert a + b == a;
    } else {
      assert (a + b)[..|a + b| - 1] == a + b[..|b| - 1];
      CountConcat(a, b[..|b| - 1], x);
    }
  }

  /** How often a response token is trained: its occurrences over the first `n` records, or all. */
  ghost function TimesTrainedTo(segments: seq<seq<Step>>, n: nat, o: Origin): nat
    requires n <= |segments|
  {
    if n == 0 then 0 else TimesTrainedTo(segments, n - 1, o) + Count(FlatOrigins(segments[n - 1]), Some(o))
  }

  ghost function TimesTrained(segments: seq<seq<Step>>, o: Origin): nat {
    TimesTrainedTo(segments, |segments|, o)
  }

  function Produces(step: Step, o: Origin): nat {
    if step.id == o.id && o.k < |step.response| then 1 else 0
  }

  lemma {:induction false} CountOnce(origins: seq<Option<Origin>>, x: Option<Origin>, at: int)
    requires forall p | 0 <= p < |origins| :: origins[p] == x <==> p == at
    ensures Count(origins, x) == if 0 <= at < |origins| then 1 else 0
  {
    if origins != [] {
      CountOnce(origins[..|origins| - 1], x, at);
    }
  }

  lemma StepTrainsItsResponse(step: Step, o: Origin)
    requires |step.response| <= |step.concatTokens|
    ensures Count(StepOrigins(step), Some(o)) == Produces(step, o)
  {
    var c := |step.concatTokens| - |step.response|;
    CountOnce(StepOrigins(step), Some(o), if step.id == o.id then c + o.k else -1);
  }

  lemma {:induction false} SegmentTrains(g: seq<Step>, o: Origin)
    requires forall i | 0 <= i < |g| :: |g[i].response| <= |g[i].concatTokens|
    ensures Count(FlatOrigins(g), Some(o)) == Sum(g, (x: Step) => Produces(x, o))
  {
    if g != [] {
      SegmentTrains(g[..|g| - 1], o);
      StepTrainsItsResponse(g[|g| - 1], o);
      CountConcat(FlatOrigins(g[..|g| - 1]), StepOrigins(g[|g| - 1]), Some(o));
    }
  }

  /** Every step's response is the end of what it recorded. */
  predicate ResponsesFit(g: seq<Step>) {
    forall i | 0 <= i < |g| :: |g[i].response| <= |g[i].concatTokens|
  }

  lemma {:induction false} SegmentsTrain(segments: seq<seq<Step>>, n: nat, o: Origin)
    requires n <= |segments| && Every(segments, ResponsesFit)
    ensures TimesTrainedTo(segments, n, o) == Sum(FlattenTo(segments, n), (x: Step) => Produces(x, o))
  {
    if n > 0 {
      SegmentsTrain(segments, n - 1, o);
      SegmentTrains(segments[n - 1], o);
      SumConcat(FlattenTo(segments, n - 1), segments[n - 1], (x: Step) => Produces(x, o));
    }
  }

  lemma {:induction false} ProducedAtMostOnce(s: Session, n: nat, o: Origin)
    requires Ids(s) && n <= |s.steps|
    ensures Sum(s.steps[..n], (x: Step) => Produces(x, o)) ==
            if exists i | 0 <= i < n :: Produces(s.steps[i], o) == 1 then 1 else 0
    decreases n
  {
    if n > 0 {
      assert s.steps[..n][..n - 1] == s.steps[..n - 1];
      ProducedAtMostOnce(s, n - 1, o);
    }
  }

  /** The segments hold recorded steps only. */
  ghost predicate DrawnFrom(segments: seq<seq<Step>>, steps: seq<Step>) {
    forall k, i | 0 <= k < |segments| && 0 <= i < |segments[k]| :: segments[k][i] in steps
  }

  lemma {:induction false} LineageStepsAreSteps(steps: seq<Step>, lineage: nat)
    ensures forall x | x in LineageSteps(steps, lineage) :: x in steps
  {
    if steps != [] {
      LineageStepsAreSteps(steps[..|steps| - 1], lineage);
    }
  }

  /** A property of every recorded step is a property of every step of every segment. */
  lemma {:induction false} CutDrawn(mine: seq<Step>, steps: seq<Step>)
    requires forall x | x in mine :: x in steps
    ensures DrawnFrom(CutUp(mine).done, steps) && forall x | x in CutUp(mine).current :: x in steps
  {
    if mine != [] {
      var before, last := mine[..|mine| - 1], mine[|mine| - 1];
      assert forall x | x in before :: x in mine;
      CutDrawn(before, steps);
      assert last in mine;
      ExtendDrawn(CutUp(before), last, steps);
    }
  }

  lemma ExtendDrawn(c: Cut, step: Step, steps: seq<Step>)
    requires DrawnFrom(c.done, steps) && (forall x | x in c.current :: x in steps) && step in steps
    ensures DrawnFrom(Extend(c, step).done, steps) && forall x | x in Extend(c, step).current :: x in steps
  {
  }

  lemma DrawnConcat(a: seq<seq<Step>>, b: seq<seq<Step>>, steps: seq<Step>)
    requires DrawnFrom(a, steps) && DrawnFrom(b, steps)
    ensures DrawnFrom(a + b, steps)
  {
  }

  lemma {:induction false} SegmentsDrawn(steps: seq<Step>, n: nat)
    ensures DrawnFrom(SegmentsUpTo(steps, n), steps)
  {
    if n > 0 {
      SegmentsDrawn(steps, n - 1);
      LineageStepsAreSteps(steps, n - 1);
      CutDrawn(LineageSteps(steps, n - 1), steps);
      DrawnConcat(SegmentsUpTo(steps, n - 1), Groups(LineageSteps(steps, n - 1)), steps);
    }
  }

  lemma SegmentsFit(s: Session)
    requires AllMasked(s.steps)
    ensures Every(LineageSegments(s), ResponsesFit)
  {
    var segments: seq<seq<Step>> := LineageSegments(s);
    SegmentsDrawn(s.steps, |s.lineages|);
    forall k, i | 0 <= k < |segments| && 0 <= i < |segments[k]|
      ensures |segments[k][i].response| <= |segments[k][i].concatTokens|
    {
      assert segments[k][i] in s.steps;
    }
  }

  /**
    Over all records of a session, every recorded response token is trained exactly once and nothing
    else is trained, however often a branch repeats it in its context.
   */
  lemma TrainedExactlyOnce(s: Session, o: Origin)
    requires Inv(s)
    ensures TimesTrained(LineageSegments(s), o) ==
            if exists i | 0 <= i < |s.steps| :: Produces(s.steps[i], o) == 1 then 1 else 0
  {
    SegmentsFit(s);
    SegmentsTrain(LineageSegments(s), |LineageSegments(s)|, o);
    SegmentsConserve(s, (x: Step) => Produces(x, o));
    ProducedAtMostOnce(s, |s.steps|, o);
    assert s.steps[..|s.steps|] == s.steps;
  }

  /** Each record's arrays are aligned, its mask marks responses alone, and its tokens are its last step's. */
  lemma RecordsAreFaithful(s: Session, k: nat)
    requires Inv(s) && k < |LineageSegments(s)|
    ensures var g := LineageSegments(s)[k]; var r := RecordOf(g);
            && Labelled(r.tokens, r.mask, r.versions, FlatOrigins(g), g)
            && r.tokens == g[|g| - 1].allTokens
  {
    var g := LineageSegments(s)[k];
    SegmentTokensAreLastStep(s);
    assert EndsExactly(g);
    SegmentsDrawn(s.steps, |s.lineages|);
    assert AllMasked(g) by {
      forall i | 0 <= i < |g| ensures Masked(g[i]) {
        assert LineageSegments(s)[k][i] in s.steps;
      }
    }
    RecordIsLabelled(g);
  }

  // ------------------------------------------------------------------ row counts

  function StepRows(step: Step): nat {
    if step.kind != Append || step.boundary then (if step.concatTokens == [] then 0 else |step.concatTokens| - 1)
    else |step.concatTokens|
  }

  function RowsOf(g: seq<Step>): nat {
    if g == [] then 0 else RowsOf(g[..|g| - 1]) + StepRows(g[|g| - 1])
  }

  /** The first step of a segment opens it; the others continue it. */
  predicate OneOpening(g: seq<Step>) {
    && (g != [] ==> g[0].kind != Append || g[0].boundary)
    && forall i | 1 <= i < |g| :: g[i].kind == Append && !g[i].boundary
  }

  /**
    Row counts sum to the token count minus one exactly when the segment's first step recorded a token, or
    none did.
   */
  lemma {:induction false} SegmentRows(g: seq<Step>)
    requires OneOpening(g) && g != []
    ensures RowsOf(g) == |Flat(g)| - if g[0].concatTokens == [] then 0 else 1
  {
    if |g| == 1 {
      assert g[..0] == [];
    } else {
      SegmentRows(g[..|g| - 1]);
    }
  }

  lemma RowsMatchTokens(g: seq<Step>)
    requires OneOpening(g) && g != []
    ensures RowsOf(g) == (if Flat(g) == [] then 0 else |Flat(g)| - 1) <==> g[0].concatTokens != [] || Flat(g) == []
  {
    SegmentRows(g);
    FlatStarts(g);
  }

  lemma {:induction false} FlatStarts(g: seq<Step>)
    requires g != []
    ensures |g[0].concatTokens| <= |Flat(g)|
  {
    if |g| > 1 {
      FlatStarts(g[..|g| - 1]);
    } else {
      assert g[..0] == [];
    }
  }

  lemma {:induction false} NoLatestNoSteps(steps: seq<Step>, lineage: nat)
    ensures LatestOf(steps, lineage).None? <==> LineageSteps(steps, lineage) == []
  {
    if steps != [] {
      NoLatestNoSteps(steps[..|steps| - 1], lineage);
    }
  }

  /** Only the first step of a lineage is no append. */
  ghost predicate OneRoot(mine: seq<Step>) {
    forall i | 0 <= i < |mine| :: mine[i].kind == Append <==> i > 0
  }

  lemma {:induction false} LineageHasOneRoot(steps: seq<Step>, lineage: nat)
    requires Chained(steps)
    ensures OneRoot(LineageSteps(steps, lineage))
  {
    if steps != [] {
      var before := steps[..|steps| - 1];
      forall i: nat | i < |before| ensures ChainedAt(before, i) {
        assert ChainedAt(steps, i);
        assert before[..i] == steps[..i];
      }
      LineageHasOneRoot(before, lineage);
      NoLatestNoSteps(before, lineage);
      assert ChainedAt(steps, |steps| - 1);
    }
  }

  lemma OpeningExtends(g: seq<Step>, last: Step)
    requires OneOpening(g)
    requires if g == [] then last.kind != Append || last.boundary else last.kind == Append && !last.boundary
    ensures OneOpening(g + [last])
  {
  }

  lemma ExtendOpensOnce(c: Cut, step: Step)
    requires Every(c.done, OneOpening) && OneOpening(c.current)
    requires step.kind == Append <==> c.current != []
    ensures Every(Extend(c, step).done, OneOpening) && OneOpening(Extend(c, step).current)
  {
    if !step.boundary || c.current == [] {
      OpeningExtends(c.current, step);
    }
  }

  lemma {:induction false} CutOpensOnce(mine: seq<Step>)
    requires OneRoot(mine)
    ensures Every(CutUp(mine).done, OneOpening) && OneOpening(CutUp(mine).current)
  {
    if mine != [] {
      CutOpensOnce(mine[..|mine| - 1]);
      CutNonEmpty(mine[..|mine| - 1]);
      ExtendOpensOnce(CutUp(mine[..|mine| - 1]), mine[|mine| - 1]);
    }
  }

  lemma SegmentsOpenOnce(steps: seq<Step>, n: nat)
    requires Chained(steps)
    ensures Every(SegmentsUpTo(steps, n), OneOpening)
  {
    forall l | 0 <= l < n ensures Every(Groups(LineageSteps(steps, l)), OneOpening) {
      LineageHasOneRoot(steps, l);
      CutOpensOnce(LineageSteps(steps, l));
      EveryClosed(CutUp(LineageSteps(steps, l)), OneOpening);
    }
    EverySegment(steps, n, OneOpening);
  }

  /** For every segment finalize builds, when its row counts make up the token count minus one. */
  lemma SegmentRowCounts(s: Session, k: nat)
    requires Inv(s) && k < |LineageSegments(s)|
    ensures var g := LineageSegments(s)[k]; var tokens := RecordOf(g).tokens;
            RowsOf(g) == (if tokens == [] then 0 else |tokens| - 1) <==> g[0].concatTokens != [] || tokens == []
  {
    SegmentsOpenOnce(s.steps, |s.lineages|);
    assert OneOpening(LineageSegments(s)[k]);
    RowsMatchTokens(LineageSegments(s)[k]);
  }

  /** The rows recorded with a step are the rows finalize counts, unless it continues an empty segment. */
  lemma RecordedRowsAreCounted(step: Step, prefix: nat)
    requires step.kind != Append || step.boundary ==> prefix == 0
    ensures RoutedExperts.TargetCount(prefix, |step.concatTokens|) == StepRows(step)
            <==> step.kind != Append || step.boundary || prefix > 0 || step.concatTokens == []
  {
  }

  // -------------------------------------------------------------------- methods

  /** The inner loop of _split_session_into_lineage_segments. */
  method SplitLineage(mine: seq<Step>) returns (gs: seq<seq<Step>>)
    ensures gs == Groups(mine)
  {
    gs := [];
    var current: seq<Step> := [];
    for i := 0 to |mine|
      invariant Cut(gs, current) == CutUp(mine[..i])
    {
      assert mine[..i + 1][..i] == mine[..i];
      if mine[i].boundary && |current| > 0 {
        gs := gs + [current];
        current := [];
      }
      assert [] + [mine[i]] == [mine[i]];
      current := current + [mine[i]];
    }
    assert mine[..|mine|] == mine;
    if |current| > 0 {
      gs := gs + [current];
    }
  }

  method SplitIntoSegments(s: Session) returns (segments: seq<seq<Step>>)
    ensures segments == LineageSegments(s)
  {
    segments := [];
    for l := 0 to |s.lineages|
      invariant segments == SegmentsUpTo(s.steps, l)
    {
      var mine := StepsOf(s.steps, l);
      var gs := SplitLineage(mine);
      segments := segments + gs;
    }
  }

  /** _build_tito_lineage_segment_record; None where the source raises on misaligned arrays. */
  method BuildRecord(g: seq<Step>) returns (r: Option<TrainingRecord>)
    ensures r.Some? ==> r.value == RecordOf(g)
    ensures AllMasked(g) ==> r.Some?
  {
    var tokens: seq<Token>, mask: seq<nat>, versions: seq<string> := [], [], [];
    for i := 0 to |g|
      invariant tokens == Flat(g[..i]) && mask == FlatMask(g[..i]) && versions == FlatVersions(g[..i])
    {
      assert g[..i + 1][..i] == g[..i];
      tokens := tokens + g[i].concatTokens;
      mask := mask + g[i].concatMask;
      versions := versions + g[i].concatVersions;
    }
    assert g[..|g|] == g;
    if |tokens| != |mask| || |versions| != |tokens| {
      MisalignedMeansUnmasked(g);
      return None;
    }
    return Some(TrainingRecord(tokens, mask, versions));
  }

  lemma MisalignedMeansUnmasked(g: seq<Step>)
    ensures AllMasked(g) ==> |Flat(g)| == |FlatMask(g)| == |FlatVersions(g)|
  {
    if AllMasked(g) {
      RecordIsLabelled(g);
    }
  }
}
