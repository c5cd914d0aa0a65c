/**
  The routed-expert rows recorded with a step (dressage/proxy/server.py:2446-2476): the targets the server
  computes, against the chunks its generation returned.
 */
module StepExperts {
  import opened Lineages
  import Routing
  import Recorder
  import Stitching
  import Provenance
  import opened RoutedExperts

  ghost function ResultOf(step: Step, cfg: Stitching.Config, serve: Stitching.Backend, attempts: nat): Stitching.Partial
    requires Provenance.RecordedFrom(step, cfg, serve, attempts)
  {
    Stitching.Run(cfg, step.prompt, serve, 0, Stitching.Empty, attempts).result
  }

  /** How many rows the chunks of a generation make up. */
  function RowBound(step: Step, p: Stitching.Partial): nat {
    Max(0, |step.prompt| + |p.ids| - 1)
  }

  /** The chunks tile the rows of the generation, and the target lies inside them. */
  ghost predicate TargetTiled(steps: seq<Step>, i: nat, p: Stitching.Partial)
    requires i < |steps|
  {
    var prefix, added := Recorder.PrefixCount(steps, i), |steps[i].concatTokens|;
    && (TargetCount(prefix, added) > 0 ==> Tiles(p.experts, 0, RowBound(steps[i], p)) && p.experts != [])
    && TargetStart(prefix) + TargetCount(prefix, added) <= RowBound(steps[i], p)
  }

  lemma StepIsTiled(steps: seq<Step>, i: nat, cfg: Stitching.Config, serve: Stitching.Backend, attempts: nat)
    requires Chained(steps) && TokenExact(steps) && i < |steps|
    requires CarriesExperts(serve) && PromptFits(cfg, steps[i].prompt) &&
               Provenance.RecordedFrom(steps[i], cfg, serve, attempts)
    ensures TargetTiled(steps, i, ResultOf(steps[i], cfg, serve, attempts))
  {
    var p := ResultOf(steps[i], cfg, serve, attempts);
    TargetInside(steps, i, p);
    GenerationTiles(cfg, steps[i].prompt, serve, attempts);
    DoneHasChunks(cfg, steps[i].prompt, serve, 0, Stitching.Empty, attempts);
    TilesWhenNeeded(steps, i, p);
  }

  lemma TargetInside(steps: seq<Step>, i: nat, p: Stitching.Partial)
    requires Chained(steps) && TokenExact(steps) && i < |steps| && |steps[i].response| <= |p.ids|
    ensures var prefix, added := Recorder.PrefixCount(steps, i), |steps[i].concatTokens|;
            && TargetStart(prefix) + TargetCount(prefix, added) <= RowBound(steps[i], p)
            && (TargetCount(prefix, added) > 0 ==> |steps[i].prompt| + |p.ids| > 0)
  {
    Recorder.StepAddsTheRest(steps, i);
    TargetEnds(Recorder.PrefixCount(steps, i), |steps[i].concatTokens|);
  }

  lemma TilesWhenNeeded(steps: seq<Step>, i: nat, p: Stitching.Partial)
    requires i < |steps| && ChunksTile(steps[i].prompt, p) && p.experts != []
    requires var prefix, added := Recorder.PrefixCount(steps, i), |steps[i].concatTokens|;
             && TargetStart(prefix) + TargetCount(prefix, added) <= RowBound(steps[i], p)
             && (TargetCount(prefix, added) > 0 ==> |steps[i].prompt| + |p.ids| > 0)
    ensures TargetTiled(steps, i, p)
  {
  }

  /**
    For every step of every reached session, the chunks of the generation it records tile its rows and the
    target the server computes lies inside; unless the response overflowed, the step's tokens are the
    stitched result's and the target ends with the last row.
   */
  lemma ServerTargetsAreTiled(tp: Routing.Template, tk: Tokenizer, run: seq<Recorder.Event>, i: nat,
                              cfg: Stitching.Config, serve: Stitching.Backend, attempts: nat)
    requires i < |Recorder.Reached(tp, tk, run).steps| && CarriesExperts(serve)
    requires var step := Recorder.Reached(tp, tk, run).steps[i];
             PromptFits(cfg, step.prompt) && Provenance.RecordedFrom(step, cfg, serve, attempts)
    ensures var steps := Recorder.Reached(tp, tk, run).steps;
            var p := ResultOf(steps[i], cfg, serve, attempts);
            && TargetTiled(steps, i, p)
            && (!p.overflow ==>
                  && steps[i].allTokens == Stitching.Returned(steps[i].prompt, p).allTokens
                  && var prefix := Recorder.PrefixCount(steps, i);
                     TargetStart(prefix) + TargetCount(prefix, |steps[i].concatTokens|) == RowBound(steps[i], p))
  {
    var steps := Recorder.Reached(tp, tk, run).steps;
    Recorder.RunKeepsInv(tp, tk, Empty, run);
    StepIsTiled(steps, i, cfg, serve, attempts);
    Recorder.StepAddsTheRest(steps, i);
    TargetEnds(Recorder.PrefixCount(steps, i), |steps[i].concatTokens|);
    assert ExactAt(steps, i);
  }

  /** Backends whose answers carry expert data, asked with prompts that fit the window. */
  ghost function ExpertService(): Provenance.Service {
    (cfg, serve, input) => CarriesExperts(serve) && PromptFits(cfg, input)
  }

  /** So it is in every run of requests that such backends served, whichever they were. */
  lemma ServedTargetsAreTiled(tp: Routing.Template, tk: Tokenizer, run: seq<Recorder.Event>, i: nat)
    requires i < |Recorder.Reached(tp, tk, run).steps|
    requires Provenance.AllServed(ExpertService(), tp, tk, run)
    ensures var steps := Recorder.Reached(tp, tk, run).steps;
            exists cfg, serve, attempts: nat ::
              && Provenance.RecordedFrom(steps[i], cfg, serve, attempts)
              && TargetTiled(steps, i, ResultOf(steps[i], cfg, serve, attempts))
  {
    var step := Recorder.Reached(tp, tk, run).steps[i];
    Provenance.ServedStepsAreRecorded(ExpertService(), tp, tk, run, i);
    var cfg, serve, attempts: nat :|
      ExpertService()(cfg, serve, step.prompt) && Provenance.RecordedFrom(step, cfg, serve, attempts);
    ServerTargetsAreTiled(tp, tk, run, i, cfg, serve, attempts);
  }

  /** previous_prefix_count for a step about to be recorded after `before`. */
  method CountPrefix(before: seq<Step>, step: Step) returns (prefix: nat)
    ensures prefix == Recorder.PrefixCount(before + [step], |before|)
  {
    assert (before + [step])[..|before|] == before;
    if step.kind != Append || step.boundary {
      return 0;
    }
    var mine := StepsOf(before, step.lineage);
    var start := FindTail(mine);
    TailIsSuffix(mine);
    SegmentIsTail(before, step.lineage);
    var tokens := JoinTokens(mine[start..]);
    return |tokens|;
  }

  /** Exactly the rows of the step's target, if the payloads are clean. */
  ghost predicate TargetEmitted(steps: seq<Step>, i: nat, p: Stitching.Partial, dtype: Dtype, width: nat,
                                r: Result<seq<Rows>>)
    requires i < |steps|
  {
    var prefix := Recorder.PrefixCount(steps, i);
    var start, count := TargetStart(prefix), TargetCount(prefix, |steps[i].concatTokens|);
    dtype != Other && count > 0 && Clean(p.experts, start, start + count, dtype, RowBound(steps[i], p), width) ==>
      r.Ok? && AllValues(r.value) == Words(TargetRows(p.experts, start, start + count, width))
  }

  method RowsAtTarget(before: seq<Step>, step: Step, p: Stitching.Partial, dtype: Dtype, ghost width: nat)
    returns (r: Result<seq<Rows>>)
    requires TargetTiled(before + [step], |before|, p)
    ensures r != Err(NotCovered)
    ensures TargetEmitted(before + [step], |before|, p, dtype, width, r)
  {
    var prefix := CountPrefix(before, step);
    r := CanonicalizeRoutedExperts(p.experts, TargetStart(prefix), TargetCount(prefix, |step.concatTokens|), dtype,
                                   RowBound(step, p), width);
  }

  /**
    The rows recorded with a step. The coverage error is never raised, and payloads of one row width whose
    ids fit the dtype yield exactly the target rows, in order.
   */
  method RecordRows(before: seq<Step>, step: Step, p: Stitching.Partial, dtype: Dtype,
                    ghost cfg: Stitching.Config, ghost serve: Stitching.Backend, ghost attempts: nat, ghost width: nat)
    returns (r: Result<seq<Rows>>)
    requires Chained(before + [step]) && TokenExact(before + [step])
    requires CarriesExperts(serve) && PromptFits(cfg, step.prompt)
    requires Provenance.RecordedFrom(step, cfg, serve, attempts) && p == ResultOf(step, cfg, serve, attempts)
    ensures r != Err(NotCovered)
    ensures TargetEmitted(before + [step], |before|, p, dtype, width, r)
  {
    StepIsTiled(before + [step], |before|, cfg, serve, attempts);
    r := RowsAtTarget(before, step, p, dtype, width);
  }
}
