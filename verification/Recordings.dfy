/**
  What a run of requests leaves behind, request by request: which generation each recorded step holds, when
  it cuts its lineage, where its lineage branched off, and how many tokens are trained in the end
  (dressage/proxy/server.py:1000-1084, 1666-1729, 2010-2108, 2390-2531).
 */
module Recordings {
  import opened Wrappers
  import opened Sequences
  import opened Lineages
  import opened Routing
  import opened Recorder
  import opened Segments

  // ----------------------------------------------------------------- the trace

  /** A request that was recorded, with the session it found. */
  datatype Recording = Recording(before: Session, event: Event)

  ghost function PromptFor(tp: Template, tk: Tokenizer, s: Session, e: Event): Option<Prompt> {
    var routed := RouteRequest(tp, s, e.request, e.seen);
    BuildPrompt(tk, s.steps, routed.route, CutsBefore(tp, s, e.request, routed), e.request.messages, e.request.tools)
  }

  /** A request is recorded when its prompt could be built and generation answered. */
  ghost predicate Records(tp: Template, tk: Tokenizer, s: Session, e: Event) {
    PromptFor(tp, tk, s, e).Some? && e.generation.Some?
  }

  ghost function Trace(tp: Template, tk: Tokenizer, s: Session, run: seq<Event>): seq<Recording>
    decreases |run|
  {
    if run == [] then []
    else
      (if Records(tp, tk, s, run[0]) then [Recording(s, run[0])] else [])
      + Trace(tp, tk, Apply(tp, tk, s, run[0]), run[1..])
  }

  /** What is kept of a generation: its response, unless that overflowed the context window. */
  function Kept(g: Generation): seq<Token> {
    if g.overflow then [] else g.response
  }

  /** The step holds the prompt of its request and the kept response, with the versions generation gave. */
  ghost predicate Holds(tp: Template, tk: Tokenizer, r: Recording, step: Step) {
    && Records(tp, tk, r.before, r.event)
    && var g := r.event.generation.value;
       && step.prompt == PromptFor(tp, tk, r.before, r.event).value.input
       && step.response == Kept(g)
       && (g.overflow ==> step.responseVersions == [])
       && (!g.overflow && |g.versions| == |g.response| ==> step.responseVersions == g.versions)
       && step.messages == g.messages && step.tools == r.event.request.tools
  }

  /** The step stands where the request was routed, and starts a segment if that was cut off or its tokens restarted. */
  ghost predicate Stands(tp: Template, tk: Tokenizer, r: Recording, step: Step) {
    var routed := RouteRequest(tp, r.before, r.event.request, r.event.seen);
    var prompt := PromptFor(tp, tk, r.before, r.event);
    && step.lineage == routed.route.lineage && step.kind == routed.route.kind && step.base == routed.route.base
    && prompt.Some?
    && (step.boundary <==> CutsBefore(tp, r.before, r.event.request, routed) || prompt.value.failed)
  }

  /** Step j of the session was recorded for `r`. */
  ghost predicate TracedAt(tp: Template, tk: Tokenizer, r: Recording, steps: seq<Step>, j: nat) {
    && j < |steps| && Inv(r.before) && r.before.steps == steps[..j]
    && Holds(tp, tk, r, steps[j]) && Stands(tp, tk, r, steps[j])
  }

  lemma RequestIsTraced(tp: Template, tk: Tokenizer, s: Session, e: Event)
    requires Inv(s)
    ensures var s' := Apply(tp, tk, s, e);
            if Records(tp, tk, s, e)
            then |s'.steps| == |s.steps| + 1 && TracedAt(tp, tk, Recording(s, e), s'.steps, |s.steps|)
            else s'.steps == s.steps
  {
    assert Apply(tp, tk, s, e).steps[..|s.steps|] == s.steps;
  }

  lemma TracedStays(tp: Template, tk: Tokenizer, r: Recording, steps: seq<Step>, more: seq<Step>, j: nat)
    requires TracedAt(tp, tk, r, steps, j) && steps <= more
    ensures TracedAt(tp, tk, r, more, j)
  {
    assert more[..j] == steps[..j];
  }

  /** The steps from position `base` on were recorded for the requests of the trace, one for one. */
  ghost predicate AllTraced(tp: Template, tk: Tokenizer, trace: seq<Recording>, steps: seq<Step>, base: nat) {
    && |steps| == base + |trace|
    && forall i: nat | i < |trace| :: TracedAt(tp, tk, trace[i], steps, base + i)
  }

  lemma OneMoreTraced(tp: Template, tk: Tokenizer, r: Recording, rest: seq<Recording>, steps: seq<Step>, base: nat)
    requires TracedAt(tp, tk, r, steps, base) && AllTraced(tp, tk, rest, steps, base + 1)
    ensures AllTraced(tp, tk, [r] + rest, steps, base)
  {
    var trace := [r] + rest;
    forall i: nat | i < |trace| ensures TracedAt(tp, tk, trace[i], steps, base + i) {
      if i > 0 {
        assert trace[i] == rest[i - 1];
        assert TracedAt(tp, tk, rest[i - 1], steps, base + 1 + (i - 1));
      }
    }
  }

  lemma TraceUnfolds(tp: Template, tk: Tokenizer, s: Session, run: seq<Event>)
    requires run != []
    ensures var rest := Trace(tp, tk, Apply(tp, tk, s, run[0]), run[1..]);
            Trace(tp, tk, s, run) == if Records(tp, tk, s, run[0]) then [Recording(s, run[0])] + rest else rest
  {
  }

  /**
    For every run: its recorded requests and the steps they added correspond one to one, in order, and each
    step holds what generation answered to that request.
   */
  lemma {:induction false} RunIsTraced(tp: Template, tk: Tokenizer, s: Session, run: seq<Event>)
    requires Inv(s)
    ensures AllTraced(tp, tk, Trace(tp, tk, s, run), Run(tp, tk, s, run).steps, |s.steps|)
    decreases |run|
  {
    if run != [] {
      var s' := Apply(tp, tk, s, run[0]);
      ApplyKeepsInv(tp, tk, s, run[0]);
      RunIsTraced(tp, tk, s', run[1..]);
      RecordedStepsStay(tp, tk, s', run[1..]);
      TraceUnfolds(tp, tk, s, run);
      RequestIsTraced(tp, tk, s, run[0]);
      if Records(tp, tk, s, run[0]) {
        FirstIsTraced(tp, tk, Recording(s, run[0]), s'.steps, Trace(tp, tk, s', run[1..]),
                      Run(tp, tk, s', run[1..]).steps, |s.steps|);
      } else {
        assert AllTraced(tp, tk, Trace(tp, tk, s', run[1..]), Run(tp, tk, s', run[1..]).steps, |s'.steps|);
      }
    } else {
      NothingTraced(tp, tk, s.steps);
    }
  }

  lemma NothingTraced(tp: Template, tk: Tokenizer, steps: seq<Step>)
    ensures AllTraced(tp, tk, [], steps, |steps|)
  {
  }

  lemma FirstIsTraced(tp: Template, tk: Tokenizer, r: Recording, some: seq<Step>, rest: seq<Recording>,
                      steps: seq<Step>, base: nat)
    requires |some| == base + 1 && some <= steps && TracedAt(tp, tk, r, some, base)
    requires AllTraced(tp, tk, rest, steps, base + 1)
    ensures AllTraced(tp, tk, [r] + rest, steps, base)
  {
    TracedStays(tp, tk, r, some, steps, base);
    OneMoreTraced(tp, tk, r, rest, steps, base);
  }

  ghost function TraceOf(tp: Template, tk: Tokenizer, run: seq<Event>): seq<Recording> {
    Trace(tp, tk, Empty, run)
  }

  lemma StepIsTraced(tp: Template, tk: Tokenizer, run: seq<Event>, j: nat)
    requires j < |Reached(tp, tk, run).steps|
    ensures |TraceOf(tp, tk, run)| == |Reached(tp, tk, run).steps|
    ensures TracedAt(tp, tk, TraceOf(tp, tk, run)[j], Reached(tp, tk, run).steps, j)
  {
    RunIsTraced(tp, tk, Empty, run);
    assert TracedAt(tp, tk, TraceOf(tp, tk, run)[j], Reached(tp, tk, run).steps, |Empty.steps| + j);
  }

  // ------------------------------------------------------------ when a step cuts

  /** The added messages of the request do not tokenize on top of the base step's. */
  predicate CannotExtend(tk: Tokenizer, base: Step, messages: seq<Message>, tools: Tools) {
    tk.incremental(base.messages, messages, tools).None?
  }

  ghost predicate RenderingFailed(tp: Template, r: Recording) {
    !Routable(tp, r.before, r.event.seen, r.event.request.messages, r.event.request.tools)
  }

  lemma CutIff(tp: Template, tk: Tokenizer, r: Recording, step: Step)
    requires Inv(r.before) && Stands(tp, tk, r, step)
    ensures step.base.Some? ==> StepById(r.before.steps, step.base.value).Some?
    ensures step.boundary <==>
            || RenderingFailed(tp, r)
            || (step.base.Some? &&
                var base := StepById(r.before.steps, step.base.value).value;
                || ToolsChanged(tp, base.tools, r.event.request.tools)
                || CannotExtend(tk, base, r.event.request.messages, r.event.request.tools))
  {
    var routed := RouteRequest(tp, r.before, r.event.request, r.event.seen);
    RouteRequestIsOk(tp, r.before, r.event.request, r.event.seen);
    PromptIsBuiltFrom(tk, r.before, routed.route, CutsBefore(tp, r.before, r.event.request, routed),
                      r.event.request.messages, r.event.request.tools);
  }

  /**
    In every reached session a step that follows another in its lineage starts a new segment if and only if
    rendering failed, its tools differ, or the messages it adds could not be tokenized on top.
   */
  lemma BoundaryIff(tp: Template, tk: Tokenizer, run: seq<Event>, i: nat, j: nat)
    requires Neighbours(Reached(tp, tk, run).steps, i, j)
    ensures |TraceOf(tp, tk, run)| == |Reached(tp, tk, run).steps|
    ensures var steps, r := Reached(tp, tk, run).steps, TraceOf(tp, tk, run)[j];
            steps[j].boundary <==>
            || RenderingFailed(tp, r)
            || ToolsChanged(tp, steps[i].tools, steps[j].tools)
            || CannotExtend(tk, steps[i], r.event.request.messages, steps[j].tools)
  {
    var s := Reached(tp, tk, run);
    StepIsTraced(tp, tk, run, j);
    CutIff(tp, tk, TraceOf(tp, tk, run)[j], s.steps[j]);
    RunKeepsInv(tp, tk, Empty, run);
    LineageIsAChain(tp, tk, run, i, j);
    FoundById(s, i, j);
  }

  lemma {:induction false} NeighbourBefore(steps: seq<Step>, j: nat, n: nat) returns (i: nat)
    requires n <= j < |steps| && LatestOf(steps[..n], steps[j].lineage).Some?
    requires forall k | n <= k < j :: steps[k].lineage != steps[j].lineage
    ensures Neighbours(steps, i, j)
    decreases n
  {
    assert steps[..n][..n - 1] == steps[..n - 1];
    if steps[n - 1].lineage == steps[j].lineage {
      i := n - 1;
    } else {
      i := NeighbourBefore(steps, j, n - 1);
    }
  }

  lemma {:induction false} UncutIsOneGroup(mine: seq<Step>)
    requires mine != [] && forall k | 1 <= k < |mine| :: !mine[k].boundary
    ensures CutUp(mine) == Cut([], mine)
  {
    var before := mine[..|mine| - 1];
    assert mine == before + [mine[|mine| - 1]];
    if before != [] {
      UncutIsOneGroup(before);
    }
  }

  lemma {:induction false} MembersOfLineage(steps: seq<Step>, lineage: nat)
    ensures forall x | x in LineageSteps(steps, lineage) :: x in steps && x.lineage == lineage
  {
    if steps != [] {
      MembersOfLineage(steps[..|steps| - 1], lineage);
    }
  }

  /** Nothing that cuts happened to the recorded requests of the lineage. */
  ghost predicate Undisturbed(tp: Template, tk: Tokenizer, trace: seq<Recording>, steps: seq<Step>, lineage: nat)
    requires |trace| == |steps|
  {
    && (forall j | 0 <= j < |steps| && steps[j].lineage == lineage :: !RenderingFailed(tp, trace[j]))
    && (forall i, j | 0 <= i < j < |steps| && steps[i].lineage == steps[j].lineage == lineage ::
          !ToolsChanged(tp, steps[i].tools, steps[j].tools))
  }

  ghost predicate AlwaysExtends(tk: Tokenizer) {
    forall a, b, t :: tk.incremental(a, b, t).Some?
  }

  /** A lineage of one tool set, with no rendering failure and a tokenizer that always extends, is one segment. */
  lemma UndisturbedLineageIsOneSegment(tp: Template, tk: Tokenizer, run: seq<Event>, lineage: nat)
    requires LatestOf(Reached(tp, tk, run).steps, lineage).Some? && AlwaysExtends(tk)
    requires |TraceOf(tp, tk, run)| == |Reached(tp, tk, run).steps|
    requires Undisturbed(tp, tk, TraceOf(tp, tk, run), Reached(tp, tk, run).steps, lineage)
    ensures var mine := LineageSteps(Reached(tp, tk, run).steps, lineage); Groups(mine) == [mine]
  {
    var mine := LineageSteps(Reached(tp, tk, run).steps, lineage);
    NoLatestNoSteps(Reached(tp, tk, run).steps, lineage);
    LaterStepsAreUncut(tp, tk, run, lineage);
    UncutIsOneGroup(mine);
    assert [] + [mine] == [mine];
  }

  lemma LaterStepsAreUncut(tp: Template, tk: Tokenizer, run: seq<Event>, lineage: nat)
    requires AlwaysExtends(tk) && |TraceOf(tp, tk, run)| == |Reached(tp, tk, run).steps|
    requires Undisturbed(tp, tk, TraceOf(tp, tk, run), Reached(tp, tk, run).steps, lineage)
    ensures var mine := LineageSteps(Reached(tp, tk, run).steps, lineage);
            forall k | 1 <= k < |mine| :: !mine[k].boundary
  {
    var steps := Reached(tp, tk, run).steps;
    var mine := LineageSteps(steps, lineage);
    RunKeepsInv(tp, tk, Empty, run);
    LineageHasOneRoot(steps, lineage);
    MembersOfLineage(steps, lineage);
    forall k | 1 <= k < |mine| ensures !mine[k].boundary {
      assert mine[k] in mine;
      var j :| 0 <= j < |steps| && steps[j] == mine[k];
      LaterStepIsUncut(tp, tk, run, j);
    }
  }

  lemma LaterStepIsUncut(tp: Template, tk: Tokenizer, run: seq<Event>, j: nat)
    requires j < |Reached(tp, tk, run).steps| && Reached(tp, tk, run).steps[j].kind == Append && AlwaysExtends(tk)
    requires |TraceOf(tp, tk, run)| == |Reached(tp, tk, run).steps|
    requires Undisturbed(tp, tk, TraceOf(tp, tk, run), Reached(tp, tk, run).steps,
                         Reached(tp, tk, run).steps[j].lineage)
    ensures !Reached(tp, tk, run).steps[j].boundary
  {
    var steps := Reached(tp, tk, run).steps;
    RunKeepsInv(tp, tk, Empty, run);
    assert ChainedAt(steps, j);
    var i := NeighbourBefore(steps, j, j);
    BoundaryIff(tp, tk, run, i, j);
  }

  // ---------------------------------------------------------------- branching

  /** A lineage remembers the step its first step branched off, and none if that was created. */
  ghost predicate RemembersBranch(s: Session, i: nat)
    requires i < |s.steps|
  {
    s.steps[i].kind != Append ==>
      && s.steps[i].lineage < |s.lineages|
      && s.lineages[s.steps[i].lineage].branchFrom == s.steps[i].base
  }

  ghost predicate BranchesKnown(s: Session) {
    forall i: nat | i < |s.steps| :: RemembersBranch(s, i)
  }

  lemma ApplyKeepsBranches(tp: Template, tk: Tokenizer, s: Session, e: Event)
    requires Inv(s) && BranchesKnown(s)
    ensures BranchesKnown(Apply(tp, tk, s, e))
  {
    var s' := Apply(tp, tk, s, e);
    var routed := RouteRequest(tp, s, e.request, e.seen);
    RouteRequestIsOk(tp, s, e.request, e.seen);
    RequestIsTraced(tp, tk, s, e);
    ApplyExtends(tp, tk, s, e);
    forall i: nat | i < |s'.steps| ensures RemembersBranch(s', i) {
      if i < |s.steps| {
        assert s'.steps[i] == s.steps[i] && RemembersBranch(s, i);
      }
    }
  }

  lemma {:induction false} RunKeepsBranches(tp: Template, tk: Tokenizer, s: Session, run: seq<Event>)
    requires Inv(s) && BranchesKnown(s)
    ensures BranchesKnown(Run(tp, tk, s, run))
    decreases |run|
  {
    if run != [] {
      ApplyKeepsInv(tp, tk, s, run[0]);
      ApplyKeepsBranches(tp, tk, s, run[0]);
      RunKeepsBranches(tp, tk, Apply(tp, tk, s, run[0]), run[1..]);
    }
  }

  /** In every reached session a branched lineage names the step it branched off, a created one none. */
  lemma LineagesRememberTheirBranch(tp: Template, tk: Tokenizer, run: seq<Event>, i: nat)
    requires i < |Reached(tp, tk, run).steps| && Reached(tp, tk, run).steps[i].kind != Append
    ensures var s := Reached(tp, tk, run);
            && s.steps[i].lineage < |s.lineages|
            && s.lineages[s.steps[i].lineage].branchFrom == s.steps[i].base
            && (s.steps[i].base.Some? <==> s.steps[i].kind == Branch)
  {
    RunKeepsInv(tp, tk, Empty, run);
    RunKeepsBranches(tp, tk, Empty, run);
    assert RemembersBranch(Reached(tp, tk, run), i) && ChainedAt(Reached(tp, tk, run).steps, i);
  }

  // ------------------------------------------------------- how much is trained

  function ResponseLength(step: Step): nat { |step.response| }

  function Ones(mask: seq<nat>): nat {
    if mask == [] then 0 else Ones(mask[..|mask| - 1]) + if mask[|mask| - 1] == 1 then 1 else 0
  }

  lemma {:induction false} OnesConcat(a: seq<nat>, b: seq<nat>)
    ensures Ones(a + b) == Ones(a) + Ones(b)
  {
    if b == [] {
      assert a + b == a;
    } else {
      assert (a + b)[..|a + b| - 1] == a + b[..|b| - 1];
      OnesConcat(a, b[..|b| - 1]);
    }
  }

  lemma {:induction false} OnesFrom(mask: seq<nat>, c: nat)
    requires c <= |mask| && forall p | 0 <= p < |mask| :: mask[p] == if p < c then 0 else 1
    ensures Ones(mask) == |mask| - c
  {
    if mask != [] {
      var before := mask[..|mask| - 1];
      OnesFrom(before, if c == |mask| then c - 1 else c);
    }
  }

  lemma {:induction false} SegmentOnes(g: seq<Step>)
    requires AllMasked(g)
    ensures Ones(FlatMask(g)) == Sum(g, ResponseLength)
  {
    if g != [] {
      var before, last := g[..|g| - 1], g[|g| - 1];
      SegmentOnes(before);
      OnesConcat(FlatMask(before), last.concatMask);
      OnesFrom(last.concatMask, |last.concatTokens| - |last.response|);
    }
  }

  /** The positions with loss mask 1 over the first n records, and over all records of a session. */
  ghost function TrainedTo(segments: seq<seq<Step>>, n: nat): nat
    requires n <= |segments|
  {
    if n == 0 then 0 else TrainedTo(segments, n - 1) + Ones(RecordOf(segments[n - 1]).mask)
  }

  ghost function Trained(s: Session): nat {
    TrainedTo(LineageSegments(s), |LineageSegments(s)|)
  }

  lemma {:induction false} TrainedIsResponses(segments: seq<seq<Step>>, n: nat)
    requires n <= |segments| && Every(segments, g => AllMasked(g))
    ensures TrainedTo(segments, n) == Sum(FlattenTo(segments, n), ResponseLength)
  {
    if n > 0 {
      TrainedIsResponses(segments, n - 1);
      assert (g => AllMasked(g))(segments[n - 1]);
      SegmentOnes(segments[n - 1]);
      SumConcat(FlattenTo(segments, n - 1), segments[n - 1], ResponseLength);
    }
  }

  lemma SegmentsAreMasked(s: Session)
    requires AllMasked(s.steps)
    ensures Every(LineageSegments(s), g => AllMasked(g))
  {
    var segments: seq<seq<Step>> := LineageSegments(s);
    SegmentsDrawn(s.steps, |s.lineages|);
    forall k, i | 0 <= k < |segments| && 0 <= i < |segments[k]| ensures Masked(segments[k][i]) {
      assert segments[k][i] in s.steps;
    }
  }

  /** The tokens kept of the generations of the first n recorded requests. */
  ghost function KeptTo(trace: seq<Recording>, n: nat): nat
    requires n <= |trace|
  {
    if n == 0 then 0
    else
      var g := trace[n - 1].event.generation;
      KeptTo(trace, n - 1) + if g.Some? then |Kept(g.value)| else 0
  }

  ghost function KeptOf(trace: seq<Recording>): nat {
    KeptTo(trace, |trace|)
  }

  /** Each step holds what was kept of its request's generation. */
  ghost predicate KeepsAll(trace: seq<Recording>, steps: seq<Step>) {
    && |trace| == |steps|
    && forall i: nat | i < |trace| ::
         trace[i].event.generation.Some? && steps[i].response == Kept(trace[i].event.generation.value)
  }

  lemma {:induction false} ResponsesAreKept(trace: seq<Recording>, steps: seq<Step>, n: nat)
    requires KeepsAll(trace, steps) && n <= |trace|
    ensures Sum(steps[..n], ResponseLength) == KeptTo(trace, n)
  {
    if n > 0 {
      assert steps[..n][..n - 1] == steps[..n - 1];
      ResponsesAreKept(trace, steps, n - 1);
    }
  }

  lemma StepsKeepAll(tp: Template, tk: Tokenizer, run: seq<Event>)
    ensures KeepsAll(TraceOf(tp, tk, run), Reached(tp, tk, run).steps)
  {
    var trace, steps := TraceOf(tp, tk, run), Reached(tp, tk, run).steps;
    RunIsTraced(tp, tk, Empty, run);
    forall i: nat | i < |trace|
      ensures trace[i].event.generation.Some? && steps[i].response == Kept(trace[i].event.generation.value)
    {
      StepIsTraced(tp, tk, run, i);
    }
  }

  /** Over all records of a session the trained positions are as many as its response tokens. */
  lemma TrainedIsRecorded(s: Session)
    requires Inv(s)
    ensures Trained(s) == Sum(s.steps, ResponseLength)
  {
    SegmentsAreMasked(s);
    TrainedIsResponses(LineageSegments(s), |LineageSegments(s)|);
    SegmentsConserve(s, ResponseLength);
  }

  lemma RecordedIsKept(tp: Template, tk: Tokenizer, run: seq<Event>)
    ensures Sum(Reached(tp, tk, run).steps, ResponseLength) == KeptOf(TraceOf(tp, tk, run))
  {
    var steps := Reached(tp, tk, run).steps;
    StepsKeepAll(tp, tk, run);
    ResponsesAreKept(TraceOf(tp, tk, run), steps, |steps|);
    assert steps[..|steps|] == steps;
  }

  /**
    Nothing generated is lost and nothing else is trained: over all records of every run, the positions with
    loss mask 1 are as many as the tokens of its recorded generations that did not overflow.
   */
  lemma TrainedIsWhatWasGenerated(tp: Template, tk: Tokenizer, run: seq<Event>)
    ensures Trained(Reached(tp, tk, run)) == KeptOf(TraceOf(tp, tk, run))
  {
    RunKeepsInv(tp, tk, Empty, run);
    TrainedIsRecorded(Reached(tp, tk, run));
    RecordedIsKept(tp, tk, run);
  }
}
