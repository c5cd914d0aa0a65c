/**
  Where every trained token comes from: the recorder, the segment records and the stitching loop put
  together (dressage/proxy/server.py, dressage/proxy/generation_controller.py).
 */
module Provenance {
  import opened Sequences
  import opened Lineages
  import opened Routing
  import opened Recorder
  import opened Segments
  import opened Recordings
  import Stitching
  import GenerationOutcome

  type Model = Stitching.Model

  // ------------------------------------------------------------- served requests

  /** The generation is the outcome of the stitching loop over this prompt. */
  ghost predicate ReturnedBy(cfg: Stitching.Config, input: seq<Token>, serve: Stitching.Backend, attempts: nat,
                             g: Generation)
  {
    var o := Stitching.Run(cfg, input, serve, 0, Stitching.Empty, attempts);
    o.Done? && g.response == o.result.ids && g.versions == o.result.versions && g.overflow == o.result.overflow
  }

  /** What is known of the backend that served a prompt. */
  type Service = (Stitching.Config, Stitching.Backend, seq<Token>) -> bool

  /** A backend the service allows, under whatever preemptions and weight updates, answered the prompt with it. */
  ghost predicate ServedFrom(service: Service, input: seq<Token>, g: Generation) {
    exists cfg, serve, attempts: nat :: service(cfg, serve, input) && ReturnedBy(cfg, input, serve, attempts, g)
  }

  /** A request that is recorded was answered by the stitching loop over its own prompt. */
  ghost predicate Served(service: Service, tp: Template, tk: Tokenizer, r: Recording) {
    Records(tp, tk, r.before, r.event) ==>
      ServedFrom(service, PromptFor(tp, tk, r.before, r.event).value.input, r.event.generation.value)
  }

  ghost predicate AllServed(service: Service, tp: Template, tk: Tokenizer, run: seq<Event>) {
    forall r | r in TraceOf(tp, tk, run) :: Served(service, tp, tk, r)
  }

  /** The step records what this generation of its prompt returned; an overflowing response is dropped. */
  ghost predicate RecordedFrom(step: Step, cfg: Stitching.Config, serve: Stitching.Backend, attempts: nat) {
    var o := Stitching.Run(cfg, step.prompt, serve, 0, Stitching.Empty, attempts);
    && o.Done?
    && step.response == (if o.result.overflow then [] else o.result.ids)
    && step.responseVersions == (if o.result.overflow then [] else o.result.versions)
  }

  lemma HeldIsRecorded(tp: Template, tk: Tokenizer, r: Recording, step: Step, cfg: Stitching.Config,
                       serve: Stitching.Backend, attempts: nat)
    requires Holds(tp, tk, r, step) && ReturnedBy(cfg, step.prompt, serve, attempts, r.event.generation.value)
    ensures RecordedFrom(step, cfg, serve, attempts)
  {
    GenerationOutcome.VersionsAligned(cfg, step.prompt, serve, 0, Stitching.Empty, attempts);
  }

  /** In every run of served requests each step records what the stitching loop returned for its own prompt. */
  lemma ServedStepsAreRecorded(service: Service, tp: Template, tk: Tokenizer, run: seq<Event>, i: nat)
    requires AllServed(service, tp, tk, run) && i < |Reached(tp, tk, run).steps|
    ensures var step := Reached(tp, tk, run).steps[i];
            exists cfg, serve, attempts: nat ::
              service(cfg, serve, step.prompt) && RecordedFrom(step, cfg, serve, attempts)
  {
    StepIsTraced(tp, tk, run, i);
    var r, step := TraceOf(tp, tk, run)[i], Reached(tp, tk, run).steps[i];
    assert r in TraceOf(tp, tk, run);
    assert Served(service, tp, tk, r);
    var cfg, serve, attempts: nat :|
      service(cfg, serve, step.prompt) && ReturnedBy(cfg, step.prompt, serve, attempts, r.event.generation.value);
    HeldIsRecorded(tp, tk, r, step, cfg, serve, attempts);
  }

  // ------------------------------------------------------------------ each step

  /** Each response token is what the weights of its version produce from the prompt and the tokens before it. */
  ghost predicate OwnTokens(m: Model, prompt: seq<Token>, response: seq<Token>, versions: seq<string>) {
    && |versions| == |response|
    && forall j | 0 <= j < |response| && versions[j] != UnknownVersion ::
         response[j] == m.next(versions[j], prompt + response[..j])
  }

  ghost predicate StepOwn(m: Model, step: Step) {
    OwnTokens(m, step.prompt, step.response, step.responseVersions)
  }

  ghost predicate AllOwn(m: Model, steps: seq<Step>) {
    forall i | 0 <= i < |steps| :: StepOwn(m, steps[i])
  }

  /** The backend answers with the tokens of the weights it names. */
  ghost function HonestService(m: Model): Service {
    (cfg, serve, input) => Stitching.HonestBackend(m, serve)
  }

  lemma RecordedIsOwn(m: Model, step: Step, cfg: Stitching.Config, serve: Stitching.Backend, attempts: nat)
    requires Stitching.HonestBackend(m, serve) && RecordedFrom(step, cfg, serve, attempts)
    ensures StepOwn(m, step)
  {
    Stitching.StitchedTokensAreFaithful(m, cfg, step.prompt, serve, attempts);
  }

  /** Every recorded step of a run served by honest backends holds the model's own tokens. */
  lemma StepsAreOwn(m: Model, tp: Template, tk: Tokenizer, run: seq<Event>)
    requires AllServed(HonestService(m), tp, tk, run)
    ensures AllOwn(m, Reached(tp, tk, run).steps)
  {
    var steps := Reached(tp, tk, run).steps;
    forall i | 0 <= i < |steps| ensures StepOwn(m, steps[i]) {
      ServedStepsAreRecorded(HonestService(m), tp, tk, run, i);
      var cfg, serve, attempts: nat :|
        HonestService(m)(cfg, serve, steps[i].prompt) && RecordedFrom(steps[i], cfg, serve, attempts);
      RecordedIsOwn(m, steps[i], cfg, serve, attempts);
    }
  }

  // ---------------------------------------------------------------- each record

  /** The arrays of the first `a` steps are the beginning of the segment's. */
  lemma {:induction false} RecordStarts(g: seq<Step>, a: nat)
    requires a <= |g|
    ensures Flat(g[..a]) <= Flat(g) && FlatMask(g[..a]) <= FlatMask(g) && FlatVersions(g[..a]) <= FlatVersions(g)
  {
    if a == |g| {
      assert g[..a] == g;
    } else {
      RecordStarts(g[..|g| - 1], a);
      assert g[..|g| - 1][..a] == g[..a];
    }
  }

  lemma {:induction false} RecordAligned(g: seq<Step>)
    requires AllMasked(g)
    ensures |Flat(g)| == |FlatMask(g)| == |FlatVersions(g)|
  {
    if g != [] {
      RecordAligned(g[..|g| - 1]);
    }
  }

  /** Position p of a record belongs to step a. */
  predicate InStep(g: seq<Step>, a: nat, p: nat) {
    a < |g| && |Flat(g[..a])| <= p < |Flat(g[..a + 1])|
  }

  lemma {:induction false} EveryPositionInAStep(g: seq<Step>, p: nat) returns (a: nat)
    requires p < |Flat(g)|
    ensures InStep(g, a, p)
  {
    var n := |g| - 1;
    if p < |Flat(g[..n])| {
      a := EveryPositionInAStep(g[..n], p);
      assert g[..n][..a] == g[..a] && g[..n][..a + 1] == g[..a + 1];
    } else {
      a := n;
      assert g[..n + 1] == g;
    }
  }

  /**
    Within a segment, step a's record ends where its prompt and response end, so its responses sit right
    after its prompt.
   */
  lemma StepSitsAfterPrompt(g: seq<Step>, a: nat)
    requires ExactThroughout(g) && AllMasked(g) && a < |g| && g[a].allTokens == g[a].prompt + g[a].response
    ensures |Flat(g[..a])| + (|g[a].concatTokens| - |g[a].response|) == |g[a].prompt|
    ensures Flat(g[..a + 1]) == g[a].prompt + g[a].response
  {
    assert EndsExactly(g[..a + 1]);
    OneStepMore(g, a);
  }

  /** The record's entries of step a. */
  lemma EntryOfStep(g: seq<Step>, a: nat, q: nat)
    requires AllMasked(g) && a < |g| && q < |g[a].concatTokens|
    ensures var r, p := RecordOf(g), |Flat(g[..a])| + q;
            && p < |r.tokens| == |r.mask| == |r.versions|
            && r.mask[p] == g[a].concatMask[q] && r.versions[p] == g[a].concatVersions[q]
  {
    RecordAligned(g);
    RecordAligned(g[..a]);
    RecordStarts(g, a + 1);
    OneStepMore(g, a);
    assert FlatMask(g)[|Flat(g[..a])| + q] == FlatMask(g[..a + 1])[|Flat(g[..a])| + q];
    assert FlatVersions(g)[|Flat(g[..a])| + q] == FlatVersions(g[..a + 1])[|Flat(g[..a])| + q];
  }

  /** What a trained position holds, by the step it belongs to: response token j of step a. */
  lemma TrainedEntry(g: seq<Step>, a: nat, p: nat) returns (j: nat)
    requires ExactThroughout(g) && AllMasked(g) && InStep(g, a, p) && g[a].allTokens == g[a].prompt + g[a].response
    requires p < |RecordOf(g).mask| && RecordOf(g).mask[p] == 1
    ensures j < |g[a].response| && p == |g[a].prompt| + j
    ensures p < |RecordOf(g).versions| && RecordOf(g).versions[p] == g[a].responseVersions[j]
  {
    OneStepMore(g, a);
    StepSitsAfterPrompt(g, a);
    var q := p - |Flat(g[..a])|;
    EntryOfStep(g, a, q);
    j := p - |g[a].prompt|;
  }

  lemma TokensUpTo(g: seq<Step>, a: nat, j: nat)
    requires ExactThroughout(g) && AllMasked(g) && a < |g| && g[a].allTokens == g[a].prompt + g[a].response
    requires j < |g[a].response|
    ensures var tokens, p := RecordOf(g).tokens, |g[a].prompt| + j;
            p < |tokens| && tokens[p] == g[a].response[j] && tokens[..p] == g[a].prompt + g[a].response[..j]
  {
    StepSitsAfterPrompt(g, a);
    RecordStarts(g, a + 1);
    var all, p := g[a].prompt + g[a].response, |g[a].prompt| + j;
    assert RecordOf(g).tokens[..p] == all[..p] == g[a].prompt + g[a].response[..j];
  }

  /** Every trained token of known version is what those weights produce from exactly the record before it. */
  ghost predicate OnPolicy(m: Model, r: TrainingRecord) {
    && |r.tokens| == |r.mask| == |r.versions|
    && forall p | 0 <= p < |r.tokens| && r.mask[p] == 1 && r.versions[p] != UnknownVersion ::
         r.tokens[p] == m.next(r.versions[p], r.tokens[..p])
  }

  lemma SegmentIsOnPolicy(m: Model, g: seq<Step>)
    requires ExactThroughout(g) && AllMasked(g) && AllOwn(m, g)
    requires forall a | 0 <= a < |g| :: g[a].allTokens == g[a].prompt + g[a].response
    ensures OnPolicy(m, RecordOf(g))
  {
    var r := RecordOf(g);
    RecordAligned(g);
    forall p | 0 <= p < |r.tokens| && r.mask[p] == 1 && r.versions[p] != UnknownVersion
      ensures r.tokens[p] == m.next(r.versions[p], r.tokens[..p])
    {
      var a := EveryPositionInAStep(g, p);
      var j := TrainedEntry(g, a, p);
      TokensUpTo(g, a, j);
      assert StepOwn(m, g[a]);
    }
  }

  /** The steps of a segment are recorded steps, with all they promise. */
  lemma SegmentInherits(m: Model, s: Session, k: nat)
    requires Inv(s) && AllOwn(m, s.steps) && k < |LineageSegments(s)|
    ensures var g := LineageSegments(s)[k];
            && AllMasked(g) && AllOwn(m, g)
            && forall a | 0 <= a < |g| :: g[a].allTokens == g[a].prompt + g[a].response
  {
    SegmentsDrawn(s.steps, |s.lineages|);
    var g := LineageSegments(s)[k];
    forall a | 0 <= a < |g|
      ensures Masked(g[a]) && StepOwn(m, g[a]) && g[a].allTokens == g[a].prompt + g[a].response
    {
      assert LineageSegments(s)[k][a] in s.steps;
      var i :| 0 <= i < |s.steps| && s.steps[i] == g[a];
      assert ExactAt(s.steps, i);
    }
  }

  /**
    From generation to training data, for every run: if every generation of the run came out of the
    stitching loop over its own prompt, against any honest backend and under any preemptions, resumes and
    weight updates, then in every record finalize builds every trained token whose version is known is what
    the weights of that version produce from exactly the tokens the record holds before it.
   */
  lemma TrainedTokensAreOnPolicy(m: Model, tp: Template, tk: Tokenizer, run: seq<Event>, k: nat)
    requires AllServed(HonestService(m), tp, tk, run) && k < |LineageSegments(Reached(tp, tk, run))|
    ensures OnPolicy(m, RecordOf(LineageSegments(Reached(tp, tk, run))[k]))
  {
    var s := Reached(tp, tk, run);
    RunKeepsInv(tp, tk, Empty, run);
    StepsAreOwn(m, tp, tk, run);
    SegmentInherits(m, s, k);
    SegmentTokensAreSteps(s);
    assert ExactThroughout(LineageSegments(s)[k]);
    SegmentIsOnPolicy(m, LineageSegments(s)[k]);
  }
}
