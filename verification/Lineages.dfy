/**
  The forest of recorded steps of one proxy session (dressage/proxy/server.py and
  dressage/proxy/session_manager.py, token build mode "tito").

  Step and lineage ids are the counters they are printed from; a lineage's id is also its index.
  Tokenizing a whole conversation and extending an already tokenized prefix are parameters that may
  fail.
 */
module Lineages {
  import opened Wrappers
  import opened Sequences

  type Message = string
  type Tools = Option<seq<string>>

  const InputTokenVersion := "-1"

  datatype RouteType = Append | Branch | Create

  datatype Route = Route(lineage: nat, kind: RouteType, base: Option<nat>)

  datatype Lineage = Lineage(latest: Option<nat>, branchFrom: Option<nat>)

  datatype Step = Step(
    id: nat,
    lineage: nat,
    kind: RouteType,
    base: Option<nat>,
    boundary: bool,
    prompt: seq<Token>,
    response: seq<Token>,
    responseVersions: seq<string>,
    allTokens: seq<Token>,
    snapshotTokens: seq<Token>,
    concatTokens: seq<Token>,
    concatMask: seq<nat>,
    concatVersions: seq<string>,
    messages: seq<Message>,
    tools: Tools)

  datatype Session = Session(steps: seq<Step>, lineages: seq<Lineage>, stepCounter: nat)

  const Empty := Session([], [], 0)

  datatype Tokenizer = Tokenizer(
    full: (seq<Message>, Tools) -> Option<seq<Token>>,
    incremental: (seq<Message>, seq<Message>, Tools) -> Option<seq<Token>>,
    imEnd: Option<Token>,
    newline: Option<Token>)

  /** A template puts a newline after an end marker, which generation does not produce. */
  predicate NeedsNewline(tk: Tokenizer, prefix: seq<Token>) {
    tk.imEnd.Some? && tk.newline.Some? && prefix != [] && prefix[|prefix| - 1] == tk.imEnd.value
  }

  /** `merged` is `prefix`, the newline if one is missing, and `added`: nothing retokenized, lost or repeated. */
  predicate Continues(tk: Tokenizer, prefix: seq<Token>, added: seq<Token>, merged: seq<Token>) {
    var gap := if NeedsNewline(tk, prefix) then 1 else 0;
    && |merged| == |prefix| + gap + |added|
    && prefix <= merged && merged[|prefix| + gap..] == added
    && (gap == 1 ==> merged[|prefix|] == tk.newline.value)
  }

  /** merge_tokens: the prefix, the newline a template puts after an end marker, and the added messages. */
  function Merge(tk: Tokenizer, before: seq<Message>, after: seq<Message>, prefix: seq<Token>, tools: Tools):
      (r: Option<seq<Token>>)
    ensures r.Some? <==> tk.incremental(before, after, tools).Some?
    ensures r.Some? ==> Continues(tk, prefix, tk.incremental(before, after, tools).value, r.value)
  {
    match tk.incremental(before, after, tools)
    case None => None
    case Some(added) =>
      var ends := tk.imEnd.Some? && tk.newline.Some? && prefix != [] && prefix[|prefix| - 1] == tk.imEnd.value;
      Some((if ends then prefix + [tk.newline.value] else prefix) + added)
  }

  // ------------------------------------------------------------ reading steps

  /** The newest step of a lineage. */
  function LatestOf(steps: seq<Step>, lineage: nat): Option<nat> {
    if steps == [] then None
    else
      var last := steps[|steps| - 1];
      if last.lineage == lineage then Some(last.id) else LatestOf(steps[..|steps| - 1], lineage)
  }

  function StepById(steps: seq<Step>, id: nat): Option<Step> {
    if steps == [] then None
    else if steps[|steps| - 1].id == id then Some(steps[|steps| - 1])
    else StepById(steps[..|steps| - 1], id)
  }

  /** What a lineage has recorded since its last segment boundary. */
  function SegmentTokens(steps: seq<Step>, lineage: nat): seq<Token> {
    if steps == [] then []
    else
      var last := steps[|steps| - 1];
      var before := SegmentTokens(steps[..|steps| - 1], lineage);
      if last.lineage != lineage then before
      else if last.boundary then last.concatTokens
      else before + last.concatTokens
  }

  function LineageSteps(steps: seq<Step>, lineage: nat): seq<Step> {
    if steps == [] then []
    else
      var last := steps[|steps| - 1];
      LineageSteps(steps[..|steps| - 1], lineage) + if last.lineage == lineage then [last] else []
  }

  method StepsOf(steps: seq<Step>, lineage: nat) returns (mine: seq<Step>)
    ensures mine == LineageSteps(steps, lineage)
  {
    mine := [];
    for i := 0 to |steps|
      invariant mine == LineageSteps(steps[..i], lineage)
    {
      assert steps[..i + 1][..i] == steps[..i];
      if steps[i].lineage == lineage {
        mine := mine + [steps[i]];
      }
    }
    assert steps[..|steps|] == steps;
  }

  /** The recorded tokens of consecutive steps of a lineage. */
  function Flat(steps: seq<Step>): seq<Token> {
    if steps == [] then [] else Flat(steps[..|steps| - 1]) + steps[|steps| - 1].concatTokens
  }

  /** Where the last segment of a lineage starts. */
  function TailStart(steps: seq<Step>): (r: nat)
    ensures r <= |steps|
  {
    if steps == [] then 0
    else if steps[|steps| - 1].boundary then |steps| - 1
    else TailStart(steps[..|steps| - 1])
  }

  lemma FlatSnoc(steps: seq<Step>, step: Step)
    ensures Flat(steps + [step]) == Flat(steps) + step.concatTokens
  {
    assert (steps + [step])[..|steps|] == steps;
  }

  method FindTail(mine: seq<Step>) returns (start: nat)
    ensures start == TailStart(mine)
  {
    start := 0;
    for i := 0 to |mine|
      invariant start == TailStart(mine[..i])
    {
      assert mine[..i + 1][..i] == mine[..i];
      if mine[i].boundary {
        start := i;
      }
    }
    assert mine[..|mine|] == mine;
  }

  method JoinTokens(tail: seq<Step>) returns (tokens: seq<Token>)
    ensures tokens == Flat(tail)
  {
    tokens := [];
    for i := 0 to |tail|
      invariant tokens == Flat(tail[..i])
    {
      assert tail[..i + 1][..i] == tail[..i];
      tokens := tokens + tail[i].concatTokens;
    }
    assert tail[..|tail|] == tail;
  }

  /** The steps of a lineage's last segment. */
  function Tail(steps: seq<Step>): seq<Step> {
    if steps == [] then []
    else if steps[|steps| - 1].boundary then [steps[|steps| - 1]]
    else Tail(steps[..|steps| - 1]) + [steps[|steps| - 1]]
  }

  lemma {:induction false} TailIsSuffix(steps: seq<Step>)
    ensures steps[TailStart(steps)..] == Tail(steps)
  {
    if steps != [] {
      var before := steps[..|steps| - 1];
      TailIsSuffix(before);
      if !steps[|steps| - 1].boundary {
        assert steps[TailStart(steps)..] == before[TailStart(before)..] + [steps[|steps| - 1]];
      }
    }
  }

  lemma TailSnoc(mine: seq<Step>, step: Step)
    ensures Flat(Tail(mine + [step])) ==
              if step.boundary then step.concatTokens else Flat(Tail(mine)) + step.concatTokens
  {
    assert (mine + [step])[..|mine|] == mine;
    FlatSnoc([], step);
    assert [] + [step] == [step] && [] + step.concatTokens == step.concatTokens;
    FlatSnoc(Tail(mine), step);
  }

  lemma {:induction false} SegmentIsTail(steps: seq<Step>, lineage: nat)
    ensures SegmentTokens(steps, lineage) == Flat(Tail(LineageSteps(steps, lineage)))
  {
    if steps != [] {
      SegmentIsTail(steps[..|steps| - 1], lineage);
      if steps[|steps| - 1].lineage == lineage {
        TailSnoc(LineageSteps(steps[..|steps| - 1], lineage), steps[|steps| - 1]);
      } else {
        assert LineageSteps(steps, lineage) == LineageSteps(steps[..|steps| - 1], lineage);
      }
    }
  }

  // ---------------------------------------------------------- building a step

  /** `delta` is what the prompt adds to the lineage's current segment. */
  datatype Prompt = Prompt(input: seq<Token>, delta: seq<Token>, failed: bool)

  function FullPrompt(tk: Tokenizer, messages: seq<Message>, tools: Tools, failed: bool): Option<Prompt> {
    match tk.full(messages, tools)
    case None => None
    case Some(ids) => Some(Prompt(ids, ids, failed))
  }

  function BaseOf(steps: seq<Step>, route: Route): Option<Step> {
    if route.base.None? then None else StepById(steps, route.base.value)
  }

  /** None when the tokenizer raises on the whole conversation, which fails the request. */
  function BuildPrompt(tk: Tokenizer, steps: seq<Step>, route: Route, boundary: bool,
                       messages: seq<Message>, tools: Tools): Option<Prompt>
  {
    var base := BaseOf(steps, route);
    if base.None? || boundary then FullPrompt(tk, messages, tools, false)
    else
      var prefix := if route.kind == Branch then base.value.snapshotTokens else SegmentTokens(steps, route.lineage);
      match Merge(tk, base.value.messages, messages, prefix, tools)
      case None => FullPrompt(tk, messages, tools, true)
      case Some(merged) =>
        Some(Prompt(merged, if route.kind == Branch then merged else merged[|prefix|..], false))
  }

  /** One version per response token, whatever number of versions came back. */
  function AlignVersions(versions: seq<string>, n: nat): (r: seq<string>)
    ensures |r| == n
    ensures |versions| == n ==> r == versions
    ensures |versions| != n ==>
              forall v | v in r :: v == if versions == [] then UnknownVersion else versions[|versions| - 1]
  {
    if |versions| == n then versions
    else Repeat(if versions == [] then UnknownVersion else versions[|versions| - 1], n)
  }

  /** What generation returned; an overflowing response is not recorded. */
  datatype Generation = Generation(response: seq<Token>, versions: seq<string>, overflow: bool, messages: seq<Message>)

  function MakeStep(id: nat, route: Route, boundary: bool, p: Prompt, tools: Tools, g: Generation): Step {
    var response := if g.overflow then [] else g.response;
    var versions := AlignVersions(if g.overflow then [] else g.versions, |response|);
    Step(id, route.lineage, route.kind, route.base, boundary || p.failed,
         p.input, response, versions, p.input + response, p.input + response,
         p.delta + response,
         Repeat(0, |p.delta|) + Repeat(1, |response|),
         Repeat(InputTokenVersion, |p.delta|) + versions,
         g.messages, tools)
  }

  function OpenLineage(s: Session, route: Route): Session {
    if route.kind == Append then s
    else s.(lineages := s.lineages + [Lineage(None, if route.kind == Branch then route.base else None)])
  }

  function Record(s: Session, step: Step): Session {
    Session(s.steps + [step],
            if step.lineage < |s.lineages|
            then s.lineages[step.lineage := s.lineages[step.lineage].(latest := Some(step.id))]
            else s.lineages,
            step.id)
  }

  // --------------------------------------------------------------- invariants

  ghost predicate Ids(s: Session) {
    && (forall i, j | 0 <= i < j < |s.steps| :: s.steps[i].id < s.steps[j].id)
    && (forall i | 0 <= i < |s.steps| :: s.steps[i].id <= s.stepCounter)
  }

  /** Every step belongs to a registered lineage, and each lineage knows its newest step. */
  ghost predicate Registered(s: Session) {
    && (forall i | 0 <= i < |s.steps| :: s.steps[i].lineage < |s.lineages|)
    && (forall l | 0 <= l < |s.lineages| :: s.lineages[l].latest == LatestOf(s.steps, l))
  }

  /** An append extends the newest step of its lineage; anything else is the first step of its own. */
  ghost predicate ChainedAt(steps: seq<Step>, i: nat)
    requires i < |steps|
  {
    var step := steps[i];
    var latest := LatestOf(steps[..i], step.lineage);
    match step.kind
    case Append => latest.Some? && step.base == latest
    case Branch => latest.None? && step.base.Some? && StepById(steps[..i], step.base.value).Some?
    case Create => latest.None? && step.base.None?
  }

  ghost predicate Chained(steps: seq<Step>) {
    forall i: nat | i < |steps| :: ChainedAt(steps, i)
  }

  /** What the lineage recorded since its last boundary is exactly what the model saw and said. */
  ghost predicate ExactAt(steps: seq<Step>, i: nat)
    requires i < |steps|
  {
    var step := steps[i];
    && SegmentTokens(steps[..i + 1], step.lineage) == step.prompt + step.response
    && step.allTokens == step.prompt + step.response
    && step.snapshotTokens == step.prompt + step.response
  }

  ghost predicate TokenExact(steps: seq<Step>) {
    forall i: nat | i < |steps| :: ExactAt(steps, i)
  }

  /** Unless a boundary cuts it off, a step's prompt continues everything its base step saw and said. */
  ghost predicate ExtendsAt(steps: seq<Step>, i: nat)
    requires i < |steps|
  {
    var step := steps[i];
    !step.boundary && step.base.Some? ==>
      var base := StepById(steps[..i], step.base.value);
      base.Some? && base.value.allTokens <= step.prompt
  }

  ghost predicate Extending(steps: seq<Step>) {
    forall i: nat | i < |steps| :: ExtendsAt(steps, i)
  }

  /** Context tokens carry mask 0 and no version, response tokens mask 1 and their own version. */
  predicate Masked(step: Step) {
    var c := |step.concatTokens| - |step.response|;
    && c >= 0 && |step.concatTokens| == |step.concatMask| == |step.concatVersions|
    && |step.responseVersions| == |step.response|
    && (forall p | 0 <= p < c :: step.concatMask[p] == 0 && step.concatVersions[p] == InputTokenVersion)
    && (forall p | c <= p < |step.concatTokens| ::
          && step.concatMask[p] == 1
          && step.concatTokens[p] == step.response[p - c]
          && step.concatVersions[p] == step.responseVersions[p - c])
  }

  ghost predicate AllMasked(steps: seq<Step>) {
    forall i | 0 <= i < |steps| :: Masked(steps[i])
  }

  ghost predicate Inv(s: Session) {
    Ids(s) && Registered(s) && Chained(s.steps) && TokenExact(s.steps) && Extending(s.steps) && AllMasked(s.steps)
  }

  /** What routing guarantees of the route it picks, before a new lineage is opened for it. */
  ghost predicate RouteOk(s: Session, route: Route) {
    match route.kind
    case Append => route.lineage < |s.lineages| && route.base.Some? && route.base == LatestOf(s.steps, route.lineage)
    case Branch => route.lineage == |s.lineages| && route.base.Some? && StepById(s.steps, route.base.value).Some?
    case Create => route.lineage == |s.lineages| && route.base.None?
  }

  // ------------------------------------------------------------------- lemmas

  lemma {:induction false} UnknownLineageIsEmpty(steps: seq<Step>, lineage: nat)
    requires LatestOf(steps, lineage).None?
    ensures SegmentTokens(steps, lineage) == []
  {
    if steps != [] {
      UnknownLineageIsEmpty(steps[..|steps| - 1], lineage);
    }
  }

  lemma {:induction false} UnregisteredHasNoSteps(steps: seq<Step>, lineage: nat)
    requires forall i | 0 <= i < |steps| :: steps[i].lineage != lineage
    ensures LatestOf(steps, lineage).None?
  {
    if steps != [] {
      UnregisteredHasNoSteps(steps[..|steps| - 1], lineage);
    }
  }

  lemma {:induction false} LatestIsAStep(steps: seq<Step>, lineage: nat)
    requires LatestOf(steps, lineage).Some?
    ensures StepById(steps, LatestOf(steps, lineage).value).Some?
  {
    if steps[|steps| - 1].lineage != lineage {
      LatestIsAStep(steps[..|steps| - 1], lineage);
    }
  }

  lemma AppendedReads(steps: seq<Step>, step: Step, lineage: nat)
    ensures LatestOf(steps + [step], lineage) ==
              if step.lineage == lineage then Some(step.id) else LatestOf(steps, lineage)
    ensures SegmentTokens(steps + [step], lineage) ==
            if step.lineage != lineage then SegmentTokens(steps, lineage)
            else if step.boundary then step.concatTokens
            else SegmentTokens(steps, lineage) + step.concatTokens
  {
    assert (steps + [step])[..|steps|] == steps;
  }

  lemma OpenKeepsInv(s: Session, route: Route)
    requires Inv(s) && RouteOk(s, route)
    ensures Inv(OpenLineage(s, route)) && route.lineage < |OpenLineage(s, route).lineages|
    ensures route.kind != Append ==> LatestOf(s.steps, route.lineage).None?
  {
    if route.kind != Append {
      UnregisteredHasNoSteps(s.steps, |s.lineages|);
    }
  }

  /** The heart of token exactness: the new prompt continues the segment, or starts a new one in full. */
  lemma PromptContinuesSegment(tk: Tokenizer, s: Session, route: Route, boundary: bool,
                               messages: seq<Message>, tools: Tools)
    requires RouteOk(s, route)
    requires route.kind != Append ==> LatestOf(s.steps, route.lineage).None?
    requires BuildPrompt(tk, s.steps, route, boundary, messages, tools).Some?
    ensures var p := BuildPrompt(tk, s.steps, route, boundary, messages, tools).value;
            if boundary || p.failed then p.delta == p.input
            else SegmentTokens(s.steps, route.lineage) + p.delta == p.input
  {
    if route.kind == Append {
      LatestIsAStep(s.steps, route.lineage);
    } else {
      UnknownLineageIsEmpty(s.steps, route.lineage);
    }
  }

  lemma MadeStepIsMasked(id: nat, route: Route, boundary: bool, p: Prompt, tools: Tools, g: Generation)
    ensures Masked(MakeStep(id, route, boundary, p, tools, g))
  {
  }

  lemma SegmentCompletes(segment: seq<Token>, p: Prompt, response: seq<Token>, starts: bool)
    requires if starts then p.delta == p.input else segment + p.delta == p.input
    ensures (if starts then p.delta + response else segment + (p.delta + response)) == p.input + response
  {
    assert segment + (p.delta + response) == segment + p.delta + response;
  }

  lemma MadeStepIsExact(steps: seq<Step>, id: nat, route: Route, boundary: bool, p: Prompt, tools: Tools, g: Generation)
    requires if boundary || p.failed then p.delta == p.input
             else SegmentTokens(steps, route.lineage) + p.delta == p.input
    ensures ExactAt(steps + [MakeStep(id, route, boundary, p, tools, g)], |steps|)
  {
    var step := MakeStep(id, route, boundary, p, tools, g);
    assert (steps + [step])[..|steps| + 1] == steps + [step];
    AppendedReads(steps, step, route.lineage);
    SegmentCompletes(SegmentTokens(steps, route.lineage), p, step.response, boundary || p.failed);
  }

  lemma RecordKeepsOld(steps: seq<Step>, step: Step)
    requires Chained(steps) && TokenExact(steps) && Extending(steps)
    requires var n := |steps|; var steps' := steps + [step];
             ChainedAt(steps', n) && ExactAt(steps', n) && ExtendsAt(steps', n)
    ensures Chained(steps + [step]) && TokenExact(steps + [step]) && Extending(steps + [step])
  {
    var steps' := steps + [step];
    forall i: nat | i < |steps'| ensures ChainedAt(steps', i) && ExactAt(steps', i) && ExtendsAt(steps', i) {
      if i < |steps| {
        assert steps'[..i] == steps[..i] && steps'[..i + 1] == steps[..i + 1];
        assert ChainedAt(steps, i) && ExactAt(steps, i) && ExtendsAt(steps, i);
      }
    }
  }

  lemma {:induction false} FoundBeforeLast(steps: seq<Step>, id: nat)
    requires StepById(steps, id).Some?
    ensures exists i | 0 <= i < |steps| :: steps[i].id == id
  {
    if steps[|steps| - 1].id != id {
      FoundBeforeLast(steps[..|steps| - 1], id);
      var i :| 0 <= i < |steps| - 1 && steps[..|steps| - 1][i].id == id;
      assert steps[i].id == id;
    }
  }

  /** A lineage's current segment is all its newest step saw and said. */
  lemma {:induction false} SegmentIsLatestStep(s: Session, lineage: nat)
    requires Ids(s) && TokenExact(s.steps) && LatestOf(s.steps, lineage).Some?
    ensures var latest := StepById(s.steps, LatestOf(s.steps, lineage).value);
            latest.Some? && latest.value.allTokens == SegmentTokens(s.steps, lineage)
    decreases |s.steps|
  {
    var n := |s.steps| - 1;
    if s.steps[n].lineage == lineage {
      assert s.steps[..n + 1] == s.steps;
      assert ExactAt(s.steps, n);
    } else {
      var before := s.(steps := s.steps[..n]);
      DroppingKeepsExact(s.steps);
      SegmentIsLatestStep(before, lineage);
      FoundBeforeLast(before.steps, LatestOf(before.steps, lineage).value);
    }
  }

  lemma DroppingKeepsExact(steps: seq<Step>)
    requires TokenExact(steps) && steps != []
    ensures TokenExact(steps[..|steps| - 1])
  {
    var before := steps[..|steps| - 1];
    forall i: nat | i < |before| ensures ExactAt(before, i) {
      assert ExactAt(steps, i);
      assert before[..i + 1] == steps[..i + 1];
    }
  }

  lemma BuiltPromptExtendsBase(tk: Tokenizer, s: Session, route: Route, boundary: bool,
                               messages: seq<Message>, tools: Tools)
    requires Inv(s) && RouteOk(s, route) && route.base.Some?
    requires BuildPrompt(tk, s.steps, route, boundary, messages, tools).Some?
    ensures var p := BuildPrompt(tk, s.steps, route, boundary, messages, tools).value;
            var base := StepById(s.steps, route.base.value);
            base.Some? && (boundary || p.failed || base.value.allTokens <= p.input)
  {
    if route.kind == Append {
      SegmentIsLatestStep(s, route.lineage);
    } else {
      SnapshotIsAll(s.steps, route.base.value);
    }
  }

  /**
    What a prompt is built from. With a base step that no boundary cuts off and added messages that tokenize,
    it is all the base saw and said, continued by the added messages; only otherwise is the conversation
    tokenized in full, and that counts as a failure exactly when there was such a base.
   */
  lemma PromptIsBuiltFrom(tk: Tokenizer, s: Session, route: Route, boundary: bool, messages: seq<Message>, tools: Tools)
    requires Inv(s) && RouteOk(s, route)
    ensures route.base.Some? ==> BaseOf(s.steps, route).Some?
    ensures var base, r := BaseOf(s.steps, route), BuildPrompt(tk, s.steps, route, boundary, messages, tools);
            if base.Some? && !boundary && tk.incremental(base.value.messages, messages, tools).Some?
            then
              && r.Some? && !r.value.failed
              && Continues(tk, base.value.allTokens, tk.incremental(base.value.messages, messages, tools).value,
                           r.value.input)
            else
              && (r.Some? <==> tk.full(messages, tools).Some?)
              && (r.Some? ==> r.value.input == tk.full(messages, tools).value
                              && (r.value.failed <==> base.Some? && !boundary))
  {
    if route.base.Some? {
      if route.kind == Append {
        SegmentIsLatestStep(s, route.lineage);
      } else {
        SnapshotIsAll(s.steps, route.base.value);
      }
    }
  }

  lemma {:induction false} SnapshotIsAll(steps: seq<Step>, id: nat)
    requires TokenExact(steps) && StepById(steps, id).Some?
    ensures StepById(steps, id).value.snapshotTokens == StepById(steps, id).value.allTokens
  {
    var n := |steps| - 1;
    if steps[n].id == id {
      assert ExactAt(steps, n);
    } else {
      DroppingKeepsExact(steps);
      SnapshotIsAll(steps[..n], id);
    }
  }

  lemma RecordKeepsRegistry(s: Session, step: Step)
    requires Ids(s) && Registered(s) && step.lineage < |s.lineages| && step.id > s.stepCounter
    ensures Ids(Record(s, step)) && Registered(Record(s, step))
  {
    var s' := Record(s, step);
    forall l | 0 <= l < |s'.lineages| ensures s'.lineages[l].latest == LatestOf(s'.steps, l) {
      AppendedReads(s.steps, step, l);
    }
  }

  lemma NewStepIsLinked(s: Session, route: Route, step: Step)
    requires RouteOk(s, route) && (route.kind != Append ==> LatestOf(s.steps, route.lineage).None?)
    requires step.lineage == route.lineage && step.kind == route.kind && step.base == route.base
    requires route.base.Some? && !step.boundary ==>
               var base := StepById(s.steps, route.base.value); base.Some? && base.value.allTokens <= step.prompt
    ensures ChainedAt(s.steps + [step], |s.steps|) && ExtendsAt(s.steps + [step], |s.steps|)
  {
    assert (s.steps + [step])[..|s.steps|] == s.steps;
  }

  /** The step goes after the recorded ones: linked, exact and masked. */
  ghost predicate Fits(steps: seq<Step>, step: Step) {
    var n, steps' := |steps|, steps + [step];
    ChainedAt(steps', n) && ExactAt(steps', n) && ExtendsAt(steps', n) && Masked(step)
  }

  lemma FittingStepKeepsInv(s: Session, step: Step)
    requires Inv(s) && step.lineage < |s.lineages| && step.id > s.stepCounter && Fits(s.steps, step)
    ensures Inv(Record(s, step))
  {
    RecordKeepsOld(s.steps, step);
    RecordKeepsRegistry(s, step);
  }

  lemma MadeStepFits(tk: Tokenizer, s: Session, route: Route, boundary: bool, messages: seq<Message>, tools: Tools,
                     g: Generation, id: nat)
    requires Inv(s) && RouteOk(s, route) && (route.kind != Append ==> LatestOf(s.steps, route.lineage).None?)
    requires BuildPrompt(tk, s.steps, route, boundary, messages, tools).Some?
    ensures var p := BuildPrompt(tk, s.steps, route, boundary, messages, tools).value;
            Fits(s.steps, MakeStep(id, route, boundary, p, tools, g))
  {
    var p := BuildPrompt(tk, s.steps, route, boundary, messages, tools).value;
    PromptContinuesSegment(tk, s, route, boundary, messages, tools);
    MadeStepIsExact(s.steps, id, route, boundary, p, tools, g);
    MadeStepIsMasked(id, route, boundary, p, tools, g);
    if route.base.Some? {
      BuiltPromptExtendsBase(tk, s, route, boundary, messages, tools);
    }
    NewStepIsLinked(s, route, MakeStep(id, route, boundary, p, tools, g));
  }

  /** Recording whatever the pipeline builds keeps the whole invariant. */
  lemma RecordKeepsInv(tk: Tokenizer, s: Session, route: Route, boundary: bool, messages: seq<Message>, tools: Tools,
                       g: Generation, id: nat)
    requires Inv(s) && RouteOk(s, route) && id > s.stepCounter
    requires BuildPrompt(tk, s.steps, route, boundary, messages, tools).Some?
    ensures var p := BuildPrompt(tk, s.steps, route, boundary, messages, tools).value;
            Inv(Record(OpenLineage(s, route), MakeStep(id, route, boundary, p, tools, g)))
  {
    var p := BuildPrompt(tk, s.steps, route, boundary, messages, tools).value;
    OpenKeepsInv(s, route);
    MadeStepFits(tk, s, route, boundary, messages, tools, g, id);
    FittingStepKeepsInv(OpenLineage(s, route), MakeStep(id, route, boundary, p, tools, g));
  }
}
