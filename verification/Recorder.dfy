/**
  Whole runs of one proxy session: every request is routed, tokenized, generated and recorded under the
  session's request lock (dressage/proxy/server.py:1988-2108 and 2390-2531).
 */
module Recorder {
  import opened Wrappers
  import opened Lineages
  import opened Routing

  /** `appendOnly` says whether the request continues the latest step's conversation. */
  datatype Request = Request(messages: seq<Message>, tools: Tools, appendOnly: bool)

  /**
    `generation` is None when the request fails after it was routed. `seen` is what the selection reads for
    the recorded steps; nothing below depends on its being fresh.
   */
  datatype Event = Event(request: Request, seen: Renderings, generation: Option<Generation>)

  datatype Routed = Routed(route: Route, renderFailed: bool)

  /** The selected route, or the safety reset when rendering failed. */
  ghost function RouteRequest(tp: Template, s: Session, r: Request, seen: Renderings): Routed {
    if Routable(tp, s, seen, r.messages, r.tools) then Routed(RouteFor(tp, s, seen, r.messages, r.tools), false)
    else if s.steps != [] && r.appendOnly then Routed(AppendTo(s, |s.steps| - 1), true)
    else Routed(Route(|s.lineages|, Create, None), true)
  }

  lemma RouteRequestIsOk(tp: Template, s: Session, r: Request, seen: Renderings)
    requires Inv(s)
    ensures RouteOk(s, RouteRequest(tp, s, r, seen).route)
  {
    if Routable(tp, s, seen, r.messages, r.tools) {
      RouteForIsOk(tp, s, seen, r.messages, r.tools);
    }
  }

  /** When rendering fails, a request that continues the newest step appends to it, and any other creates a lineage. */
  lemma ResetGoesOnFromNewest(tp: Template, s: Session, r: Request, seen: Renderings)
    requires Inv(s) && !Routable(tp, s, seen, r.messages, r.tools)
    ensures var routed := RouteRequest(tp, s, r, seen);
            && routed.renderFailed
            && if s.steps != [] && r.appendOnly
               then GoesOnFrom(s, routed.route, |s.steps| - 1) && routed.route.kind == Append
               else routed.route == Route(|s.lineages|, Create, None)
  {
  }

  /** Changed tools and failed rendering cut the lineage before the step. */
  function CutsBefore(tp: Template, s: Session, r: Request, routed: Routed): bool {
    var base := BaseOf(s.steps, routed.route);
    routed.renderFailed || (base.Some? && ToolsChanged(tp, base.value.tools, r.tools))
  }

  /** The session after a request that was routed to `routed`. */
  function Complete(tp: Template, tk: Tokenizer, s: Session, e: Event, routed: Routed): Session {
    var cut := CutsBefore(tp, s, e.request, routed);
    var prompt := BuildPrompt(tk, s.steps, routed.route, cut, e.request.messages, e.request.tools);
    if prompt.None? || e.generation.None? then OpenLineage(s, routed.route)
    else
      Record(OpenLineage(s, routed.route),
             MakeStep(s.stepCounter + 1, routed.route, cut, prompt.value, e.request.tools, e.generation.value))
  }

  ghost function Apply(tp: Template, tk: Tokenizer, s: Session, e: Event): (s': Session) {
    Complete(tp, tk, s, e, RouteRequest(tp, s, e.request, e.seen))
  }

  lemma CompleteKeepsInv(tp: Template, tk: Tokenizer, s: Session, e: Event, routed: Routed)
    requires Inv(s) && RouteOk(s, routed.route)
    ensures Inv(Complete(tp, tk, s, e, routed))
  {
    var cut := CutsBefore(tp, s, e.request, routed);
    var prompt := BuildPrompt(tk, s.steps, routed.route, cut, e.request.messages, e.request.tools);
    if prompt.Some? && e.generation.Some? {
      RecordKeepsInv(tk, s, routed.route, cut, e.request.messages, e.request.tools, e.generation.value,
                     s.stepCounter + 1);
      assert Complete(tp, tk, s, e, routed) ==
        Record(OpenLineage(s, routed.route),
               MakeStep(s.stepCounter + 1, routed.route, cut, prompt.value, e.request.tools, e.generation.value));
    } else {
      OpenKeepsInv(s, routed.route);
      assert Complete(tp, tk, s, e, routed) == OpenLineage(s, routed.route);
    }
  }

  lemma ApplyKeepsInv(tp: Template, tk: Tokenizer, s: Session, e: Event)
    requires Inv(s)
    ensures Inv(Apply(tp, tk, s, e))
  {
    var routed := RouteRequest(tp, s, e.request, e.seen);
    RouteRequestIsOk(tp, s, e.request, e.seen);
    CompleteKeepsInv(tp, tk, s, e, routed);
  }

  ghost function Run(tp: Template, tk: Tokenizer, s: Session, run: seq<Event>): Session
    decreases |run|
  {
    if run == [] then s else Run(tp, tk, Apply(tp, tk, s, run[0]), run[1..])
  }

  lemma {:induction false} RunKeepsInv(tp: Template, tk: Tokenizer, s: Session, run: seq<Event>)
    requires Inv(s)
    ensures Inv(Run(tp, tk, s, run))
    decreases |run|
  {
    if run != [] {
      ApplyKeepsInv(tp, tk, s, run[0]);
      RunKeepsInv(tp, tk, Apply(tp, tk, s, run[0]), run[1..]);
    }
  }

  ghost function Reached(tp: Template, tk: Tokenizer, run: seq<Event>): Session {
    Run(tp, tk, Empty, run)
  }

  /**
    In every reachable session and for every recorded step, the lineage's record since its last boundary
    is the prompt the model was given followed by the response it produced.
   */
  lemma RecordIsWhatTheModelSaw(tp: Template, tk: Tokenizer, run: seq<Event>, i: nat)
    requires i < |Reached(tp, tk, run).steps|
    ensures var steps := Reached(tp, tk, run).steps;
            && SegmentTokens(steps[..i + 1], steps[i].lineage) == steps[i].prompt + steps[i].response
            && steps[i].allTokens == steps[i].prompt + steps[i].response
  {
    RunKeepsInv(tp, tk, Empty, run);
    assert ExactAt(Reached(tp, tk, run).steps, i);
  }

  /** Steps of the same lineage with none of that lineage between them. */
  ghost predicate Neighbours(steps: seq<Step>, i: nat, j: nat) {
    && i < j < |steps|
    && steps[i].lineage == steps[j].lineage
    && forall k | i < k < j :: steps[k].lineage != steps[i].lineage
  }

  lemma {:induction false} LatestBetween(steps: seq<Step>, i: nat, j: nat)
    requires Neighbours(steps, i, j)
    ensures LatestOf(steps[..j], steps[i].lineage) == Some(steps[i].id)
  {
    LatestSkips(steps, i, j);
  }

  lemma {:induction false} LatestSkips(steps: seq<Step>, i: nat, j: nat)
    requires i < j <= |steps| && forall k | i < k < j :: steps[k].lineage != steps[i].lineage
    ensures LatestOf(steps[..j], steps[i].lineage) == Some(steps[i].id)
    decreases j
  {
    assert steps[..j][..j - 1] == steps[..j - 1];
    if i < j - 1 {
      LatestSkips(steps, i, j - 1);
    }
  }

  lemma {:induction false} FoundById(s: Session, i: nat, j: nat)
    requires Ids(s) && i < j <= |s.steps|
    ensures StepById(s.steps[..j], s.steps[i].id) == Some(s.steps[i])
    decreases j
  {
    assert s.steps[..j][..j - 1] == s.steps[..j - 1];
    if i < j - 1 {
      FoundById(s, i, j - 1);
    }
  }

  /**
    Each lineage is a chain: every step after its first appends to the one before it, and unless a boundary
    intervenes the earlier step's tokens are a prefix of the later prompt.
   */
  lemma LineageIsAChain(tp: Template, tk: Tokenizer, run: seq<Event>, i: nat, j: nat)
    requires Neighbours(Reached(tp, tk, run).steps, i, j)
    ensures var steps := Reached(tp, tk, run).steps;
            && steps[j].kind == Append && steps[j].base == Some(steps[i].id)
            && (steps[j].boundary || steps[i].allTokens <= steps[j].prompt)
  {
    RunKeepsInv(tp, tk, Empty, run);
    var s := Reached(tp, tk, run);
    LatestBetween(s.steps, i, j);
    FoundById(s, i, j);
    assert ChainedAt(s.steps, j) && ExtendsAt(s.steps, j);
  }

  /** The first step of a lineage is no append. */
  lemma LineageStartsFresh(tp: Template, tk: Tokenizer, run: seq<Event>, i: nat)
    requires i < |Reached(tp, tk, run).steps|
    requires var steps := Reached(tp, tk, run).steps; forall k | 0 <= k < i :: steps[k].lineage != steps[i].lineage
    ensures Reached(tp, tk, run).steps[i].kind != Append
  {
    RunKeepsInv(tp, tk, Empty, run);
    var steps := Reached(tp, tk, run).steps;
    UnregisteredHasNoSteps(steps[..i], steps[i].lineage);
    assert ChainedAt(steps, i);
  }

  lemma ApplyExtends(tp: Template, tk: Tokenizer, s: Session, e: Event)
    ensures s.steps <= Apply(tp, tk, s, e).steps
  {
  }

  /** Requests only ever add to a session: recorded steps never change. */
  lemma {:induction false} RecordedStepsStay(tp: Template, tk: Tokenizer, s: Session, run: seq<Event>)
    ensures s.steps <= Run(tp, tk, s, run).steps
    decreases |run|
  {
    if run != [] {
      ApplyExtends(tp, tk, s, run[0]);
      RecordedStepsStay(tp, tk, Apply(tp, tk, s, run[0]), run[1..]);
    }
  }

  // ------------------------------------------------------ one tool set a segment

  /** Unless a boundary cuts it off, a step was offered the tools its base step was offered. */
  ghost predicate SameToolsAt(tp: Template, steps: seq<Step>, i: nat)
    requires i < |steps|
  {
    var step := steps[i];
    !step.boundary && step.base.Some? ==>
      var base := StepById(steps[..i], step.base.value);
      base.Some? && !ToolsChanged(tp, base.value.tools, step.tools)
  }

  ghost predicate SameTools(tp: Template, steps: seq<Step>) {
    forall i: nat | i < |steps| :: SameToolsAt(tp, steps, i)
  }

  lemma SameToolsSnoc(tp: Template, steps: seq<Step>, step: Step)
    requires SameTools(tp, steps)
    requires !step.boundary && step.base.Some? ==>
               var base := StepById(steps, step.base.value);
               base.Some? && !ToolsChanged(tp, base.value.tools, step.tools)
    ensures SameTools(tp, steps + [step])
  {
    var steps' := steps + [step];
    forall i: nat | i < |steps'| ensures SameToolsAt(tp, steps', i) {
      assert steps'[..i] == steps[..i];
      if i < |steps| {
        assert SameToolsAt(tp, steps, i);
      } else {
        assert steps[..i] == steps;
      }
    }
  }

  lemma RoutedBaseIsFound(s: Session, route: Route)
    requires Inv(s) && RouteOk(s, route) && route.base.Some?
    ensures StepById(s.steps, route.base.value).Some?
  {
    if route.kind == Append {
      LatestIsAStep(s.steps, route.lineage);
    }
  }

  lemma CompleteKeepsTools(tp: Template, tk: Tokenizer, s: Session, e: Event, routed: Routed)
    requires Inv(s) && RouteOk(s, routed.route) && SameTools(tp, s.steps)
    ensures SameTools(tp, Complete(tp, tk, s, e, routed).steps)
  {
    var cut := CutsBefore(tp, s, e.request, routed);
    var prompt := BuildPrompt(tk, s.steps, routed.route, cut, e.request.messages, e.request.tools);
    if prompt.Some? && e.generation.Some? {
      if routed.route.base.Some? {
        RoutedBaseIsFound(s, routed.route);
      }
      SameToolsSnoc(tp, s.steps,
        MakeStep(s.stepCounter + 1, routed.route, cut, prompt.value, e.request.tools, e.generation.value));
    }
  }

  lemma {:induction false} RunKeepsTools(tp: Template, tk: Tokenizer, s: Session, run: seq<Event>)
    requires Inv(s) && SameTools(tp, s.steps)
    ensures SameTools(tp, Run(tp, tk, s, run).steps)
    decreases |run|
  {
    if run != [] {
      RouteRequestIsOk(tp, s, run[0].request, run[0].seen);
      CompleteKeepsTools(tp, tk, s, run[0], RouteRequest(tp, s, run[0].request, run[0].seen));
      ApplyKeepsInv(tp, tk, s, run[0]);
      RunKeepsTools(tp, tk, Apply(tp, tk, s, run[0]), run[1..]);
    }
  }

  /** Neighbouring steps of a lineage with no boundary between them were offered the same tools. */
  lemma SegmentHasOneToolSet(tp: Template, tk: Tokenizer, run: seq<Event>, i: nat, j: nat)
    requires Neighbours(Reached(tp, tk, run).steps, i, j) && !Reached(tp, tk, run).steps[j].boundary
    ensures var steps := Reached(tp, tk, run).steps; !ToolsChanged(tp, steps[i].tools, steps[j].tools)
  {
    var s := Reached(tp, tk, run);
    RunKeepsInv(tp, tk, Empty, run);
    RunKeepsTools(tp, tk, Empty, run);
    LineageIsAChain(tp, tk, run, i, j);
    FoundById(s, i, j);
    assert SameToolsAt(tp, s.steps, j);
  }

  // -------------------------------------------------- what a step adds to its lineage

  /** The tokens its lineage's segment held before step `i`; none when it starts a segment. */
  function PrefixCount(steps: seq<Step>, i: nat): nat
    requires i < |steps|
  {
    var step := steps[i];
    if step.kind != Append || step.boundary then 0 else |SegmentTokens(steps[..i], step.lineage)|
  }

  /**
    The segment before a step and what the step records make up the whole generation, so the rows the
    server asks for lie inside the rows the generation's chunks tile and end where they end.
   */
  lemma StepCompletesGeneration(tp: Template, tk: Tokenizer, run: seq<Event>, i: nat)
    requires i < |Reached(tp, tk, run).steps|
    ensures var steps := Reached(tp, tk, run).steps;
            PrefixCount(steps, i) + |steps[i].concatTokens| == |steps[i].prompt| + |steps[i].response|
  {
    var steps := Reached(tp, tk, run).steps;
    RunKeepsInv(tp, tk, Empty, run);
    StepAddsTheRest(steps, i);
  }

  lemma StepAddsTheRest(steps: seq<Step>, i: nat)
    requires Chained(steps) && TokenExact(steps) && i < |steps|
    ensures PrefixCount(steps, i) + |steps[i].concatTokens| == |steps[i].prompt| + |steps[i].response|
  {
    assert ExactAt(steps, i) && ChainedAt(steps, i);
    assert steps[..i + 1] == steps[..i] + [steps[i]];
    AppendedReads(steps[..i], steps[i], steps[i].lineage);
    if steps[i].kind != Append {
      UnknownLineageIsEmpty(steps[..i], steps[i].lineage);
    }
  }

  // --------------------------------------------------- when remembering shows

  /** The session after its first request. */
  lemma AfterFirstRequest(tp: Template, tk: Tokenizer, r: Request, g: Generation)
    requires tp.render(r.messages, r.tools, true).Some? && tk.full(r.messages, r.tools).Some?
    ensures var s := Apply(tp, tk, Empty, Event(r, [], Some(g)));
            && |s.steps| == |s.lineages| == 1 && IsLatest(s, 0)
            && s.steps[0].messages == g.messages && s.steps[0].tools == r.tools
  {
    assert Routable(tp, Empty, [], r.messages, r.tools);
    assert RouteFor(tp, Empty, [], r.messages, r.tools) == Route(0, Create, None);
  }

  function Printed(tools: Tools): string {
    if tools.Some? && |tools.value| == 1 then tools.value[0] else ""
  }

  function Text(messages: seq<Message>): string {
    if messages == [] then "" else messages[0] + Text(messages[1..])
  }

  lemma {:induction false} TextExtends(a: seq<Message>, b: seq<Message>)
    ensures Text(a) <= Text(a + b)
  {
    if a != [] {
      assert (a + b)[1..] == a[1..] + b;
      TextExtends(a[1..], b);
    }
  }

  /** A template that prints the tools as they came and then the conversation. */
  function PrintingTemplate(key: Tools -> string): Template {
    Template((m, t, g) => Some(Printed(t) + Text(m)), key)
  }

  /**
    Two requests of one conversation whose tools differ only in how they are written, `a` and `b`, under any
    key that gives both the same: the second opens a lineage of its own because of the remembered rendering,
    where a fresh one would append.
   */
  lemma RewrittenToolsSplitTheLineage(tk: Tokenizer, key: Tools -> string, first: seq<Message>, g: Generation,
                                      more: seq<Message>, a: string, b: string)
    requires tk.full(first, Some([a])).Some? && |a| == |b| && a != b && key(Some([a])) == key(Some([b]))
    ensures var tp := PrintingTemplate(key);
            var s := Apply(tp, tk, Empty, Event(Request(first, Some([a]), true), [], Some(g)));
            var request := g.messages + more;
            |s.steps| == 1 &&
            var stale := CachedRenderings(tp, s, [Remember(tp, s.steps[0].messages, s.steps[0].tools)], Some([b]));
            var current := FreshRenderings(tp, s, Some([b]));
            && Routable(tp, s, stale, request, Some([b])) && Routable(tp, s, current, request, Some([b]))
            && RouteFor(tp, s, stale, request, Some([b])).kind == Create
            && RouteFor(tp, s, current, request, Some([b])).kind == Append
  {
    var tp := PrintingTemplate(key);
    var s := Apply(tp, tk, Empty, Event(Request(first, Some([a]), true), [], Some(g)));
    AfterFirstRequest(tp, tk, Request(first, Some([a]), true), g);
    TextExtends(g.messages, more);
    assert b + Text(g.messages) <= b + Text(g.messages + more);
    assert (a + Text(g.messages))[..|a|] == a && (b + Text(g.messages + more))[..|b|] == b;
    StaleRenderingOpensLineage(tp, s, g.messages + more, Some([b]));
  }
}
