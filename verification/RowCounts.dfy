/**
  Routed-expert rows over whole sessions (dressage/proxy/server.py:1267-1275, 2446-2464): the targets of a
  segment's steps follow one another over its rows. The row counts are right whenever the tokenizer never
  renders a conversation to no token, and a session shows what happens when it does.
 */
module RowCounts {
  import opened Wrappers
  import opened Lineages
  import opened Routing
  import opened Recorder
  import opened Segments
  import RoutedExperts

  ghost predicate FullNeverEmpty(tk: Tokenizer) {
    forall m, t :: tk.full(m, t) != Some([])
  }

  predicate Prompted(steps: seq<Step>) {
    forall i | 0 <= i < |steps| :: |steps[i].prompt| > 0
  }

  lemma {:induction false} FoundIsPrompted(steps: seq<Step>, id: nat)
    requires TokenExact(steps) && Prompted(steps) && StepById(steps, id).Some?
    ensures |StepById(steps, id).value.allTokens| > 0
  {
    var n := |steps| - 1;
    if steps[n].id == id {
      assert ExactAt(steps, n);
    } else {
      DroppingKeepsExact(steps);
      FoundIsPrompted(steps[..n], id);
    }
  }

  lemma PromptIsNonempty(tk: Tokenizer, s: Session, route: Route, cut: bool, messages: seq<Message>, tools: Tools)
    requires Inv(s) && RouteOk(s, route) && FullNeverEmpty(tk) && Prompted(s.steps)
    requires BuildPrompt(tk, s.steps, route, cut, messages, tools).Some?
    ensures |BuildPrompt(tk, s.steps, route, cut, messages, tools).value.input| > 0
  {
    assert tk.full(messages, tools) != Some([]);
    if route.base.Some? {
      BuiltPromptExtendsBase(tk, s, route, cut, messages, tools);
      FoundIsPrompted(s.steps, route.base.value);
    }
  }

  lemma CompleteKeepsPrompted(tp: Template, tk: Tokenizer, s: Session, e: Event, routed: Routed)
    requires Inv(s) && RouteOk(s, routed.route) && FullNeverEmpty(tk) && Prompted(s.steps)
    ensures Prompted(Complete(tp, tk, s, e, routed).steps)
  {
    var cut := CutsBefore(tp, s, e.request, routed);
    if BuildPrompt(tk, s.steps, routed.route, cut, e.request.messages, e.request.tools).Some? {
      PromptIsNonempty(tk, s, routed.route, cut, e.request.messages, e.request.tools);
    }
  }

  lemma {:induction false} RunKeepsPrompted(tp: Template, tk: Tokenizer, s: Session, run: seq<Event>)
    requires Inv(s) && FullNeverEmpty(tk) && Prompted(s.steps)
    ensures Prompted(Run(tp, tk, s, run).steps)
    decreases |run|
  {
    if run != [] {
      RouteRequestIsOk(tp, s, run[0].request, run[0].seen);
      CompleteKeepsPrompted(tp, tk, s, run[0], RouteRequest(tp, s, run[0].request, run[0].seen));
      ApplyKeepsInv(tp, tk, s, run[0]);
      RunKeepsPrompted(tp, tk, Apply(tp, tk, s, run[0]), run[1..]);
    }
  }

  lemma OpeningRecords(steps: seq<Step>, i: nat)
    requires Chained(steps) && TokenExact(steps) && Prompted(steps) && i < |steps|
    requires steps[i].kind != Append || steps[i].boundary
    ensures |steps[i].concatTokens| > 0
  {
    StepAddsTheRest(steps, i);
  }

  lemma OpeningInSession(s: Session, k: nat)
    requires Inv(s) && Prompted(s.steps) && k < |LineageSegments(s)|
    ensures |LineageSegments(s)[k][0].concatTokens| > 0
  {
    var g := LineageSegments(s)[k];
    SegmentsOpenOnce(s.steps, |s.lineages|);
    SegmentsDrawn(s.steps, |s.lineages|);
    assert OneOpening(g) && LineageSegments(s)[k][0] in s.steps;
    var i :| 0 <= i < |s.steps| && s.steps[i] == g[0];
    OpeningRecords(s.steps, i);
  }

  /** For every segment of every reached session, the row counts sum to the token count minus one. */
  lemma SegmentRowsAreTokensMinusOne(tp: Template, tk: Tokenizer, run: seq<Event>, k: nat)
    requires FullNeverEmpty(tk) && k < |LineageSegments(Reached(tp, tk, run))|
    ensures var g := LineageSegments(Reached(tp, tk, run))[k];
            RowsOf(g) == |RecordOf(g).tokens| - 1
  {
    var s := Reached(tp, tk, run);
    RunKeepsInv(tp, tk, Empty, run);
    RunKeepsPrompted(tp, tk, Empty, run);
    OpeningInSession(s, k);
    SegmentRowCounts(s, k);
    FlatStarts(LineageSegments(s)[k]);
  }

  lemma {:induction false} KnownLineageHasTokens(steps: seq<Step>, lineage: nat)
    requires TokenExact(steps) && Prompted(steps) && LatestOf(steps, lineage).Some?
    ensures |SegmentTokens(steps, lineage)| > 0
  {
    var n := |steps| - 1;
    if steps[n].lineage == lineage {
      NewestIsExact(steps);
      assert ExactAt(steps, n);
    } else {
      DroppingKeepsExact(steps);
      KnownLineageHasTokens(steps[..n], lineage);
    }
  }

  lemma {:induction false} PrefixKeepsExact(steps: seq<Step>, i: nat)
    requires TokenExact(steps) && i <= |steps|
    ensures TokenExact(steps[..i])
  {
    forall j: nat | j < i ensures ExactAt(steps[..i], j) {
      assert ExactAt(steps, j);
      assert steps[..i][..j + 1] == steps[..j + 1];
    }
  }

  /** For every step of every reached session, the rows recorded with it are the rows counted for it. */
  lemma StepRowsAreCounted(tp: Template, tk: Tokenizer, run: seq<Event>, i: nat)
    requires FullNeverEmpty(tk) && i < |Reached(tp, tk, run).steps|
    ensures var steps := Reached(tp, tk, run).steps;
            RoutedExperts.TargetCount(PrefixCount(steps, i), |steps[i].concatTokens|) == StepRows(steps[i])
  {
    var steps := Reached(tp, tk, run).steps;
    RunKeepsInv(tp, tk, Empty, run);
    RunKeepsPrompted(tp, tk, Empty, run);
    assert ChainedAt(steps, i);
    if steps[i].kind == Append {
      PrefixKeepsExact(steps, i);
      KnownLineageHasTokens(steps[..i], steps[i].lineage);
    }
    RecordedRowsAreCounted(steps[i], PrefixCount(steps, i));
  }

  // ------------------------------------------------------ the targets of a segment

  /** The previous_prefix_count of a step is what its segment recorded before it. */
  lemma PrefixIsRecordedBefore(s: Session, k: nat, a: nat, i: nat)
    requires Inv(s) && k < |LineageSegments(s)| && a < |LineageSegments(s)[k]|
    requires i < |s.steps| && s.steps[i] == LineageSegments(s)[k][a]
    ensures var g := LineageSegments(s)[k];
            && PrefixCount(s.steps, i) == |Flat(g[..a])|
            && PrefixCount(s.steps, i) + |g[a].concatTokens| == |Flat(g[..a + 1])|
  {
    var g := LineageSegments(s)[k];
    SegmentTokensAreSteps(s);
    assert ExactThroughout(g) && EndsExactly(g[..a + 1]);
    assert ExactAt(s.steps, i);
    StepAddsTheRest(s.steps, i);
    OneStepMore(g, a);
  }

  /** The first row of the target of step i, and the row after its last. */
  function TargetFrom(steps: seq<Step>, i: nat): nat
    requires i < |steps|
  {
    RoutedExperts.TargetStart(PrefixCount(steps, i))
  }

  function TargetUntil(steps: seq<Step>, i: nat): nat
    requires i < |steps|
  {
    TargetFrom(steps, i) + RoutedExperts.TargetCount(PrefixCount(steps, i), |steps[i].concatTokens|)
  }

  /** In every segment of every reached session each step's target starts where the one before it ends. */
  lemma TargetsAreAdjacent(tp: Template, tk: Tokenizer, run: seq<Event>, k: nat, a: nat, i: nat, j: nat)
    requires k < |LineageSegments(Reached(tp, tk, run))| && a + 1 < |LineageSegments(Reached(tp, tk, run))[k]|
    requires var s := Reached(tp, tk, run); i < |s.steps| && s.steps[i] == LineageSegments(s)[k][a]
    requires var s := Reached(tp, tk, run); j < |s.steps| && s.steps[j] == LineageSegments(s)[k][a + 1]
    ensures var steps := Reached(tp, tk, run).steps; TargetFrom(steps, j) == TargetUntil(steps, i)
  {
    RunKeepsInv(tp, tk, Empty, run);
    PrefixIsRecordedBefore(Reached(tp, tk, run), k, a, i);
    PrefixIsRecordedBefore(Reached(tp, tk, run), k, a + 1, j);
  }

  /** The first target starts at row 0 and the last ends one row short of the record's tokens. */
  lemma TargetsSpanTheRecord(tp: Template, tk: Tokenizer, run: seq<Event>, k: nat, i: nat, j: nat)
    requires k < |LineageSegments(Reached(tp, tk, run))|
    requires var s := Reached(tp, tk, run); i < |s.steps| && s.steps[i] == LineageSegments(s)[k][0]
    requires var s := Reached(tp, tk, run);
             var g := LineageSegments(s)[k]; j < |s.steps| && s.steps[j] == g[|g| - 1]
    ensures var s := Reached(tp, tk, run);
            var rows := |RecordOf(LineageSegments(s)[k]).tokens| - 1;
            TargetFrom(s.steps, i) == 0 && TargetUntil(s.steps, j) == if rows < 0 then 0 else rows
  {
    var s := Reached(tp, tk, run);
    var g := LineageSegments(s)[k];
    RunKeepsInv(tp, tk, Empty, run);
    PrefixIsRecordedBefore(s, k, 0, i);
    PrefixIsRecordedBefore(s, k, |g| - 1, j);
    assert g[..|g| - 1 + 1] == g;
  }

  // ------------------------------------------------------------ an empty prompt

  /** A template that renders everything to nothing, so every request continues the newest step. */
  function BlankTemplate(): Template {
    Template((m, t, g) => Some(""), t => "")
  }

  /** A tokenizer that gives a whole conversation no token and each addition one. */
  function EmptyTokenizer(): Tokenizer {
    Tokenizer((m, t) => Some([]), (a, b, t) => Some([7]), None, None)
  }

  const Silence := Generation([], [], false, [""])

  const Ask := Request([""], None, true)

  const FirstStep := MakeStep(1, Route(0, Create, None), false, Prompt([], [], false), None, Silence)
  const SecondStep := MakeStep(2, Route(0, Append, Some(1)), false, Prompt([7], [7], false), None, Silence)

  lemma FirstIsEmpty()
    ensures Apply(BlankTemplate(), EmptyTokenizer(), Empty, Event(Ask, [], Some(Silence)))
         == Session([FirstStep], [Lineage(Some(1), None)], 1)
  {
    var tp := BlankTemplate();
    assert Routable(tp, Empty, [], Ask.messages, Ask.tools);
    assert RouteFor(tp, Empty, [], Ask.messages, Ask.tools) == Route(0, Create, None);
  }

  lemma SecondAppends(s: Session)
    requires s == Session([FirstStep], [Lineage(Some(1), None)], 1)
    ensures Apply(BlankTemplate(), EmptyTokenizer(), s, Event(Ask, [Some("")], Some(Silence))).steps
         == [FirstStep, SecondStep]
    ensures |Apply(BlankTemplate(), EmptyTokenizer(), s, Event(Ask, [Some("")], Some(Silence))).lineages| == 1
  {
    var tp := BlankTemplate();
    var seen: Renderings := [Some("")];
    assert Routable(tp, s, seen, Ask.messages, Ask.tools);
    ChoiceIsLongestPrefix(tp, s, seen, Ask.messages, Ask.tools, 0);
    assert RouteFor(tp, s, seen, Ask.messages, Ask.tools) == Route(0, Append, Some(1));
    SegmentOfFirst();
    assert StepById(s.steps, 1) == Some(FirstStep);
    assert BuildPrompt(EmptyTokenizer(), s.steps, Route(0, Append, Some(1)), false, Ask.messages, Ask.tools)
        == Some(Prompt([7], [7], false));
  }

  lemma SegmentOfFirst()
    ensures SegmentTokens([FirstStep], 0) == []
  {
    assert [FirstStep][..0] == [];
  }

  lemma CutOfTwo(a: Step, b: Step)
    requires a.lineage == b.lineage == 0 && !a.boundary && !b.boundary
    ensures SegmentsUpTo([a, b], 1) == [[a, b]]
  {
    assert [a, b][..1] == [a] && [a][..0] == [];
    assert LineageSteps([a], 0) == [a];
    assert LineageSteps([a, b], 0) == [a] + [b] == [a, b];
    assert CutUp([a]) == Cut([], [] + [a]);
    assert CutUp([a, b]) == Cut([], [a] + [b]);
    assert SegmentsUpTo([a, b], 1) == [] + Groups([a, b]);
  }

  lemma RowsOfTwo(a: Step, b: Step)
    ensures RowsOf([a, b]) == StepRows(a) + StepRows(b) && Flat([a, b]) == a.concatTokens + b.concatTokens
  {
    assert [a, b][..1] == [a] && [a][..0] == [];
    assert [] + a.concatTokens == a.concatTokens;
    assert RowsOf([a]) == RowsOf([]) + StepRows(a) && Flat([a]) == Flat([]) + a.concatTokens;
    assert RowsOf([a, b]) == RowsOf([a]) + StepRows(b) && Flat([a, b]) == Flat([a]) + b.concatTokens;
  }

  const SilentRun := [Event(Ask, [], Some(Silence)), Event(Ask, [Some("")], Some(Silence))]

  /** The session both requests lead to. */
  lemma SilentSession()
    ensures var s := Reached(BlankTemplate(), EmptyTokenizer(), SilentRun);
            s.steps == [FirstStep, SecondStep] && |s.lineages| == 1
  {
    var tp, tk := BlankTemplate(), EmptyTokenizer();
    var e1, e2 := Event(Ask, [], Some(Silence)), Event(Ask, [Some("")], Some(Silence));
    FirstIsEmpty();
    var s1 := Apply(tp, tk, Empty, e1);
    SecondAppends(s1);
    TwoEvents(tp, tk, e1, e2);
  }

  lemma TwoEvents(tp: Template, tk: Tokenizer, e1: Event, e2: Event)
    ensures Reached(tp, tk, [e1, e2]) == Apply(tp, tk, Apply(tp, tk, Empty, e1), e2)
  {
    var s1 := Apply(tp, tk, Empty, e1);
    assert [e1, e2][1..] == [e2] && [e2][1..] == [];
    assert Run(tp, tk, s1, [e2]) == Run(tp, tk, Apply(tp, tk, s1, e2), []);
  }

  lemma SilentSteps()
    ensures FirstStep.lineage == SecondStep.lineage == 0 && !FirstStep.boundary && !SecondStep.boundary
    ensures FirstStep.concatTokens == [] && SecondStep.concatTokens == [7]
    ensures StepRows(FirstStep) == 0 && StepRows(SecondStep) == 1 && SecondStep.kind == Append
  {
  }

  /** A segment of one token has no row, but one row is counted. */
  lemma SilentSegmentMiscounts()
    ensures |RecordOf([FirstStep, SecondStep]).tokens| == 1 && RowsOf([FirstStep, SecondStep]) == 1
  {
    SilentSteps();
    RowsOfTwo(FirstStep, SecondStep);
  }

  /** The step that continues it records no row where one is counted. */
  lemma SilentStepMiscounts()
    ensures PrefixCount([FirstStep, SecondStep], 1) == 0
    ensures RoutedExperts.TargetCount(0, |SecondStep.concatTokens|) == 0 != StepRows(SecondStep)
  {
    SilentSteps();
    SegmentOfFirst();
    assert [FirstStep, SecondStep][..1] == [FirstStep];
  }

  /**
    A reached session whose first step records no token: the segment has one token, so no row, but one row
    is counted; and the step that continues it records no row where one is counted.
   */
  lemma EmptyPromptMiscounts()
    ensures var s := Reached(BlankTemplate(), EmptyTokenizer(), SilentRun);
            && LineageSegments(s) == [s.steps]
            && RowsOf(s.steps) != |RecordOf(s.steps).tokens| - 1
            && |s.steps| == 2
            && RoutedExperts.TargetCount(PrefixCount(s.steps, 1), |s.steps[1].concatTokens|) != StepRows(s.steps[1])
  {
    SilentSession();
    SilentSteps();
    CutOfTwo(FirstStep, SecondStep);
    SilentSegmentMiscounts();
    SilentStepMiscounts();
  }
}
