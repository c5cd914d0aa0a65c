/**
  Converting a stream of OpenAI chat chunks into Anthropic message events
  (blackbox_server/proxy/rollout_llm_proxy.py:2137-2193, 3088-3097, 3131-3252).

  A payload is already parsed; absent and empty strings are the same here, as the source tests them.
 */
module AnthropicStream {
  import opened Wrappers
  import opened Sequences
  import opened Strings

  datatype Kind = Text | Thinking | Tool(toolIndex: int)

  datatype ToolDelta = ToolDelta(toolIndex: int, id: string, name: string, arguments: string)

  datatype Payload =
    | Done
    | Malformed
    | Chunk(reasoning: string, content: string, tools: seq<ToolDelta>, finish: Option<string>, outputTokens: nat)

  datatype Event =
    | MessageStart
    | BlockStart(index: nat, kind: Kind, id: string, name: string)
    | BlockDelta(index: nat, kind: Kind, text: string)
    | BlockStop(index: nat)
    | MessageDelta(stopReason: string, outputTokens: nat)
    | MessageStop

  // -------------------------------------------------- what a well-formed stream is

  /** The consumer's view: the open block, how many were opened, and how far the message has ended. */
  datatype Reader = Reader(started: bool, open: Option<(nat, Kind)>, count: nat, ended: bool, stopped: bool)

  function Accept(r: Reader, e: Event): Option<Reader> {
    if r.stopped then None
    else if !r.started then (if e.MessageStart? then Some(r.(started := true)) else None)
    else
      match e
      case MessageStart => None
      case BlockStart(index, kind, _, _) =>
        if !r.ended && r.open.None? && index == r.count
        then Some(r.(open := Some((index, kind)), count := r.count + 1)) else None
      case BlockDelta(index, kind, _) =>
        if !r.ended && r.open == Some((index, kind)) then Some(r) else None
      case BlockStop(index) =>
        if !r.ended && r.open.Some? && r.open.value.0 == index then Some(r.(open := None)) else None
      case MessageDelta(_, _) =>
        if !r.ended && r.open.None? then Some(r.(ended := true)) else None
      case MessageStop =>
        if r.ended then Some(r.(stopped := true)) else None
  }

  function AcceptAll(r: Reader, events: seq<Event>): Option<Reader>
    decreases |events|
  {
    if events == [] then Some(r)
    else
      match Accept(r, events[0])
      case None => None
      case Some(next) => AcceptAll(next, events[1..])
  }

  const NewReader := Reader(false, None, 0, false, false)

  /**
    One start event first; blocks numbered 0, 1, 2, ..., each opened once and closed once, at most one
    open at a time and every delta for the open one; then one message delta and one stop, and no more.
   */
  predicate WellFormed(events: seq<Event>) {
    var r := AcceptAll(NewReader, events);
    r.Some? && r.value.stopped
  }

  // ------------------------------------------------------------- the translator

  datatype Item = Words(kind: Kind, text: string) | Call(delta: ToolDelta)

  datatype State = State(active: Option<(nat, Kind)>, next: nat, blocks: map<int, nat>)

  datatype Out = Out(events: seq<Event>, state: State)

  const Initial := State(None, 0, map[])

  function StopActive(s: State): Out {
    if s.active.None? then Out([], s) else Out([BlockStop(s.active.value.0)], s.(active := None))
  }

  function Open(s: State, kind: Kind, id: string, name: string): Out {
    var stopped := StopActive(s);
    Out(stopped.events + [BlockStart(s.next, kind, id, name)],
        stopped.state.(active := Some((s.next, kind)), next := s.next + 1))
  }

  function EmitWords(s: State, kind: Kind, text: string): Out {
    var ready := if s.active.Some? && s.active.value.1 == kind then Out([], s) else Open(s, kind, "", "");
    Out(ready.events + [BlockDelta(ready.state.active.value.0, kind, text)], ready.state)
  }

  /** The first delta of a tool call opens its block. */
  function ReadyFor(s: State, d: ToolDelta): (o: Out)
    ensures d.toolIndex in o.state.blocks
  {
    var t := d.toolIndex;
    if t in s.blocks then Out([], s)
    else
      var o := Open(s, Tool(t), if d.id != "" then d.id else "toolu_" + Decimal(t),
                    if d.name != "" then d.name else "tool");
      Out(o.events, o.state.(blocks := s.blocks[t := s.next]))
  }

  function EmitCall(s: State, d: ToolDelta): Out {
    var ready := ReadyFor(s, d);
    Out(ready.events + ArgumentDelta(ready.state.blocks[d.toolIndex], d), ready.state)
  }

  function ArgumentDelta(block: nat, d: ToolDelta): seq<Event> {
    if d.arguments != "" then [BlockDelta(block, Tool(d.toolIndex), d.arguments)] else []
  }

  function Emit(s: State, item: Item): Out {
    match item
    case Words(kind, text) => EmitWords(s, kind, text)
    case Call(d) => EmitCall(s, d)
  }

  function EmitAll(s: State, items: seq<Item>): Out
    decreases |items|
  {
    if items == [] then Out([], s)
    else
      var first := Emit(s, items[0]);
      var rest := EmitAll(first.state, items[1..]);
      Out(first.events + rest.events, rest.state)
  }

  function CallItems(ds: seq<ToolDelta>): (r: seq<Item>)
    ensures |r| == |ds| && forall i | 0 <= i < |ds| :: r[i] == Call(ds[i])
  {
    seq(|ds|, i requires 0 <= i < |ds| => Call(ds[i]))
  }

  function ItemsOf(p: Payload): seq<Item>
    requires p.Chunk?
  {
    (if p.reasoning != "" then [Words(Thinking, p.reasoning)] else [])
    + (if p.content != "" then [Words(Text, p.content)] else [])
    + CallItems(p.tools)
  }

  /** Everything that is said before the first finish reason or end marker. */
  function Items(ps: seq<Payload>): seq<Item> {
    if ps == [] || ps[0].Done? then []
    else if ps[0].Malformed? then Items(ps[1..])
    else ItemsOf(ps[0]) + if ps[0].finish.Some? then [] else Items(ps[1..])
  }

  function StopReason(finish: string): string {
    if finish == "" || finish == "stop" then "end_turn"
    else if finish == "length" then "max_tokens"
    else if finish == "tool_calls" then "tool_use"
    else finish
  }

  function Ending(ps: seq<Payload>): (string, nat) {
    if ps == [] || ps[0].Done? then ("end_turn", 0)
    else if ps[0].Chunk? && ps[0].finish.Some? then (StopReason(ps[0].finish.value), ps[0].outputTokens)
    else Ending(ps[1..])
  }

  function Finish(s: State, ending: (string, nat)): seq<Event> {
    StopActive(s).events + [MessageDelta(ending.0, ending.1), MessageStop]
  }

  function Translate(ps: seq<Payload>): seq<Event> {
    var out := EmitAll(Initial, Items(ps));
    [MessageStart] + out.events + Finish(out.state, Ending(ps))
  }

  // ------------------------------------------------------------- well-formedness

  /** The reader that has followed the translator so far. */
  function ReaderOf(s: State): Reader {
    Reader(true, s.active, s.next, false, false)
  }

  lemma {:induction false} AcceptConcat(r: Reader, a: seq<Event>, b: seq<Event>)
    ensures AcceptAll(r, a + b) ==
            if AcceptAll(r, a).None? then None else AcceptAll(AcceptAll(r, a).value, b)
    decreases |a|
  {
    if a == [] {
      assert a + b == b;
    } else {
      assert (a + b)[1..] == a[1..] + b;
      var next := Accept(r, a[0]);
      if next.Some? {
        AcceptConcat(next.value, a[1..], b);
      }
    }
  }

  lemma AcceptOne(r: Reader, e: Event)
    ensures AcceptAll(r, [e]) == Accept(r, e)
  {
  }

  lemma StopIsAccepted(s: State)
    ensures AcceptAll(ReaderOf(s), StopActive(s).events) == Some(ReaderOf(StopActive(s).state))
  {
    if s.active.Some? {
      AcceptOne(ReaderOf(s), BlockStop(s.active.value.0));
    }
  }

  lemma OpenIsAccepted(s: State, kind: Kind, id: string, name: string)
    ensures AcceptAll(ReaderOf(s), Open(s, kind, id, name).events) == Some(ReaderOf(Open(s, kind, id, name).state))
  {
    var stopped := StopActive(s);
    StopIsAccepted(s);
    AcceptConcat(ReaderOf(s), stopped.events, [BlockStart(s.next, kind, id, name)]);
    AcceptOne(ReaderOf(stopped.state), BlockStart(s.next, kind, id, name));
  }

  lemma WordsAreAccepted(s: State, kind: Kind, text: string)
    ensures AcceptAll(ReaderOf(s), EmitWords(s, kind, text).events) == Some(ReaderOf(EmitWords(s, kind, text).state))
  {
    var ready := if s.active.Some? && s.active.value.1 == kind then Out([], s) else Open(s, kind, "", "");
    var delta := BlockDelta(ready.state.active.value.0, kind, text);
    OpenIsAccepted(s, kind, "", "");
    AcceptConcat(ReaderOf(s), ready.events, [delta]);
    AcceptOne(ReaderOf(ready.state), delta);
  }

  /** Every known tool index has a block of its own, numbered below the next. */
  ghost predicate BlocksOk(s: State) {
    && (forall t | t in s.blocks :: s.blocks[t] < s.next)
    && (forall t, u | t in s.blocks && u in s.blocks && s.blocks[t] == s.blocks[u] :: t == u)
    && (s.active.Some? ==> s.active.value.0 < s.next)
    && (s.active.Some? && s.active.value.1.Tool? ==>
          s.active.value.1.toolIndex in s.blocks && s.blocks[s.active.value.1.toolIndex] == s.active.value.0)
    && (s.active.Some? && !s.active.value.1.Tool? ==> forall t | t in s.blocks :: s.blocks[t] != s.active.value.0)
  }

  lemma EmitKeepsBlocks(s: State, item: Item)
    requires BlocksOk(s) && (item.Words? ==> !item.kind.Tool?)
    ensures BlocksOk(Emit(s, item).state)
  {
  }

  /** The item adds to the block that is open, or opens one. */
  predicate Fits(s: State, item: Item) {
    item.Call? && item.delta.arguments != "" && item.delta.toolIndex in s.blocks ==>
      s.active.Some? && s.active.value.1 == Tool(item.delta.toolIndex)
  }

  lemma CallIsAcceptedIfItFits(s: State, d: ToolDelta)
    requires BlocksOk(s)
    ensures AcceptAll(ReaderOf(s), EmitCall(s, d).events) ==
            if Fits(s, Call(d)) then Some(ReaderOf(EmitCall(s, d).state)) else None
  {
    var t := d.toolIndex;
    var out := EmitCall(s, d);
    if t in s.blocks {
      var delta := BlockDelta(s.blocks[t], Tool(t), d.arguments);
      AcceptOne(ReaderOf(s), delta);
      assert [] + [delta] == [delta];
    } else {
      var id, name := if d.id != "" then d.id else "toolu_" + Decimal(t), if d.name != "" then d.name else "tool";
      OpenIsAccepted(s, Tool(t), id, name);
      var delta := BlockDelta(s.next, Tool(t), d.arguments);
      AcceptConcat(ReaderOf(s), Open(s, Tool(t), id, name).events, [delta]);
      AcceptOne(ReaderOf(out.state), delta);
      assert Open(s, Tool(t), id, name).events + [] == Open(s, Tool(t), id, name).events;
    }
  }

  lemma EmitIsAcceptedIfItFits(s: State, item: Item)
    requires BlocksOk(s)
    ensures AcceptAll(ReaderOf(s), Emit(s, item).events) ==
            if Fits(s, item) then Some(ReaderOf(Emit(s, item).state)) else None
  {
    match item
    case Words(kind, text) => WordsAreAccepted(s, kind, text);
    case Call(d) => CallIsAcceptedIfItFits(s, d);
  }

  predicate AllFit(s: State, items: seq<Item>)
    decreases |items|
  {
    items == [] || (Fits(s, items[0]) && AllFit(Emit(s, items[0]).state, items[1..]))
  }

  ghost predicate Sayable(items: seq<Item>) {
    forall i | 0 <= i < |items| :: items[i].Words? ==> !items[i].kind.Tool?
  }

  lemma {:induction false} EmitAllAcceptedIfAllFit(s: State, items: seq<Item>)
    requires BlocksOk(s) && Sayable(items)
    ensures AcceptAll(ReaderOf(s), EmitAll(s, items).events) ==
            if AllFit(s, items) then Some(ReaderOf(EmitAll(s, items).state)) else None
    decreases |items|
  {
    if items != [] {
      var first := Emit(s, items[0]);
      EmitKeepsBlocks(s, items[0]);
      EmitAllAcceptedIfAllFit(first.state, items[1..]);
      EmitIsAcceptedIfItFits(s, items[0]);
      AcceptConcat(ReaderOf(s), first.events, EmitAll(first.state, items[1..]).events);
    }
  }

  lemma FinishIsAccepted(s: State, ending: (string, nat))
    ensures var r := AcceptAll(ReaderOf(s), Finish(s, ending)); r.Some? && r.value.stopped
  {
    StopIsAccepted(s);
    var last := [MessageDelta(ending.0, ending.1), MessageStop];
    var stopped := StopActive(s);
    AcceptConcat(ReaderOf(s), stopped.events, last);
    assert last[1..] == [MessageStop];
    AcceptOne(ReaderOf(stopped.state).(ended := true), MessageStop);
  }

  // ------------------------------------------------- the condition on the input

  /** The tool indices called so far. */
  function Seen(items: seq<Item>): set<int> {
    if items == [] then {}
    else
      var last := items[|items| - 1];
      Seen(items[..|items| - 1]) + if last.Call? then {last.delta.toolIndex} else {}
  }

  /** What the last item that begins something new began. */
  function Latest(items: seq<Item>): Option<Kind> {
    if items == [] then None
    else
      var before, last := items[..|items| - 1], items[|items| - 1];
      if last.Words? then Some(last.kind)
      else if last.delta.toolIndex !in Seen(before) then Some(Tool(last.delta.toolIndex))
      else Latest(before)
  }

  /** Later arguments of a tool call come before anything else begins. */
  ghost predicate InOrder(items: seq<Item>) {
    forall n | 0 <= n < |items| :: InOrderAt(items, n)
  }

  ghost predicate InOrderAt(items: seq<Item>, n: int)
    requires 0 <= n < |items|
  {
    items[n].Call? && items[n].delta.arguments != "" && items[n].delta.toolIndex in Seen(items[..n]) ==>
      Latest(items[..n]) == Some(Tool(items[n].delta.toolIndex))
  }

  /** The state knows what the items before it began. */
  ghost predicate Follows(s: State, said: seq<Item>) {
    && s.blocks.Keys == Seen(said)
    && (if s.active.None? then Latest(said).None? else Latest(said) == Some(s.active.value.1))
  }

  lemma EmitFollows(s: State, said: seq<Item>, item: Item)
    requires Follows(s, said)
    ensures Follows(Emit(s, item).state, said + [item])
  {
    assert (said + [item])[..|said|] == said;
  }

  lemma {:induction false} AllFitIsInOrder(s: State, said: seq<Item>, items: seq<Item>)
    requires Follows(s, said)
    ensures AllFit(s, items) <==> forall n | |said| <= n < |said + items| :: InOrderAt(said + items, n)
    decreases |items|
  {
    if items != [] {
      EmitFollows(s, said, items[0]);
      AllFitIsInOrder(Emit(s, items[0]).state, said + [items[0]], items[1..]);
      assert said + [items[0]] + items[1..] == said + items;
      assert (said + items)[..|said|] == said;
      assert InOrderAt(said + items, |said|) <==> Fits(s, items[0]);
    }
  }

  lemma {:induction false} ItemsAreSayable(ps: seq<Payload>)
    ensures Sayable(Items(ps))
  {
    if ps != [] && !ps[0].Done? {
      ItemsAreSayable(ps[1..]);
    }
  }

  /** The stream is well formed if and only if the chunks never return to a tool call after beginning something else. */
  lemma WellFormedIffInOrder(ps: seq<Payload>)
    ensures WellFormed(Translate(ps)) <==> InOrder(Items(ps))
  {
    var items := Items(ps);
    var out := EmitAll(Initial, items);
    ItemsAreSayable(ps);
    AllFitIsInOrder(Initial, [], items);
    assert [] + items == items;
    EmitAllAcceptedIfAllFit(Initial, items);
    WellFormedIsAccepted(ps);
  }

  /** A translated stream is well formed exactly when the reader follows its blocks. */
  lemma WellFormedIsAccepted(ps: seq<Payload>)
    requires var out := EmitAll(Initial, Items(ps));
             AcceptAll(ReaderOf(Initial), out.events) in {None, Some(ReaderOf(out.state))}
    ensures WellFormed(Translate(ps)) <==>
            AcceptAll(ReaderOf(Initial), EmitAll(Initial, Items(ps)).events).Some?
  {
    var out := EmitAll(Initial, Items(ps));
    FinishIsAccepted(out.state, Ending(ps));
    AcceptConcat(ReaderOf(Initial), out.events, Finish(out.state, Ending(ps)));
    var rest := out.events + Finish(out.state, Ending(ps));
    assert Translate(ps) == [MessageStart] + rest;
    assert Translate(ps)[1..] == rest;
  }

  /** Arguments of one tool, then of another, then of the first again: the last delta goes to a closed block. */
  lemma ReturningBreaksTheStream(a: ToolDelta, b: ToolDelta, c: ToolDelta)
    requires a.toolIndex == c.toolIndex != b.toolIndex && c.arguments != ""
    ensures !WellFormed(Translate([Chunk("", "", [a, b, c], Some("tool_calls"), 0)]))
  {
    var ps := [Chunk("", "", [a, b, c], Some("tool_calls"), 0)];
    var items := Items(ps);
    assert items == [Call(a), Call(b), Call(c)];
    assert items[..2] == [Call(a), Call(b)] && [Call(a), Call(b)][..1] == [Call(a)] && [Call(a)][..0] == [];
    assert Seen([Call(a)]) == {a.toolIndex};
    assert Latest(items[..2]) == Some(Tool(b.toolIndex));
    assert !InOrderAt(items, 2);
    WellFormedIffInOrder(ps);
  }

  /** The deltas of each tool index follow each other directly. */
  ghost predicate Contiguous(items: seq<Item>) {
    forall i, j, k | 0 <= i < k < j < |items| && items[i].Call? && items[j].Call?
                     && items[i].delta.toolIndex == items[j].delta.toolIndex ::
      items[k].Call? && items[k].delta.toolIndex == items[i].delta.toolIndex
  }

  lemma {:induction false} SeenMeansCalled(items: seq<Item>, t: int)
    ensures t in Seen(items) <==> exists i | 0 <= i < |items| :: items[i].Call? && items[i].delta.toolIndex == t
  {
    if items != [] {
      SeenMeansCalled(items[..|items| - 1], t);
      var n := |items| - 1;
      if items[n].Call? && items[n].delta.toolIndex == t {
        assert t in Seen(items);
      } else if t in Seen(items) {
        var i :| 0 <= i < n && items[..n][i].Call? && items[..n][i].delta.toolIndex == t;
        assert items[i].Call?;
      }
    }
  }

  lemma EarlierCall(items: seq<Item>, n: nat, t: int) returns (i: nat)
    requires n <= |items| && t in Seen(items[..n])
    ensures i < n && items[i].Call? && items[i].delta.toolIndex == t
  {
    SeenMeansCalled(items[..n], t);
    i :| 0 <= i < n && items[..n][i].Call? && items[..n][i].delta.toolIndex == t;
  }

  lemma {:induction false} ContiguousLatest(items: seq<Item>, n: nat)
    requires Contiguous(items) && n < |items| && items[n].Call? && items[n].delta.toolIndex in Seen(items[..n])
    ensures Latest(items[..n]) == Some(Tool(items[n].delta.toolIndex))
    decreases n
  {
    var t := items[n].delta.toolIndex;
    var i := EarlierCall(items, n, t);
    assert i < n - 1 ==> items[n - 1].Call? && items[n - 1].delta.toolIndex == t;
    assert items[..n][..n - 1] == items[..n - 1];
    if t in Seen(items[..n - 1]) {
      ContiguousLatest(items, n - 1);
    }
  }

  /** Contiguous deltas always give a well-formed stream. */
  lemma ContiguousIsWellFormed(ps: seq<Payload>)
    requires Contiguous(Items(ps))
    ensures WellFormed(Translate(ps))
  {
    var items := Items(ps);
    forall n | 0 <= n < |items| ensures InOrderAt(items, n) {
      if items[n].Call? && items[n].delta.toolIndex in Seen(items[..n]) {
        ContiguousLatest(items, n);
      }
    }
    WellFormedIffInOrder(ps);
  }

  // ------------------------------------------------------------------ the ending

  /** Payload n is the first chunk with a finish reason, and the stream is not done before it. */
  predicate FirstFinish(ps: seq<Payload>, n: nat) {
    && n < |ps| && ps[n].Chunk? && ps[n].finish.Some?
    && forall j | 0 <= j < n :: !ps[j].Done? && (ps[j].Chunk? ==> ps[j].finish.None?)
  }

  lemma {:induction false} EndingOfFirstFinish(ps: seq<Payload>, n: nat)
    requires FirstFinish(ps, n)
    ensures Ending(ps) == (StopReason(ps[n].finish.value), ps[n].outputTokens)
  {
    if n > 0 {
      EndingOfFirstFinish(ps[1..], n - 1);
    }
  }

  lemma {:induction false} EndingOfNone(ps: seq<Payload>)
    requires forall n: nat :: !FirstFinish(ps, n)
    ensures Ending(ps) == ("end_turn", 0)
  {
    if ps != [] && !ps[0].Done? {
      assert !FirstFinish(ps, 0);
      forall n: nat | FirstFinish(ps[1..], n) ensures false {
        assert FirstFinish(ps, n + 1);
      }
      EndingOfNone(ps[1..]);
    }
  }

  /** OpenAI's finish reasons in Anthropic's words; others pass through. */
  predicate SaysReason(finish: string, reason: string) {
    && (finish in {"", "stop"} ==> reason == "end_turn")
    && (finish == "length" ==> reason == "max_tokens")
    && (finish == "tool_calls" ==> reason == "tool_use")
    && (finish !in {"", "stop", "length", "tool_calls"} ==> reason == finish)
  }

  lemma StopReasonSays(finish: string)
    ensures SaysReason(finish, StopReason(finish))
  {
  }

  lemma LastTwo(ps: seq<Payload>)
    ensures var events := Translate(ps);
            && |events| >= 2
            && events[|events| - 2..] == [MessageDelta(Ending(ps).0, Ending(ps).1), MessageStop]
  {
  }

  /**
    The stream ends with one message delta and the stop. The delta tells the reason and the output tokens of
    the first chunk with a finish reason; a stream without one ends the turn.
   */
  lemma FinalDeltaIsFirstFinish(ps: seq<Payload>)
    ensures var events := Translate(ps);
            && |events| >= 2 && events[|events| - 1] == MessageStop && events[|events| - 2].MessageDelta?
            && (forall n: nat | FirstFinish(ps, n) ::
                  && SaysReason(ps[n].finish.value, events[|events| - 2].stopReason)
                  && events[|events| - 2].outputTokens == ps[n].outputTokens)
            && ((forall n: nat :: !FirstFinish(ps, n)) ==> events[|events| - 2] == MessageDelta("end_turn", 0))
  {
    var events := Translate(ps);
    LastTwo(ps);
    assert events[|events| - 2..][0] == events[|events| - 2] && events[|events| - 2..][1] == events[|events| - 1];
    forall n: nat | FirstFinish(ps, n)
      ensures SaysReason(ps[n].finish.value, Ending(ps).0) && Ending(ps).1 == ps[n].outputTokens
    {
      EndingOfFirstFinish(ps, n);
      StopReasonSays(ps[n].finish.value);
    }
    if forall n: nat :: !FirstFinish(ps, n) {
      EndingOfNone(ps);
    }
  }

  // ------------------------------------------------------------- opening tool blocks

  /** The tool, id and name of every tool block opened. */
  function Opened(events: seq<Event>): seq<(int, string, string)> {
    if events == [] then []
    else
      (if events[0].BlockStart? && events[0].kind.Tool?
       then [(events[0].kind.toolIndex, events[0].id, events[0].name)] else [])
      + Opened(events[1..])
  }

  lemma {:induction false} OpenedConcat(a: seq<Event>, b: seq<Event>)
    ensures Opened(a + b) == Opened(a) + Opened(b)
  {
    if a == [] {
      assert a + b == b;
    } else {
      assert (a + b)[1..] == a[1..] + b;
      OpenedConcat(a[1..], b);
    }
  }

  function Named(d: ToolDelta): (int, string, string) {
    (d.toolIndex, if d.id != "" then d.id else "toolu_" + Decimal(d.toolIndex), if d.name != "" then d.name else "tool")
  }

  /** The first delta of each tool not in `seen`, in order of appearance. */
  function FirstCalls(items: seq<Item>, seen: set<int>): seq<(int, string, string)> {
    if items == [] then []
    else if items[0].Call? && items[0].delta.toolIndex !in seen
    then [Named(items[0].delta)] + FirstCalls(items[1..], seen + {items[0].delta.toolIndex})
    else FirstCalls(items[1..], seen)
  }

  lemma StoppingOpensNothing(s: State)
    ensures Opened(StopActive(s).events) == []
  {
    if s.active.Some? {
      assert [BlockStop(s.active.value.0)][1..] == [];
    }
  }

  lemma OpeningOpens(s: State, kind: Kind, id: string, name: string)
    ensures Opened(Open(s, kind, id, name).events) == if kind.Tool? then [(kind.toolIndex, id, name)] else []
  {
    var start := [BlockStart(s.next, kind, id, name)];
    StoppingOpensNothing(s);
    OpenedConcat(StopActive(s).events, start);
    assert start[1..] == [];
  }

  lemma DeltaOpensNothing(events: seq<Event>)
    requires |events| <= 1 && forall e | e in events :: e.BlockDelta?
    ensures Opened(events) == []
  {
    if events != [] {
      assert events[0] in events && events[1..] == [];
    }
  }

  lemma EmitOpens(s: State, item: Item)
    requires item.Words? ==> !item.kind.Tool?
    ensures Opened(Emit(s, item).events) ==
            if item.Call? && item.delta.toolIndex !in s.blocks then [Named(item.delta)] else []
    ensures Emit(s, item).state.blocks.Keys == s.blocks.Keys + if item.Call? then {item.delta.toolIndex} else {}
  {
    match item
    case Words(k, text) => WordsOpenNothing(s, k, text);
    case Call(d) => CallOpens(s, d);
  }

  lemma WordsOpenNothing(s: State, kind: Kind, text: string)
    requires !kind.Tool?
    ensures Opened(EmitWords(s, kind, text).events) == [] && EmitWords(s, kind, text).state.blocks == s.blocks
  {
    var ready := if s.active.Some? && s.active.value.1 == kind then Out([], s) else Open(s, kind, "", "");
    var delta := [BlockDelta(ready.state.active.value.0, kind, text)];
    OpeningOpens(s, kind, "", "");
    DeltaOpensNothing(delta);
    OpenedConcat(ready.events, delta);
  }

  lemma CallOpens(s: State, d: ToolDelta)
    ensures Opened(EmitCall(s, d).events) == if d.toolIndex in s.blocks then [] else [Named(d)]
    ensures EmitCall(s, d).state.blocks.Keys == s.blocks.Keys + {d.toolIndex}
  {
    var ready := ReadyFor(s, d);
    var delta := ArgumentDelta(ready.state.blocks[d.toolIndex], d);
    OpeningOpens(s, Tool(d.toolIndex), Named(d).1, Named(d).2);
    DeltaOpensNothing(delta);
    OpenedConcat(ready.events, delta);
  }

  lemma {:induction false} EmitAllOpens(s: State, items: seq<Item>)
    requires Sayable(items)
    ensures Opened(EmitAll(s, items).events) == FirstCalls(items, s.blocks.Keys)
    decreases |items|
  {
    if items != [] {
      var first := Emit(s, items[0]);
      EmitOpens(s, items[0]);
      EmitAllOpens(first.state, items[1..]);
      OpenedConcat(first.events, EmitAll(first.state, items[1..]).events);
      SeenAlready(items, s.blocks.Keys);
    }
  }

  lemma SeenAlready(items: seq<Item>, seen: set<int>)
    requires items != []
    ensures var first := items[0].Call? && items[0].delta.toolIndex !in seen;
            var after := seen + if items[0].Call? then {items[0].delta.toolIndex} else {};
            FirstCalls(items, seen) == (if first then [Named(items[0].delta)] else []) + FirstCalls(items[1..], after)
  {
    if items[0].Call? && items[0].delta.toolIndex in seen {
      assert seen + {items[0].delta.toolIndex} == seen;
    }
    assert seen + {} == seen;
  }

  /** Each tool's block is opened once, when the tool first appears, under the id and name it appears with. */
  lemma ToolBlocksAreFirstCalls(ps: seq<Payload>)
    ensures Opened(Translate(ps)) == FirstCalls(Items(ps), {})
  {
    var out := EmitAll(Initial, Items(ps));
    ItemsAreSayable(ps);
    EmitAllOpens(Initial, Items(ps));
    FinishOpensNothing(out.state, Ending(ps));
    OpenedConcat([MessageStart] + out.events, Finish(out.state, Ending(ps)));
    OpenedConcat([MessageStart], out.events);
    StartOpensNothing();
    assert Initial.blocks.Keys == {};
  }

  lemma StartOpensNothing()
    ensures Opened([MessageStart]) == []
  {
    assert [MessageStart][1..] == [];
  }

  lemma FinishOpensNothing(s: State, ending: (string, nat))
    ensures Opened(Finish(s, ending)) == []
  {
    var last := [MessageDelta(ending.0, ending.1), MessageStop];
    StoppingOpensNothing(s);
    OpenedConcat(StopActive(s).events, last);
    assert last[1..] == [MessageStop] && last[1..][1..] == [];
  }

  // -------------------------------------------------------------------- content

  /** What an item, or a stream of events, says in blocks of one kind. */
  function Says(item: Item, kind: Kind): string {
    match item
    case Words(k, text) => if k == kind then text else ""
    case Call(d) => if kind == Tool(d.toolIndex) then d.arguments else ""
  }

  function SaysAll(items: seq<Item>, kind: Kind): string {
    if items == [] then "" else Says(items[0], kind) + SaysAll(items[1..], kind)
  }

  function Deltas(events: seq<Event>, kind: Kind): string {
    if events == [] then ""
    else (if events[0].BlockDelta? && events[0].kind == kind then events[0].text else "") + Deltas(events[1..], kind)
  }

  lemma {:induction false} DeltasConcat(a: seq<Event>, b: seq<Event>, kind: Kind)
    ensures Deltas(a + b, kind) == Deltas(a, kind) + Deltas(b, kind)
  {
    if a == [] {
      assert a + b == b;
    } else {
      assert (a + b)[1..] == a[1..] + b;
      DeltasConcat(a[1..], b, kind);
    }
  }

  lemma OpeningSaysNothing(s: State, opens: Kind, id: string, name: string, kind: Kind)
    ensures Deltas(Open(s, opens, id, name).events, kind) == "" && Deltas(StopActive(s).events, kind) == ""
  {
    var start := BlockStart(s.next, opens, id, name);
    DeltasConcat(StopActive(s).events, [start], kind);
    assert [start][1..] == [];
  }

  lemma OneDelta(index: nat, of: Kind, text: string, kind: Kind)
    ensures Deltas([BlockDelta(index, of, text)], kind) == if of == kind then text else ""
  {
    assert [BlockDelta(index, of, text)][1..] == [];
    assert text + "" == text;
  }

  lemma EmitSays(s: State, item: Item, kind: Kind)
    ensures Deltas(Emit(s, item).events, kind) == Says(item, kind)
  {
    match item
    case Words(k, text) =>
      var ready := if s.active.Some? && s.active.value.1 == k then Out([], s) else Open(s, k, "", "");
      OpeningSaysNothing(s, k, "", "", kind);
      OneDelta(ready.state.active.value.0, k, text, kind);
      DeltasConcat(ready.events, [BlockDelta(ready.state.active.value.0, k, text)], kind);
    case Call(d) => CallSays(s, d, kind);
  }

  lemma CallSays(s: State, d: ToolDelta, kind: Kind)
    ensures Deltas(EmitCall(s, d).events, kind) == Says(Call(d), kind)
  {
    var ready := ReadyFor(s, d);
    var block := ready.state.blocks[d.toolIndex];
    ReadyingSaysNothing(s, d, kind);
    QuietBefore(ready.events, ArgumentDelta(block, d), kind);
    ArgumentSays(block, d, kind);
  }

  lemma ArgumentSays(block: nat, d: ToolDelta, kind: Kind)
    ensures Deltas(ArgumentDelta(block, d), kind) == Says(Call(d), kind)
  {
    if d.arguments != "" {
      OneDelta(block, Tool(d.toolIndex), d.arguments, kind);
    }
  }

  lemma QuietBefore(a: seq<Event>, b: seq<Event>, kind: Kind)
    requires Deltas(a, kind) == ""
    ensures Deltas(a + b, kind) == Deltas(b, kind)
  {
    DeltasConcat(a, b, kind);
  }

  lemma QuietAfter(a: seq<Event>, b: seq<Event>, kind: Kind)
    requires Deltas(b, kind) == ""
    ensures Deltas(a + b, kind) == Deltas(a, kind)
  {
    DeltasConcat(a, b, kind);
  }

  lemma ReadyingSaysNothing(s: State, d: ToolDelta, kind: Kind)
    ensures Deltas(ReadyFor(s, d).events, kind) == ""
  {
    OpeningSaysNothing(s, Tool(d.toolIndex), if d.id != "" then d.id else "toolu_" + Decimal(d.toolIndex),
                       if d.name != "" then d.name else "tool", kind);
  }

  lemma {:induction false} EmitAllSays(s: State, items: seq<Item>, kind: Kind)
    ensures Deltas(EmitAll(s, items).events, kind) == SaysAll(items, kind)
    decreases |items|
  {
    if items != [] {
      var first := Emit(s, items[0]);
      EmitSays(s, items[0], kind);
      EmitAllSays(first.state, items[1..], kind);
      DeltasConcat(first.events, EmitAll(first.state, items[1..]).events, kind);
    }
  }

  lemma EndingSaysNothing(s: State, ending: (string, nat), kind: Kind)
    ensures Deltas(Finish(s, ending), kind) == ""
  {
    var last := [MessageDelta(ending.0, ending.1), MessageStop];
    OpeningSaysNothing(s, Text, "", "", kind);
    DeltasConcat(StopActive(s).events, last, kind);
    assert last[1..] == [MessageStop] && last[1..][1..] == [];
  }

  /** The text, thinking and argument deltas that come out are those that went in, up to the first finish. */
  lemma ContentIsPreserved(ps: seq<Payload>, kind: Kind)
    ensures Deltas(Translate(ps), kind) == SaysAll(Items(ps), kind)
  {
    var out := EmitAll(Initial, Items(ps));
    EmitAllSays(Initial, Items(ps), kind);
    EndingSaysNothing(out.state, Ending(ps), kind);
    QuietAfter([MessageStart] + out.events, Finish(out.state, Ending(ps)), kind);
    StartSaysNothing(kind);
    QuietBefore([MessageStart], out.events, kind);
  }

  lemma StartSaysNothing(kind: Kind)
    ensures Deltas([MessageStart], kind) == ""
  {
    assert [MessageStart][1..] == [];
  }

  /** The text content of the chunks themselves. */
  function ContentOf(ps: seq<Payload>): string {
    if ps == [] || ps[0].Done? then ""
    else if ps[0].Malformed? then ContentOf(ps[1..])
    else ps[0].content + if ps[0].finish.Some? then "" else ContentOf(ps[1..])
  }

  function ReasoningOf(ps: seq<Payload>): string {
    if ps == [] || ps[0].Done? then ""
    else if ps[0].Malformed? then ReasoningOf(ps[1..])
    else ps[0].reasoning + if ps[0].finish.Some? then "" else ReasoningOf(ps[1..])
  }

  lemma {:induction false} SaysConcat(a: seq<Item>, b: seq<Item>, kind: Kind)
    ensures SaysAll(a + b, kind) == SaysAll(a, kind) + SaysAll(b, kind)
  {
    if a == [] {
      assert a + b == b;
    } else {
      assert (a + b)[1..] == a[1..] + b;
      SaysConcat(a[1..], b, kind);
    }
  }

  lemma {:induction false} CallsSayNoWords(ds: seq<ToolDelta>, kind: Kind)
    requires !kind.Tool?
    ensures SaysAll(CallItems(ds), kind) == ""
  {
    if ds != [] {
      CallsSayNoWords(ds[1..], kind);
      assert CallItems(ds)[1..] == CallItems(ds[1..]);
    }
  }

  lemma OneSaying(item: Item, kind: Kind)
    ensures SaysAll([item], kind) == Says(item, kind)
  {
    assert [item][1..] == [] && Says(item, kind) + "" == Says(item, kind);
  }

  lemma ChunkSays(p: Payload, kind: Kind)
    requires p.Chunk? && !kind.Tool?
    ensures SaysAll(ItemsOf(p), kind) == if kind == Text then p.content else p.reasoning
  {
    var r: seq<Item> := if p.reasoning != "" then [Words(Thinking, p.reasoning)] else [];
    var c: seq<Item> := if p.content != "" then [Words(Text, p.content)] else [];
    OneSaying(Words(Thinking, p.reasoning), kind);
    OneSaying(Words(Text, p.content), kind);
    CallsSayNoWords(p.tools, kind);
    SaysConcat(r + c, CallItems(p.tools), kind);
    SaysConcat(r, c, kind);
  }

  lemma {:induction false} ItemsSayContent(ps: seq<Payload>)
    ensures SaysAll(Items(ps), Text) == ContentOf(ps)
    ensures SaysAll(Items(ps), Thinking) == ReasoningOf(ps)
  {
    if ps != [] && !ps[0].Done? {
      ItemsSayContent(ps[1..]);
      if ps[0].Chunk? {
        var rest := if ps[0].finish.Some? then [] else Items(ps[1..]);
        ChunkSays(ps[0], Text);
        ChunkSays(ps[0], Thinking);
        SaysConcat(ItemsOf(ps[0]), rest, Text);
        SaysConcat(ItemsOf(ps[0]), rest, Thinking);
      }
    }
  }

  /** Concatenated text and thinking deltas equal the input's. */
  lemma WordsArePreserved(ps: seq<Payload>)
    ensures Deltas(Translate(ps), Text) == ContentOf(ps)
    ensures Deltas(Translate(ps), Thinking) == ReasoningOf(ps)
  {
    ContentIsPreserved(ps, Text);
    ContentIsPreserved(ps, Thinking);
    ItemsSayContent(ps);
  }

  // ------------------------------------------------------------ the stream state

  class StreamState {
    var activeType: Option<Kind>
    var activeIndex: Option<nat>
    var nextIndex: nat
    var finished: bool
    var toolBlocks: map<int, nat>

    ghost predicate Valid()
      reads this
    {
      activeType.Some? == activeIndex.Some?
    }

    ghost function View(): State
      requires Valid()
      reads this
    {
      State(if activeIndex.Some? then Some((activeIndex.value, activeType.value)) else None, nextIndex, toolBlocks)
    }

    constructor ()
      ensures Valid() && View() == Initial && !finished
    {
      activeType, activeIndex, nextIndex, finished, toolBlocks := None, None, 0, false, map[];
    }

    method StopActiveBlock() returns (events: seq<Event>)
      requires Valid()
      modifies this`activeType, this`activeIndex
      ensures Valid() && Out(events, View()) == StopActive(old(View()))
    {
      if activeIndex.None? {
        return [];
      }
      events := [BlockStop(activeIndex.value)];
      activeType, activeIndex := None, None;
    }

    method OpenBlock(kind: Kind, id: string, name: string) returns (events: seq<Event>)
      requires Valid()
      modifies this`activeType, this`activeIndex, this`nextIndex
      ensures Valid() && Out(events, View()) == Open(old(View()), kind, id, name)
    {
      events := StopActiveBlock();
      var index := nextIndex;
      nextIndex := nextIndex + 1;
      activeType, activeIndex := Some(kind), Some(index);
      events := events + [BlockStart(index, kind, id, name)];
    }

    method EmitTextLikeBlock(kind: Kind, text: string) returns (events: seq<Event>)
      requires Valid()
      modifies this`activeType, this`activeIndex, this`nextIndex
      ensures Valid() && Out(events, View()) == EmitWords(old(View()), kind, text)
    {
      events := [];
      if activeType != Some(kind) {
        events := OpenBlock(kind, "", "");
      }
      events := events + [BlockDelta(activeIndex.value, kind, text)];
    }

    method EmitToolCallDelta(d: ToolDelta) returns (events: seq<Event>)
      requires Valid()
      modifies this`activeType, this`activeIndex, this`nextIndex, this`toolBlocks
      ensures Valid() && Out(events, View()) == EmitCall(old(View()), d)
    {
      events := [];
      var t := d.toolIndex;
      if t !in toolBlocks {
        var index := nextIndex;
        events := OpenBlock(Tool(t), if d.id != "" then d.id else "toolu_" + Decimal(t),
                            if d.name != "" then d.name else "tool");
        toolBlocks := toolBlocks[t := index];
      }
      if d.arguments != "" {
        events := events + [BlockDelta(toolBlocks[t], Tool(t), d.arguments)];
      }
    }

    method Close(ending: (string, nat)) returns (events: seq<Event>)
      requires Valid()
      modifies this
      ensures Valid() && finished
      ensures events == if old(finished) then [] else Finish(old(View()), ending)
    {
      if finished {
        return [];
      }
      events := StopActiveBlock();
      finished := true;
      events := events + [MessageDelta(ending.0, ending.1), MessageStop];
    }

    /** One item, with what was emitted before it. */
    method Say(item: Item) returns (events: seq<Event>)
      requires Valid()
      modifies this`activeType, this`activeIndex, this`nextIndex, this`toolBlocks
      ensures Valid() && Out(events, View()) == Emit(old(View()), item)
    {
      match item
      case Words(kind, text) => events := EmitTextLikeBlock(kind, text);
      case Call(d) => events := EmitToolCallDelta(d);
    }

    method SayAll(items: seq<Item>) returns (events: seq<Event>)
      requires Valid()
      modifies this`activeType, this`activeIndex, this`nextIndex, this`toolBlocks
      ensures Valid() && Out(events, View()) == EmitAll(old(View()), items)
    {
      events := [];
      ghost var s := View();
      assert items[0..] == items;
      for i := 0 to |items|
        invariant Valid()
        invariant events + EmitAll(View(), items[i..]).events == EmitAll(s, items).events
        invariant EmitAll(View(), items[i..]).state == EmitAll(s, items).state
      {
        assert items[i..][1..] == items[i + 1..];
        var more := Say(items[i]);
        assert events + (more + EmitAll(View(), items[i + 1..]).events)
            == events + more + EmitAll(View(), items[i + 1..]).events;
        events := events + more;
      }
      assert items[|items|..] == [];
      assert events + [] == events;
    }
  }

  lemma {:induction false} EmitAllConcat(s: State, a: seq<Item>, b: seq<Item>)
    ensures var first := EmitAll(s, a); var rest := EmitAll(first.state, b);
            EmitAll(s, a + b) == Out(first.events + rest.events, rest.state)
    decreases |a|
  {
    if a == [] {
      assert a + b == b;
    } else {
      assert (a + b)[1..] == a[1..] + b && (a + b)[0] == a[0];
      var first := Emit(s, a[0]);
      var rest := EmitAll(first.state, a[1..]);
      EmitAllConcat(first.state, a[1..], b);
      Regroup(first.events, rest.events, EmitAll(rest.state, b).events);
    }
  }

  /** What is still to come after the first payloads. */
  lemma ItemsUnfold(ps: seq<Payload>, n: nat)
    requires n < |ps|
    ensures Items(ps[n..]) ==
            if ps[n].Done? then []
            else if ps[n].Malformed? then Items(ps[n + 1..])
            else ItemsOf(ps[n]) + if ps[n].finish.Some? then [] else Items(ps[n + 1..])
    ensures Ending(ps[n..]) ==
            if ps[n].Done? then ("end_turn", 0)
            else if ps[n].Chunk? && ps[n].finish.Some? then (StopReason(ps[n].finish.value), ps[n].outputTokens)
            else Ending(ps[n + 1..])
  {
    assert ps[n..][1..] == ps[n + 1..];
  }

  ghost function Remaining(s: State, ps: seq<Payload>): seq<Event> {
    var out := EmitAll(s, Items(ps));
    out.events + Finish(out.state, Ending(ps))
  }

  lemma RemainingAfter(s: State, ps: seq<Payload>, n: nat)
    requires n < |ps| && ps[n].Chunk?
    ensures var out := EmitAll(s, ItemsOf(ps[n]));
            Remaining(s, ps[n..]) ==
            if ps[n].finish.Some?
            then out.events + Finish(out.state, (StopReason(ps[n].finish.value), ps[n].outputTokens))
            else out.events + Remaining(out.state, ps[n + 1..])
  {
    ItemsUnfold(ps, n);
    EmitAllConcat(s, ItemsOf(ps[n]), if ps[n].finish.Some? then [] else Items(ps[n + 1..]));
  }

  lemma EndOfStream(s: State, ps: seq<Payload>, n: nat)
    requires n <= |ps| && (n < |ps| ==> ps[n].Done?)
    ensures Remaining(s, ps[n..]) == Finish(s, ("end_turn", 0))
  {
    assert Items(ps[n..]) == [] && Ending(ps[n..]) == ("end_turn", 0);
    assert EmitAll(s, []) == Out([], s);
  }

  lemma MalformedIsSkipped(s: State, ps: seq<Payload>, n: nat)
    requires n < |ps| && ps[n].Malformed?
    ensures Remaining(s, ps[n..]) == Remaining(s, ps[n + 1..])
  {
    ItemsUnfold(ps, n);
  }

  /** What was sent so far and what the payloads from n on still give make up the translation. */
  ghost predicate OnTrack(ps: seq<Payload>, n: nat, sent: seq<Event>, s: State) {
    n <= |ps| && sent + Remaining(s, ps[n..]) == Translate(ps)
  }

  lemma StartsOnTrack(ps: seq<Payload>)
    ensures OnTrack(ps, 0, [MessageStart], Initial)
  {
    assert ps[0..] == ps;
  }

  lemma SkipStaysOnTrack(ps: seq<Payload>, n: nat, sent: seq<Event>, s: State)
    requires n < |ps| && ps[n].Malformed? && OnTrack(ps, n, sent, s)
    ensures OnTrack(ps, n + 1, sent, s)
  {
    MalformedIsSkipped(s, ps, n);
  }

  lemma ChunkStaysOnTrack(ps: seq<Payload>, n: nat, sent: seq<Event>, s: State)
    requires n < |ps| && ps[n].Chunk? && OnTrack(ps, n, sent, s)
    ensures var out := EmitAll(s, ItemsOf(ps[n]));
            if ps[n].finish.Some?
            then sent + out.events + Finish(out.state, (StopReason(ps[n].finish.value), ps[n].outputTokens))
                 == Translate(ps)
            else OnTrack(ps, n + 1, sent + out.events, out.state)
  {
    var out := EmitAll(s, ItemsOf(ps[n]));
    RemainingAfter(s, ps, n);
    if ps[n].finish.Some? {
      Regroup(sent, out.events, Finish(out.state, (StopReason(ps[n].finish.value), ps[n].outputTokens)));
    } else {
      Regroup(sent, out.events, Remaining(out.state, ps[n + 1..]));
    }
  }

  lemma EndIsOnTrack(ps: seq<Payload>, n: nat, sent: seq<Event>, s: State)
    requires OnTrack(ps, n, sent, s) && (n < |ps| ==> ps[n].Done?)
    ensures sent + Finish(s, ("end_turn", 0)) == Translate(ps)
  {
    EndOfStream(s, ps, n);
  }

  /** One payload: nothing if malformed, else its items, and the ending when it carries a finish reason. */
  method TranslatePayload(state: StreamState, ps: seq<Payload>, n: nat, sent: seq<Event>)
    returns (events: seq<Event>, finished: bool)
    requires n < |ps| && !ps[n].Done? && state.Valid() && !state.finished && OnTrack(ps, n, sent, state.View())
    modifies state
    ensures finished ==> events == Translate(ps)
    ensures !finished ==> state.Valid() && !state.finished && OnTrack(ps, n + 1, events, state.View())
  {
    if ps[n].Malformed? {
      SkipStaysOnTrack(ps, n, sent, state.View());
      return sent, false;
    }
    ChunkStaysOnTrack(ps, n, sent, state.View());
    var more := state.SayAll(ItemsOf(ps[n]));
    if ps[n].finish.None? {
      return sent + more, false;
    }
    var last := state.Close((StopReason(ps[n].finish.value), ps[n].outputTokens));
    return sent + more + last, true;
  }

  /** _iter_anthropic_events_from_openai_stream, over parsed payloads. */
  method TranslateStream(ps: seq<Payload>) returns (events: seq<Event>)
    ensures events == Translate(ps)
  {
    var state := new StreamState();
    events := [MessageStart];
    StartsOnTrack(ps);
    var n := 0;
    while n < |ps| && !ps[n].Done?
      invariant 0 <= n <= |ps| && state.Valid() && !state.finished && fresh(state)
      invariant OnTrack(ps, n, events, state.View())
    {
      var finished;
      events, finished := TranslatePayload(state, ps, n, events);
      if finished {
        return;
      }
      n := n + 1;
    }
    EndIsOnTrack(ps, n, events, state.View());
    var last := state.Close(("end_turn", 0));
    return events + last;
  }
}
