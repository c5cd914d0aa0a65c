/**
  Streaming refines plain: a finished completion cut into a pseudo-stream by the proxy
  (dressage/proxy/server.py:593-623, 1821-1921) and put together again by the Responses stream
  translator (blackbox_server/proxy/rollout_llm_proxy.py:1938-2075, 2615-2706), against the plain
  translation of the same completion.

  Chunks are already parsed. Item and response ids, which the two forms choose differently, are left out.
 */
module ResponsesStream {
  import opened Wrappers
  import opened Strings
  import opened Sequences

  const ChunkSize := 8

  /** `index` is the call's own number in the completion. */
  datatype ToolCall = ToolCall(index: int, id: string, name: string, arguments: string)

  datatype Completion = Completion(
    content: Option<string>,
    reasoning: Option<string>,
    tools: seq<ToolCall>,
    promptTokens: nat,
    completionTokens: nat)

  datatype Usage = Usage(input: nat, output: nat, total: nat)

  datatype Item =
    | Reasoning(text: string)
    | Message(text: string)
    | FunctionCall(callId: string, name: string, arguments: string)

  datatype Chunk =
    | Role
    | ReasoningDelta(text: string)
    | ContentDelta(text: string)
    | CallDelta(call: ToolCall)
    | Finished
    | UsageReport(prompt: nat, completion: nat)

  // --------------------------------------------------------------------- items

  function TextOf(s: Option<string>): string {
    if s.Some? then s.value else ""
  }

  function CallItem(index: int, id: string, name: string, arguments: string): Item {
    FunctionCall(if id != "" then id else "call_proxy_" + Decimal(index),
                 if name != "" then name else "tool", arguments)
  }

  // --------------------------------------------------------------------- plain

  /** The message the proxy answers with: blank content beside tool calls is dropped, reasoning is stripped. */
  function MessageText(c: Completion): string {
    if c.tools != [] && Blank(TextOf(c.content)) then "" else TextOf(c.content)
  }

  function CanonicalReasoning(s: Option<string>): Option<string> {
    if s.None? || Strip(s.value) == "" then None else Some(Strip(s.value))
  }

  function PlainCalls(tools: seq<ToolCall>): (r: seq<Item>)
    ensures |r| == |tools|
    ensures forall i | 0 <= i < |tools| :: r[i] == CallItem(i, tools[i].id, tools[i].name, tools[i].arguments)
  {
    seq(|tools|, i requires 0 <= i < |tools| => CallItem(i, tools[i].id, tools[i].name, tools[i].arguments))
  }

  function Assemble(reasoning: string, text: string, calls: seq<Item>): seq<Item> {
    (if reasoning != "" then [Reasoning(reasoning)] else [])
    + (if text != "" || calls == [] then [Message(text)] else [])
    + calls
  }

  /** _chat_completion_to_openai_response of the completion as the proxy answers it. */
  function PlainItems(c: Completion): seq<Item> {
    Assemble(TextOf(CanonicalReasoning(c.reasoning)), MessageText(c), PlainCalls(c.tools))
  }

  function PlainUsage(c: Completion): Usage {
    Usage(c.promptTokens, c.completionTokens, c.promptTokens + c.completionTokens)
  }

  // ---------------------------------------------------------- the pseudo-stream

  function Pieces(s: string): seq<string> {
    if |s| <= ChunkSize then (if s == "" then [] else [s]) else [s[..ChunkSize]] + Pieces(s[ChunkSize..])
  }

  function ReasoningDeltas(s: string): (r: seq<Chunk>)
    ensures |r| == |Pieces(s)| && forall i | 0 <= i < |r| :: r[i] == ReasoningDelta(Pieces(s)[i])
  {
    seq(|Pieces(s)|, i requires 0 <= i < |Pieces(s)| => ReasoningDelta(Pieces(s)[i]))
  }

  function ContentDeltas(s: string): (r: seq<Chunk>)
    ensures |r| == |Pieces(s)| && forall i | 0 <= i < |r| :: r[i] == ContentDelta(Pieces(s)[i])
  {
    seq(|Pieces(s)|, i requires 0 <= i < |Pieces(s)| => ContentDelta(Pieces(s)[i]))
  }

  function CallDeltas(tools: seq<ToolCall>): (r: seq<Chunk>)
    ensures |r| == |tools| && forall i | 0 <= i < |r| :: r[i] == CallDelta(tools[i])
  {
    seq(|tools|, i requires 0 <= i < |tools| => CallDelta(tools[i]))
  }

  function Closing(c: Completion, includeUsage: bool): seq<Chunk> {
    [Finished] + if includeUsage then [UsageReport(c.promptTokens, c.completionTokens)] else []
  }

  function PseudoStream(c: Completion, includeUsage: bool): seq<Chunk> {
    [Role] + ReasoningDeltas(TextOf(c.reasoning)) + ContentDeltas(TextOf(c.content)) + CallDeltas(c.tools)
    + Closing(c, includeUsage)
  }

  /** The loop over ranges of eight characters. */
  method CutInPieces(s: string) returns (pieces: seq<string>)
    ensures pieces == Pieces(s)
  {
    pieces := [];
    var start := 0;
    assert s[0..] == s;
    while start < |s|
      invariant 0 <= start
      invariant start <= |s| ==> pieces + Pieces(s[start..]) == Pieces(s)
      invariant start > |s| ==> pieces == Pieces(s)
      decreases |s| - start
    {
      var end := if start + ChunkSize < |s| then start + ChunkSize else |s|;
      assert s[start..][..end - start] == s[start..end];
      assert end < |s| ==> s[start..][ChunkSize..] == s[end..];
      assert end == |s| ==> s[start..] == s[start..end];
      assert Pieces(s[start..]) == [s[start..end]] + if end < |s| then Pieces(s[end..]) else [];
      pieces := pieces + [s[start..end]];
      start := start + ChunkSize;
    }
  }

  method ReasoningChunks(text: string) returns (chunks: seq<Chunk>)
    ensures chunks == ReasoningDeltas(text)
  {
    var pieces := CutInPieces(text);
    chunks := [];
    for i := 0 to |pieces|
      invariant |chunks| == i && forall k | 0 <= k < i :: chunks[k] == ReasoningDelta(pieces[k])
    {
      chunks := chunks + [ReasoningDelta(pieces[i])];
    }
  }

  method ContentChunks(text: string) returns (chunks: seq<Chunk>)
    ensures chunks == ContentDeltas(text)
  {
    var pieces := CutInPieces(text);
    chunks := [];
    for i := 0 to |pieces|
      invariant |chunks| == i && forall k | 0 <= k < i :: chunks[k] == ContentDelta(pieces[k])
    {
      chunks := chunks + [ContentDelta(pieces[i])];
    }
  }

  method CallChunks(tools: seq<ToolCall>) returns (chunks: seq<Chunk>)
    ensures chunks == CallDeltas(tools)
  {
    chunks := [];
    for i := 0 to |tools|
      invariant |chunks| == i && forall k | 0 <= k < i :: chunks[k] == CallDelta(tools[k])
    {
      chunks := chunks + [CallDelta(tools[i])];
    }
  }

  /** _pseudo_stream_chunks. */
  method PseudoStreamChunks(c: Completion, includeUsage: bool) returns (chunks: seq<Chunk>)
    ensures chunks == PseudoStream(c, includeUsage)
  {
    var reasoning := ReasoningChunks(TextOf(c.reasoning));
    var content := ContentChunks(TextOf(c.content));
    var calls := CallChunks(c.tools);
    var closing := [Finished];
    if includeUsage {
      closing := closing + [UsageReport(c.promptTokens, c.completionTokens)];
    }
    chunks := [Role] + reasoning + content + calls + closing;
  }

  // --------------------------------------------------------- putting it together

  /** What the translator has gathered for one tool index. */
  datatype Gathered = Gathered(id: string, name: string, arguments: seq<string>)

  datatype Sofar = Sofar(reasoning: string, text: string, calls: map<int, Gathered>, usage: Option<Usage>)

  const Nothing := Sofar("", "", map[], None)

  function GatherCall(calls: map<int, Gathered>, d: ToolCall): map<int, Gathered> {
    var g := if d.index in calls then calls[d.index] else Gathered("", "", []);
    calls[d.index := Gathered(if d.id != "" then d.id else g.id, if d.name != "" then d.name else g.name,
                              g.arguments + [d.arguments])]
  }

  function UsageOf(prompt: nat, completion: nat): Usage {
    Usage(prompt, completion, prompt + completion)
  }

  function Gather(s: Sofar, c: Chunk): Sofar {
    match c
    case ReasoningDelta(text) => s.(reasoning := s.reasoning + text)
    case ContentDelta(text) => s.(text := s.text + text)
    case CallDelta(d) => s.(calls := GatherCall(s.calls, d))
    case UsageReport(p, q) => s.(usage := Some(UsageOf(p, q)))
    case _ => s
  }

  function GatherAll(s: Sofar, chunks: seq<Chunk>): Sofar {
    if chunks == [] then s else Gather(GatherAll(s, chunks[..|chunks| - 1]), chunks[|chunks| - 1])
  }

  function Joined(parts: seq<string>): string {
    if parts == [] then "" else Joined(parts[..|parts| - 1]) + parts[|parts| - 1]
  }

  /** An index that gathered nothing at all is skipped. */
  function RecordOf(index: int, g: Gathered): seq<Item> {
    if g.id == "" && g.name == "" && g.arguments == [] then []
    else [CallItem(index, g.id, g.name, Joined(g.arguments))]
  }

  /** The records in the order of the given indices. */
  function Records(calls: map<int, Gathered>, order: seq<int>): seq<Item>
    requires forall k | k in order :: k in calls
  {
    if order == [] then []
    else
      assert forall k | k in order[..|order| - 1] :: k in order;
      Records(calls, order[..|order| - 1]) + RecordOf(order[|order| - 1], calls[order[|order| - 1]])
  }

  /** `order` lists the indices of `calls` in increasing order. */
  ghost predicate Sorted(calls: map<int, Gathered>, order: seq<int>) {
    && (forall k :: k in order <==> k in calls)
    && (forall i, j | 0 <= i < j < |order| :: order[i] < order[j])
  }

  method SmallestKey(keys: set<int>) returns (m: int)
    requires keys != {}
    ensures m in keys && forall k | k in keys :: m <= k
  {
    Inhabited(keys);
    m :| m in keys;
    var rest := keys - {m};
    while rest != {}
      invariant m in keys && rest <= keys
      invariant forall k | k in keys :: m <= k || k in rest
      decreases |rest|
    {
      Inhabited(rest);
      var k :| k in rest;
      rest := rest - {k};
      if k < m {
        m := k;
      }
    }
  }

  /** The list holds the keys below all of the rest, in increasing order. */
  ghost predicate SortedSoFar(keys: set<int>, order: seq<int>, rest: set<int>) {
    && (forall k :: k in keys <==> k in order || k in rest)
    && (forall i, j | 0 <= i < j < |order| :: order[i] < order[j])
    && (forall i, k | 0 <= i < |order| && k in rest :: order[i] < k)
  }

  lemma SmallestIsNext(keys: set<int>, order: seq<int>, rest: set<int>, m: int)
    requires SortedSoFar(keys, order, rest) && m in rest && forall k | k in rest :: m <= k
    ensures SortedSoFar(keys, order + [m], rest - {m})
  {
  }

  method SortedKeys(calls: map<int, Gathered>) returns (order: seq<int>)
    ensures Sorted(calls, order)
  {
    order := [];
    var rest := calls.Keys;
    while rest != {}
      invariant rest <= calls.Keys && SortedSoFar(calls.Keys, order, rest)
      decreases |rest|
    {
      var m := SmallestKey(rest);
      SmallestIsNext(calls.Keys, order, rest, m);
      order := order + [m];
      rest := rest - {m};
    }
  }

  /** The items of the completed response, given what was gathered: calls in increasing index order. */
  ghost predicate ItemsOf(s: Sofar, items: seq<Item>) {
    exists order :: Sorted(s.calls, order) && items == Assemble(s.reasoning, s.text, Records(s.calls, order))
  }

  /** _iter_openai_response_events_from_chat_stream: the output items and usage of the completed response. */
  method TranslateStream(chunks: seq<Chunk>) returns (items: seq<Item>, usage: Usage)
    ensures var s := GatherAll(Nothing, chunks);
            ItemsOf(s, items) && usage == if s.usage.Some? then s.usage.value else Usage(0, 0, 0)
  {
    var s := Nothing;
    for i := 0 to |chunks|
      invariant s == GatherAll(Nothing, chunks[..i])
    {
      assert chunks[..i + 1][..i] == chunks[..i];
      s := Gather(s, chunks[i]);
    }
    assert chunks[..|chunks|] == chunks;
    var order := SortedKeys(s.calls);
    var calls := CallRecords(s.calls, order);
    items := Assemble(s.reasoning, s.text, calls);
    usage := if s.usage.Some? then s.usage.value else Usage(0, 0, 0);
  }

  /** The loop of _openai_stream_tool_call_records. */
  method CallRecords(gathered: map<int, Gathered>, order: seq<int>) returns (items: seq<Item>)
    requires forall k | k in order :: k in gathered
    ensures items == Records(gathered, order)
  {
    items := [];
    for i := 0 to |order|
      invariant forall k | k in order[..i] :: k in gathered
      invariant items == Records(gathered, order[..i])
    {
      assert order[..i + 1][..i] == order[..i];
      assert order[i] in order;
      items := items + RecordOf(order[i], gathered[order[i]]);
    }
    assert order[..|order|] == order;
  }

  // ---------------------------------------------------------------- refinement

  lemma {:induction false} GatherConcat(s: Sofar, a: seq<Chunk>, b: seq<Chunk>)
    ensures GatherAll(s, a + b) == GatherAll(GatherAll(s, a), b)
  {
    if b == [] {
      assert a + b == a;
    } else {
      assert (a + b)[..|a + b| - 1] == a + b[..|b| - 1];
      GatherConcat(s, a, b[..|b| - 1]);
    }
  }

  lemma {:induction false} JoinedCons(x: string, parts: seq<string>)
    ensures Joined([x] + parts) == x + Joined(parts)
  {
    if parts == [] {
      assert ([x] + parts)[..0] == [];
      assert Joined([x] + parts) == "" + x;
    } else {
      assert ([x] + parts)[..|parts|] == [x] + parts[..|parts| - 1];
      JoinedCons(x, parts[..|parts| - 1]);
      Regroup(x, Joined(parts[..|parts| - 1]), parts[|parts| - 1]);
    }
  }

  /** Cutting and joining is the identity. */
  lemma {:induction false} PiecesJoin(s: string)
    ensures Joined(Pieces(s)) == s
  {
    if |s| > ChunkSize {
      PiecesJoin(s[ChunkSize..]);
      JoinedCons(s[..ChunkSize], Pieces(s[ChunkSize..]));
    } else if s != "" {
      assert Pieces(s)[..0] == [];
      assert "" + s == s;
    }
  }

  lemma {:induction false} GatherReasoning(s: Sofar, parts: seq<string>, chunks: seq<Chunk>)
    requires |chunks| == |parts| && forall i | 0 <= i < |parts| :: chunks[i] == ReasoningDelta(parts[i])
    ensures GatherAll(s, chunks) == s.(reasoning := s.reasoning + Joined(parts))
  {
    if parts != [] {
      var n := |parts| - 1;
      GatherReasoning(s, parts[..n], chunks[..n]);
      assert s.reasoning + Joined(parts[..n]) + parts[n] == s.reasoning + Joined(parts);
    } else {
      assert s.reasoning + "" == s.reasoning;
    }
  }

  lemma {:induction false} GatherContent(s: Sofar, parts: seq<string>, chunks: seq<Chunk>)
    requires |chunks| == |parts| && forall i | 0 <= i < |parts| :: chunks[i] == ContentDelta(parts[i])
    ensures GatherAll(s, chunks) == s.(text := s.text + Joined(parts))
  {
    if parts != [] {
      var n := |parts| - 1;
      GatherContent(s, parts[..n], chunks[..n]);
      assert s.text + Joined(parts[..n]) + parts[n] == s.text + Joined(parts);
    } else {
      assert s.text + "" == s.text;
    }
  }

  /** The parser numbers the calls of a completion from zero. */
  ghost predicate Numbered(tools: seq<ToolCall>) {
    forall i | 0 <= i < |tools| :: tools[i].index == i
  }

  /** Each call was gathered whole, under its own number. */
  ghost predicate Whole(calls: map<int, Gathered>, tools: seq<ToolCall>) {
    && (forall k :: k in calls <==> 0 <= k < |tools|)
    && (forall i | 0 <= i < |tools| :: calls[i] == Gathered(tools[i].id, tools[i].name, [tools[i].arguments]))
  }

  lemma {:induction false} GatherCalls(s: Sofar, tools: seq<ToolCall>, chunks: seq<Chunk>)
    requires s.calls == map[] && Numbered(tools)
    requires |chunks| == |tools| && forall i | 0 <= i < |tools| :: chunks[i] == CallDelta(tools[i])
    ensures var r := GatherAll(s, chunks); Whole(r.calls, tools) && r == s.(calls := r.calls)
  {
    if tools != [] {
      var n := |tools| - 1;
      GatherCalls(s, tools[..n], chunks[..n]);
      CallGathered(GatherAll(s, chunks[..n]).calls, tools);
    }
  }

  lemma CallGathered(calls: map<int, Gathered>, tools: seq<ToolCall>)
    requires tools != [] && Numbered(tools) && Whole(calls, tools[..|tools| - 1])
    ensures Whole(GatherCall(calls, tools[|tools| - 1]), tools)
  {
  }

  /** What the translator has gathered at the end of a pseudo-stream. */
  lemma StreamGathers(c: Completion, includeUsage: bool)
    requires Numbered(c.tools)
    ensures var r := GatherAll(Nothing, PseudoStream(c, includeUsage));
            && r.reasoning == TextOf(c.reasoning) && r.text == TextOf(c.content) && Whole(r.calls, c.tools)
            && r.usage == if includeUsage then Some(PlainUsage(c)) else None
  {
    var reasoning, content := TextOf(c.reasoning), TextOf(c.content);
    var a := [Role] + ReasoningDeltas(reasoning);
    var b := a + ContentDeltas(content);
    var d := b + CallDeltas(c.tools);
    GatherConcat(Nothing, d, Closing(c, includeUsage));
    GatherConcat(Nothing, b, CallDeltas(c.tools));
    GatherConcat(Nothing, a, ContentDeltas(content));
    GatherConcat(Nothing, [Role], ReasoningDeltas(reasoning));
    OneChunk(Nothing, Role);
    PiecesJoin(reasoning);
    PiecesJoin(content);
    GatherReasoning(Nothing, Pieces(reasoning), ReasoningDeltas(reasoning));
    var s1 := GatherAll(Nothing, a);
    GatherContent(s1, Pieces(content), ContentDeltas(content));
    GatherCalls(GatherAll(Nothing, b), c.tools, CallDeltas(c.tools));
    GatherClosing(GatherAll(Nothing, d), c, includeUsage);
  }

  lemma OneChunk(s: Sofar, c: Chunk)
    ensures GatherAll(s, [c]) == Gather(s, c)
  {
    assert [c][..0] == [];
  }

  lemma GatherClosing(s: Sofar, c: Completion, includeUsage: bool)
    ensures GatherAll(s, Closing(c, includeUsage)) == if includeUsage then s.(usage := Some(PlainUsage(c))) else s
  {
    var report := UsageReport(c.promptTokens, c.completionTokens);
    OneChunk(s, Finished);
    OneChunk(s, report);
    GatherConcat(s, [Finished], if includeUsage then [report] else []);
  }

  lemma {:induction false} SortedIsCounting(calls: map<int, Gathered>, order: seq<int>, n: nat, i: nat)
    requires Sorted(calls, order) && (forall k :: k in calls <==> 0 <= k < n) && i <= n
    ensures i <= |order| && forall j | 0 <= j < i :: order[j] == j
  {
    if i > 0 {
      SortedIsCounting(calls, order, n, i - 1);
      assert i - 1 in calls;
      var p :| 0 <= p < |order| && order[p] == i - 1;
      assert p >= i - 1;
      assert order[i - 1] in order;
      assert i > 1 ==> order[i - 2] < order[i - 1];
    }
  }

  lemma {:induction false} AtLeastPosition(calls: map<int, Gathered>, order: seq<int>, n: nat, j: nat)
    requires Sorted(calls, order) && (forall k :: k in calls <==> 0 <= k < n) && j < |order|
    ensures j <= order[j] < n
  {
    assert order[j] in order;
    if j > 0 {
      AtLeastPosition(calls, order, n, j - 1);
    }
  }

  lemma SortedIsRange(calls: map<int, Gathered>, order: seq<int>, n: nat)
    requires Sorted(calls, order) && forall k :: k in calls <==> 0 <= k < n
    ensures |order| == n && forall j | 0 <= j < n :: order[j] == j
  {
    SortedIsCounting(calls, order, n, n);
    if order != [] {
      AtLeastPosition(calls, order, n, |order| - 1);
    }
  }

  lemma {:induction false} RecordsArePlain(calls: map<int, Gathered>, tools: seq<ToolCall>, order: seq<int>)
    requires Whole(calls, tools) && |order| <= |tools| && forall i | 0 <= i < |order| :: order[i] == i
    ensures (forall k | k in order :: k in calls) && Records(calls, order) == PlainCalls(tools)[..|order|]
  {
    if order != [] {
      var n := |order| - 1;
      RecordsArePlain(calls, tools, order[..n]);
      WholeRecord(calls, tools, n);
      OneItemMore(PlainCalls(tools), n);
    }
  }

  lemma OneItemMore<T>(items: seq<T>, n: nat)
    requires n < |items|
    ensures items[..n + 1] == items[..n] + [items[n]]
  {
  }

  lemma WholeRecord(calls: map<int, Gathered>, tools: seq<ToolCall>, n: nat)
    requires Whole(calls, tools) && n < |tools|
    ensures RecordOf(n, calls[n]) == [PlainCalls(tools)[n]]
  {
    assert [tools[n].arguments][..0] == [];
    assert Joined([tools[n].arguments]) == "" + tools[n].arguments == tools[n].arguments;
  }

  /** What a completion must satisfy for its streamed form to say the same as its plain form. */
  predicate Streamable(c: Completion) {
    && Strip(TextOf(c.reasoning)) == TextOf(c.reasoning)
    && (c.tools == [] || TextOf(c.content) == "" || !Blank(TextOf(c.content)))
  }

  lemma AssembleAgrees(r: string, r': string, t: string, t': string, calls: seq<Item>)
    requires t' == t || (t' == "" && calls != [])
    requires r' == r || r != ""
    requires forall i | 0 <= i < |calls| :: calls[i].FunctionCall?
    ensures Assemble(r, t, calls) == Assemble(r', t', calls) <==> r == r' && t == t'
  {
    if r == r' && t != t' {
      assert |Assemble(r, t, calls)| == |Assemble(r', t', calls)| + 1;
    }
    if r != r' {
      assert Assemble(r, t, calls)[0] == Reasoning(r);
      if r' != "" {
        assert Assemble(r', t', calls)[0] == Reasoning(r');
      } else if t' != "" || calls == [] {
        assert Assemble(r', t', calls)[0] == Message(t');
      } else {
        assert Assemble(r', t', calls)[0] == calls[0];
      }
    }
  }

  /** What the translator answers for the pseudo-stream of a completion. */
  lemma StreamedItems(c: Completion, includeUsage: bool, order: seq<int>)
    requires Numbered(c.tools) && Sorted(GatherAll(Nothing, PseudoStream(c, includeUsage)).calls, order)
    ensures var s := GatherAll(Nothing, PseudoStream(c, includeUsage));
            Assemble(s.reasoning, s.text, Records(s.calls, order))
            == Assemble(TextOf(c.reasoning), TextOf(c.content), PlainCalls(c.tools))
  {
    var s := GatherAll(Nothing, PseudoStream(c, includeUsage));
    StreamGathers(c, includeUsage);
    WholeRecords(s.calls, c.tools, order);
  }

  lemma WholeRecords(calls: map<int, Gathered>, tools: seq<ToolCall>, order: seq<int>)
    requires Whole(calls, tools) && Sorted(calls, order)
    ensures Records(calls, order) == PlainCalls(tools)
  {
    SortedIsRange(calls, order, |tools|);
    RecordsArePlain(calls, tools, order);
    assert PlainCalls(tools)[..|order|] == PlainCalls(tools);
  }

  lemma RawItemsArePlainIff(c: Completion)
    ensures Assemble(TextOf(c.reasoning), TextOf(c.content), PlainCalls(c.tools)) == PlainItems(c) <==> Streamable(c)
  {
    StripIsStable(TextOf(c.reasoning));
    AssembleAgrees(TextOf(c.reasoning), TextOf(CanonicalReasoning(c.reasoning)), TextOf(c.content), MessageText(c),
                   PlainCalls(c.tools));
  }

  /**
    Streaming refines plain: for a completion whose calls are numbered in order, the streamed items are
    the plain items if and only if the reasoning is stripped and no blank content sits beside tool calls.
   */
  lemma StreamedItemsArePlainIff(c: Completion, includeUsage: bool, order: seq<int>)
    requires Numbered(c.tools) && Sorted(GatherAll(Nothing, PseudoStream(c, includeUsage)).calls, order)
    ensures var s := GatherAll(Nothing, PseudoStream(c, includeUsage));
            Assemble(s.reasoning, s.text, Records(s.calls, order)) == PlainItems(c) <==> Streamable(c)
  {
    StreamedItems(c, includeUsage, order);
    RawItemsArePlainIff(c);
  }

  /** Reasoning with white space around it is streamed as it is and answered stripped. */
  lemma UnstrippedReasoningDiffers(c: Completion, includeUsage: bool, order: seq<int>)
    requires c.reasoning.Some? && c.reasoning.value != "" && White(c.reasoning.value[0])
    requires Numbered(c.tools) && Sorted(GatherAll(Nothing, PseudoStream(c, includeUsage)).calls, order)
    ensures var s := GatherAll(Nothing, PseudoStream(c, includeUsage));
            Assemble(s.reasoning, s.text, Records(s.calls, order)) != PlainItems(c)
  {
    var r := c.reasoning.value;
    assert Strip(r) != r;
    StreamedItemsArePlainIff(c, includeUsage, order);
  }

  /** Blank content beside a tool call is streamed as a message and dropped from the plain answer. */
  lemma BlankContentDiffers(c: Completion, includeUsage: bool, order: seq<int>)
    requires c.tools != [] && c.content.Some? && c.content.value != "" && Blank(c.content.value)
    requires Numbered(c.tools) && Sorted(GatherAll(Nothing, PseudoStream(c, includeUsage)).calls, order)
    ensures var s := GatherAll(Nothing, PseudoStream(c, includeUsage));
            Assemble(s.reasoning, s.text, Records(s.calls, order)) != PlainItems(c)
  {
    StreamedItemsArePlainIff(c, includeUsage, order);
  }

  // ------------------------------------------------------- reading the items back

  /**
    The item of the completion's i-th call: its own id, name and arguments, with a stand-in for an empty
    id or name.
   */
  predicate IsCall(item: Item, t: ToolCall, i: nat) {
    && item.FunctionCall? && item.arguments == t.arguments
    && (if t.id != "" then item.callId == t.id else item.callId == "call_proxy_" + Decimal(i))
    && (if t.name != "" then item.name == t.name else item.name == "tool")
  }

  /**
    What a consumer reads: reasoning first if there is any, then the message, which is there unless it is empty
    and there are calls, then the calls in order; and nothing else.
   */
  ghost predicate Reads(items: seq<Item>, reasoning: string, text: string, tools: seq<ToolCall>) {
    var before, message := if reasoning != "" then 1 else 0, if text != "" || tools == [] then 1 else 0;
    && |items| == before + message + |tools|
    && (before == 1 ==> items[0] == Reasoning(reasoning))
    && (message == 1 ==> items[before] == Message(text))
    && (forall i: nat | i < |tools| :: IsCall(items[before + message..][i], tools[i], i))
  }

  lemma AssembledReads(reasoning: string, text: string, tools: seq<ToolCall>)
    ensures Reads(Assemble(reasoning, text, PlainCalls(tools)), reasoning, text, tools)
  {
    var head := (if reasoning != "" then [Reasoning(reasoning)] else [])
                + (if text != "" || tools == [] then [Message(text)] else []);
    var items := Assemble(reasoning, text, PlainCalls(tools));
    assert items == head + PlainCalls(tools);
    assert items[|head|..] == PlainCalls(tools);
  }

  /** The plain items say the stripped reasoning, the content unless it is blank beside calls, and every call. */
  lemma PlainItemsRead(c: Completion)
    ensures var text := TextOf(c.content);
            Reads(PlainItems(c), Strip(TextOf(c.reasoning)),
                  if c.tools != [] && Blank(text) then "" else text, c.tools)
  {
    AssembledReads(TextOf(CanonicalReasoning(c.reasoning)), MessageText(c), c.tools);
  }

  /** The streamed items say the completion's reasoning, content and calls as they are. */
  lemma StreamedItemsRead(c: Completion, includeUsage: bool, order: seq<int>)
    requires Numbered(c.tools) && Sorted(GatherAll(Nothing, PseudoStream(c, includeUsage)).calls, order)
    ensures var s := GatherAll(Nothing, PseudoStream(c, includeUsage));
            Reads(Assemble(s.reasoning, s.text, Records(s.calls, order)), TextOf(c.reasoning), TextOf(c.content),
                  c.tools)
  {
    StreamedItems(c, includeUsage, order);
    AssembledReads(TextOf(c.reasoning), TextOf(c.content), c.tools);
  }

  // ------------------------------------------------ completions the proxy emits

  function EndsWith(s: string, marker: string): bool {
    |marker| <= |s| && s[|s| - |marker|..] == marker
  }

  /** Removes a trailing stop marker as often as it occurs. */
  function DropMarker(s: string, marker: string): string
    requires marker != ""
    decreases |s|
  {
    var t := RStrip(s);
    if EndsWith(t, marker) then DropMarker(t[..|t| - |marker|], marker) else s
  }

  /** _strip_public_stop_markers. */
  function StripStopMarkers(content: Option<string>): (r: Option<string>)
    ensures r.Some? ==> !Blank(r.value)
  {
    if content.None? then None
    else
      var cleaned := DropMarker(DropMarker(content.value, "<|im_end|>"), "<|endoftext|>");
      if Blank(cleaned) then None else Some(cleaned)
  }

  /** `r` is `s` without the markers at its end and the white space between them. */
  predicate Unmarked(s: string, marker: string, r: string) {
    r <= s && !EndsWith(RStrip(r), marker) && (r == s <==> !EndsWith(RStrip(s), marker))
  }

  lemma OneMarkerMore(s: string, marker: string, r: string)
    requires marker != "" && EndsWith(RStrip(s), marker)
    requires Unmarked(RStrip(s)[..|RStrip(s)| - |marker|], marker, r)
    ensures Unmarked(s, marker, r)
  {
    assert |r| < |s|;
  }

  /** Markers go from the end, with the white space between them; other content stays as it is. */
  lemma {:induction false} MarkersAreDropped(s: string, marker: string)
    requires marker != ""
    ensures Unmarked(s, marker, DropMarker(s, marker))
    decreases |s|
  {
    var t := RStrip(s);
    if EndsWith(t, marker) {
      MarkersAreDropped(t[..|t| - |marker|], marker);
      OneMarkerMore(s, marker, DropMarker(t[..|t| - |marker|], marker));
    }
  }

  lemma PublicContentIsUnmarked(content: string)
    ensures var r, t := StripStopMarkers(Some(content)), RStrip(content);
            && (r.Some? ==> r.value <= content && !EndsWith(RStrip(r.value), "<|endoftext|>"))
            && (!Blank(content) && !EndsWith(t, "<|im_end|>") && !EndsWith(t, "<|endoftext|>") ==> r == Some(content))
  {
    MarkersAreDropped(content, "<|im_end|>");
    MarkersAreDropped(DropMarker(content, "<|im_end|>"), "<|endoftext|>");
  }

  /** The completion the pipeline hands on, from what its parsers returned. */
  function Emitted(content: Option<string>, reasoning: Option<string>, tools: seq<ToolCall>, p: nat, q: nat):
      Completion
  {
    Completion(StripStopMarkers(content), CanonicalReasoning(reasoning), tools, p, q)
  }

  /** Every completion the proxy can emit streams exactly as it reads plainly. */
  lemma EmittedCompletionsStreamAlike(content: Option<string>, reasoning: Option<string>, tools: seq<ToolCall>,
                                      p: nat, q: nat, includeUsage: bool, order: seq<int>)
    requires Numbered(tools)
    requires var chunks := PseudoStream(Emitted(content, reasoning, tools, p, q), includeUsage);
             Sorted(GatherAll(Nothing, chunks).calls, order)
    ensures var c := Emitted(content, reasoning, tools, p, q);
            var s := GatherAll(Nothing, PseudoStream(c, includeUsage));
            Assemble(s.reasoning, s.text, Records(s.calls, order)) == PlainItems(c)
  {
    var c := Emitted(content, reasoning, tools, p, q);
    if reasoning.Some? {
      StripIsStable(reasoning.value);
    }
    StreamedItemsArePlainIff(c, includeUsage, order);
  }

  /** The streamed usage is the plain one when usage is included, and otherwise only for an empty count. */
  lemma StreamedUsageIsPlainIff(c: Completion, includeUsage: bool)
    requires Numbered(c.tools)
    ensures var u := GatherAll(Nothing, PseudoStream(c, includeUsage)).usage;
            (if u.Some? then u.value else Usage(0, 0, 0)) == PlainUsage(c)
            <==> includeUsage || (c.promptTokens == 0 && c.completionTokens == 0)
  {
    StreamGathers(c, includeUsage);
  }

  /** The whole way: a completion sent as a pseudo-stream and translated again. */
  method StreamCompletion(c: Completion, includeUsage: bool) returns (items: seq<Item>, usage: Usage)
    requires Numbered(c.tools)
    ensures Reads(items, TextOf(c.reasoning), TextOf(c.content), c.tools)
    ensures items == PlainItems(c) <==> Streamable(c)
    ensures usage == PlainUsage(c) <==> includeUsage || (c.promptTokens == 0 && c.completionTokens == 0)
  {
    var chunks := PseudoStreamChunks(c, includeUsage);
    items, usage := TranslateStream(chunks);
    ghost var s := GatherAll(Nothing, chunks);
    ghost var order :| Sorted(s.calls, order) && items == Assemble(s.reasoning, s.text, Records(s.calls, order));
    StreamedItemsArePlainIff(c, includeUsage, order);
    StreamedItemsRead(c, includeUsage, order);
    StreamedUsageIsPlainIff(c, includeUsage);
  }
}
