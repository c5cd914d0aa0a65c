/**
  The session object the proxy keeps per conversation (dressage/proxy/session_manager.py:93-199, 471-569)
  and the operations of dressage/proxy/server.py that read and change it, each proved to do what the
  specification of the recorder and of routing says.
 */
module ProxySession {
  import opened Wrappers
  import opened Sequences
  import opened Lineages
  import opened Routing
  import opened Recorder

  class ProxySession {
    const tp: Template
    const tk: Tokenizer
    const index: PrefixIndex
    var steps: seq<Step>
    var lineages: seq<Lineage>
    var stepCounter: nat
    var cache: seq<Cached>
    /** The tools each remembered rendering was made with, which the source does not keep. */
    ghost var made: seq<Tools>

    function View(): Session
      reads this
    {
      Session(steps, lineages, stepCounter)
    }

    ghost predicate Valid()
      reads this, index
    {
      && Inv(View())
      && CacheOk(tp, steps, cache, made)
      && index.Valid()
      && Indexed()
    }

    /** The prefix index holds the recorded steps, in order. */
    ghost predicate Indexed()
      reads this, index
    {
      |index.allStepIds| == |steps| && forall i | 0 <= i < |steps| :: index.allStepIds[i] == steps[i].id
    }

    constructor (tp: Template, tk: Tokenizer)
      ensures Valid() && View() == Empty && this.tp == tp && this.tk == tk && fresh(index)
    {
      this.tp, this.tk := tp, tk;
      index := new PrefixIndex();
      steps, lineages, stepCounter, cache, made := [], [], 0, [], [];
    }

    /** _lineage_tito_prefix_token_ids. */
    method LineagePrefix(lineage: nat) returns (tokens: seq<Token>)
      ensures tokens == SegmentTokens(steps, lineage)
    {
      var mine := StepsOf(steps, lineage);
      var start := FindTail(mine);
      TailIsSuffix(mine);
      SegmentIsTail(steps, lineage);
      tokens := JoinTokens(mine[start..]);
    }

    /**
      _candidate_snapshot_rendered: a usable remembered rendering, or else a fresh one, remembered. What it
      answers is fresh exactly when the remembered tools render the step's conversation alike.
     */
    method CandidateRendered(i: nat, tools: Tools) returns (r: Option<string>)
      requires i < |steps| && CacheOk(tp, steps, cache, made)
      modifies this`cache, this`made
      ensures r == Read(tp, steps[i].messages, old(cache[i]), tools)
      ensures r == tp.render(steps[i].messages, tools, false)
              <==> old(cache[i]).rendered == "" || ToolsChanged(tp, old(made[i]), tools)
                   || tp.render(steps[i].messages, old(made[i]), false) == tp.render(steps[i].messages, tools, false)
      ensures CacheOk(tp, steps, cache, made)
      ensures r.Some? ==> cache[i].rendered == r.value
      ensures forall j | 0 <= j < |steps| && j != i :: cache[j] == old(cache[j]) && made[j] == old(made[j])
    {
      CachedIsFreshIff(tp, steps[i].messages, cache[i], made[i], tools);
      var key := tp.key(tools);
      if cache[i].key == key && cache[i].rendered != "" {
        return Some(cache[i].rendered);
      }
      r := tp.render(steps[i].messages, tools, false);
      if r.Some? {
        cache := cache[i := Cached(r.value, |r.value|, key)];
        made := made[i := tools];
      }
    }

    method CreateLineage(branchFrom: Option<nat>) returns (id: nat)
      modifies this`lineages
      ensures id == |old(lineages)| && lineages == old(lineages) + [Lineage(None, branchFrom)]
    {
      id := |lineages|;
      lineages := lineages + [Lineage(None, branchFrom)];
    }

    /** The candidates as positions in `steps`: every recorded step, once, in whatever order. */
    method CandidatePositions(messages: seq<Message>) returns (ps: seq<nat>)
      requires Valid()
      ensures NoDuplicates(ps)
      ensures forall i: nat :: i in ps <==> i < |steps|
    {
      var ids := index.Candidates(messages);
      ps := [];
      for n := 0 to |ids|
        invariant |ps| == n && forall m | 0 <= m < n :: ps[m] < |steps| && steps[ps[m]].id == ids[m]
      {
        assert ids[n] in ids;
        var i := Position(ids[n]);
        ps := ps + [i];
      }
      PositionsComplete(ids, ps);
    }

    lemma PositionsComplete(ids: seq<nat>, ps: seq<nat>)
      requires Ids(View()) && Indexed() && NoDuplicates(ids) && (forall id :: id in ids <==> id in index.allStepIds)
      requires |ps| == |ids| && forall m | 0 <= m < |ps| :: ps[m] < |steps| && steps[ps[m]].id == ids[m]
      ensures NoDuplicates(ps)
      ensures forall i: nat :: i in ps <==> i < |steps|
    {
      forall i: nat | i < |steps| ensures i in ps {
        assert index.allStepIds[i] in ids;
        var m :| 0 <= m < |ids| && ids[m] == steps[i].id;
        assert ps[m] == i;
      }
    }

    /** steps_by_id together with the enumeration order of the steps. */
    method Position(id: nat) returns (i: nat)
      requires Indexed() && id in index.allStepIds
      ensures i < |steps| && steps[i].id == id
    {
      i := 0;
      while steps[i].id != id
        invariant i < |steps| && exists j | i <= j < |steps| :: steps[j].id == id
        decreases |steps| - i
      {
        i := i + 1;
      }
    }

    /** What the selection will read for each step. */
    ghost function Seen(tools: Tools): Renderings
      requires |cache| == |steps|
      reads this
    {
      CachedRenderings(tp, View(), cache, tools)
    }

    /** After a step was read, its remembered rendering is what was read. */
    ghost predicate ReadAt(seen: Renderings, i: nat)
      requires i < |seen| == |cache|
      reads this
    {
      seen[i] == Some(cache[i].rendered)
    }

    static predicate MatchesAt(seen: Renderings, i: nat, current: string)
      requires i < |seen|
    {
      seen[i].Some? && seen[i].value <= current
    }

    /** The first loop of _select_route: which of the positions render to a prefix of the request. */
    method RenderCandidates(ps: seq<nat>, tools: Tools, current: string, ghost seen: Renderings)
      returns (r: Option<seq<nat>>)
      requires CacheOk(tp, steps, cache, made) && NoDuplicates(ps) && seen == Seen(tools)
      requires forall m | 0 <= m < |ps| :: ps[m] < |steps|
      modifies this`cache, this`made
      ensures CacheOk(tp, steps, cache, made)
      ensures r.None? ==> exists i: nat | i < |seen| :: seen[i].None?
      ensures r.Some? ==> forall m | 0 <= m < |ps| :: ReadAt(seen, ps[m])
      ensures r.Some? ==> NoDuplicates(r.value)
      ensures r.Some? ==> forall i: nat :: i in r.value <==> i < |steps| && i in ps && MatchesAt(seen, i, current)
    {
      var valid: seq<nat> := [];
      for n := 0 to |ps|
        modifies this`cache, this`made
        invariant CacheOk(tp, steps, cache, made)
        invariant forall m | 0 <= m < n :: ReadAt(seen, ps[m])
        invariant forall m | n <= m < |ps| :: cache[ps[m]] == old(cache)[ps[m]]
        invariant NoDuplicates(valid)
        invariant forall i: nat :: i in valid <==> i < |steps| && i in ps[..n] && MatchesAt(seen, i, current)
      {
        ghost var before := cache;
        var rendered := CandidateRendered(ps[n], tools);
        assert rendered == seen[ps[n]];
        if rendered.None? {
          return None;
        }
        assert forall m | 0 <= m < |ps| && m != n :: cache[ps[m]] == before[ps[m]];
        assert ps[..n + 1] == ps[..n] + [ps[n]];
        if rendered.value <= current {
          NoDuplicatesSnoc(valid, ps[n]);
          valid := valid + [ps[n]];
        }
      }
      assert ps[..|ps|] == ps;
      r := Some(valid);
    }

    method MatchingCandidates(messages: seq<Message>, tools: Tools, current: string, ghost seen: Renderings)
      returns (r: Option<seq<nat>>)
      requires Valid() && seen == Seen(tools)
      modifies this`cache, this`made
      ensures CacheOk(tp, steps, cache, made)
      ensures r.Some? <==> AllSeen(View(), seen)
      ensures r.Some? ==> NoDuplicates(r.value)
      ensures r.Some? ==> forall i: nat :: i in r.value <==> i in Matching(View(), seen, current)
      ensures r.Some? ==> forall i: nat | i < |steps| :: ReadAt(seen, i)
    {
      var ps := CandidatePositions(messages);
      assert forall m | 0 <= m < |ps| :: ps[m] in ps;
      r := RenderCandidates(ps, tools, current, seen);
      if r.Some? {
        forall i: nat | i < |steps| ensures ReadAt(seen, i) {
          assert i in ps;
        }
        forall i: nat | i < |seen| ensures seen[i].Some? {
          assert ReadAt(seen, i);
        }
      }
    }

    /** The candidate _select_route settles on; None when rendering raised. */
    method ChooseBase(messages: seq<Message>, tools: Tools, ghost seen: Renderings) returns (r: Option<Choice>)
      requires Valid() && seen == Seen(tools)
      modifies this`cache, this`made
      ensures CacheOk(tp, steps, cache, made)
      ensures r.Some? <==> Routable(tp, View(), seen, messages, tools)
      ensures r.Some? ==> r.value == Choose(tp, View(), seen, messages, tools)
    {
      var current := tp.render(messages, tools, true);
      if current.None? {
        return None;
      }
      var found := MatchingCandidates(messages, tools, current.value, seen);
      if found.None? {
        return None;
      }
      var keys := SortKeys();
      KeysAreRead(seen, keys);
      ghost var matching, retooled := Matching(View(), seen, current.value), Retooled(tp, View(), messages, tools);
      var best := BestOf(keys, found.value, matching);
      if best.Some? {
        BestIsUnique(keys, matching, best.value, Best(keys, matching));
        return Some(Continues(best.value));
      }
      var base := RetooledCandidate(messages, tools, keys);
      if base.Some? {
        BestIsUnique(keys, retooled, base.value, Best(keys, retooled));
        return Some(Retools(base.value));
      }
      return Some(Nothing);
    }

    /** sort_key for every step, from the remembered renderings. */
    method SortKeys() returns (keys: seq<Key>)
      requires |cache| == |steps|
      ensures |keys| == |steps| && forall i: nat | i < |steps| :: keys[i] == KeyOf(View(), i, cache[i].rendered)
    {
      keys := [];
      for i := 0 to |steps|
        invariant |keys| == i && forall j: nat | j < i :: keys[j] == KeyOf(View(), j, cache[j].rendered)
      {
        keys := keys + [KeyOf(View(), i, cache[i].rendered)];
      }
    }

    lemma KeysAreRead(seen: Renderings, keys: seq<Key>)
      requires |cache| == |steps| && AllSeen(View(), seen)
      requires forall i: nat | i < |steps| :: ReadAt(seen, i)
      requires |keys| == |steps| && forall i: nat | i < |steps| :: keys[i] == KeyOf(View(), i, cache[i].rendered)
      ensures keys == Keys(View(), seen)
    {
      forall i: nat | i < |steps| ensures keys[i] == Keys(View(), seen)[i] {
        assert ReadAt(seen, i);
      }
    }

    /** Sorting and taking the first. */
    method BestOf(keys: seq<Key>, xs: seq<nat>, ghost c: set<nat>) returns (r: Option<nat>)
      requires Separated(keys) && NoDuplicates(xs) && (forall i: nat :: i in xs <==> i in c)
      requires forall i | i in c :: i < |keys|
      ensures if r.Some? then IsBest(keys, c, r.value) else c == {}
    {
      assert forall k | 0 <= k < |xs| :: xs[k] in xs;
      if xs == [] {
        return None;
      }
      var ordered := Sort(keys, xs);
      SortAscends(keys, xs);
      assert xs[0] in ordered;
      FirstMemberIsBest(keys, ordered, c, 0);
      return Some(ordered[0]);
    }

    /**
      _select_route; None when rendering raised. The route is the specified one for the renderings that are
      read, and the one for fresh renderings under a key that is fine enough.
     */
    method SelectRoute(messages: seq<Message>, tools: Tools) returns (r: Option<Route>)
      requires Valid()
      modifies this
      ensures CacheOk(tp, steps, cache, made)
      ensures var seen := old(Seen(tools));
              && (r.Some? <==> Routable(tp, old(View()), seen, messages, tools))
              && (r.Some? ==> r.value == RouteFor(tp, old(View()), seen, messages, tools))
              && (KeyRenders(tp) ==> seen == FreshRenderings(tp, old(View()), tools))
      ensures View() == if r.Some? then OpenLineage(old(View()), r.value) else old(View())
    {
      if KeyRenders(tp) {
        FineKeyReadsFresh(tp, View(), cache, made, tools);
      }
      var choice := ChooseBase(messages, tools, Seen(tools));
      if choice.None? {
        return None;
      }
      match choice.value {
        case Nothing =>
          var lineage := CreateLineage(None);
          return Some(Route(lineage, Create, None));
        case Retools(i) =>
          return Some(AppendTo(View(), i));
        case Continues(i) =>
          if IsLatest(View(), i) {
            return Some(AppendTo(View(), i));
          }
          var lineage := CreateLineage(Some(steps[i].id));
          return Some(Route(lineage, Branch, Some(steps[i].id)));
      }
    }

    /** The steps whose conversation the request continues message by message. */
    method ContinuedSteps(messages: seq<Message>) returns (r: seq<nat>)
      ensures NoDuplicates(r)
      ensures forall j: nat :: j in r <==> j < |steps| && steps[j].messages <= messages
    {
      r := [];
      for i := 0 to |steps|
        invariant NoDuplicates(r)
        invariant forall j: nat :: j in r <==> j < i && steps[j].messages <= messages
      {
        if steps[i].messages <= messages {
          NoDuplicatesSnoc(r, i);
          r := r + [i];
        }
      }
    }

    /** The fallback of _select_route: a lineage that only the tools separate from the request. */
    method RetooledCandidate(messages: seq<Message>, tools: Tools, keys: seq<Key>) returns (r: Option<nat>)
      requires |keys| == |steps| && Separated(keys)
      ensures var c := Retooled(tp, View(), messages, tools);
              if r.Some? then IsBest(keys, c, r.value) else c == {}
    {
      var candidates := ContinuedSteps(messages);
      assert forall k | 0 <= k < |candidates| :: candidates[k] in candidates;
      var ordered := Sort(keys, candidates);
      SortAscends(keys, candidates);
      ghost var c := Retooled(tp, View(), messages, tools);
      assert forall k | 0 <= k < |ordered| :: ordered[k] in ordered;
      assert forall i | i in c :: i in candidates && i in ordered;
      var k := FirstRetooled(ordered, tools);
      if k.None? {
        return None;
      }
      FirstMemberIsBest(keys, ordered, c, k.value);
      return Some(ordered[k.value]);
    }

    predicate RetoolsAt(i: nat, tools: Tools)
      requires i < |steps|
      reads this
    {
      IsLatest(View(), i) && ToolsChanged(tp, steps[i].tools, tools)
    }

    method FirstRetooled(ordered: seq<nat>, tools: Tools) returns (r: Option<nat>)
      requires forall k | 0 <= k < |ordered| :: ordered[k] < |steps|
      ensures r.None? ==> forall k | 0 <= k < |ordered| :: !RetoolsAt(ordered[k], tools)
      ensures r.Some? ==>
                && r.value < |ordered| && RetoolsAt(ordered[r.value], tools)
                && forall k | 0 <= k < r.value :: !RetoolsAt(ordered[k], tools)
    {
      for k := 0 to |ordered|
        invariant forall j | 0 <= j < k :: !RetoolsAt(ordered[j], tools)
      {
        if RetoolsAt(ordered[k], tools) {
          return Some(k);
        }
      }
      return None;
    }

    method FindStep(id: nat) returns (r: Option<Step>)
      ensures r == StepById(steps, id)
    {
      r := None;
      for i := 0 to |steps|
        invariant r == StepById(steps[..i], id)
      {
        assert steps[..i + 1][..i] == steps[..i];
        if steps[i].id == id {
          r := Some(steps[i]);
        }
      }
      assert steps[..|steps|] == steps;
    }

    /** _build_prompt_tokens; None when the full tokenizer raises. */
    method BuildPromptTokens(route: Route, cut: bool, messages: seq<Message>, tools: Tools) returns (r: Option<Prompt>)
      ensures r == BuildPrompt(tk, steps, route, cut, messages, tools)
    {
      var base: Option<Step> := None;
      if route.base.Some? {
        base := FindStep(route.base.value);
      }
      if base.None? || cut {
        return FullPrompt(tk, messages, tools, false);
      }
      var prefix := base.value.snapshotTokens;
      if route.kind != Branch {
        prefix := LineagePrefix(route.lineage);
      }
      var merged := Merge(tk, base.value.messages, messages, prefix, tools);
      if merged.None? {
        return FullPrompt(tk, messages, tools, true);
      }
      return Some(Prompt(merged.value, if route.kind == Branch then merged.value else merged.value[|prefix|..], false));
    }

    /** record_step: appends the step, files it in the index and moves its lineage's head. */
    method RecordStep(step: Step)
      requires CacheOk(tp, steps, cache, made) && index.Valid() && Indexed()
      requires step.messages != [] && Inv(Record(View(), step))
      modifies this, index
      ensures Valid() && View() == Record(old(View()), step)
      ensures cache == old(cache) + [Remember(tp, step.messages, step.tools)]
    {
      AppendStep(step);
      if step.messages != [] {
        index.Insert(step.id, step.messages);
      }
    }

    /** The session's own dictionaries; the prefix index is updated apart. */
    method AppendStep(step: Step)
      requires CacheOk(tp, steps, cache, made)
      modifies this
      ensures CacheOk(tp, steps, cache, made) && View() == Record(old(View()), step)
      ensures cache == old(cache) + [Remember(tp, step.messages, step.tools)]
    {
      steps := steps + [step];
      stepCounter := step.id;
      cache := cache + [Remember(tp, step.messages, step.tools)];
      made := made + [step.tools];
      if step.lineage < |lineages| {
        lineages := lineages[step.lineage := lineages[step.lineage].(latest := Some(step.id))];
      }
    }

    /** Selecting a route, with the safety reset when rendering raised. */
    method RouteOrReset(r: Request) returns (routed: Routed)
      requires Valid()
      modifies this
      ensures CacheOk(tp, steps, cache, made)
      ensures routed == RouteRequest(tp, old(View()), r, old(Seen(r.tools)))
      ensures View() == OpenLineage(old(View()), routed.route)
    {
      var route := SelectRoute(r.messages, r.tools);
      if route.Some? {
        return Routed(route.value, false);
      }
      if steps != [] && r.appendOnly {
        return Routed(AppendTo(View(), |steps| - 1), true);
      }
      var lineage := CreateLineage(None);
      return Routed(Route(lineage, Create, None), true);
    }

    /**
      One request, given what generation will answer; the recorded conversation ends with that answer. It is
      the recorder's step for the renderings the session remembers.
     */
    method ChatCompletion(r: Request, generation: Option<Generation>) returns (recorded: bool)
      requires Valid() && (generation.Some? ==> generation.value.messages != [])
      modifies this, index
      ensures Valid() && View() == Apply(tp, tk, old(View()), Event(r, old(Seen(r.tools)), generation))
      ensures recorded <==> |steps| == |old(steps)| + 1
    {
      ghost var s, seen := View(), Seen(r.tools);
      ghost var e := Event(r, seen, generation);
      RouteRequestIsOk(tp, s, r, seen);
      OpenKeepsInv(s, RouteRequest(tp, s, r, seen).route);
      CompleteKeepsInv(tp, tk, s, e, RouteRequest(tp, s, r, seen));
      var routed := RouteOrReset(r);
      recorded := CompleteRequest(r, generation, routed, s, e);
    }

    /** The step a routed request records, if it gets that far. */
    method NextStep(r: Request, generation: Option<Generation>, routed: Routed, ghost s: Session, ghost e: Event)
      returns (step: Option<Step>)
      requires View() == OpenLineage(s, routed.route) && e.request == r && e.generation == generation
      ensures Complete(tp, tk, s, e, routed) == if step.Some? then Record(View(), step.value) else View()
      ensures step.Some? ==>
                generation.Some? && step.value.messages == generation.value.messages && step.value.tools == r.tools
    {
      var base: Option<Step> := None;
      if routed.route.base.Some? {
        base := FindStep(routed.route.base.value);
      }
      var cut := routed.renderFailed || (base.Some? && ToolsChanged(tp, base.value.tools, r.tools));
      var prompt := BuildPromptTokens(routed.route, cut, r.messages, r.tools);
      if prompt.None? || generation.None? {
        return None;
      }
      return Some(MakeStep(stepCounter + 1, routed.route, cut, prompt.value, r.tools, generation.value));
    }

    /** The rest of the pipeline once the route is known. */
    method CompleteRequest(r: Request, generation: Option<Generation>, routed: Routed, ghost s: Session, ghost e: Event)
      returns (recorded: bool)
      requires CacheOk(tp, steps, cache, made) && index.Valid() && Indexed()
      requires generation.Some? ==> generation.value.messages != []
      requires View() == OpenLineage(s, routed.route) && e.request == r && e.generation == generation
      requires Inv(Complete(tp, tk, s, e, routed))
      modifies this, index
      ensures Valid() && View() == Complete(tp, tk, s, e, routed)
      ensures recorded <==> |steps| == |old(steps)| + 1
    {
      var step := NextStep(r, generation, routed, s, e);
      if step.None? {
        return false;
      }
      RecordStep(step.value);
      return true;
    }
  }
}
