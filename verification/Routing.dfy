/**
  Choosing a lineage for a request (dressage/proxy/server.py:981-1084 and the prefix index of
  dressage/proxy/session_manager.py:51-91).

  A fingerprint is a hash of the messages, taken to be injective, so the index is keyed by the messages
  themselves. Rendering a conversation is a parameter that may fail, and so is the key under which tool
  lists are compared and renderings remembered: the source's key sorts the JSON keys of the tools and, when
  probing four conversations found them alike, merges no tools with an empty list, while the template is
  given the tools as they came. Nothing makes it render lists with one key alike.
 */
module Routing {
  import opened Wrappers
  import opened Lineages

  /** The chat template, and the canonical form of tools that stands for their hash. */
  datatype Template = Template(render: (seq<Message>, Tools, bool) -> Option<string>, key: Tools -> string)

  predicate ToolsChanged(tp: Template, before: Tools, after: Tools) {
    tp.key(before) != tp.key(after)
  }

  // ------------------------------------------------------- remembered renderings

  /** A step's remembered rendering and the tools key it was made for. */
  datatype Cached = Cached(rendered: string, length: nat, key: string)

  /** What a rendering with `tools` leaves behind; a failed one leaves nothing to use. */
  function Remember(tp: Template, messages: seq<Message>, tools: Tools): Cached {
    var r := tp.render(messages, tools, false);
    var text := if r.Some? then r.value else "";
    Cached(text, |text|, tp.key(tools))
  }

  predicate Hit(tp: Template, c: Cached, tools: Tools) {
    c.key == tp.key(tools) && c.rendered != ""
  }

  /** What _candidate_snapshot_rendered answers; None where rendering raises. */
  function Read(tp: Template, messages: seq<Message>, c: Cached, tools: Tools): Option<string> {
    if Hit(tp, c, tools) then Some(c.rendered) else tp.render(messages, tools, false)
  }

  /** Tools with one key render every conversation alike, as far as a remembered rendering can tell. */
  ghost predicate KeyRenders(tp: Template) {
    forall m, a, b | tp.key(a) == tp.key(b) && tp.render(m, a, false).Some? && tp.render(m, a, false).value != "" ::
      tp.render(m, b, false) == tp.render(m, a, false)
  }

  /** The rendering was made with `made`. */
  ghost predicate MadeWith(tp: Template, messages: seq<Message>, c: Cached, made: Tools) {
    && c.length == |c.rendered|
    && (c.rendered != "" ==> c.key == tp.key(made) && tp.render(messages, made, false) == Some(c.rendered))
  }

  /** A remembered rendering is the fresh one exactly when both tool lists render that conversation alike. */
  lemma CachedIsFreshIff(tp: Template, messages: seq<Message>, c: Cached, made: Tools, tools: Tools)
    requires MadeWith(tp, messages, c, made)
    ensures Read(tp, messages, c, tools) == tp.render(messages, tools, false)
            <==> c.rendered == "" || ToolsChanged(tp, made, tools)
                 || tp.render(messages, made, false) == tp.render(messages, tools, false)
  {
  }

  /**
    Remembering is invisible for every conversation and every pair of tool lists exactly when the key is
    fine enough.
   */
  lemma CacheIsExactIffKeyRenders(tp: Template)
    ensures KeyRenders(tp) <==>
            forall m, a, b :: Read(tp, m, Remember(tp, m, a), b) == tp.render(m, b, false)
  {
    if forall m, a, b :: Read(tp, m, Remember(tp, m, a), b) == tp.render(m, b, false) {
      forall m, a, b | tp.key(a) == tp.key(b) && tp.render(m, a, false).Some? && tp.render(m, a, false).value != ""
        ensures tp.render(m, b, false) == tp.render(m, a, false)
      {
        assert Read(tp, m, Remember(tp, m, a), b) == tp.render(m, b, false);
      }
    }
  }

  // -------------------------------------------------------- the prefix index

  ghost predicate NoDuplicates<T(!new)>(xs: seq<T>) {
    forall i, j | 0 <= i < j < |xs| :: xs[i] != xs[j]
  }

  lemma NoDuplicatesSnoc<T(!new)>(xs: seq<T>, x: T)
    requires NoDuplicates(xs) && x !in xs
    ensures NoDuplicates(xs + [x])
  {
  }

  function Filed(m: map<seq<Message>, set<nat>>, messages: seq<Message>): set<nat> {
    if messages in m then m[messages] else {}
  }

  /** The id is filed under a prefix of the messages. */
  ghost predicate FiledUnderPrefix(m: map<seq<Message>, set<nat>>, current: seq<Message>, id: nat) {
    exists n: nat | n <= |current| :: id in Filed(m, current[..n])
  }

  class PrefixIndex {
    var byFingerprint: map<seq<Message>, set<nat>>
    var allStepIds: seq<nat>

    /** Every id filed under a fingerprint was inserted. */
    ghost predicate Valid()
      reads this
    {
      forall f | f in byFingerprint :: forall id | id in byFingerprint[f] :: id in allStepIds
    }

    constructor ()
      ensures Valid() && allStepIds == []
    {
      byFingerprint, allStepIds := map[], [];
    }

    method Insert(id: nat, messages: seq<Message>)
      requires Valid()
      modifies this
      ensures Valid() && allStepIds == old(allStepIds) + [id]
      ensures byFingerprint == old(byFingerprint)[messages := Filed(old(byFingerprint), messages) + {id}]
    {
      byFingerprint := byFingerprint[messages := Filed(byFingerprint, messages) + {id}];
      allStepIds := allStepIds + [id];
    }

    /** Every inserted id exactly once, those filed under a prefix first, whatever order the sets are read in. */
    method Candidates(current: seq<Message>) returns (ids: seq<nat>)
      requires Valid()
      ensures NoDuplicates(ids)
      ensures forall id :: id in ids <==> id in allStepIds
      ensures forall i, j | 0 <= i < j < |ids| && FiledUnderPrefix(byFingerprint, current, ids[j]) ::
                FiledUnderPrefix(byFingerprint, current, ids[i])
    {
      ids := PrefixCandidates(current);
      ghost var matched := |ids|;
      for n := 0 to |allStepIds|
        invariant NoDuplicates(ids) && matched <= |ids|
        invariant forall id | id in ids :: id in allStepIds
        invariant forall i | 0 <= i < n :: allStepIds[i] in ids
        invariant forall i | 0 <= i < |ids| :: FiledUnderPrefix(byFingerprint, current, ids[i]) <==> i < matched
        invariant forall id | FiledUnderPrefix(byFingerprint, current, id) :: id in ids
      {
        if allStepIds[n] !in ids {
          NoDuplicatesSnoc(ids, allStepIds[n]);
          ids := ids + [allStepIds[n]];
        }
      }
    }

    /** The first loop: exactly the ids filed under a prefix, each once. */
    method PrefixCandidates(current: seq<Message>) returns (ids: seq<nat>)
      requires Valid()
      ensures NoDuplicates(ids)
      ensures forall id | id in ids :: id in allStepIds
      ensures forall id :: id in ids <==> FiledUnderPrefix(byFingerprint, current, id)
    {
      ids := [];
      for n := 0 to |current| + 1
        invariant NoDuplicates(ids)
        invariant forall id | id in ids :: id in allStepIds && FiledUnderPrefix(byFingerprint, current, id)
        invariant forall k: nat, id | k < n && id in Filed(byFingerprint, current[..k]) :: id in ids
      {
        var rest := Filed(byFingerprint, current[..n]);
        while rest != {}
          invariant NoDuplicates(ids) && rest <= Filed(byFingerprint, current[..n])
          invariant forall id | id in ids :: id in allStepIds && FiledUnderPrefix(byFingerprint, current, id)
          invariant forall k: nat, id | k < n && id in Filed(byFingerprint, current[..k]) :: id in ids
          invariant forall id | id in Filed(byFingerprint, current[..n]) :: id in ids || id in rest
          decreases |rest|
        {
          var id :| id in rest;
          rest := rest - {id};
          if id !in ids {
            NoDuplicatesSnoc(ids, id);
            ids := ids + [id];
          }
        }
      }
    }
  }

  // ----------------------------------------------------------- the best match

  datatype Key = Key(length: int, late: int, order: int, lineage: int)

  /** Lexicographic, as the source compares tuples. */
  predicate Less(a: Key, b: Key) {
    || a.length < b.length
    || (a.length == b.length && a.late < b.late)
    || (a.length == b.length && a.late == b.late && a.order < b.order)
    || (a.length == b.length && a.late == b.late && a.order == b.order && a.lineage < b.lineage)
  }

  predicate IsLatest(s: Session, i: nat)
    requires i < |s.steps|
  {
    var step := s.steps[i];
    step.lineage < |s.lineages| && s.lineages[step.lineage].latest == Some(step.id)
  }

  function KeyOf(s: Session, i: nat, rendered: string): Key
    requires i < |s.steps|
  {
    Key(-|rendered|, if IsLatest(s, i) then 0 else 1, -(i as int), s.steps[i].lineage)
  }

  /** Later steps have smaller order, so no two steps have the same key. */
  ghost predicate Separated(keys: seq<Key>) {
    forall i | 0 <= i < |keys| :: keys[i].order == -i
  }

  /** The one member of `c` that beats all others. */
  ghost predicate IsBest(keys: seq<Key>, c: set<nat>, i: nat)
    requires forall j | j in c :: j < |keys|
  {
    i in c && forall j | j in c && j != i :: Less(keys[i], keys[j])
  }

  lemma BestIsUnique(keys: seq<Key>, c: set<nat>, i: nat, j: nat)
    requires forall j | j in c :: j < |keys|
    requires IsBest(keys, c, i) && IsBest(keys, c, j)
    ensures i == j
  {
  }

  lemma {:induction false} BestExists(keys: seq<Key>, c: set<nat>)
    requires c != {} && Separated(keys) && forall j | j in c :: j < |keys|
    ensures exists i: nat :: IsBest(keys, c, i)
    decreases |c|
  {
    var x :| x in c;
    var rest := c - {x};
    assert forall j | j in c && j != x :: j in rest;
    if rest == {} {
      assert IsBest(keys, c, x);
    } else {
      BestExists(keys, rest);
      var i: nat :| IsBest(keys, rest, i);
      var winner := if Less(keys[x], keys[i]) then x else i;
      assert IsBest(keys, c, winner);
    }
  }

  ghost function Best(keys: seq<Key>, c: set<nat>): (i: nat)
    requires c != {} && Separated(keys) && forall j | j in c :: j < |keys|
    ensures IsBest(keys, c, i)
  {
    BestExists(keys, c);
    var i: nat :| IsBest(keys, c, i);
    i
  }

  // ------------------------------------------------------- the route, as specified

  /** What the selection reads for each recorded step; None where rendering raises. */
  type Renderings = seq<Option<string>>

  function FreshRenderings(tp: Template, s: Session, tools: Tools): (r: Renderings)
    ensures |r| == |s.steps| && forall i: nat | i < |s.steps| :: r[i] == tp.render(s.steps[i].messages, tools, false)
  {
    seq(|s.steps|, i requires 0 <= i < |s.steps| => tp.render(s.steps[i].messages, tools, false))
  }

  function CachedRenderings(tp: Template, s: Session, cache: seq<Cached>, tools: Tools): (r: Renderings)
    requires |cache| == |s.steps|
    ensures |r| == |s.steps| && forall i: nat | i < |s.steps| :: r[i] == Read(tp, s.steps[i].messages, cache[i], tools)
  {
    seq(|s.steps|, i requires 0 <= i < |s.steps| => Read(tp, s.steps[i].messages, cache[i], tools))
  }

  /** Nothing the selection renders fails. */
  ghost predicate Routable(tp: Template, s: Session, seen: Renderings, messages: seq<Message>, tools: Tools) {
    tp.render(messages, tools, true).Some? && AllSeen(s, seen)
  }

  predicate AllSeen(s: Session, seen: Renderings) {
    |seen| == |s.steps| && forall i: nat | i < |seen| :: seen[i].Some?
  }

  ghost function Keys(s: Session, seen: Renderings): (keys: seq<Key>)
    requires AllSeen(s, seen)
    ensures |keys| == |s.steps| && Separated(keys)
    ensures forall i: nat | i < |s.steps| :: keys[i] == KeyOf(s, i, seen[i].value)
  {
    seq(|s.steps|, i requires 0 <= i < |s.steps| => KeyOf(s, i, seen[i].value))
  }

  /** The steps whose rendering is a prefix of the rendered request. */
  ghost function Matching(s: Session, seen: Renderings, request: string): (c: set<nat>)
    requires AllSeen(s, seen)
    ensures forall i | i in c :: i < |s.steps|
  {
    set i: nat | i < |s.steps| && seen[i].value <= request
  }

  /** The newest steps of lineages that the request continues but for its tools. */
  ghost function Retooled(tp: Template, s: Session, messages: seq<Message>, tools: Tools): (c: set<nat>)
    ensures forall i | i in c :: i < |s.steps|
  {
    set i: nat | i < |s.steps| && s.steps[i].messages <= messages && IsLatest(s, i)
                 && ToolsChanged(tp, s.steps[i].tools, tools)
  }

  function AppendTo(s: Session, i: nat): Route
    requires i < |s.steps|
  {
    Route(s.steps[i].lineage, Append, Some(s.steps[i].id))
  }

  /** The step a request continues: by its rendering, or but for its tools, or none. */
  datatype Choice = Continues(i: nat) | Retools(i: nat) | Nothing

  ghost function Choose(tp: Template, s: Session, seen: Renderings, messages: seq<Message>, tools: Tools): (c: Choice)
    requires Routable(tp, s, seen, messages, tools)
    ensures !c.Nothing? ==> c.i < |s.steps|
    ensures c.Retools? ==> IsLatest(s, c.i)
  {
    var keys := Keys(s, seen);
    var matching := Matching(s, seen, tp.render(messages, tools, true).value);
    var retooled := Retooled(tp, s, messages, tools);
    if matching != {} then Continues(Best(keys, matching))
    else if retooled != {} then Retools(Best(keys, retooled))
    else Nothing
  }

  function RouteOf(s: Session, c: Choice): Route
    requires !c.Nothing? ==> c.i < |s.steps|
  {
    match c
    case Continues(i) => if IsLatest(s, i) then AppendTo(s, i) else Route(|s.lineages|, Branch, Some(s.steps[i].id))
    case Retools(i) => AppendTo(s, i)
    case Nothing => Route(|s.lineages|, Create, None)
  }

  ghost function RouteFor(tp: Template, s: Session, seen: Renderings, messages: seq<Message>, tools: Tools): Route
    requires Routable(tp, s, seen, messages, tools)
  {
    RouteOf(s, Choose(tp, s, seen, messages, tools))
  }

  lemma {:induction false} StepIsFound(steps: seq<Step>, i: nat)
    requires i < |steps|
    ensures StepById(steps, steps[i].id).Some?
  {
    if i < |steps| - 1 {
      StepIsFound(steps[..|steps| - 1], i);
    }
  }

  /** An append only ever extends a lineage's newest step; everything else opens a lineage of its own. */
  lemma RouteForIsOk(tp: Template, s: Session, seen: Renderings, messages: seq<Message>, tools: Tools)
    requires Inv(s) && Routable(tp, s, seen, messages, tools)
    ensures RouteOk(s, RouteFor(tp, s, seen, messages, tools))
  {
    var c := Choose(tp, s, seen, messages, tools);
    if !c.Nothing? {
      StepIsFound(s.steps, c.i);
    }
  }

  /** `j` is no better than `i`: shorter, or as long and not a lineage's newest where `i` is, or otherwise older. */
  ghost predicate NoBetter(s: Session, i: nat, j: nat, length: int, length': int)
    requires i < |s.steps| && j < |s.steps|
  {
    || length' < length
    || (length' == length && IsLatest(s, i) && !IsLatest(s, j))
    || (length' == length && IsLatest(s, i) == IsLatest(s, j) && j <= i)
  }

  /**
    What the choice means: the request continues the step whose rendering, as read, is the longest prefix
    of its own, a lineage's newest step before others and the most recent of those. Only if no rendering is
    a prefix does a lineage that differs by its tools qualify, chosen in the same order.
   */
  lemma ChoiceIsLongestPrefix(tp: Template, s: Session, seen: Renderings, messages: seq<Message>, tools: Tools, j: nat)
    requires Routable(tp, s, seen, messages, tools) && j < |s.steps|
    ensures var c := Choose(tp, s, seen, messages, tools);
            var request := tp.render(messages, tools, true).value;
            var rendered := seen[j].value;
            && (c.Continues? ==> seen[c.i].value <= request)
            && (c.Continues? && rendered <= request ==> NoBetter(s, c.i, j, |seen[c.i].value|, |rendered|))
            && (!c.Continues? ==> !(rendered <= request))
            && (c.Retools? && j in Retooled(tp, s, messages, tools) ==>
                  NoBetter(s, c.i, j, |seen[c.i].value|, |rendered|))
            && (c.Nothing? ==> j !in Retooled(tp, s, messages, tools))
  {
    var keys, c := Keys(s, seen), Choose(tp, s, seen, messages, tools);
    var request := tp.render(messages, tools, true).value;
    var matching, retooled := Matching(s, seen, request), Retooled(tp, s, messages, tools);
    assert j in matching <==> seen[j].value <= request;
    assert keys[j] == KeyOf(s, j, seen[j].value);
    if !c.Nothing? {
      assert keys[c.i] == KeyOf(s, c.i, seen[c.i].value);
      BestIsNoWorse(keys, if c.Continues? then matching else retooled, c.i, j);
    }
  }

  /** Of the steps in `c`, step i's rendering is the longest; a lineage's newest before others, then the most recent. */
  ghost predicate Preferred(s: Session, seen: Renderings, c: set<nat>, i: nat)
    requires AllSeen(s, seen) && forall j | j in c :: j < |s.steps|
  {
    i in c && forall j | j in c :: NoBetter(s, i, j, |seen[i].value|, |seen[j].value|)
  }

  /** The route goes on from step i: in its lineage if it is the newest there, in a lineage of its own if not. */
  ghost predicate GoesOnFrom(s: Session, route: Route, i: nat) {
    && i < |s.steps| && route.base == Some(s.steps[i].id)
    && if LatestOf(s.steps, s.steps[i].lineage) == Some(s.steps[i].id)
       then route.kind == Append && route.lineage == s.steps[i].lineage
       else route.kind == Branch && route.lineage == |s.lineages|
  }

  /**
    The route itself, from the renderings read: if some rendering is a prefix of the request, it goes on from
    the preferred one of those; if none is, from the preferred newest step that the request continues but for
    its tools; and it creates a lineage exactly when there is neither.
   */
  lemma RouteIsToThePreferred(tp: Template, s: Session, seen: Renderings, messages: seq<Message>, tools: Tools)
    requires Inv(s) && Routable(tp, s, seen, messages, tools)
    ensures var route := RouteFor(tp, s, seen, messages, tools);
            var matching := Matching(s, seen, tp.render(messages, tools, true).value);
            var retooled := Retooled(tp, s, messages, tools);
            && (matching != {} ==> exists i :: Preferred(s, seen, matching, i) && GoesOnFrom(s, route, i))
            && (matching == {} && retooled != {} ==>
                  exists i :: Preferred(s, seen, retooled, i) && GoesOnFrom(s, route, i) && route.kind == Append)
            && (route == Route(|s.lineages|, Create, None) <==> matching == {} && retooled == {})
            && (route.kind == Create <==> matching == {} && retooled == {})
  {
    var c := Choose(tp, s, seen, messages, tools);
    var request := tp.render(messages, tools, true).value;
    var matching, retooled := Matching(s, seen, request), Retooled(tp, s, messages, tools);
    if !c.Nothing? {
      LatestIsRegistered(s, c.i);
      var from := if c.Continues? then matching else retooled;
      forall j | j in from ensures NoBetter(s, c.i, j, |seen[c.i].value|, |seen[j].value|) {
        ChoiceIsLongestPrefix(tp, s, seen, messages, tools, j);
      }
      assert Preferred(s, seen, from, c.i) && GoesOnFrom(s, RouteOf(s, c), c.i);
    }
  }

  lemma LatestIsRegistered(s: Session, i: nat)
    requires Inv(s) && i < |s.steps|
    ensures IsLatest(s, i) <==> LatestOf(s.steps, s.steps[i].lineage) == Some(s.steps[i].id)
  {
  }

  /** Every remembered rendering was made with some tools. */
  ghost predicate CacheOk(tp: Template, steps: seq<Step>, cache: seq<Cached>, made: seq<Tools>) {
    |cache| == |made| == |steps| && forall i | 0 <= i < |cache| :: MadeWith(tp, steps[i].messages, cache[i], made[i])
  }

  /** The selection reads fresh renderings exactly when every usable remembered one is made alike. */
  lemma CachedRenderingsAreFreshIff(tp: Template, s: Session, cache: seq<Cached>, made: seq<Tools>, tools: Tools)
    requires CacheOk(tp, s.steps, cache, made)
    ensures CachedRenderings(tp, s, cache, tools) == FreshRenderings(tp, s, tools)
            <==> forall i: nat | i < |s.steps| ::
                   cache[i].rendered == "" || ToolsChanged(tp, made[i], tools)
                   || tp.render(s.steps[i].messages, made[i], false) == tp.render(s.steps[i].messages, tools, false)
  {
    var cached, current := CachedRenderings(tp, s, cache, tools), FreshRenderings(tp, s, tools);
    forall i: nat | i < |s.steps|
      ensures cached[i] == current[i] <==>
              cache[i].rendered == "" || ToolsChanged(tp, made[i], tools)
              || tp.render(s.steps[i].messages, made[i], false) == tp.render(s.steps[i].messages, tools, false)
    {
      CachedIsFreshIff(tp, s.steps[i].messages, cache[i], made[i], tools);
    }
  }

  /** Under a key that is fine enough, remembering never shows. */
  lemma FineKeyReadsFresh(tp: Template, s: Session, cache: seq<Cached>, made: seq<Tools>, tools: Tools)
    requires CacheOk(tp, s.steps, cache, made) && KeyRenders(tp)
    ensures CachedRenderings(tp, s, cache, tools) == FreshRenderings(tp, s, tools)
  {
    CachedRenderingsAreFreshIff(tp, s, cache, made, tools);
    forall i: nat | i < |s.steps| && cache[i].rendered != "" && !ToolsChanged(tp, made[i], tools)
      ensures tp.render(s.steps[i].messages, made[i], false) == tp.render(s.steps[i].messages, tools, false)
    {
      assert MadeWith(tp, s.steps[i].messages, cache[i], made[i]);
    }
  }

  /**
    Where it shows: a single step recorded with tools `a`, continued with tools `b` of the same key that
    the template prints otherwise. The stale rendering is no prefix of the request, so a new lineage is
    opened; a fresh one would have appended.
   */
  lemma StaleRenderingOpensLineage(tp: Template, s: Session, messages: seq<Message>, b: Tools)
    requires |s.steps| == 1 && IsLatest(s, 0)
    requires var step := s.steps[0];
             && !ToolsChanged(tp, step.tools, b)
             && tp.render(messages, b, true).Some?
             && tp.render(step.messages, b, false).Some?
             && tp.render(step.messages, b, false).value <= tp.render(messages, b, true).value
             && tp.render(step.messages, step.tools, false).Some?
             && !(tp.render(step.messages, step.tools, false).value <= tp.render(messages, b, true).value)
    ensures var step := s.steps[0];
            var stale := CachedRenderings(tp, s, [Remember(tp, step.messages, step.tools)], b);
            var current := FreshRenderings(tp, s, b);
            && Routable(tp, s, stale, messages, b) && Routable(tp, s, current, messages, b)
            && RouteFor(tp, s, stale, messages, b) == Route(|s.lineages|, Create, None)
            && RouteFor(tp, s, current, messages, b) == AppendTo(s, 0)
  {
    var step := s.steps[0];
    var stale := CachedRenderings(tp, s, [Remember(tp, step.messages, step.tools)], b);
    var current := FreshRenderings(tp, s, b);
    ChoiceIsLongestPrefix(tp, s, stale, messages, b, 0);
    ChoiceIsLongestPrefix(tp, s, current, messages, b, 0);
  }

  lemma BestIsNoWorse(keys: seq<Key>, c: set<nat>, i: nat, j: nat)
    requires (forall k | k in c :: k < |keys|) && IsBest(keys, c, i)
    ensures j in c ==> j == i || Less(keys[i], keys[j])
  {
  }

  // ------------------------------------------------------------------ sorting

  predicate Within(keys: seq<Key>, xs: seq<nat>) {
    forall k | 0 <= k < |xs| :: xs[k] < |keys|
  }

  function Insert(keys: seq<Key>, x: nat, xs: seq<nat>): seq<nat>
    requires x < |keys| && Within(keys, xs)
  {
    if xs == [] || Less(keys[x], keys[xs[0]]) then [x] + xs else [xs[0]] + Insert(keys, x, xs[1..])
  }

  /** The order `list.sort(key=...)` leaves. */
  function Sort(keys: seq<Key>, xs: seq<nat>): (r: seq<nat>)
    requires Within(keys, xs)
    ensures Within(keys, r) && forall y :: y in r <==> y in xs
  {
    if xs == [] then []
    else
      InsertMembers(keys, xs[0], Sort(keys, xs[1..]));
      assert xs == [xs[0]] + xs[1..];
      Insert(keys, xs[0], Sort(keys, xs[1..]))
  }

  lemma {:induction false} InsertMembers(keys: seq<Key>, x: nat, xs: seq<nat>)
    requires x < |keys| && Within(keys, xs)
    ensures Within(keys, Insert(keys, x, xs))
    ensures forall y :: y in Insert(keys, x, xs) <==> y == x || y in xs
  {
    if xs != [] && !Less(keys[x], keys[xs[0]]) {
      InsertMembers(keys, x, xs[1..]);
      assert xs == [xs[0]] + xs[1..];
    }
  }

  /** Each element beats everything after it. */
  ghost predicate Ascending(keys: seq<Key>, xs: seq<nat>)
    requires Within(keys, xs)
  {
    xs != [] ==>
      && (forall k | 1 <= k < |xs| :: Less(keys[xs[0]], keys[xs[k]]))
      && Ascending(keys, xs[1..])
  }

  lemma {:induction false} InsertAscends(keys: seq<Key>, x: nat, xs: seq<nat>)
    requires x < |keys| && x !in xs && Separated(keys) && Within(keys, xs) && Ascending(keys, xs)
    ensures Within(keys, Insert(keys, x, xs)) && Ascending(keys, Insert(keys, x, xs))
  {
    if xs == [] || Less(keys[x], keys[xs[0]]) {
      PrependAscends(keys, x, xs);
    } else {
      InsertAscends(keys, x, xs[1..]);
      InsertMembers(keys, x, xs[1..]);
      assert Less(keys[xs[0]], keys[x]);
      PrependAscends(keys, xs[0], Insert(keys, x, xs[1..]));
    }
  }

  lemma PrependAscends(keys: seq<Key>, x: nat, xs: seq<nat>)
    requires x < |keys| && Within(keys, xs) && Ascending(keys, xs)
    requires forall y | y in xs :: Less(keys[x], keys[y])
    ensures Within(keys, [x] + xs) && Ascending(keys, [x] + xs)
  {
    assert ([x] + xs)[1..] == xs;
  }

  lemma {:induction false} SortAscends(keys: seq<Key>, xs: seq<nat>)
    requires Separated(keys) && NoDuplicates(xs) && Within(keys, xs)
    ensures Ascending(keys, Sort(keys, xs))
  {
    if xs != [] {
      SortAscends(keys, xs[1..]);
      assert xs[0] !in xs[1..];
      InsertAscends(keys, xs[0], Sort(keys, xs[1..]));
    }
  }

  /** The first element of an ascending list that belongs to `c` is the best of `c`. */
  lemma {:induction false} FirstMemberIsBest(keys: seq<Key>, xs: seq<nat>, c: set<nat>, k: nat)
    requires Within(keys, xs) && Ascending(keys, xs) && (forall y | y in c :: y < |keys| && y in xs)
    requires k < |xs| && xs[k] in c && forall j | 0 <= j < k :: xs[j] !in c
    ensures IsBest(keys, c, xs[k])
  {
    assert xs == [xs[0]] + xs[1..];
    if k > 0 {
      FirstMemberIsBest(keys, xs[1..], c, k - 1);
    }
  }
}
