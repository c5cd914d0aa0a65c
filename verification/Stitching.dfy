/**
  The generation loop that stitches preempted responses into one result
  (dressage/proxy/generation_controller.py, `generate_preemptible`).

  The backend is a function of the attempt number, the prompt it was sent and the token limit, so
  quantifying over it covers every interleaving of aborts, weight updates and failures that one
  generation can see. A wait for a resume that ends normally changes nothing here and is not a step.
 */
module Stitching {
  import opened Wrappers
  import opened Sequences

  const PreemptReasons := {"abort", "aborted", "preempt", "preempted", "cancel", "cancelled", "canceled"}

  datatype Response = Response(
    outputIds: seq<Token>,
    logprobs: seq<real>,
    version: Option<string>,
    finish: string,
    experts: Option<seq<int>>)

  /**
    What happens to one registration: refused because the proxy is stopping, answered, or failed.
    `epoch` is the rollout epoch read under the lock; `aborted` says an abort was accepted for it;
    `weights` names the weights that really produced the answer; `stopsAfter` says the proxy is stopping
    when the wait for a resume after an interrupted chunk ends.
   */
  datatype Attempt =
    | Refused
    | Answered(epoch: nat, response: Response, aborted: bool, weights: string, stopsAfter: bool)
    | Failed(epoch: nat, aborted: bool, stopping: bool, stopsAfter: bool)

  datatype Config = Config(
    maxNewTokens: int,
    contextWindow: Option<nat>,
    expectedVersion: Option<string>,
    expectedEpoch: Option<nat>,
    partialRollout: bool)

  /** A routed-expert payload with the token counts its rows are laid out by. */
  datatype ExpertChunk = ExpertChunk(data: seq<int>, prefixCount: nat, outputCount: nat, isFirst: bool)

  datatype Partial = Partial(
    ids: seq<Token>,
    logprobs: seq<real>,
    versions: seq<string>,
    experts: seq<ExpertChunk>,
    epoch: Option<nat>,
    finish: string,
    overflow: bool)

  datatype Error = ShuttingDown | StaleEpoch | VersionUnavailable | VersionMismatch | Preempted | Upstream

  datatype Outcome = Done(result: Partial) | Raised(error: Error) | Waiting(sofar: Partial)

  const Empty := Partial([], [], [], [], None, "stop", false)

  type Backend = (nat, seq<Token>, Option<nat>) -> Attempt

  // ---------------------------------------------------------------- the loop

  function Remaining(cfg: Config, p: Partial): Option<nat> {
    if cfg.maxNewTokens <= 0 || |p.ids| >= cfg.maxNewTokens then None else Some(cfg.maxNewTokens - |p.ids|)
  }

  predicate Exhausted(cfg: Config, p: Partial) {
    cfg.maxNewTokens > 0 && |p.ids| >= cfg.maxNewTokens
  }

  /** A failed request whose abort was accepted is resumed from the tokens already held. */
  const NothingReturned := Response([], [], None, "preempted", None)

  predicate Interrupted(r: Response, aborted: bool) {
    aborted || r.finish in PreemptReasons
  }

  function RecordedVersion(r: Response): string {
    if r.version.None? || r.version.value == "" then UnknownVersion else r.version.value
  }

  function Append(input: seq<Token>, p: Partial, epoch: nat, r: Response, aborted: bool): Partial {
    Partial(
      p.ids + r.outputIds,
      p.logprobs + r.logprobs,
      p.versions + Repeat(RecordedVersion(r), |r.outputIds|),
      if r.experts.Some? && (r.outputIds != [] || !Interrupted(r, aborted))
      then p.experts + [ExpertChunk(r.experts.value, |input| + |p.ids|, |r.outputIds|, p.ids == [])]
      else p.experts,
      if p.epoch.None? then Some(epoch) else p.epoch,
      r.finish,
      false)
  }

  datatype Next = Stop(outcome: Outcome) | Continue(p: Partial)

  function Receive(cfg: Config, input: seq<Token>, p: Partial, epoch: nat, r: Response, aborted: bool): Next {
    if cfg.expectedVersion.Some? && r.version.None? then Stop(Raised(VersionUnavailable))
    else if cfg.expectedVersion.Some? && r.version != cfg.expectedVersion then Stop(Raised(VersionMismatch))
    else
      var q := Append(input, p, epoch, r, aborted);
      if Interrupted(r, aborted) && !cfg.partialRollout then Stop(Raised(Preempted))
      else if cfg.contextWindow.Some? && |input| + |q.ids| > cfg.contextWindow.value then
        Stop(Done(q.(finish := "length", overflow := true)))
      else if !Interrupted(r, aborted) then Stop(Done(q))
      else Continue(q)
  }

  /**
    An interrupted generation waits for a resume, budget left or not, and is refused when the proxy is
    stopping then.
   */
  function Awaited(n: Next, stopsAfter: bool): Next {
    if n.Continue? && stopsAfter then Stop(Raised(ShuttingDown)) else n
  }

  function Advance(cfg: Config, input: seq<Token>, p: Partial, a: Attempt): Next {
    match a
    case Refused => Stop(Raised(ShuttingDown))
    case Answered(epoch, r, aborted, _, stopsAfter) =>
      if cfg.expectedEpoch.Some? && epoch != cfg.expectedEpoch.value then Stop(Raised(StaleEpoch))
      else Awaited(Receive(cfg, input, p, epoch, r, aborted), stopsAfter)
    case Failed(epoch, aborted, stopping, stopsAfter) =>
      if cfg.expectedEpoch.Some? && epoch != cfg.expectedEpoch.value then Stop(Raised(StaleEpoch))
      else if stopping then Stop(Raised(ShuttingDown))
      else if !aborted then Stop(Raised(Upstream))
      else Awaited(Receive(cfg, input, p, epoch, NothingReturned, true), stopsAfter)
  }

  /** The rest of a generation that holds `p` before attempt `k`, seen for `fuel` more attempts. */
  function Run(cfg: Config, input: seq<Token>, serve: Backend, k: nat, p: Partial, fuel: nat): Outcome
    decreases fuel
  {
    if Exhausted(cfg, p) then Done(p)
    else if fuel == 0 then Waiting(p)
    else
      match Advance(cfg, input, p, serve(k, input + p.ids, Remaining(cfg, p)))
      case Stop(outcome) => outcome
      case Continue(q) => Run(cfg, input, serve, k + 1, q, fuel - 1)
  }

  method GeneratePreemptible(cfg: Config, input: seq<Token>, serve: Backend, attempts: nat)
    returns (outcome: Outcome)
    ensures outcome == Run(cfg, input, serve, 0, Empty, attempts)
  {
    var p := Empty;
    var k := 0;
    while cfg.maxNewTokens <= 0 || |p.ids| < cfg.maxNewTokens
      invariant 0 <= k <= attempts
      invariant Run(cfg, input, serve, 0, Empty, attempts) == Run(cfg, input, serve, k, p, attempts - k)
      decreases attempts - k
    {
      if k == attempts {
        return Waiting(p);
      }
      var remaining := if cfg.maxNewTokens <= 0 then None else Some(cfg.maxNewTokens - |p.ids|);
      var step := Advance(cfg, input, p, serve(k, input + p.ids, remaining));
      match step {
        case Stop(o) => return o;
        case Continue(q) => p := q;
      }
      k := k + 1;
    }
    return Done(p);
  }

  /** The parts of the returned result the recorder reads. */
  datatype Result = Result(
    inputIds: seq<Token>,
    outputIds: seq<Token>,
    outputVersions: seq<string>,
    allTokens: seq<Token>)

  function Returned(input: seq<Token>, p: Partial): Result {
    Result(input, p.ids, p.versions, input + p.ids)
  }

  // ------------------------------------------------------------- the backend

  /** One next token and logprob per weights and context, and the contexts at which generation ends. */
  datatype Model = Model(
    next: (string, seq<Token>) -> Token,
    logprob: (string, seq<Token>) -> real,
    ends: (string, seq<Token>) -> bool)

  ghost predicate Produced(m: Model, weights: string, prompt: seq<Token>, out: seq<Token>) {
    forall i | 0 <= i < |out| :: out[i] == m.next(weights, prompt + out[..i])
  }

  ghost predicate Scored(m: Model, weights: string, prompt: seq<Token>, out: seq<Token>, logprobs: seq<real>) {
    |logprobs| == |out| && forall i | 0 <= i < |out| :: logprobs[i] == m.logprob(weights, prompt + out[..i])
  }

  predicate Within(limit: Option<nat>, n: nat) {
    limit.Some? ==> n <= limit.value
  }

  /** Answers hold the tokens of the weights they name with their logprobs, within the limit asked for. */
  ghost predicate Honest(m: Model, prompt: seq<Token>, limit: Option<nat>, a: Attempt) {
    a.Answered? ==>
      && Produced(m, a.weights, prompt, a.response.outputIds)
      && Scored(m, a.weights, prompt, a.response.outputIds, a.response.logprobs)
      && Within(limit, |a.response.outputIds|)
      && (a.response.version.Some? && a.response.version.value !in {"", UnknownVersion}
          ==> a.response.version.value == a.weights)
  }

  ghost predicate HonestBackend(m: Model, serve: Backend) {
    forall k, prompt, limit | limit != Some(0) :: Honest(m, prompt, limit, serve(k, prompt, limit))
  }

  function Held(o: Outcome): (p: Partial)
    requires !o.Raised?
  {
    if o.Done? then o.result else o.sofar
  }

  // ---------------------------------------------------- every token's context

  /**
    Every stitched token and its logprob are what the weights named by its recorded version produce from
    exactly the input followed by the tokens stitched before it.
   */
  ghost predicate Faithful(m: Model, input: seq<Token>, p: Partial) {
    && |p.ids| == |p.logprobs| == |p.versions|
    && (forall i | 0 <= i < |p.ids| && p.versions[i] != UnknownVersion ::
          && p.ids[i] == m.next(p.versions[i], input + p.ids[..i])
          && p.logprobs[i] == m.logprob(p.versions[i], input + p.ids[..i]))
  }

  lemma AppendFaithful(m: Model, input: seq<Token>, p: Partial, a: Attempt, limit: Option<nat>)
    requires a.Answered? && Faithful(m, input, p) && Honest(m, input + p.ids, limit, a)
    ensures Faithful(m, input, Append(input, p, a.epoch, a.response, a.aborted))
  {
    var q := Append(input, p, a.epoch, a.response, a.aborted);
    forall i | 0 <= i < |q.ids| && q.versions[i] != UnknownVersion
      ensures q.ids[i] == m.next(q.versions[i], input + q.ids[..i])
      ensures q.logprobs[i] == m.logprob(q.versions[i], input + q.ids[..i])
    {
      if i < |p.ids| {
        assert q.ids[..i] == p.ids[..i];
        assert q.versions[i] == p.versions[i];
      } else {
        var j := i - |p.ids|;
        assert q.ids[..i] == p.ids + a.response.outputIds[..j];
        assert input + q.ids[..i] == (input + p.ids) + a.response.outputIds[..j];
      }
    }
  }

  ghost predicate Bounded(cfg: Config, p: Partial) {
    cfg.maxNewTokens > 0 ==> |p.ids| <= cfg.maxNewTokens
  }

  lemma AppendNothing(m: Model, input: seq<Token>, p: Partial, epoch: nat)
    requires Faithful(m, input, p)
    ensures Append(input, p, epoch, NothingReturned, true).ids == p.ids
    ensures Faithful(m, input, Append(input, p, epoch, NothingReturned, true))
  {
    var q := Append(input, p, epoch, NothingReturned, true);
    assert q.versions == p.versions && q.ids == p.ids;
  }

  /** The tokens held after an attempt that did not raise. */
  function HeldAfter(n: Next): (p: Partial)
    requires n.Stop? ==> n.outcome.Done?
  {
    if n.Stop? then n.outcome.result else n.p
  }

  lemma AdvanceFaithful(m: Model, cfg: Config, input: seq<Token>, p: Partial, a: Attempt)
    requires Faithful(m, input, p) && Bounded(cfg, p) && !Exhausted(cfg, p)
    requires Honest(m, input + p.ids, Remaining(cfg, p), a)
    requires var n := Advance(cfg, input, p, a); n.Stop? ==> n.outcome.Done?
    ensures Faithful(m, input, HeldAfter(Advance(cfg, input, p, a)))
    ensures Bounded(cfg, HeldAfter(Advance(cfg, input, p, a)))
  {
    if a.Answered? {
      AppendFaithful(m, input, p, a, Remaining(cfg, p));
    } else if a.Failed? {
      AppendNothing(m, input, p, a.epoch);
    }
  }

  lemma AdvanceStops(cfg: Config, input: seq<Token>, p: Partial, a: Attempt)
    ensures var n := Advance(cfg, input, p, a); n.Stop? ==> n.outcome.Done? || n.outcome.Raised?
  {
  }

  lemma {:induction false} RunFaithful(m: Model, cfg: Config, input: seq<Token>, serve: Backend, k: nat, p: Partial,
                                       fuel: nat)
    requires HonestBackend(m, serve)
    requires Faithful(m, input, p) && Bounded(cfg, p)
    ensures var o := Run(cfg, input, serve, k, p, fuel);
            !o.Raised? ==> Faithful(m, input, Held(o)) && Bounded(cfg, Held(o))
    decreases fuel
  {
    if !Exhausted(cfg, p) && fuel > 0 {
      var a := serve(k, input + p.ids, Remaining(cfg, p));
      assert Honest(m, input + p.ids, Remaining(cfg, p), a);
      var n := Advance(cfg, input, p, a);
      AdvanceStops(cfg, input, p, a);
      if n.Continue? || n.outcome.Done? {
        AdvanceFaithful(m, cfg, input, p, a);
      }
      if n.Continue? {
        RunFaithful(m, cfg, input, serve, k + 1, n.p, fuel - 1);
      }
    }
  }

  /**
    For any interleaving of preemptions and resumes: every token held was produced by the weights of
    its recorded version from exactly the tokens before it, ids, logprobs and versions stay aligned,
    and a positive max_new_tokens is never exceeded.
   */
  lemma StitchedTokensAreFaithful(m: Model, cfg: Config, input: seq<Token>, serve: Backend, attempts: nat)
    requires HonestBackend(m, serve)
    ensures var o := Run(cfg, input, serve, 0, Empty, attempts);
            !o.Raised? ==> Faithful(m, input, Held(o)) && Bounded(cfg, Held(o))
  {
    RunFaithful(m, cfg, input, serve, 0, Empty, attempts);
  }

  // -------------------------------------------- the same as an uninterrupted run

  /** No nonempty prefix of `out` reaches an end of generation. */
  ghost predicate NoEndBefore(m: Model, v: string, prompt: seq<Token>, out: seq<Token>, n: nat)
    requires n <= |out| + 1
  {
    forall i | 0 < i < n :: !m.ends(v, prompt + out[..i])
  }

  predicate Ended(m: Model, v: string, prompt: seq<Token>, out: seq<Token>) {
    out != [] && m.ends(v, prompt + out)
  }

  /** What an uninterrupted request under weights `v` returns: the tokens up to the first end or the limit. */
  ghost predicate Completion(m: Model, v: string, prompt: seq<Token>, limit: Option<nat>, out: seq<Token>) {
    && Produced(m, v, prompt, out)
    && NoEndBefore(m, v, prompt, out, |out|)
    && Within(limit, |out|)
    && (Ended(m, v, prompt, out) || limit == Some(|out|))
  }

  /** Under one set of weights, every answer either completed its request or was cut before any end. */
  ghost predicate SteadyAttempt(m: Model, v: string, prompt: seq<Token>, limit: Option<nat>, a: Attempt) {
    a.Answered? ==>
      var out := a.response.outputIds;
      && Produced(m, v, prompt, out)
      && NoEndBefore(m, v, prompt, out, |out|)
      && Within(limit, |out|)
      && (!Interrupted(a.response, a.aborted) ==> Completion(m, v, prompt, limit, out))
  }

  ghost predicate SteadyBackend(m: Model, v: string, serve: Backend) {
    forall k, prompt, limit | limit != Some(0) :: SteadyAttempt(m, v, prompt, limit, serve(k, prompt, limit))
  }

  /** What the loop holds: a prefix of the one token stream of weights `v`. */
  ghost predicate OnStream(m: Model, v: string, input: seq<Token>, ids: seq<Token>) {
    Produced(m, v, input, ids) && NoEndBefore(m, v, input, ids, |ids|)
  }

  lemma {:induction false} StreamUnique(m: Model, v: string, prompt: seq<Token>, a: seq<Token>, b: seq<Token>)
    requires Produced(m, v, prompt, a) && Produced(m, v, prompt, b) && |a| <= |b|
    ensures a == b[..|a|]
  {
    if a != [] {
      var n := |a| - 1;
      assert forall i | 0 <= i < n :: a[..n][..i] == a[..i];
      StreamUnique(m, v, prompt, a[..n], b);
      assert a[n] == m.next(v, prompt + a[..n]) == b[n];
      assert a == a[..n] + [a[n]];
    }
  }

  /** There is at most one uninterrupted answer to a request. */
  lemma CompletionUnique(m: Model, v: string, prompt: seq<Token>, limit: Option<nat>, a: seq<Token>, b: seq<Token>)
    requires Completion(m, v, prompt, limit, a) && Completion(m, v, prompt, limit, b)
    requires |a| <= |b|
    ensures a == b
  {
    var shared := b[..|a|];
    assert |a| == |b| ==> shared == b;
    assert a != [] && |a| != |b| ==> !m.ends(v, prompt + shared);
    StreamUnique(m, v, prompt, a, b);
  }

  lemma ExtendStream(m: Model, v: string, input: seq<Token>, ids: seq<Token>, out: seq<Token>)
    requires OnStream(m, v, input, ids) && !Ended(m, v, input, ids)
    requires Produced(m, v, input + ids, out) && NoEndBefore(m, v, input + ids, out, |out|)
    ensures OnStream(m, v, input, ids + out)
    ensures out != [] ==> (Ended(m, v, input, ids + out) <==> Ended(m, v, input + ids, out))
  {
    var all := ids + out;
    assert input + all == input + ids + out;
    forall i | 0 <= i < |all| ensures all[i] == m.next(v, input + all[..i]) {
      if i < |ids| {
        assert all[..i] == ids[..i];
      } else {
        assert input + all[..i] == input + ids + out[..i - |ids|];
      }
    }
    forall i | 0 < i < |all| ensures !m.ends(v, input + all[..i]) {
      if i < |ids| {
        assert all[..i] == ids[..i];
      } else if i == |ids| {
        assert all[..i] == ids;
      } else {
        assert input + all[..i] == input + ids + out[..i - |ids|];
      }
    }
  }

  /**
    The guard that fails: an answer that had reached its natural end is marked interrupted, by an abort
    accepted late or by its finish reason, while token budget is left, so the loop asks again.
   */
  ghost predicate LateAbort(m: Model, v: string, cfg: Config, input: seq<Token>, serve: Backend, k: nat, p: Partial,
                            fuel: nat)
    decreases fuel
  {
    if Exhausted(cfg, p) || fuel == 0 then false
    else
      var n := Advance(cfg, input, p, serve(k, input + p.ids, Remaining(cfg, p)));
      n.Continue? &&
      (|| (Ended(m, v, input, n.p.ids) && !Exhausted(cfg, n.p))
       || LateAbort(m, v, cfg, input, serve, k + 1, n.p, fuel - 1))
  }

  function Limit(cfg: Config): Option<nat> {
    if cfg.maxNewTokens <= 0 then None else Some(cfg.maxNewTokens)
  }

  lemma AdvanceKeepsPrefix(cfg: Config, input: seq<Token>, p: Partial, a: Attempt)
    requires var n := Advance(cfg, input, p, a); n.Stop? ==> n.outcome.Done?
    ensures p.ids <= HeldAfter(Advance(cfg, input, p, a)).ids
  {
  }

  lemma {:induction false} RunKeepsPrefix(cfg: Config, input: seq<Token>, serve: Backend, k: nat, p: Partial, fuel: nat)
    ensures var o := Run(cfg, input, serve, k, p, fuel); !o.Raised? ==> p.ids <= Held(o).ids
    decreases fuel
  {
    if !Exhausted(cfg, p) && fuel > 0 {
      var a := serve(k, input + p.ids, Remaining(cfg, p));
      var n := Advance(cfg, input, p, a);
      AdvanceStops(cfg, input, p, a);
      if n.Continue? || n.outcome.Done? {
        AdvanceKeepsPrefix(cfg, input, p, a);
      }
      if n.Continue? {
        RunKeepsPrefix(cfg, input, serve, k + 1, n.p, fuel - 1);
      }
    }
  }

  /** An answer that ends the loop without overflow makes the held tokens a completion of the request. */
  lemma StopCompletes(m: Model, v: string, cfg: Config, input: seq<Token>, p: Partial, a: Attempt)
    requires OnStream(m, v, input, p.ids) && !Ended(m, v, input, p.ids) && !Exhausted(cfg, p)
    requires SteadyAttempt(m, v, input + p.ids, Remaining(cfg, p), a)
    requires var n := Advance(cfg, input, p, a); n.Stop? ==> n.outcome.Done?
    ensures var n := Advance(cfg, input, p, a); var q := HeldAfter(n);
            && OnStream(m, v, input, q.ids) && Within(Limit(cfg), |q.ids|)
            && (n.Stop? && !q.overflow ==> Completion(m, v, input, Limit(cfg), q.ids))
  {
    var n := Advance(cfg, input, p, a);
    var q := HeldAfter(n);
    if a.Answered? {
      assert q.ids == p.ids + a.response.outputIds;
      ExtendStream(m, v, input, p.ids, a.response.outputIds);
    } else {
      assert q.ids == p.ids;
    }
  }

  /** With budget left, a generation that finishes without overflow has appended something. */
  lemma {:induction false} UnexhaustedGrows(m: Model, v: string, cfg: Config, input: seq<Token>, serve: Backend,
                                            k: nat, p: Partial, fuel: nat)
    requires SteadyBackend(m, v, serve) && !Exhausted(cfg, p) && !p.overflow
    ensures var o := Run(cfg, input, serve, k, p, fuel);
            o.Done? && !o.result.overflow ==> |p.ids| < |o.result.ids|
    decreases fuel
  {
    if fuel > 0 {
      var a := serve(k, input + p.ids, Remaining(cfg, p));
      assert SteadyAttempt(m, v, input + p.ids, Remaining(cfg, p), a);
      var n := Advance(cfg, input, p, a);
      if n.Continue? {
        AdvanceKeepsPrefix(cfg, input, p, a);
        if !Exhausted(cfg, n.p) {
          UnexhaustedGrows(m, v, cfg, input, serve, k + 1, n.p, fuel - 1);
        }
      }
    }
  }

  /**
    When no ended answer was continued, the stitched tokens are the uninterrupted answer; when one was,
    they are not.
   */
  ghost predicate CompletesUnlessLate(m: Model, v: string, cfg: Config, input: seq<Token>, serve: Backend, k: nat,
                                      p: Partial, fuel: nat)
  {
    var o := Run(cfg, input, serve, k, p, fuel);
    o.Done? && !o.result.overflow ==>
      (Completion(m, v, input, Limit(cfg), o.result.ids) <==> !LateAbort(m, v, cfg, input, serve, k, p, fuel))
  }

  lemma TurnCompletes(m: Model, v: string, cfg: Config, input: seq<Token>, serve: Backend, k: nat, p: Partial,
                      fuel: nat)
    requires !Exhausted(cfg, p) && fuel > 0
    requires var n := Advance(cfg, input, p, serve(k, input + p.ids, Remaining(cfg, p)));
             match n
             case Stop(o) => o.Done? && !o.result.overflow ==> Completion(m, v, input, Limit(cfg), o.result.ids)
             case Continue(q) =>
               if !Ended(m, v, input, q.ids) then CompletesUnlessLate(m, v, cfg, input, serve, k + 1, q, fuel - 1)
               else
                 var o := Run(cfg, input, serve, k + 1, q, fuel - 1);
                 && (o.Done? && !o.result.overflow ==>
                       (Completion(m, v, input, Limit(cfg), o.result.ids) <==> Exhausted(cfg, q)))
                 && (Exhausted(cfg, q) ==> !LateAbort(m, v, cfg, input, serve, k + 1, q, fuel - 1))
    ensures CompletesUnlessLate(m, v, cfg, input, serve, k, p, fuel)
  {
  }

  lemma {:induction false} RunCompletes(m: Model, v: string, cfg: Config, input: seq<Token>, serve: Backend, k: nat,
                                        p: Partial, fuel: nat)
    requires SteadyBackend(m, v, serve)
    requires OnStream(m, v, input, p.ids) && !Ended(m, v, input, p.ids) && Within(Limit(cfg), |p.ids|)
    requires !p.overflow
    ensures CompletesUnlessLate(m, v, cfg, input, serve, k, p, fuel)
    decreases fuel
  {
    if !Exhausted(cfg, p) && fuel > 0 {
      var a := serve(k, input + p.ids, Remaining(cfg, p));
      assert SteadyAttempt(m, v, input + p.ids, Remaining(cfg, p), a);
      var n := Advance(cfg, input, p, a);
      AdvanceStops(cfg, input, p, a);
      if n.Continue? || n.outcome.Done? {
        StopCompletes(m, v, cfg, input, p, a);
      }
      if n.Continue? {
        if Ended(m, v, input, n.p.ids) {
          EndedThenContinued(m, v, cfg, input, serve, k + 1, n.p, fuel - 1);
        } else {
          RunCompletes(m, v, cfg, input, serve, k + 1, n.p, fuel - 1);
        }
      }
      TurnCompletes(m, v, cfg, input, serve, k, p, fuel);
    }
  }

  /** After an end, the result is the uninterrupted answer exactly when no budget was left to continue. */
  lemma EndedThenContinued(m: Model, v: string, cfg: Config, input: seq<Token>, serve: Backend, k: nat, p: Partial,
                           fuel: nat)
    requires SteadyBackend(m, v, serve) && !p.overflow
    requires OnStream(m, v, input, p.ids) && Ended(m, v, input, p.ids) && Within(Limit(cfg), |p.ids|)
    ensures var o := Run(cfg, input, serve, k, p, fuel);
            o.Done? && !o.result.overflow ==> (Completion(m, v, input, Limit(cfg), o.result.ids) <==> Exhausted(cfg, p))
  {
    var o := Run(cfg, input, serve, k, p, fuel);
    if !Exhausted(cfg, p) && o.Done? && !o.result.overflow {
      RunKeepsPrefix(cfg, input, serve, k, p, fuel);
      UnexhaustedGrows(m, v, cfg, input, serve, k, p, fuel);
      assert o.result.ids[..|p.ids|] == p.ids;
      assert m.ends(v, input + o.result.ids[..|p.ids|]);
    }
  }

  /**
    Under one set of weights, a finished generation that did not overflow its context window returns
    the same tokens as the uninterrupted request if and only if no ended answer was marked interrupted with
    budget left.
   */
  lemma SameAsUninterrupted(m: Model, v: string, cfg: Config, input: seq<Token>, serve: Backend, attempts: nat,
                            whole: seq<Token>)
    requires SteadyBackend(m, v, serve)
    requires Completion(m, v, input, Limit(cfg), whole)
    ensures var o := Run(cfg, input, serve, 0, Empty, attempts);
            o.Done? && !o.result.overflow ==>
              (o.result.ids == whole <==> !LateAbort(m, v, cfg, input, serve, 0, Empty, attempts))
  {
    RunCompletes(m, v, cfg, input, serve, 0, Empty, attempts);
    var o := Run(cfg, input, serve, 0, Empty, attempts);
    if o.Done? && !o.result.overflow && Completion(m, v, input, Limit(cfg), o.result.ids) {
      if |whole| <= |o.result.ids| {
        CompletionUnique(m, v, input, Limit(cfg), whole, o.result.ids);
      } else {
        CompletionUnique(m, v, input, Limit(cfg), o.result.ids, whole);
      }
    }
  }

  /** Aborts cut only unfinished answers. */
  ghost predicate CutsOnlyUnfinished(m: Model, v: string, serve: Backend) {
    forall k, prompt, limit ::
      var a := serve(k, prompt, limit);
      a.Answered? && Interrupted(a.response, a.aborted) ==> !Ended(m, v, prompt, a.response.outputIds)
  }

  /** What is asked on from has not ended. */
  lemma GoesOnUnended(m: Model, v: string, cfg: Config, input: seq<Token>, serve: Backend, k: nat, p: Partial)
    requires CutsOnlyUnfinished(m, v, serve) && OnStream(m, v, input, p.ids) && !Ended(m, v, input, p.ids)
    requires var a := serve(k, input + p.ids, Remaining(cfg, p));
             SteadyAttempt(m, v, input + p.ids, Remaining(cfg, p), a) && Advance(cfg, input, p, a).Continue?
    ensures var ids := Advance(cfg, input, p, serve(k, input + p.ids, Remaining(cfg, p))).p.ids;
            OnStream(m, v, input, ids) && !Ended(m, v, input, ids)
  {
    var a := serve(k, input + p.ids, Remaining(cfg, p));
    var ids := Advance(cfg, input, p, a).p.ids;
    if a.Answered? {
      assert ids == p.ids + a.response.outputIds;
      ExtendStream(m, v, input, p.ids, a.response.outputIds);
      assert a.response.outputIds == [] ==> ids == p.ids;
    } else {
      assert ids == p.ids;
    }
  }

  lemma {:induction false} NoLateAbortWhenCutsAreReal(m: Model, v: string, cfg: Config, input: seq<Token>,
                                                      serve: Backend, k: nat, p: Partial, fuel: nat)
    requires SteadyBackend(m, v, serve) && CutsOnlyUnfinished(m, v, serve)
    requires OnStream(m, v, input, p.ids) && !Ended(m, v, input, p.ids)
    ensures !LateAbort(m, v, cfg, input, serve, k, p, fuel)
    decreases fuel
  {
    if !Exhausted(cfg, p) && fuel > 0 {
      var a := serve(k, input + p.ids, Remaining(cfg, p));
      assert SteadyAttempt(m, v, input + p.ids, Remaining(cfg, p), a);
      var n := Advance(cfg, input, p, a);
      if n.Continue? {
        GoesOnUnended(m, v, cfg, input, serve, k, p);
        NoLateAbortWhenCutsAreReal(m, v, cfg, input, serve, k + 1, n.p, fuel - 1);
      }
    }
  }

  // ------------------------------------------------------------------ overflow

  /** An overflow reported is the beginning of the whole answer, which overflows too. */
  predicate OverflowOf(cfg: Config, input: seq<Token>, whole: seq<Token>, o: Outcome) {
    o.Done? && o.result.overflow ==>
      && o.result.ids <= whole
      && cfg.contextWindow.Some? && |input| + |whole| > cfg.contextWindow.value
  }

  lemma StopOverflows(m: Model, v: string, cfg: Config, input: seq<Token>, p: Partial, a: Attempt, whole: seq<Token>)
    requires Completion(m, v, input, Limit(cfg), whole)
    requires var n := Advance(cfg, input, p, a);
             n.Stop? && (n.outcome.Done? ==>
                           && OnStream(m, v, input, n.outcome.result.ids)
                           && Within(Limit(cfg), |n.outcome.result.ids|))
    ensures OverflowOf(cfg, input, whole, Advance(cfg, input, p, a).outcome)
  {
    var o := Advance(cfg, input, p, a).outcome;
    if o.Done? {
      StreamBelowCompletion(m, v, input, Limit(cfg), o.result.ids, whole);
    }
  }

  /** A generation that stopped for overflow would have overflowed uninterrupted too. */
  lemma {:induction false} OverflowIsReal(m: Model, v: string, cfg: Config, input: seq<Token>, serve: Backend, k: nat,
                                          p: Partial, fuel: nat, whole: seq<Token>)
    requires SteadyBackend(m, v, serve) && CutsOnlyUnfinished(m, v, serve)
    requires Completion(m, v, input, Limit(cfg), whole)
    requires OnStream(m, v, input, p.ids) && !Ended(m, v, input, p.ids) && Within(Limit(cfg), |p.ids|)
    requires !p.overflow
    ensures OverflowOf(cfg, input, whole, Run(cfg, input, serve, k, p, fuel))
    decreases fuel
  {
    if !Exhausted(cfg, p) && fuel > 0 {
      var a := serve(k, input + p.ids, Remaining(cfg, p));
      assert SteadyAttempt(m, v, input + p.ids, Remaining(cfg, p), a);
      var n := Advance(cfg, input, p, a);
      AdvanceStops(cfg, input, p, a);
      if n.Continue? || n.outcome.Done? {
        StopCompletes(m, v, cfg, input, p, a);
      }
      if n.Stop? {
        StopOverflows(m, v, cfg, input, p, a, whole);
      } else {
        GoesOnUnended(m, v, cfg, input, serve, k, p);
        OverflowIsReal(m, v, cfg, input, serve, k + 1, n.p, fuel - 1, whole);
      }
    }
  }

  /** Everything on the stream within the limit is a prefix of the uninterrupted answer. */
  lemma StreamBelowCompletion(m: Model, v: string, prompt: seq<Token>, limit: Option<nat>, a: seq<Token>,
                              whole: seq<Token>)
    requires OnStream(m, v, prompt, a) && Within(limit, |a|)
    requires Completion(m, v, prompt, limit, whole)
    ensures a <= whole
  {
    assert 0 < |whole| < |a| ==> !m.ends(v, prompt + a[..|whole|]);
    if |a| <= |whole| {
      StreamUnique(m, v, prompt, a, whole);
    } else {
      StreamUnique(m, v, prompt, whole, a);
    }
  }

  predicate FitsWindow(cfg: Config, input: seq<Token>, ids: seq<Token>) {
    cfg.contextWindow.Some? ==> |input| + |ids| <= cfg.contextWindow.value
  }

  lemma {:induction false} DoneFitsWindow(cfg: Config, input: seq<Token>, serve: Backend, k: nat, p: Partial, fuel: nat)
    requires p.ids == [] || FitsWindow(cfg, input, p.ids)
    ensures var o := Run(cfg, input, serve, k, p, fuel);
            o.Done? && !o.result.overflow ==> FitsWindow(cfg, input, o.result.ids)
    decreases fuel
  {
    if !Exhausted(cfg, p) && fuel > 0 {
      var n := Advance(cfg, input, p, serve(k, input + p.ids, Remaining(cfg, p)));
      if n.Continue? {
        DoneFitsWindow(cfg, input, serve, k + 1, n.p, fuel - 1);
      }
    }
  }

  /**
    If aborts cut only unfinished answers under one set of weights, a finished generation reports
    overflow exactly when the uninterrupted answer would, and otherwise returns that answer.
   */
  lemma PreemptionIsTransparent(m: Model, v: string, cfg: Config, input: seq<Token>, serve: Backend, attempts: nat,
                                whole: seq<Token>)
    requires SteadyBackend(m, v, serve) && CutsOnlyUnfinished(m, v, serve)
    requires Completion(m, v, input, Limit(cfg), whole)
    ensures var o := Run(cfg, input, serve, 0, Empty, attempts);
            o.Done? ==>
              && (o.result.overflow <==> !FitsWindow(cfg, input, whole))
              && (!o.result.overflow ==> o.result.ids == whole)
  {
    NoLateAbortWhenCutsAreReal(m, v, cfg, input, serve, 0, Empty, attempts);
    SameAsUninterrupted(m, v, cfg, input, serve, attempts, whole);
    OverflowIsReal(m, v, cfg, input, serve, 0, Empty, attempts, whole);
    DoneFitsWindow(cfg, input, serve, 0, Empty, attempts);
  }

  // ------------------------------------------------------- a racing abort

  /** An answer that ended after one token, marked interrupted by an abort that was accepted late. */
  lemma LateAbortOverruns()
    ensures var m := Model((w, s) => 7, (w, s) => 0.0, (w, s) => true);
            var serve: Backend := (k, prompt, limit) =>
              Answered(0, Response([7], [0.0], Some("w1"), "stop", None), k == 0, "w1", false);
            var cfg := Config(0, None, None, None, true);
            && SteadyBackend(m, "w1", serve)
            && Completion(m, "w1", [], None, [7])
            && Run(cfg, [], serve, 0, Empty, 2).Done?
            && Run(cfg, [], serve, 0, Empty, 2).result.ids == [7, 7]
  {
    var serve: Backend := (k, prompt, limit) =>
      Answered(0, Response([7], [0.0], Some("w1"), "stop", None), k == 0, "w1", false);
    var cfg := Config(0, None, None, None, true);
    var p1 := Append([], Empty, 0, Response([7], [0.0], Some("w1"), "stop", None), true);
    assert Run(cfg, [], serve, 0, Empty, 2) == Run(cfg, [], serve, 1, p1, 1);
  }

  // --------------------------------------------------- without partial rollout

  /**
    Without partial rollout a returned result comes from one registration: one epoch, the expected
    one when there is one, and one recorded version for all tokens.
   */
  lemma OneRegistration(cfg: Config, input: seq<Token>, serve: Backend, attempts: nat)
    requires !cfg.partialRollout
    ensures var o := Run(cfg, input, serve, 0, Empty, attempts);
            o.Done? ==>
              && o.result.epoch.Some?
              && (cfg.expectedEpoch.Some? ==> o.result.epoch == cfg.expectedEpoch)
              && (forall i, j | 0 <= i < |o.result.versions| && 0 <= j < |o.result.versions| ::
                    o.result.versions[i] == o.result.versions[j])
  {
  }
}
