/**
  How a generation ends, told from the backend's replies alone: which reply was asked for, which of them are
  joined, and what made the loop stop (dressage/proxy/generation_controller.py:201-446).
 */
module GenerationOutcome {
  import opened Wrappers
  import opened Sequences
  import opened Stitching

  // -------------------------------------------------------------- the replies

  function Output(a: Attempt): seq<Token> {
    if a.Answered? then a.response.outputIds else []
  }

  /** How many of the tokens allowed are left after n of them. */
  function Left(cfg: Config, n: nat): Option<nat> {
    if cfg.maxNewTokens > 0 && n < cfg.maxNewTokens then Some(cfg.maxNewTokens - n) else None
  }

  /** The tokens of the first k replies, and the reply to asking on from there. */
  ghost function Gathered(cfg: Config, input: seq<Token>, serve: Backend, k: nat): seq<Token>
    decreases k, 0
  {
    if k == 0 then [] else Gathered(cfg, input, serve, k - 1) + Output(Reply(cfg, input, serve, k - 1))
  }

  ghost function Reply(cfg: Config, input: seq<Token>, serve: Backend, k: nat): Attempt
    decreases k, 1
  {
    var ids := Gathered(cfg, input, serve, k);
    serve(k, input + ids, Left(cfg, |ids|))
  }

  function Logprobs(a: Attempt): seq<real> {
    if a.Answered? then a.response.logprobs else []
  }

  /** The version an answer names for its tokens; naming none is recorded as unknown. */
  function Named(a: Attempt): string {
    if a.Answered? && a.response.version.Some? && a.response.version.value != "" then a.response.version.value
    else UnknownVersion
  }

  ghost function GatheredLogprobs(cfg: Config, input: seq<Token>, serve: Backend, k: nat): seq<real> {
    if k == 0 then []
    else GatheredLogprobs(cfg, input, serve, k - 1) + Logprobs(Reply(cfg, input, serve, k - 1))
  }

  ghost function GatheredVersions(cfg: Config, input: seq<Token>, serve: Backend, k: nat): seq<string> {
    if k == 0 then []
    else
      var a := Reply(cfg, input, serve, k - 1);
      GatheredVersions(cfg, input, serve, k - 1) + Repeat(Named(a), |Output(a)|)
  }

  /**
    The expert data a reply adds, laid out after the tokens it was asked with; a cut reply without tokens
    adds none.
   */
  function Experts(input: seq<Token>, ids: seq<Token>, a: Attempt): seq<ExpertChunk> {
    if a.Answered? && a.response.experts.Some? && (Output(a) != [] || !CutShort(a))
    then [ExpertChunk(a.response.experts.value, |input| + |ids|, |Output(a)|, ids == [])] else []
  }

  ghost function GatheredExperts(cfg: Config, input: seq<Token>, serve: Backend, k: nat): seq<ExpertChunk> {
    if k == 0 then []
    else
      GatheredExperts(cfg, input, serve, k - 1)
      + Experts(input, Gathered(cfg, input, serve, k - 1), Reply(cfg, input, serve, k - 1))
  }

  /** The arrays of the first k replies, joined in order. */
  ghost predicate HoldsReplies(cfg: Config, input: seq<Token>, serve: Backend, k: nat, p: Partial) {
    && p.ids == Gathered(cfg, input, serve, k)
    && p.logprobs == GatheredLogprobs(cfg, input, serve, k)
    && p.versions == GatheredVersions(cfg, input, serve, k)
    && p.experts == GatheredExperts(cfg, input, serve, k)
  }

  predicate Full(cfg: Config, ids: seq<Token>) {
    cfg.maxNewTokens > 0 && |ids| >= cfg.maxNewTokens
  }

  predicate Overflows(cfg: Config, input: seq<Token>, ids: seq<Token>) {
    cfg.contextWindow.Some? && |input| + |ids| > cfg.contextWindow.value
  }

  // --------------------------------------------------- what a reply makes happen

  predicate Stale(cfg: Config, a: Attempt) {
    !a.Refused? && cfg.expectedEpoch.Some? && cfg.expectedEpoch.value != a.epoch
  }

  /** There is something to join: an answer, or nothing at all when an accepted abort ended the request. */
  predicate Joins(cfg: Config, a: Attempt) {
    !a.Refused? && !Stale(cfg, a) && (a.Failed? ==> a.aborted && !a.stopping)
  }

  predicate Unversioned(a: Attempt) {
    a.Failed? || (a.Answered? && a.response.version.None?)
  }

  /** A pinned generation takes only answers of its version. */
  predicate Accepted(cfg: Config, a: Attempt) {
    && Joins(cfg, a)
    && (cfg.expectedVersion.Some? ==> a.Answered? && a.response.version == cfg.expectedVersion)
  }

  predicate CutShort(a: Attempt) {
    a.Failed? || (a.Answered? && (a.aborted || a.response.finish in PreemptReasons))
  }

  /** The generation waits for a resume and asks again. */
  predicate Resumes(cfg: Config, input: seq<Token>, ids: seq<Token>, a: Attempt) {
    Accepted(cfg, a) && CutShort(a) && cfg.partialRollout && !Overflows(cfg, input, ids) && !a.stopsAfter
  }

  predicate Finishes(cfg: Config, input: seq<Token>, ids: seq<Token>, a: Attempt) {
    Accepted(cfg, a) && if CutShort(a) then cfg.partialRollout && Overflows(cfg, input, ids) else true
  }

  /** Why the generation raises. */
  predicate Causes(cfg: Config, input: seq<Token>, ids: seq<Token>, a: Attempt, e: Error) {
    match e
    case StaleEpoch => Stale(cfg, a)
    case Upstream => a.Failed? && !Stale(cfg, a) && !a.stopping && !a.aborted
    case VersionUnavailable => Joins(cfg, a) && cfg.expectedVersion.Some? && Unversioned(a)
    case VersionMismatch =>
      Joins(cfg, a) && cfg.expectedVersion.Some? && !Unversioned(a) && a.response.version != cfg.expectedVersion
    case Preempted => Accepted(cfg, a) && CutShort(a) && !cfg.partialRollout
    case ShuttingDown =>
      || a.Refused?
      || (a.Failed? && !Stale(cfg, a) && a.stopping)
      || (Accepted(cfg, a) && CutShort(a) && cfg.partialRollout && !Overflows(cfg, input, ids) && a.stopsAfter)
  }

  /** Every reply has one effect: it resumes, it finishes, or it is the cause of one error. */
  lemma OneEffect(cfg: Config, input: seq<Token>, ids: seq<Token>, a: Attempt, e: Error, e': Error)
    ensures Resumes(cfg, input, ids, a) || Finishes(cfg, input, ids, a) || exists x :: Causes(cfg, input, ids, a, x)
    ensures !(Resumes(cfg, input, ids, a) && Finishes(cfg, input, ids, a))
    ensures Causes(cfg, input, ids, a, e) ==> !Resumes(cfg, input, ids, a) && !Finishes(cfg, input, ids, a)
    ensures Causes(cfg, input, ids, a, e) && Causes(cfg, input, ids, a, e') ==> e == e'
  {
    if !Resumes(cfg, input, ids, a) && !Finishes(cfg, input, ids, a) {
      var x := if a.Refused? then ShuttingDown else if Stale(cfg, a) then StaleEpoch
               else if a.Failed? && a.stopping then ShuttingDown else if a.Failed? && !a.aborted then Upstream
               else if !Accepted(cfg, a) && Unversioned(a) then VersionUnavailable
               else if !Accepted(cfg, a) then VersionMismatch
               else if !cfg.partialRollout then Preempted else ShuttingDown;
      assert Causes(cfg, input, ids, a, x);
    }
  }

  /** The loop did what the reply makes happen. */
  ghost predicate Follows(cfg: Config, input: seq<Token>, p: Partial, a: Attempt, next: Next) {
    var ids := p.ids + Output(a);
    match next
    case Continue(q) => Resumes(cfg, input, ids, a) && Joined(input, p, a, q)
    case Stop(Done(q)) => Finishes(cfg, input, ids, a) && Joined(input, p, a, q) && Marked(cfg, input, ids, a, q)
    case Stop(Raised(e)) => Causes(cfg, input, ids, a, e)
    case Stop(Waiting(_)) => false
  }

  lemma AdvanceFollowsReply(cfg: Config, input: seq<Token>, p: Partial, a: Attempt)
    ensures Follows(cfg, input, p, a, Advance(cfg, input, p, a))
  {
    if a.Answered? {
      AnswerIsFollowed(cfg, input, p, a);
    } else if a.Failed? {
      FailureIsFollowed(cfg, input, p, a);
    }
  }

  lemma AnswerIsFollowed(cfg: Config, input: seq<Token>, p: Partial, a: Attempt)
    requires a.Answered?
    ensures Follows(cfg, input, p, a, Advance(cfg, input, p, a))
  {
    AppendJoins(input, p, a);
    assert CutShort(a) <==> Interrupted(a.response, a.aborted);
  }

  lemma AppendJoins(input: seq<Token>, p: Partial, a: Attempt)
    requires a.Answered?
    ensures Joined(input, p, a, Append(input, p, a.epoch, a.response, a.aborted))
  {
    NothingJoins(p.experts);
  }

  lemma FailureIsFollowed(cfg: Config, input: seq<Token>, p: Partial, a: Attempt)
    requires a.Failed?
    ensures Follows(cfg, input, p, a, Advance(cfg, input, p, a))
  {
    NothingJoins(p.ids);
    NothingJoins(p.logprobs);
    NothingJoins(p.experts);
  }

  lemma NothingJoins<T>(xs: seq<T>)
    ensures xs + [] == xs
  {
  }

  ghost predicate Joined(input: seq<Token>, p: Partial, a: Attempt, q: Partial) {
    && !a.Refused? && q.epoch == (if p.epoch.None? then Some(a.epoch) else p.epoch)
    && q.ids == p.ids + Output(a) && q.logprobs == p.logprobs + Logprobs(a)
    && q.versions == p.versions + Repeat(Named(a), |Output(a)|)
    && q.experts == p.experts + Experts(input, p.ids, a)
  }

  /** The result says whether the window overflowed, and else how the last answer finished. */
  predicate Marked(cfg: Config, input: seq<Token>, ids: seq<Token>, a: Attempt, q: Partial) {
    && (q.overflow <==> Overflows(cfg, input, ids))
    && if q.overflow then q.finish == "length" else a.Answered? && q.finish == a.response.finish
  }

  // --------------------------------------------------------------- whole runs

  ghost predicate ResumedAt(cfg: Config, input: seq<Token>, serve: Backend, j: nat) {
    && !Full(cfg, Gathered(cfg, input, serve, j))
    && Resumes(cfg, input, Gathered(cfg, input, serve, j + 1), Reply(cfg, input, serve, j))
  }

  ghost predicate ResumedBefore(cfg: Config, input: seq<Token>, serve: Backend, n: nat) {
    forall j: nat | j < n :: ResumedAt(cfg, input, serve, j)
  }

  /** The first n replies were joined and asked on from, and there the generation ended as `o` says. */
  ghost predicate EndsAt(cfg: Config, input: seq<Token>, serve: Backend, attempts: nat, n: nat, o: Outcome) {
    var ids, next := Gathered(cfg, input, serve, n), Gathered(cfg, input, serve, n + 1);
    var a := Reply(cfg, input, serve, n);
    && n <= attempts && ResumedBefore(cfg, input, serve, n)
    && match o
       case Waiting(p) => n == attempts && !Full(cfg, ids) && HoldsReplies(cfg, input, serve, n, p)
       case Raised(e) => n < attempts && !Full(cfg, ids) && Causes(cfg, input, next, a, e)
       case Done(r) =>
         if Full(cfg, ids) then HoldsReplies(cfg, input, serve, n, r) && !r.overflow
         else
           && n < attempts && Finishes(cfg, input, next, a)
           && HoldsReplies(cfg, input, serve, n + 1, r) && Marked(cfg, input, next, a, r)
  }

  ghost predicate FirstEpoch(cfg: Config, input: seq<Token>, serve: Backend, p: Partial) {
    var first := Reply(cfg, input, serve, 0);
    !first.Refused? && p.epoch == Some(first.epoch)
  }

  ghost predicate EndsSomewhere(cfg: Config, input: seq<Token>, serve: Backend, attempts: nat, o: Outcome) {
    && (exists n: nat :: EndsAt(cfg, input, serve, attempts, n, o))
    && (o.Done? ==> FirstEpoch(cfg, input, serve, o.result))
  }

  /** What the loop holds before attempt k. */
  ghost predicate OnCourse(cfg: Config, input: seq<Token>, serve: Backend, k: nat, p: Partial) {
    && HoldsReplies(cfg, input, serve, k, p) && ResumedBefore(cfg, input, serve, k) && !p.overflow
    && if k == 0 then p.epoch.None? else FirstEpoch(cfg, input, serve, p)
  }

  lemma ResumesOnCourse(cfg: Config, input: seq<Token>, serve: Backend, k: nat, p: Partial, q: Partial)
    requires OnCourse(cfg, input, serve, k, p) && !Full(cfg, p.ids)
    requires Advance(cfg, input, p, Reply(cfg, input, serve, k)) == Continue(q)
    ensures OnCourse(cfg, input, serve, k + 1, q)
  {
    AdvanceFollowsReply(cfg, input, p, Reply(cfg, input, serve, k));
    assert ResumedAt(cfg, input, serve, k);
  }

  lemma StopsOnCourse(cfg: Config, input: seq<Token>, serve: Backend, k: nat, p: Partial, attempts: nat, o: Outcome)
    requires OnCourse(cfg, input, serve, k, p) && !Full(cfg, p.ids) && k < attempts
    requires Advance(cfg, input, p, Reply(cfg, input, serve, k)) == Stop(o)
    ensures EndsSomewhere(cfg, input, serve, attempts, o)
  {
    AdvanceFollowsReply(cfg, input, p, Reply(cfg, input, serve, k));
    assert EndsAt(cfg, input, serve, attempts, k, o);
  }

  lemma EndsOnCourse(cfg: Config, input: seq<Token>, serve: Backend, k: nat, p: Partial, attempts: nat, o: Outcome)
    requires OnCourse(cfg, input, serve, k, p) && k <= attempts && (k == 0 ==> !Full(cfg, p.ids))
    requires if Full(cfg, p.ids) then o == Done(p) else k == attempts && o == Waiting(p)
    ensures EndsSomewhere(cfg, input, serve, attempts, o)
  {
    assert EndsAt(cfg, input, serve, attempts, k, o);
  }

  lemma RunTakesReply(cfg: Config, input: seq<Token>, serve: Backend, k: nat, p: Partial, fuel: nat)
    requires p.ids == Gathered(cfg, input, serve, k) && !Full(cfg, p.ids) && fuel > 0
    ensures Run(cfg, input, serve, k, p, fuel) ==
            match Advance(cfg, input, p, Reply(cfg, input, serve, k))
            case Stop(o) => o
            case Continue(q) => Run(cfg, input, serve, k + 1, q, fuel - 1)
  {
    assert Reply(cfg, input, serve, k) == serve(k, input + p.ids, Remaining(cfg, p));
  }

  lemma {:induction false} RunEndsAsReplied(cfg: Config, input: seq<Token>, serve: Backend, k: nat, p: Partial,
                                            fuel: nat, attempts: nat)
    requires OnCourse(cfg, input, serve, k, p) && (k == 0 ==> !Full(cfg, p.ids)) && attempts == k + fuel
    ensures EndsSomewhere(cfg, input, serve, attempts, Run(cfg, input, serve, k, p, fuel))
    decreases fuel
  {
    if Full(cfg, p.ids) || fuel == 0 {
      EndsOnCourse(cfg, input, serve, k, p, attempts, Run(cfg, input, serve, k, p, fuel));
    } else {
      RunTakesReply(cfg, input, serve, k, p, fuel);
      match Advance(cfg, input, p, Reply(cfg, input, serve, k)) {
        case Stop(o) => StopsOnCourse(cfg, input, serve, k, p, attempts, o);
        case Continue(q) =>
          ResumesOnCourse(cfg, input, serve, k, p, q);
          RunEndsAsReplied(cfg, input, serve, k + 1, q, fuel - 1, attempts);
      }
    }
  }

  /**
    Every outcome, from the replies alone. Some number of replies were cut short and asked on from; then the
    token limit was reached, or the attempts ran out, or the next reply finished the generation or was the
    cause of the error raised. The tokens are those of the replies, joined; the epoch is the first reply's.
   */
  lemma GenerationEndsAsReplied(cfg: Config, input: seq<Token>, serve: Backend, attempts: nat)
    ensures EndsSomewhere(cfg, input, serve, attempts, Run(cfg, input, serve, 0, Empty, attempts))
  {
    RunEndsAsReplied(cfg, input, serve, 0, Empty, attempts, attempts);
  }

  // -------------------------------------------------------------- consequences

  /** With partial rollout an interruption is never an error, however often it happens. */
  lemma NeverPreemptedWithPartialRollout(cfg: Config, input: seq<Token>, serve: Backend, attempts: nat)
    requires cfg.partialRollout
    ensures Run(cfg, input, serve, 0, Empty, attempts) != Raised(Preempted)
  {
    GenerationEndsAsReplied(cfg, input, serve, attempts);
  }

  /** Replies come, the proxy does not stop, and a request fails only because it was aborted. */
  ghost predicate Cooperative(serve: Backend) {
    forall k, prompt, limit ::
      var a := serve(k, prompt, limit);
      !a.Refused? && !a.stopsAfter && (a.Failed? ==> a.aborted && !a.stopping)
  }

  lemma CooperativeReply(cfg: Config, input: seq<Token>, serve: Backend, k: nat, ids: seq<Token>, e: Error)
    requires Cooperative(serve) && cfg.partialRollout && cfg.expectedVersion.None? && cfg.expectedEpoch.None?
    ensures !Causes(cfg, input, ids, Reply(cfg, input, serve, k), e)
  {
  }

  /**
    Against a cooperative backend an unpinned generation with partial rollout raises nothing: it is done, or
    each of its attempts was cut short.
   */
  lemma CooperativeNeverRaises(cfg: Config, input: seq<Token>, serve: Backend, attempts: nat)
    requires Cooperative(serve) && cfg.partialRollout && cfg.expectedVersion.None? && cfg.expectedEpoch.None?
    ensures var o := Run(cfg, input, serve, 0, Empty, attempts);
            && !o.Raised?
            && (o.Waiting? ==> forall j: nat | j < attempts :: CutShort(Reply(cfg, input, serve, j)))
  {
    var o := Run(cfg, input, serve, 0, Empty, attempts);
    GenerationEndsAsReplied(cfg, input, serve, attempts);
    var n: nat :| EndsAt(cfg, input, serve, attempts, n, o);
    if o.Raised? {
      CooperativeReply(cfg, input, serve, n, Gathered(cfg, input, serve, n + 1), o.error);
    } else if o.Waiting? {
      forall j: nat | j < attempts ensures CutShort(Reply(cfg, input, serve, j)) {
        assert ResumedAt(cfg, input, serve, j);
      }
    }
  }

  /** Ids, logprobs and versions of any outcome keep their lengths when the answers' do. */
  lemma {:induction false} VersionsAligned(cfg: Config, input: seq<Token>, serve: Backend, k: nat, p: Partial,
                                           fuel: nat)
    requires |p.versions| == |p.ids|
    ensures var o := Run(cfg, input, serve, k, p, fuel); !o.Raised? ==> |Held(o).versions| == |Held(o).ids|
    decreases fuel
  {
    if !Exhausted(cfg, p) && fuel > 0 {
      var n := Advance(cfg, input, p, serve(k, input + p.ids, Remaining(cfg, p)));
      if n.Continue? {
        VersionsAligned(cfg, input, serve, k + 1, n.p, fuel - 1);
      }
    }
  }
}
