/**
  The guards that keep a trajectory on one rollout epoch and weight version, or within a bounded span of
  versions (dressage/proxy/server.py:82, 257-416, 1982-1987, 2167-2180, 2207-2211, 2318-2344).

  A request is one pass through the pipeline under the session's request lock; what generation returns
  is what the stitching loop returns against an arbitrary backend. The rollout epoch never decreases.
 */
module VersionGuards {
  import opened Wrappers
  import opened Sequences
  import opened Strings
  import Stitching

  const NonReal := {"", "-1", UnknownVersion, "none"}

  // ------------------------------------------------------------ real versions

  function Lower(s: string): string {
    seq(|s|, i requires 0 <= i < |s| => if 'A' <= s[i] <= 'Z' then (s[i] as int + 32) as char else s[i])
  }

  /** Placeholders such as "-1" or " Unknown " name no weights. */
  predicate IsReal(v: string) {
    Lower(Strip(v)) !in NonReal
  }

  function RealOf(values: seq<string>): set<string> {
    set v | v in values && IsReal(v)
  }

  // --------------------------------------------------------------- the session

  /** `epoch` is the rollout epoch the step's generation was registered in. */
  datatype VersionedStep = VersionedStep(epoch: Option<nat>, responseVersions: seq<string>, version: string)

  datatype Trajectory = Trajectory(steps: seq<VersionedStep>, rolloutEpoch: Option<nat>)

  function AllVersions(steps: seq<VersionedStep>): seq<string> {
    if steps == [] then []
    else
      var last := steps[|steps| - 1];
      AllVersions(steps[..|steps| - 1]) + last.responseVersions + [last.version, last.version]
  }

  function ResponseVersions(steps: seq<VersionedStep>): seq<string> {
    if steps == [] then [] else ResponseVersions(steps[..|steps| - 1]) + steps[|steps| - 1].responseVersions
  }

  method CollectReal(values: seq<string>) returns (versions: set<string>)
    ensures versions == RealOf(values)
  {
    versions := {};
    for j := 0 to |values|
      invariant versions == RealOf(values[..j])
    {
      RealNext(values, j);
      if IsReal(values[j]) {
        versions := versions + {values[j]};
      }
    }
    assert values[..|values|] == values;
  }

  lemma RealConcat(a: seq<string>, b: seq<string>)
    ensures RealOf(a + b) == RealOf(a) + RealOf(b)
  {
  }

  /** _session_real_versions. */
  method SessionRealVersions(s: Trajectory) returns (versions: set<string>)
    ensures versions == RealOf(AllVersions(s.steps))
  {
    versions := {};
    for i := 0 to |s.steps|
      invariant versions == RealOf(AllVersions(s.steps[..i]))
    {
      assert s.steps[..i + 1] == s.steps[..i] + [s.steps[i]];
      StepAddsItsVersions(s.steps[..i], s.steps[i]);
      var names := [s.steps[i].version, s.steps[i].version];
      var more := CollectReal(s.steps[i].responseVersions + names);
      Regroup(AllVersions(s.steps[..i]), s.steps[i].responseVersions, names);
      RealConcat(AllVersions(s.steps[..i]), s.steps[i].responseVersions + names);
      versions := versions + more;
    }
    assert s.steps[..|s.steps|] == s.steps;
  }

  lemma RealSnoc(values: seq<string>, v: string)
    ensures RealOf(values + [v]) == RealOf(values) + if IsReal(v) then {v} else {}
  {
  }

  lemma RealNext(values: seq<string>, i: nat)
    requires i < |values|
    ensures RealOf(values[..i + 1]) == RealOf(values[..i]) + if IsReal(values[i]) then {values[i]} else {}
  {
    assert values[..i + 1] == values[..i] + [values[i]];
    RealSnoc(values[..i], values[i]);
  }

  /** The list holds the members of the set, each once. */
  ghost predicate Lists(versions: seq<string>, seen: set<string>) {
    |versions| == |seen| && forall v :: v in versions <==> v in seen
  }

  lemma ListsOneMore(versions: seq<string>, seen: set<string>, v: string)
    requires Lists(versions, seen) && v !in seen
    ensures Lists(versions + [v], seen + {v})
  {
  }

  /** _ordered_real_versions: its length is the number of distinct real versions. */
  method OrderedRealVersions(values: seq<string>) returns (versions: seq<string>)
    ensures |versions| == |RealOf(values)|
    ensures forall v :: v in versions <==> v in RealOf(values)
  {
    versions := [];
    var seen: set<string> := {};
    for i := 0 to |values|
      invariant seen == RealOf(values[..i]) && Lists(versions, seen)
    {
      RealNext(values, i);
      if IsReal(values[i]) && values[i] !in seen {
        ListsOneMore(versions, seen, values[i]);
        versions := versions + [values[i]];
        seen := seen + {values[i]};
      }
    }
    assert values[..|values|] == values;
  }

  // -------------------------------------------------------------------- guards

  datatype Settings = Settings(partialRollout: bool, maxPreempts: Option<nat>)

  predicate StaleEpoch(cfg: Settings, s: Trajectory, current: nat) {
    !cfg.partialRollout && s.steps != [] && s.rolloutEpoch.Some? && s.rolloutEpoch.value != current
  }

  predicate CrossVersion(cfg: Settings, s: Trajectory, candidates: seq<string>) {
    && !cfg.partialRollout
    && RealOf(AllVersions(s.steps)) != {}
    && !(RealOf(candidates) <= RealOf(AllVersions(s.steps)))
  }

  predicate SpanExceeded(cfg: Settings, s: Trajectory, candidates: seq<string>) {
    && cfg.partialRollout && cfg.maxPreempts.Some?
    && |RealOf(ResponseVersions(s.steps) + candidates)| - 1 > cfg.maxPreempts.value
  }

  // ------------------------------------------------------------------- requests

  /**
    `fallback` is the version named when no token came back; `recorded` is false when the request fails
    between the guards and the recording of its step.
   */
  datatype Request = Request(
    epoch: nat,
    input: seq<Token>,
    maxNewTokens: int,
    contextWindow: Option<nat>,
    expectedVersion: Option<string>,
    currentVersion: Option<string>,
    serve: Stitching.Backend,
    attempts: nat,
    fallback: string,
    recorded: bool)

  function Listed(v: Option<string>): seq<string> {
    if v.Some? then [v.value] else []
  }

  function ConfigOf(cfg: Settings, s: Trajectory, r: Request): Stitching.Config {
    Stitching.Config(r.maxNewTokens, r.contextWindow, r.expectedVersion,
                     if !cfg.partialRollout && s.steps != [] then Some(r.epoch) else None,
                     cfg.partialRollout)
  }

  function Generate(cfg: Settings, s: Trajectory, r: Request): Stitching.Outcome {
    Stitching.Run(ConfigOf(cfg, s, r), r.input, r.serve, 0, Stitching.Empty, r.attempts)
  }

  function VersionOf(p: Stitching.Partial, fallback: string): string {
    if p.versions != [] then p.versions[|p.versions| - 1] else fallback
  }

  function VersionsOf(p: Stitching.Partial, fallback: string): (r: seq<string>)
    ensures |r| == |p.ids|
  {
    if |p.versions| == |p.ids| then p.versions else Repeat(VersionOf(p, fallback), |p.ids|)
  }

  /** The session after generation returned `p`. */
  function Accept(cfg: Settings, s: Trajectory, r: Request, p: Stitching.Partial): Trajectory {
    var version := VersionOf(p, r.fallback);
    var versions := VersionsOf(p, r.fallback);
    var overflow := p.overflow && r.contextWindow.Some?;
    if CrossVersion(cfg, s, versions + [version, version]) then s
    else if !overflow && SpanExceeded(cfg, s, versions) then s
    else
      var s1 := s.(rolloutEpoch := if s.rolloutEpoch.None? then p.epoch else s.rolloutEpoch);
      if !r.recorded then s1
      else s1.(steps := s.steps + [VersionedStep(p.epoch, if overflow then [] else versions, version)])
  }

  function Apply(cfg: Settings, s: Trajectory, r: Request): Trajectory {
    if StaleEpoch(cfg, s, r.epoch) then s
    else if CrossVersion(cfg, s, Listed(r.expectedVersion) + Listed(r.currentVersion)) then s
    else
      match Generate(cfg, s, r)
      case Done(p) => Accept(cfg, s, r, p)
      case _ => s
  }

  // ------------------------------------------------------- time and legal runs

  /** The rollout epoch never decreases, so a registration reads at least the epoch the request started in. */
  ghost predicate NotBefore(serve: Stitching.Backend, e: nat) {
    forall k, prompt, limit ::
      var a := serve(k, prompt, limit);
      (a.Answered? || a.Failed?) ==> e <= a.epoch
  }

  function Registered(cfg: Settings, s: Trajectory, r: Request): Option<nat> {
    match Generate(cfg, s, r)
    case Done(p) => p.epoch
    case _ => None
  }

  function Clock(cfg: Settings, s: Trajectory, r: Request): nat {
    match Registered(cfg, s, r)
    case None => r.epoch
    case Some(e) => if e > r.epoch then e else r.epoch
  }

  ghost predicate Legal(cfg: Settings, s: Trajectory, clock: nat, run: seq<Request>)
    decreases |run|
  {
    run == [] ||
    (&& clock <= run[0].epoch && NotBefore(run[0].serve, run[0].epoch)
     && Legal(cfg, Apply(cfg, s, run[0]), Clock(cfg, s, run[0]), run[1..]))
  }

  function Run(cfg: Settings, s: Trajectory, run: seq<Request>): Trajectory
    decreases |run|
  {
    if run == [] then s else Run(cfg, Apply(cfg, s, run[0]), run[1..])
  }

  const NewSession := Trajectory([], None)

  // -------------------------------------------------------- what gets recorded

  /** No version among `named` is new to a session that has one. */
  predicate NothingNew(s: Trajectory, named: seq<string>) {
    var known := RealOf(AllVersions(s.steps));
    known == {} || forall v | v in named && IsReal(v) :: v in known
  }

  /** Without partial rollout: the request came in the session's epoch and brings no other version. */
  predicate FitsSession(s: Trajectory, r: Request, p: Stitching.Partial) {
    && (s.steps == [] || s.rolloutEpoch.None? || s.rolloutEpoch == Some(r.epoch))
    && NothingNew(s, Listed(r.expectedVersion) + Listed(r.currentVersion)
                     + VersionsOf(p, r.fallback) + [VersionOf(p, r.fallback)])
  }

  /** With partial rollout: an overflowing response is dropped and adds no version; any other stays in the span. */
  predicate FitsSpan(cfg: Settings, s: Trajectory, r: Request, p: Stitching.Partial) {
    || cfg.maxPreempts.None?
    || (p.overflow && r.contextWindow.Some?)
    || |RealOf(ResponseVersions(s.steps) + VersionsOf(p, r.fallback))| <= cfg.maxPreempts.value + 1
  }

  lemma NothingNewConcat(s: Trajectory, a: seq<string>, b: seq<string>)
    ensures NothingNew(s, a + b) <==> NothingNew(s, a) && NothingNew(s, b)
  {
    assert forall v :: v in a + b <==> v in a || v in b;
  }

  lemma NewIffCrosses(cfg: Settings, s: Trajectory, named: seq<string>)
    requires !cfg.partialRollout
    ensures CrossVersion(cfg, s, named) <==> !NothingNew(s, named)
  {
  }

  lemma RefusedIff(cfg: Settings, s: Trajectory, r: Request, p: Stitching.Partial)
    requires !cfg.partialRollout
    ensures FitsSession(s, r, p) <==>
            && !StaleEpoch(cfg, s, r.epoch)
            && !CrossVersion(cfg, s, Listed(r.expectedVersion) + Listed(r.currentVersion))
            && !CrossVersion(cfg, s, VersionsOf(p, r.fallback) + [VersionOf(p, r.fallback), VersionOf(p, r.fallback)])
  {
    var asked, named := Listed(r.expectedVersion) + Listed(r.currentVersion), VersionsOf(p, r.fallback);
    var last := VersionOf(p, r.fallback);
    NothingNewConcat(s, asked + named, [last]);
    NothingNewConcat(s, asked, named);
    NothingNewConcat(s, named, [last, last]);
    NewIffCrosses(cfg, s, asked);
    NewIffCrosses(cfg, s, named + [last, last]);
  }

  /**
    A generation that is done, of a request that fails nowhere else, is recorded if and only if it fits: the
    guards refuse nothing more. What is recorded are its versions and epoch, and nothing else changes.
   */
  lemma RecordedIffItFits(cfg: Settings, s: Trajectory, r: Request)
    requires Generate(cfg, s, r).Done? && r.recorded
    ensures var p := Generate(cfg, s, r).result;
            Apply(cfg, s, r).steps ==
            if (if cfg.partialRollout then FitsSpan(cfg, s, r, p) else FitsSession(s, r, p))
            then s.steps + [VersionedStep(p.epoch,
                                          if p.overflow && r.contextWindow.Some? then [] else VersionsOf(p, r.fallback),
                                          VersionOf(p, r.fallback))]
            else s.steps
  {
    if !cfg.partialRollout {
      RefusedIff(cfg, s, r, Generate(cfg, s, r).result);
    }
  }

  // ------------------------------------------------------------- one epoch only

  /**
    The remembered epoch may be older than the first step's, when the request that set it failed; a
    second step is only let in when they agree.
   */
  ghost predicate EpochInv(s: Trajectory, clock: nat) {
    && (s.rolloutEpoch.Some? ==> s.rolloutEpoch.value <= clock)
    && (s.steps != [] ==> s.rolloutEpoch.Some?)
    && (forall i | 0 <= i < |s.steps| ::
          s.steps[i].epoch.Some? && s.rolloutEpoch.value <= s.steps[i].epoch.value <= clock)
    && (|s.steps| >= 2 ==> forall i | 0 <= i < |s.steps| :: s.steps[i].epoch == s.rolloutEpoch)
  }

  lemma RegistrationIsNotBefore(cfg: Settings, s: Trajectory, r: Request)
    requires !cfg.partialRollout && NotBefore(r.serve, r.epoch)
    ensures var o := Generate(cfg, s, r);
            o.Done? ==> o.result.epoch.Some? && r.epoch <= o.result.epoch.value
                        && (s.steps != [] ==> o.result.epoch == Some(r.epoch))
  {
    Stitching.OneRegistration(ConfigOf(cfg, s, r), r.input, r.serve, r.attempts);
  }

  lemma ApplyKeepsEpoch(cfg: Settings, s: Trajectory, clock: nat, r: Request)
    requires !cfg.partialRollout && EpochInv(s, clock) && clock <= r.epoch && NotBefore(r.serve, r.epoch)
    ensures EpochInv(Apply(cfg, s, r), Clock(cfg, s, r))
  {
    RegistrationIsNotBefore(cfg, s, r);
  }

  lemma {:induction false} RunKeepsEpoch(cfg: Settings, s: Trajectory, clock: nat, run: seq<Request>)
    requires !cfg.partialRollout && EpochInv(s, clock) && Legal(cfg, s, clock, run)
    ensures exists c: nat :: EpochInv(Run(cfg, s, run), c)
    decreases |run|
  {
    if run != [] {
      ApplyKeepsEpoch(cfg, s, clock, run[0]);
      var s1 := Apply(cfg, s, run[0]);
      RunKeepsEpoch(cfg, s1, Clock(cfg, s, run[0]), run[1..]);
      assert Run(cfg, s, run) == Run(cfg, s1, run[1..]);
    } else {
      assert EpochInv(Run(cfg, s, run), clock);
    }
  }

  /** Without partial rollout all recorded steps of a session were registered in one rollout epoch. */
  lemma OneEpochPerSession(cfg: Settings, run: seq<Request>, i: nat, j: nat)
    requires !cfg.partialRollout && Legal(cfg, NewSession, 0, run)
    requires i < |Run(cfg, NewSession, run).steps| && j < |Run(cfg, NewSession, run).steps|
    ensures var steps := Run(cfg, NewSession, run).steps;
            steps[i].epoch.Some? && steps[i].epoch == steps[j].epoch
  {
    RunKeepsEpoch(cfg, NewSession, 0, run);
  }

  // ----------------------------------------------------------- one version only

  ghost predicate AtMostOne(versions: set<string>) {
    forall a, b | a in versions && b in versions :: a == b
  }

  lemma ResultHasOneVersion(cfg: Settings, s: Trajectory, r: Request)
    requires !cfg.partialRollout
    ensures var o := Generate(cfg, s, r);
            o.Done? ==>
              var version := VersionOf(o.result, r.fallback);
              forall v | v in VersionsOf(o.result, r.fallback) :: v == version
  {
    Stitching.OneRegistration(ConfigOf(cfg, s, r), r.input, r.serve, r.attempts);
  }

  lemma StepAddsItsVersions(steps: seq<VersionedStep>, step: VersionedStep)
    ensures AllVersions(steps + [step]) == AllVersions(steps) + step.responseVersions + [step.version, step.version]
    ensures ResponseVersions(steps + [step]) == ResponseVersions(steps) + step.responseVersions
  {
    assert (steps + [step])[..|steps|] == steps;
  }

  lemma AcceptKeepsVersion(cfg: Settings, s: Trajectory, r: Request, p: Stitching.Partial)
    requires !cfg.partialRollout && AtMostOne(RealOf(AllVersions(s.steps)))
    requires forall v | v in VersionsOf(p, r.fallback) :: v == VersionOf(p, r.fallback)
    ensures AtMostOne(RealOf(AllVersions(Accept(cfg, s, r, p).steps)))
  {
    var version, versions := VersionOf(p, r.fallback), VersionsOf(p, r.fallback);
    var overflow := p.overflow && r.contextWindow.Some?;
    var step := VersionedStep(p.epoch, if overflow then [] else versions, version);
    StepAddsItsVersions(s.steps, step);
    var before, after := RealOf(AllVersions(s.steps)), RealOf(AllVersions(s.steps + [step]));
    assert (versions + [version, version])[|versions|] == version;
    assert IsReal(version) ==> version in RealOf(versions + [version, version]);
    if !CrossVersion(cfg, s, versions + [version, version]) {
      OneVersionGrows(before, after, version);
    }
  }

  lemma OneVersionGrows(before: set<string>, after: set<string>, version: string)
    requires AtMostOne(before) && forall v | v in after :: v in before || v == version
    requires before == {} || version in before || version !in after
    ensures AtMostOne(after)
  {
  }

  lemma ApplyKeepsVersion(cfg: Settings, s: Trajectory, r: Request)
    requires !cfg.partialRollout && AtMostOne(RealOf(AllVersions(s.steps)))
    ensures AtMostOne(RealOf(AllVersions(Apply(cfg, s, r).steps)))
  {
    ResultHasOneVersion(cfg, s, r);
    var o := Generate(cfg, s, r);
    if o.Done? {
      AcceptKeepsVersion(cfg, s, r, o.result);
    }
  }

  lemma {:induction false} RunKeepsVersion(cfg: Settings, s: Trajectory, run: seq<Request>)
    requires !cfg.partialRollout && AtMostOne(RealOf(AllVersions(s.steps)))
    ensures AtMostOne(RealOf(AllVersions(Run(cfg, s, run).steps)))
    decreases |run|
  {
    if run != [] {
      ApplyKeepsVersion(cfg, s, run[0]);
      RunKeepsVersion(cfg, Apply(cfg, s, run[0]), run[1..]);
    }
  }

  /** Without partial rollout a session's steps name at most one real weight version. */
  lemma OneVersionPerSession(cfg: Settings, run: seq<Request>)
    requires !cfg.partialRollout
    ensures AtMostOne(RealOf(AllVersions(Run(cfg, NewSession, run).steps)))
  {
    RunKeepsVersion(cfg, NewSession, run);
  }

  // ------------------------------------------------------------ bounded span

  lemma AcceptKeepsSpan(cfg: Settings, s: Trajectory, r: Request, p: Stitching.Partial)
    requires cfg.partialRollout && cfg.maxPreempts.Some?
    requires |RealOf(ResponseVersions(s.steps))| <= cfg.maxPreempts.value + 1
    ensures |RealOf(ResponseVersions(Accept(cfg, s, r, p).steps))| <= cfg.maxPreempts.value + 1
  {
    var versions := VersionsOf(p, r.fallback);
    var overflow := p.overflow && r.contextWindow.Some?;
    StepAddsItsVersions(s.steps, VersionedStep(p.epoch, if overflow then [] else versions, VersionOf(p, r.fallback)));
    assert ResponseVersions(s.steps) + [] == ResponseVersions(s.steps);
  }

  lemma ApplyKeepsSpan(cfg: Settings, s: Trajectory, r: Request)
    requires cfg.partialRollout && cfg.maxPreempts.Some?
    requires |RealOf(ResponseVersions(s.steps))| <= cfg.maxPreempts.value + 1
    ensures |RealOf(ResponseVersions(Apply(cfg, s, r).steps))| <= cfg.maxPreempts.value + 1
  {
    var o := Generate(cfg, s, r);
    if o.Done? {
      AcceptKeepsSpan(cfg, s, r, o.result);
    }
  }

  lemma {:induction false} RunKeepsSpan(cfg: Settings, s: Trajectory, run: seq<Request>)
    requires cfg.partialRollout && cfg.maxPreempts.Some?
    requires |RealOf(ResponseVersions(s.steps))| <= cfg.maxPreempts.value + 1
    ensures |RealOf(ResponseVersions(Run(cfg, s, run).steps))| <= cfg.maxPreempts.value + 1
    decreases |run|
  {
    if run != [] {
      ApplyKeepsSpan(cfg, s, run[0]);
      RunKeepsSpan(cfg, Apply(cfg, s, run[0]), run[1..]);
    }
  }

  /** With partial rollout and a limit of m preemptions, recorded responses use at most m + 1 real versions. */
  lemma SpanIsBounded(cfg: Settings, run: seq<Request>)
    requires cfg.partialRollout && cfg.maxPreempts.Some?
    ensures |RealOf(ResponseVersions(Run(cfg, NewSession, run).steps))| <= cfg.maxPreempts.value + 1
  {
    assert RealOf(ResponseVersions([])) == {};
    RunKeepsSpan(cfg, NewSession, run);
  }
}
