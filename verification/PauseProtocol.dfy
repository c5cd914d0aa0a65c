/**
  The pause / abort / resume protocol of the generation controller
  (dressage/proxy/generation_controller.py), one action per section of `_pause_lock` plus the
  unlocked moments the protocol depends on. Request ids are fresh.
 */
module PauseProtocol {
  import opened Wrappers
  import opened Sequences

  type RequestId = nat

  datatype Owner = Owner(session: Option<string>, instance: Option<string>)

  /**
    Beside the controller's fields: `issued` every id registered so far, `collected` the requests
    whose chunk is in their generation's prefix, `errored` those whose generation ended in error,
    `quiesced` those whose quiesced event is set, `lost` those whose task was cancelled.
   */
  datatype State = State(
    paused: bool,
    resumeEvent: bool,
    shuttingDown: bool,
    epoch: nat,
    version: Option<string>,
    active: map<RequestId, Owner>,
    issued: set<RequestId>,
    collected: set<RequestId>,
    errored: set<RequestId>,
    quiesced: set<RequestId>,
    lost: set<RequestId>)

  const Init := State(false, true, false, 0, None, map[], {}, {}, {}, {}, {})

  datatype Action =
    | Register(id: RequestId, owner: Owner, expectedEpoch: Option<nat>)
    | Collect(id: RequestId, observed: Option<string>)
    | Settle(id: RequestId)
    | Fail(id: RequestId)
    | Cancel(id: RequestId)
    | Pause(session: Option<string>, instance: Option<string>)
    | ReportQuiesced(captured: set<RequestId>)
    | Resume(newVersion: Option<string>, ready: bool)
    | Synchronize(normalized: string)
    | Shutdown

  /** A request still being worked on: registered, not yet collected, failed or cancelled. */
  predicate Running(s: State, id: RequestId) {
    id in s.active && id !in s.collected && id !in s.lost
  }

  predicate Enabled(s: State, a: Action) {
    match a
    case Register(id, _, _) => id !in s.issued
    case Collect(id, _) => Running(s, id)
    case Settle(id) => id in s.active && id in s.collected && id !in s.lost
    case Fail(id) => Running(s, id)
    case Cancel(id) => id in s.active && id !in s.lost
    case ReportQuiesced(captured) => captured <= s.quiesced
    case _ => true
  }

  /** A registration goes through only when neither stopping, stale nor paused. */
  predicate Admits(s: State, a: Action) {
    a.Register? && !s.shuttingDown && !s.paused && (a.expectedEpoch.Some? ==> a.expectedEpoch.value == s.epoch)
  }

  /** A resume that releases waiting generations. */
  predicate Releases(s: State, a: Action) {
    a.Resume? && !s.shuttingDown && (s.paused ==> a.ready)
  }

  /** A version synchronization at a quiescent boundary that changes the version. */
  predicate Switches(s: State, a: Action) {
    a.Synchronize? && s.active == map[] && !s.paused && !s.shuttingDown && s.version != Some(a.normalized)
  }

  /** An answer that names a version; a missing, empty or "unknown" one is ignored. */
  predicate Names(observed: Option<string>) {
    observed.Some? && observed.value != "" && observed.value != UnknownVersion
  }

  function Step(s: State, a: Action): State {
    match a
    case Register(id, owner, _) =>
      if Admits(s, a) then s.(active := s.active[id := owner], issued := s.issued + {id}) else s
    case Collect(id, observed) =>
      s.(collected := s.collected + {id}, version := if Names(observed) then observed else s.version)
    case Settle(id) => s.(active := s.active - {id}, quiesced := s.quiesced + {id})
    case Fail(id) => s.(active := s.active - {id}, quiesced := s.quiesced + {id}, errored := s.errored + {id})
    case Cancel(id) => s.(lost := s.lost + {id})
    case Pause(_, _) => s.(paused := true, resumeEvent := false)
    case ReportQuiesced(_) => s
    case Resume(newVersion, ready) =>
      if Releases(s, a) then
        s.(version := if newVersion.Some? then newVersion else s.version,
           epoch := if s.paused then s.epoch + 1 else s.epoch,
           paused := false,
           resumeEvent := true)
      else s
    case Synchronize(normalized) =>
      if Switches(s, a) then s.(version := Some(normalized), epoch := s.epoch + 1) else s
    case Shutdown => s.(shuttingDown := true, paused := true, resumeEvent := true)
  }

  /** The requests a pause captures: all of them, unless filtered by session or instance. */
  function Captured(s: State, session: Option<string>, instance: Option<string>): set<RequestId> {
    set id | id in s.active
           && (session.None? || s.active[id].session == session)
           && (instance.None? || s.active[id].instance == instance)
  }

  // --------------------------------------------------------------------- runs

  /** The state before action n. */
  function At(run: seq<Action>, n: nat): State
    requires n <= |run|
  {
    if n == 0 then Init else Step(At(run, n - 1), run[n - 1])
  }

  predicate LegalAt(run: seq<Action>, n: nat)
    requires n < |run|
  {
    Enabled(At(run, n), run[n])
  }

  ghost predicate Legal(run: seq<Action>) {
    forall n: nat | n < |run| :: LegalAt(run, n)
  }

  ghost predicate Inv(s: State) {
    && s.active.Keys <= s.issued
    && s.collected <= s.issued && s.quiesced <= s.issued && s.errored <= s.issued
    && s.active.Keys !! s.quiesced
    && s.quiesced <= s.collected + s.errored
    && (s.shuttingDown ==> s.paused)
    && (!s.shuttingDown ==> s.resumeEvent == !s.paused)
  }

  lemma StepKeepsInv(s: State, a: Action)
    requires Inv(s) && Enabled(s, a)
    ensures Inv(Step(s, a))
  {
  }

  lemma {:induction false} RunKeepsInv(run: seq<Action>, n: nat)
    requires Legal(run) && n <= |run|
    ensures Inv(At(run, n))
  {
    if n > 0 {
      RunKeepsInv(run, n - 1);
      assert LegalAt(run, n - 1);
      StepKeepsInv(At(run, n - 1), run[n - 1]);
    }
  }

  predicate ReleasesAt(run: seq<Action>, n: nat)
    requires n < |run|
  {
    Releases(At(run, n), run[n])
  }

  /** No resume released anything at positions [i, j). */
  ghost predicate NoRelease(run: seq<Action>, i: nat, j: nat)
    requires i <= j <= |run|
  {
    forall n: nat | i <= n < j :: !ReleasesAt(run, n)
  }

  lemma StepWhilePaused(s: State, a: Action)
    requires !Releases(s, a) && (s.paused || a.Pause? || a.Shutdown?)
    ensures Step(s, a).paused && Step(s, a).active.Keys <= s.active.Keys
  {
  }

  /**
    Between a pause taking the lock and the next releasing resume no request becomes active:
    the active requests only shrink.
   */
  lemma {:induction false} NothingEntersWhilePaused(run: seq<Action>, i: nat, j: nat)
    requires i < j <= |run| && (run[i].Pause? || run[i].Shutdown?) && NoRelease(run, i, j)
    ensures At(run, j).paused
    ensures At(run, j).active.Keys <= At(run, i).active.Keys
  {
    if i + 1 < j {
      NothingEntersWhilePaused(run, i, j - 1);
    }
    assert !ReleasesAt(run, j - 1);
    StepWhilePaused(At(run, j - 1), run[j - 1]);
  }

  ghost predicate Grows(s: State, t: State) {
    && s.quiesced <= t.quiesced && s.collected <= t.collected && s.errored <= t.errored
    && s.issued <= t.issued && (s.shuttingDown ==> t.shuttingDown)
  }

  lemma StepGrows(s: State, a: Action)
    ensures Grows(s, Step(s, a))
  {
  }

  lemma {:induction false} SetsOnlyGrow(run: seq<Action>, i: nat, j: nat)
    requires i <= j <= |run|
    ensures Grows(At(run, i), At(run, j))
  {
    if i < j {
      SetsOnlyGrow(run, i, j - 1);
      StepGrows(At(run, j - 1), run[j - 1]);
    }
  }

  /**
    A pause that reports quiesced, whatever it filters by: from then on, across any later release, none of
    the requests it captured is active, and each has its chunk in its prefix or ended its generation in
    error. Until the next release only requests the filter left out can be active, so an unfiltered pause
    leaves nothing active.
   */
  lemma QuiescedPauseIsComplete(run: seq<Action>, i: nat, j: nat, k: nat, session: Option<string>,
                                instance: Option<string>)
    requires Legal(run) && i < j <= k <= |run| && j < |run|
    requires run[i] == Pause(session, instance)
    requires run[j] == ReportQuiesced(Captured(At(run, i), session, instance))
    ensures var captured := Captured(At(run, i), session, instance);
            && captured !! At(run, k).active.Keys
            && captured <= At(run, k).collected + At(run, k).errored
            && (NoRelease(run, i, k) ==> At(run, k).active.Keys <= At(run, i).active.Keys - captured)
    ensures session.None? && instance.None? && NoRelease(run, i, k) ==> At(run, k).active == map[]
  {
    var captured := Captured(At(run, i), session, instance);
    SetsOnlyGrow(run, j, k);
    RunKeepsInv(run, k);
    assert LegalAt(run, j);
    assert captured <= At(run, k).quiesced;
    if NoRelease(run, i, k) {
      NothingEntersWhilePaused(run, i, k);
      assert session.None? && instance.None? ==> captured == At(run, i).active.Keys;
      assert session.None? && instance.None? ==> At(run, k).active.Keys == {};
    }
  }

  /** A cancelled generation leaves its entry behind, so a pause that captured it never reports quiesced. */
  lemma {:induction false} LostStaysActive(run: seq<Action>, i: nat, j: nat, id: RequestId)
    requires Legal(run) && i <= j <= |run|
    requires id in At(run, i).lost && id in At(run, i).active
    ensures id in At(run, j).lost && id in At(run, j).active && id !in At(run, j).quiesced
  {
    RunKeepsInv(run, j);
    if i < j {
      LostStaysActive(run, i, j - 1, id);
      assert LegalAt(run, j - 1);
    }
  }

  /** How many of the first n actions resumed a paused controller or switched versions. */
  function EpochChanges(run: seq<Action>, n: nat): nat
    requires n <= |run|
  {
    if n == 0 then 0
    else
      EpochChanges(run, n - 1) + if ChangesEpoch(At(run, n - 1), run[n - 1]) then 1 else 0
  }

  /** A resume of a paused controller, or a version switch. */
  predicate ChangesEpoch(s: State, a: Action) {
    (Releases(s, a) && s.paused) || Switches(s, a)
  }

  lemma StepEpoch(s: State, a: Action)
    ensures Step(s, a).epoch == s.epoch + if ChangesEpoch(s, a) then 1 else 0
  {
  }

  /** A resume of a running controller and a synchronization to the current version keep the epoch. */
  lemma EpochMovesWhen(s: State, a: Action)
    ensures Step(s, a).epoch ==
            s.epoch + if || (a.Resume? && a.ready && s.paused && !s.shuttingDown)
                         || (a.Synchronize? && s.active == map[] && !s.paused && !s.shuttingDown
                             && s.version != Some(a.normalized))
                      then 1 else 0
  {
  }

  /** The epoch counts exactly the paused-to-running resumes and version switches. */
  lemma {:induction false} EpochCountsChanges(run: seq<Action>, n: nat)
    requires n <= |run|
    ensures At(run, n).epoch == EpochChanges(run, n)
  {
    if n > 0 {
      EpochCountsChanges(run, n - 1);
      StepEpoch(At(run, n - 1), run[n - 1]);
    }
  }

  lemma {:induction false} EpochNeverDecreases(run: seq<Action>, i: nat, j: nat)
    requires i <= j <= |run|
    ensures At(run, i).epoch <= At(run, j).epoch
  {
    if i < j {
      EpochNeverDecreases(run, i, j - 1);
      StepEpoch(At(run, j - 1), run[j - 1]);
    }
  }

  /** Once shutting down, nothing is ever released, registered or synchronized again. */
  lemma {:induction false} ShutdownIsFinal(run: seq<Action>, i: nat, j: nat)
    requires i < j <= |run| && run[i].Shutdown?
    ensures At(run, j).shuttingDown && At(run, j).paused
    ensures At(run, j).epoch == At(run, i).epoch && At(run, j).active.Keys <= At(run, i).active.Keys
  {
    if i + 1 < j {
      ShutdownIsFinal(run, i, j - 1);
    }
  }

  /**
    A shutdown sets the resume event so that waiting generations wake up and stop. They find it set
    exactly as long as no pause came after the last shutdown: a later pause clears the event, and no
    resume sets it again.
   */
  lemma {:induction false} WaitersSeeShutdownUnlessPaused(run: seq<Action>, i: nat, j: nat)
    requires i < j <= |run| && run[i].Shutdown? && forall n | i < n < j :: !run[n].Shutdown?
    ensures At(run, j).shuttingDown
    ensures At(run, j).resumeEvent <==> forall n | i < n < j :: !run[n].Pause?
  {
    if i + 1 < j {
      WaitersSeeShutdownUnlessPaused(run, i, j - 1);
    }
  }

  lemma PauseAfterShutdownHidesIt()
    ensures var s := At([Shutdown, Pause(None, None), Resume(None, true)], 3);
            s.shuttingDown && s.paused && !s.resumeEvent
  {
    var run := [Shutdown, Pause(None, None), Resume(None, true)];
    assert At(run, 1) == Step(Init, Shutdown);
    assert At(run, 2) == Step(At(run, 1), Pause(None, None));
  }

  // ------------------------------------------------------ what the actions do

  lemma {:induction false} ShutsDownIff(run: seq<Action>, n: nat)
    requires n <= |run|
    ensures At(run, n).shuttingDown <==> exists i: nat | i < n :: run[i].Shutdown?
  {
    if n > 0 {
      ShutsDownIff(run, n - 1);
    }
  }

  predicate Stops(a: Action) { a.Pause? || a.Shutdown? }

  /** A ready resume, with no shutdown before it. */
  predicate Lifts(run: seq<Action>, j: nat)
    requires j < |run|
  {
    run[j].Resume? && run[j].ready && forall i: nat | i < j :: !run[i].Shutdown?
  }

  ghost predicate StoppedSince(run: seq<Action>, i: nat, n: nat)
    requires n <= |run|
  {
    i < n && Stops(run[i]) && forall j: nat | i < j < n :: !Lifts(run, j)
  }

  lemma PausedStep(s: State, a: Action)
    ensures Step(s, a).paused <==> Stops(a) || (s.paused && !(a.Resume? && a.ready && !s.shuttingDown))
  {
  }

  /**
    The controller is paused exactly from a pause or shutdown until a ready resume; one that is not ready
    lifts nothing.
   */
  lemma {:induction false} PausedIff(run: seq<Action>, n: nat)
    requires n <= |run|
    ensures At(run, n).paused <==> exists i: nat :: StoppedSince(run, i, n)
  {
    if n > 0 {
      PausedIff(run, n - 1);
      ShutsDownIff(run, n - 1);
      PausedStep(At(run, n - 1), run[n - 1]);
      if Stops(run[n - 1]) {
        assert StoppedSince(run, n - 1, n);
      } else {
        PauseGoesOn(run, n - 1, n);
      }
    }
  }

  lemma PauseGoesOn(run: seq<Action>, n: nat, next: nat)
    requires n < |run| && next == n + 1 && !Stops(run[n])
    ensures (exists i: nat :: StoppedSince(run, i, next)) <==>
            (exists i: nat :: StoppedSince(run, i, n)) && !Lifts(run, n)
  {
    if i: nat :| StoppedSince(run, i, next) {
      assert StoppedSince(run, i, n);
    }
    if i: nat :| StoppedSince(run, i, n) {
      assert !Lifts(run, n) ==> StoppedSince(run, i, next);
    }
  }

  /** The registration of `id` that goes through: not stopping, not paused, and in the epoch it expects. */
  ghost predicate EntersAt(run: seq<Action>, i: nat, id: RequestId, owner: Owner)
    requires i < |run|
  {
    var s := At(run, i);
    && run[i].Register? && run[i].id == id && run[i].owner == owner
    && !s.shuttingDown && !s.paused && (run[i].expectedEpoch.Some? ==> run[i].expectedEpoch.value == s.epoch)
  }

  ghost predicate EnteredSince(run: seq<Action>, i: nat, n: nat, id: RequestId, owner: Owner)
    requires n <= |run|
  {
    i < n && EntersAt(run, i, id, owner) && forall j: nat | i < j < n :: run[j] != Settle(id) && run[j] != Fail(id)
  }

  ghost predicate ActiveFor(s: State, id: RequestId, owner: Owner) {
    id in s.active && s.active[id] == owner
  }

  /** A request is active, for its owner, exactly from its registration until it is settled or fails. */
  lemma {:induction false} ActiveIff(run: seq<Action>, n: nat, id: RequestId, owner: Owner)
    requires Legal(run) && n <= |run|
    ensures ActiveFor(At(run, n), id, owner) <==> exists i: nat :: EnteredSince(run, i, n, id, owner)
  {
    if n > 0 {
      ActiveIff(run, n - 1, id, owner);
      RunKeepsInv(run, n - 1);
      assert LegalAt(run, n - 1);
      ActiveStep(At(run, n - 1), run[n - 1], id, owner);
      if EntersAt(run, n - 1, id, owner) {
        assert EnteredSince(run, n - 1, n, id, owner);
      } else {
        ActivityGoesOn(run, n - 1, n, id, owner);
      }
    }
  }

  lemma ActiveStep(s: State, a: Action, id: RequestId, owner: Owner)
    requires Inv(s) && Enabled(s, a)
    ensures ActiveFor(Step(s, a), id, owner) <==>
            || (&& a.Register? && a.id == id && a.owner == owner && !s.shuttingDown && !s.paused
                && (a.expectedEpoch.Some? ==> a.expectedEpoch.value == s.epoch))
            || (ActiveFor(s, id, owner) && a != Settle(id) && a != Fail(id))
  {
  }

  lemma ActivityGoesOn(run: seq<Action>, n: nat, next: nat, id: RequestId, owner: Owner)
    requires n < |run| && next == n + 1 && !EntersAt(run, n, id, owner)
    ensures (exists i: nat :: EnteredSince(run, i, next, id, owner)) <==>
            (exists i: nat :: EnteredSince(run, i, n, id, owner)) && run[n] != Settle(id) && run[n] != Fail(id)
  {
    if i: nat :| EnteredSince(run, i, next, id, owner) {
      assert EnteredSince(run, i, n, id, owner);
    }
    if i: nat :| EnteredSince(run, i, n, id, owner) {
      assert run[n] != Settle(id) && run[n] != Fail(id) ==> EnteredSince(run, i, next, id, owner);
    }
  }

  /** The version an action makes the current one, if any. */
  function Announces(s: State, a: Action): Option<string> {
    match a
    case Collect(_, observed) => if observed in {None, Some(""), Some(UnknownVersion)} then None else observed
    case Resume(version, ready) => if s.shuttingDown || (s.paused && !ready) then None else version
    case Synchronize(version) =>
      if s.active == map[] && !s.paused && !s.shuttingDown then Some(version) else None
    case _ => None
  }

  /** The version announced last in the first n actions. */
  function LastAnnounced(run: seq<Action>, n: nat): Option<string>
    requires n <= |run|
  {
    if n == 0 then None
    else
      var v := Announces(At(run, n - 1), run[n - 1]);
      if v.Some? then v else LastAnnounced(run, n - 1)
  }

  lemma VersionStep(s: State, a: Action)
    ensures Step(s, a).version == if Announces(s, a).Some? then Announces(s, a) else s.version
  {
  }

  /** The current version is the last one announced by an answer, a releasing resume or a quiescent synchronization. */
  lemma {:induction false} VersionIsLastAnnounced(run: seq<Action>, n: nat)
    requires n <= |run|
    ensures At(run, n).version == LastAnnounced(run, n)
  {
    if n > 0 {
      VersionIsLastAnnounced(run, n - 1);
      VersionStep(At(run, n - 1), run[n - 1]);
    }
  }

  // ------------------------------------------------------------ the controller

  class GenerationController {
    var paused: bool
    var resumeEvent: bool
    var shuttingDown: bool
    var rolloutEpoch: nat
    var currentVersion: Option<string>
    var active: map<RequestId, Owner>
    ghost var issued: set<RequestId>
    ghost var collected: set<RequestId>
    ghost var errored: set<RequestId>
    ghost var quiesced: set<RequestId>
    ghost var lost: set<RequestId>

    ghost function View(): State
      reads this
    {
      State(paused, resumeEvent, shuttingDown, rolloutEpoch, currentVersion, active, issued, collected, errored,
            quiesced, lost)
    }

    ghost predicate Valid()
      reads this
    {
      Inv(View())
    }

    constructor ()
      ensures Valid() && View() == Init
    {
      paused, resumeEvent, shuttingDown, rolloutEpoch := false, true, false, 0;
      currentVersion, active := None, map[];
      issued, collected, errored, quiesced, lost := {}, {}, {}, {}, {};
    }

    /** The lock section that enters a request; false means the loop waits again, an error raises. */
    method RegisterRequest(id: RequestId, owner: Owner, expectedEpoch: Option<nat>)
      returns (entered: bool, raised: bool, chunkEpoch: nat)
      requires Valid() && id !in issued
      modifies this
      ensures Valid() && View() == Step(old(View()), Register(id, owner, expectedEpoch))
      ensures entered == Admits(old(View()), Register(id, owner, expectedEpoch))
      ensures raised <==> shuttingDown || (expectedEpoch.Some? && expectedEpoch.value != rolloutEpoch)
      ensures chunkEpoch == rolloutEpoch
    {
      entered, raised, chunkEpoch := false, false, rolloutEpoch;
      if shuttingDown || (expectedEpoch.Some? && expectedEpoch.value != rolloutEpoch) {
        raised := true;
      } else if !paused {
        active := active[id := owner];
        issued := issued + {id};
        entered := true;
      }
    }

    /** The response has been appended to the generation's prefix; not under the lock. */
    method CollectChunk(id: RequestId, observed: Option<string>)
      requires Valid() && Running(View(), id)
      modifies this
      ensures Valid() && View() == Step(old(View()), Collect(id, observed))
    {
      if Names(observed) {
        currentVersion := observed;
      }
      collected := collected + {id};
    }

    /** The lock section that removes a finished request; `failed` when its generation raises. */
    method SettleRequest(id: RequestId, failed: bool)
      requires Valid() && id !in lost && (if failed then Running(View(), id) else id in active && id in collected)
      modifies this
      ensures Valid() && View() == Step(old(View()), if failed then Fail(id) else Settle(id))
    {
      active := active - {id};
      quiesced := quiesced + {id};
      if failed {
        errored := errored + {id};
      }
    }

    /** The lock section of a pause: raise the flag, then capture the matching requests. */
    method PauseSection(session: Option<string>, instance: Option<string>)
      returns (alreadyPaused: bool, captured: set<RequestId>)
      requires Valid()
      modifies this
      ensures Valid() && View() == Step(old(View()), Pause(session, instance))
      ensures alreadyPaused == old(paused)
      ensures captured == Captured(old(View()), session, instance)
      ensures forall id :: id in captured <==>
                && id in active
                && (session.Some? ==> active[id].session == session)
                && (instance.Some? ==> active[id].instance == instance)
    {
      alreadyPaused := paused;
      paused := true;
      resumeEvent := false;
      captured := set id | id in active
                         && (session.None? || active[id].session == session)
                         && (instance.None? || active[id].instance == instance);
    }

    method ResumeSection(version: Option<string>, ready: bool) returns (resumed: bool)
      requires Valid()
      modifies this
      ensures Valid() && View() == Step(old(View()), Resume(version, ready))
      ensures resumed == Releases(old(View()), Resume(version, ready))
      ensures resumed <==> !old(shuttingDown) && (old(paused) ==> ready)
      ensures resumed ==> !paused && resumeEvent && (version.Some? ==> currentVersion == version)
      ensures !resumed ==> View() == old(View())
    {
      if shuttingDown || (paused && !ready) {
        return false;
      }
      if version.Some? {
        currentVersion := version;
      }
      if paused {
        rolloutEpoch := rolloutEpoch + 1;
      }
      paused := false;
      resumeEvent := true;
      return true;
    }

    method SynchronizeVersion(normalized: string) returns (busy: bool, changed: bool)
      requires Valid()
      modifies this
      ensures Valid() && View() == Step(old(View()), Synchronize(normalized))
      ensures busy <==> old(active) != map[] || old(paused) || old(shuttingDown)
      ensures changed == Switches(old(View()), Synchronize(normalized))
    {
      if active != map[] || paused || shuttingDown {
        return true, false;
      }
      busy := false;
      changed := currentVersion != Some(normalized);
      currentVersion := Some(normalized);
      if changed {
        rolloutEpoch := rolloutEpoch + 1;
      }
    }

    method ShutdownSection() returns (captured: set<RequestId>)
      requires Valid()
      modifies this
      ensures Valid() && View() == Step(old(View()), Shutdown)
      ensures captured == active.Keys
    {
      shuttingDown := true;
      paused := true;
      resumeEvent := true;
      captured := active.Keys;
    }
  }
}
