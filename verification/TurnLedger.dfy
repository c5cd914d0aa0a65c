/**
  The turn ledger of one blackbox session (blackbox_server/core/server.py and
  blackbox_server/store/session_store.py).

  An action is a stretch of code that runs without suspension. Sections that need the session lock
  are enabled only while no submit holds it across its health check (`pending`); an abort may force
  its way without the lock and a backend error never takes it, so those are always enabled. Other
  suspensions inside a lock section are treated as if they released the lock, which only adds runs.
 */
module TurnLedger {
  import opened Wrappers

  type Message = string

  datatype Status = Queued | Inflight | Committed | Failed | Cancelled | Unknown

  datatype SessionState = Active | Desynced | Aborted

  datatype Turn = Turn(id: string, status: Status, input: seq<Message>, output: seq<Message>)

  datatype Mode = Unset | Single(defaultId: string) | Explicit

  datatype Pending = Pending(id: string, input: seq<Message>)

  /** `ledger` is in insertion order; `system` is the injected system prompt, if any. */
  datatype State = State(
    session: SessionState,
    ledger: seq<Turn>,
    turnCount: nat,
    history: seq<Message>,
    mode: Mode,
    pending: Option<Pending>,
    shutdownStarted: bool,
    serverError: bool)

  function Init(system: seq<Message>): State {
    State(Active, [], 0, system, Unset, None, false, false)
  }

  predicate Live(st: Status) { st == Queued || st == Inflight }
  predicate Terminal(st: Status) { !Live(st) }

  // ------------------------------------------------------------------ actions

  datatype Action =
    | SubmitBegin(requested: Option<string>, generated: string, input: seq<Message>)
    | SubmitEnd(healthy: bool)
    | SubmitDropped
    | RunStart(id: string)
    | RunCommit(id: string, outputs: seq<Message>)
    | RunUnknown(id: string)
    | RunInterrupted(id: string)
    | CancelQueued(id: string)
    | AbortSettle
    | BackendError
    | ShutdownStart
    | Reregister

  predicate Has(ledger: seq<Turn>, id: string) {
    exists i | 0 <= i < |ledger| :: ledger[i].id == id
  }

  predicate HasStatus(ledger: seq<Turn>, id: string, st: Status) {
    exists i | 0 <= i < |ledger| :: ledger[i].id == id && ledger[i].status == st
  }

  predicate AnyLive(ledger: seq<Turn>) {
    exists i | 0 <= i < |ledger| :: Live(ledger[i].status)
  }

  /** The turn id a request resolves to, or None when the session's turn mode refuses it. */
  function Resolve(mode: Mode, requested: Option<string>, generated: string): Option<string> {
    match mode
    case Unset => if requested.Some? then requested else Some(generated)
    case Single(d) => if requested.None? || requested.value == d then Some(d) else None
    case Explicit => requested
  }

  function ModeAfter(mode: Mode, requested: Option<string>, generated: string): Mode {
    if mode.Unset? then (if requested.Some? then Explicit else Single(generated)) else mode
  }

  /** The session accepts new turns at all. */
  predicate Accepting(s: State, maxTurns: nat) {
    s.session == Active && s.turnCount < maxTurns
  }

  /** The submit gets past admission and goes on to the health check. */
  predicate Admitted(s: State, a: Action, maxTurns: nat)
    requires a.SubmitBegin?
  {
    && Accepting(s, maxTurns)
    && var id := Resolve(s.mode, a.requested, a.generated);
       id.Some? && !Has(s.ledger, id.value) && !AnyLive(s.ledger)
  }

  function SetStatus(ledger: seq<Turn>, id: string, st: Status): (r: seq<Turn>)
    ensures |r| == |ledger|
    ensures forall i | 0 <= i < |ledger| ::
              r[i] == if ledger[i].id == id then ledger[i].(status := st) else ledger[i]
  {
    seq(|ledger|, i requires 0 <= i < |ledger| =>
      if ledger[i].id == id then ledger[i].(status := st) else ledger[i])
  }

  function Commit(ledger: seq<Turn>, id: string, outputs: seq<Message>): (r: seq<Turn>)
    ensures |r| == |ledger|
    ensures forall i | 0 <= i < |ledger| ::
              r[i] == if ledger[i].id == id then ledger[i].(status := Committed, output := outputs) else ledger[i]
  {
    seq(|ledger|, i requires 0 <= i < |ledger| =>
      if ledger[i].id == id then ledger[i].(status := Committed, output := outputs) else ledger[i])
  }

  function LoseLive(ledger: seq<Turn>): (r: seq<Turn>)
    ensures |r| == |ledger|
    ensures forall i | 0 <= i < |ledger| ::
              r[i] == if Live(ledger[i].status) then ledger[i].(status := Unknown) else ledger[i]
  {
    seq(|ledger|, i requires 0 <= i < |ledger| =>
      if Live(ledger[i].status) then ledger[i].(status := Unknown) else ledger[i])
  }

  function InputOf(ledger: seq<Turn>, id: string): seq<Message> {
    if ledger == [] then []
    else if ledger[|ledger| - 1].id == id then ledger[|ledger| - 1].input
    else InputOf(ledger[..|ledger| - 1], id)
  }

  function Desync(st: SessionState): SessionState {
    if st == Aborted then Aborted else Desynced
  }

  /** A backend error desynchronizes the sessions once; while the server is already in error nothing happens. */
  function MarkError(s: State): State {
    if s.serverError then s else s.(serverError := true, session := Desync(s.session))
  }

  predicate LockFree(s: State) { s.pending.None? }

  predicate Enabled(s: State, a: Action) {
    match a
    case SubmitBegin(_, generated, _) => LockFree(s) && !Has(s.ledger, generated)
    case SubmitEnd(_) => s.pending.Some?
    case SubmitDropped => s.pending.Some?
    case RunStart(id) => LockFree(s) && HasStatus(s.ledger, id, Queued)
    case RunCommit(id, _) => LockFree(s) && HasStatus(s.ledger, id, Inflight)
    case RunUnknown(id) => LockFree(s) && HasStatus(s.ledger, id, Inflight)
    case RunInterrupted(id) => LockFree(s) && (HasStatus(s.ledger, id, Queued) || HasStatus(s.ledger, id, Inflight))
    case CancelQueued(id) => LockFree(s) && HasStatus(s.ledger, id, Queued)
    case _ => true
  }

  function Step(s: State, a: Action, maxTurns: nat): State {
    match a
    case SubmitBegin(requested, generated, input) =>
      var mode := if Accepting(s, maxTurns) && Resolve(s.mode, requested, generated).Some?
                  then ModeAfter(s.mode, requested, generated) else s.mode;
      if Admitted(s, a, maxTurns)
      then s.(mode := mode, pending := Some(Pending(Resolve(s.mode, requested, generated).value, input)))
      else s.(mode := mode)
    case SubmitEnd(healthy) =>
      if s.pending.None? then s
      else if healthy then
        s.(pending := None, ledger := s.ledger + [Turn(s.pending.value.id, Queued, s.pending.value.input, [])])
      else MarkError(s.(pending := None))
    case SubmitDropped => s.(pending := None)
    case RunStart(id) => s.(ledger := SetStatus(s.ledger, id, Inflight))
    case RunCommit(id, outputs) =>
      s.(ledger := Commit(s.ledger, id, outputs),
         history := s.history + InputOf(s.ledger, id) + outputs,
         turnCount := s.turnCount + 1)
    case RunUnknown(id) => s.(ledger := SetStatus(s.ledger, id, Unknown), session := Desync(s.session))
    case RunInterrupted(id) =>
      if s.shutdownStarted
      then s.(ledger := SetStatus(s.ledger, id, Unknown), session := Desync(s.session))
      else s.(ledger := SetStatus(s.ledger, id, Cancelled))
    case CancelQueued(id) => s.(ledger := SetStatus(s.ledger, id, Cancelled))
    case AbortSettle => s.(session := Aborted, ledger := LoseLive(s.ledger))
    case BackendError => MarkError(s)
    case ShutdownStart => s.(shutdownStarted := true)
    case Reregister => s.(serverError := false)
  }

  // --------------------------------------------------------------- invariants

  function CommittedCount(ledger: seq<Turn>): nat {
    if ledger == [] then 0
    else CommittedCount(ledger[..|ledger| - 1]) + if ledger[|ledger| - 1].status == Committed then 1 else 0
  }

  /** The inputs and outputs of the committed turns, in submission order. */
  function CommittedMessages(ledger: seq<Turn>): seq<Message> {
    if ledger == [] then []
    else
      var last := ledger[|ledger| - 1];
      CommittedMessages(ledger[..|ledger| - 1]) + if last.status == Committed then last.input + last.output else []
  }

  ghost predicate Distinct(ledger: seq<Turn>) {
    forall i, j | 0 <= i < j < |ledger| :: ledger[i].id != ledger[j].id
  }

  /** Only the newest turn can be live or unknown. */
  ghost predicate OthersSettled(ledger: seq<Turn>) {
    forall i | 0 <= i < |ledger| - 1 :: Terminal(ledger[i].status) && ledger[i].status != Unknown
  }

  function LastStatus(ledger: seq<Turn>): Option<Status> {
    if ledger == [] then None else Some(ledger[|ledger| - 1].status)
  }

  /** An unset mode has no turns; a session that generated its id uses that id alone. */
  ghost predicate ModeInv(s: State) {
    match s.mode
    case Unset => s.ledger == [] && s.pending.None?
    case Single(d) =>
      && (forall i | 0 <= i < |s.ledger| :: s.ledger[i].id == d)
      && (s.pending.Some? ==> s.pending.value.id == d)
    case Explicit => true
  }

  predicate Settled(ledger: seq<Turn>) {
    LastStatus(ledger) in {None, Some(Committed), Some(Failed), Some(Cancelled)}
  }

  ghost predicate LedgerInv(s: State) {
    && Distinct(s.ledger)
    && OthersSettled(s.ledger)
    && (LastStatus(s.ledger) == Some(Unknown) ==> s.session != Active)
    && (s.pending.Some? ==> Settled(s.ledger) && !Has(s.ledger, s.pending.value.id))
  }

  /** A turn that may still commit has room left under the limit. */
  ghost predicate CountInv(s: State, maxTurns: nat) {
    && s.turnCount == CommittedCount(s.ledger) <= maxTurns
    && (s.pending.Some? || LastStatus(s.ledger) in {Some(Queued), Some(Inflight)} ==> s.turnCount < maxTurns)
  }

  ghost predicate HistoryInv(s: State, system: seq<Message>) {
    s.history == system + CommittedMessages(s.ledger)
  }

  ghost predicate Inv(s: State, system: seq<Message>, maxTurns: nat) {
    LedgerInv(s) && CountInv(s, maxTurns) && HistoryInv(s, system) && ModeInv(s)
  }

  /** What an update of the newest turn does to the ledger. */
  ghost predicate LastBecomes(before: seq<Turn>, after: seq<Turn>, t: Turn) {
    && before != [] && after == before[..|before| - 1] + [t]
    && t.id == before[|before| - 1].id && t.input == before[|before| - 1].input
  }

  lemma LiveIsLast(ledger: seq<Turn>, id: string, st: Status)
    requires OthersSettled(ledger) && Live(st) && HasStatus(ledger, id, st)
    ensures ledger != [] && ledger[|ledger| - 1].id == id && ledger[|ledger| - 1].status == st
  {
  }

  lemma SetStatusOfLast(ledger: seq<Turn>, st: Status)
    requires ledger != [] && Distinct(ledger)
    ensures var last := ledger[|ledger| - 1];
            LastBecomes(ledger, SetStatus(ledger, last.id, st), last.(status := st))
  {
    var last := ledger[|ledger| - 1];
    assert SetStatus(ledger, last.id, st) == ledger[..|ledger| - 1] + [last.(status := st)];
  }

  lemma CommitOfLast(ledger: seq<Turn>, outputs: seq<Message>)
    requires ledger != [] && Distinct(ledger)
    ensures var last := ledger[|ledger| - 1];
            LastBecomes(ledger, Commit(ledger, last.id, outputs), last.(status := Committed, output := outputs))
  {
    var last := ledger[|ledger| - 1];
    assert Commit(ledger, last.id, outputs) == ledger[..|ledger| - 1] + [last.(status := Committed, output := outputs)];
  }

  lemma LoseLiveOfLast(ledger: seq<Turn>)
    requires OthersSettled(ledger)
    ensures AnyLive(ledger) ==>
              ledger != [] && LastBecomes(ledger, LoseLive(ledger), ledger[|ledger| - 1].(status := Unknown))
    ensures !AnyLive(ledger) ==> LoseLive(ledger) == ledger
  {
    if AnyLive(ledger) {
      assert Live(ledger[|ledger| - 1].status);
      assert LoseLive(ledger) == ledger[..|ledger| - 1] + [ledger[|ledger| - 1].(status := Unknown)];
    }
  }

  /** Counts and messages when the newest turn, not committed before, changes. */
  lemma LastUpdated(before: seq<Turn>, after: seq<Turn>, t: Turn)
    requires LastBecomes(before, after, t) && before[|before| - 1].status != Committed
    ensures CommittedCount(after) == CommittedCount(before) + if t.status == Committed then 1 else 0
    ensures CommittedMessages(after) ==
            CommittedMessages(before) + if t.status == Committed then t.input + t.output else []
  {
    assert after[..|after| - 1] == before[..|before| - 1];
    assert CommittedMessages(before) == CommittedMessages(before[..|before| - 1]) + [];
  }

  lemma LastUpdatedShape(before: seq<Turn>, after: seq<Turn>, t: Turn)
    requires LastBecomes(before, after, t) && Distinct(before) && OthersSettled(before)
    ensures Distinct(after) && OthersSettled(after) && LastStatus(after) == Some(t.status)
  {
    assert forall i | 0 <= i < |before| :: after[i].id == before[i].id;
    assert forall i | 0 <= i < |before| - 1 :: after[i] == before[i];
  }

  lemma TurnAppended(ledger: seq<Turn>, t: Turn)
    requires Live(t.status)
    ensures CommittedCount(ledger + [t]) == CommittedCount(ledger)
    ensures CommittedMessages(ledger + [t]) == CommittedMessages(ledger)
  {
    assert (ledger + [t])[..|ledger|] == ledger;
    assert CommittedMessages(ledger) + [] == CommittedMessages(ledger);
  }

  /** The invariant survives any change of the newest turn that keeps it consistent with the session. */
  lemma UpdateKeepsInv(s: State, s': State, t: Turn, system: seq<Message>, maxTurns: nat)
    requires Inv(s, system, maxTurns) && s.pending.None? && s'.pending.None? && s'.mode == s.mode
    requires LastBecomes(s.ledger, s'.ledger, t) && Live(s.ledger[|s.ledger| - 1].status)
    requires t.status == Unknown ==> s'.session != Active
    requires s'.turnCount == s.turnCount + if t.status == Committed then 1 else 0
    requires s'.history == s.history + if t.status == Committed then t.input + t.output else []
    ensures Inv(s', system, maxTurns)
  {
    LastUpdated(s.ledger, s'.ledger, t);
    LastUpdatedShape(s.ledger, s'.ledger, t);
    assert s'.history == system + CommittedMessages(s'.ledger);
    SameIdsKeepMode(s, s', t);
  }

  lemma SameIdsKeepMode(s: State, s': State, t: Turn)
    requires ModeInv(s) && s'.pending.None? && s'.mode == s.mode && LastBecomes(s.ledger, s'.ledger, t)
    ensures ModeInv(s')
  {
    assert forall i | 0 <= i < |s'.ledger| :: s'.ledger[i].id == s.ledger[i].id;
  }

  lemma {:induction false} InputOfAt(ledger: seq<Turn>, at: nat)
    requires Distinct(ledger) && at < |ledger|
    ensures InputOf(ledger, ledger[at].id) == ledger[at].input
  {
    if at < |ledger| - 1 {
      InputOfAt(ledger[..|ledger| - 1], at);
    }
  }

  lemma CommitKeepsInv(s: State, id: string, outputs: seq<Message>, system: seq<Message>, maxTurns: nat)
    requires Inv(s, system, maxTurns) && Enabled(s, RunCommit(id, outputs))
    ensures Inv(Step(s, RunCommit(id, outputs), maxTurns), system, maxTurns)
  {
    LiveIsLast(s.ledger, id, Inflight);
    var last := s.ledger[|s.ledger| - 1];
    var s' := Step(s, RunCommit(id, outputs), maxTurns);
    CommitOfLast(s.ledger, outputs);
    assert s'.history == s.history + (last.input + outputs);
    UpdateKeepsInv(s, s', last.(status := Committed, output := outputs), system, maxTurns);
  }

  lemma StatusChangeKeepsInv(s: State, s': State, id: string, st: Status, next: Status, system: seq<Message>,
                             maxTurns: nat)
    requires Inv(s, system, maxTurns) && LockFree(s) && Live(st) && HasStatus(s.ledger, id, st) && next != Committed
    requires s' == s.(ledger := SetStatus(s.ledger, id, next), session := s'.session)
    requires next == Unknown ==> s'.session != Active
    ensures Inv(s', system, maxTurns)
  {
    LiveIsLast(s.ledger, id, st);
    SetStatusOfLast(s.ledger, next);
    assert s.history == s.history + [];
    UpdateKeepsInv(s, s', s.ledger[|s.ledger| - 1].(status := next), system, maxTurns);
  }

  lemma RunActionKeepsInv(s: State, a: Action, system: seq<Message>, maxTurns: nat)
    requires Inv(s, system, maxTurns) && Enabled(s, a)
    requires a.RunStart? || a.RunUnknown? || a.RunInterrupted? || a.CancelQueued?
    ensures Inv(Step(s, a, maxTurns), system, maxTurns)
  {
    var st := if HasStatus(s.ledger, a.id, Queued) then Queued else Inflight;
    var next := if a.RunStart? then Inflight
                else if a.RunUnknown? || (a.RunInterrupted? && s.shutdownStarted) then Unknown else Cancelled;
    StatusChangeKeepsInv(s, Step(s, a, maxTurns), a.id, st, next, system, maxTurns);
  }

  lemma SubmitBeginKeepsInv(s: State, a: Action, system: seq<Message>, maxTurns: nat)
    requires Inv(s, system, maxTurns) && Enabled(s, a) && a.SubmitBegin?
    ensures Inv(Step(s, a, maxTurns), system, maxTurns)
  {
    if Admitted(s, a, maxTurns) {
      assert s.ledger != [] ==> !Live(s.ledger[|s.ledger| - 1].status);
      assert Settled(s.ledger);
    }
  }

  lemma QueueKeepsInv(s: State, system: seq<Message>, maxTurns: nat)
    requires Inv(s, system, maxTurns) && s.pending.Some?
    ensures Inv(Step(s, SubmitEnd(true), maxTurns), system, maxTurns)
  {
    var t := Turn(s.pending.value.id, Queued, s.pending.value.input, []);
    var s' := s.(pending := None, ledger := s.ledger + [t]);
    assert Step(s, SubmitEnd(true), maxTurns) == s';
    TurnAppended(s.ledger, t);
    assert LedgerInv(s') by {
      AppendKeepsShape(s.ledger, t);
    }
    QueueKeepsMode(s, s', t);
  }

  lemma QueueKeepsMode(s: State, s': State, t: Turn)
    requires ModeInv(s) && s.pending.Some? && t.id == s.pending.value.id
    requires s' == s.(pending := None, ledger := s.ledger + [t])
    ensures ModeInv(s')
  {
  }

  lemma SubmitEndKeepsInv(s: State, a: Action, system: seq<Message>, maxTurns: nat)
    requires Inv(s, system, maxTurns) && Enabled(s, a) && a.SubmitEnd?
    ensures Inv(Step(s, a, maxTurns), system, maxTurns)
  {
    if a.healthy {
      QueueKeepsInv(s, system, maxTurns);
    }
  }

  lemma AppendKeepsShape(ledger: seq<Turn>, t: Turn)
    requires Distinct(ledger) && OthersSettled(ledger) && Settled(ledger) && !Has(ledger, t.id)
    ensures Distinct(ledger + [t]) && OthersSettled(ledger + [t]) && LastStatus(ledger + [t]) == Some(t.status)
  {
  }

  lemma AbortKeepsInv(s: State, system: seq<Message>, maxTurns: nat)
    requires Inv(s, system, maxTurns)
    ensures Inv(Step(s, AbortSettle, maxTurns), system, maxTurns)
  {
    LoseLiveOfLast(s.ledger);
    if AnyLive(s.ledger) {
      assert s.history == s.history + [];
      UpdateKeepsInv(s, Step(s, AbortSettle, maxTurns), s.ledger[|s.ledger| - 1].(status := Unknown), system, maxTurns);
    }
  }

  lemma StepKeepsInv(s: State, a: Action, system: seq<Message>, maxTurns: nat)
    requires Inv(s, system, maxTurns) && Enabled(s, a)
    ensures Inv(Step(s, a, maxTurns), system, maxTurns)
  {
    match a {
      case SubmitBegin(_, _, _) => SubmitBeginKeepsInv(s, a, system, maxTurns);
      case SubmitEnd(_) => SubmitEndKeepsInv(s, a, system, maxTurns);
      case SubmitDropped =>
      case AbortSettle => AbortKeepsInv(s, system, maxTurns);
      case RunCommit(id, outputs) => CommitKeepsInv(s, id, outputs, system, maxTurns);
      case BackendError =>
      case ShutdownStart =>
      case Reregister =>
      case _ => RunActionKeepsInv(s, a, system, maxTurns);
    }
  }

  // --------------------------------------------------------------- whole runs

  function At(run: seq<Action>, system: seq<Message>, maxTurns: nat, n: nat): State
    requires n <= |run|
  {
    if n == 0 then Init(system) else Step(At(run, system, maxTurns, n - 1), run[n - 1], maxTurns)
  }

  predicate LegalAt(run: seq<Action>, system: seq<Message>, maxTurns: nat, n: nat)
    requires n < |run|
  {
    Enabled(At(run, system, maxTurns, n), run[n])
  }

  ghost predicate Legal(run: seq<Action>, system: seq<Message>, maxTurns: nat) {
    forall n: nat | n < |run| :: LegalAt(run, system, maxTurns, n)
  }

  /** Every reachable state satisfies the invariant. */
  lemma {:induction false} RunKeepsInv(run: seq<Action>, system: seq<Message>, maxTurns: nat, n: nat)
    requires Legal(run, system, maxTurns) && n <= |run|
    ensures Inv(At(run, system, maxTurns, n), system, maxTurns)
  {
    if n > 0 {
      RunKeepsInv(run, system, maxTurns, n - 1);
      assert LegalAt(run, system, maxTurns, n - 1);
      StepKeepsInv(At(run, system, maxTurns, n - 1), run[n - 1], system, maxTurns);
    } else {
      assert system + CommittedMessages([]) == system;
    }
  }

  /** At most one turn is queued or in flight, whatever interleaved. */
  lemma AtMostOneLiveTurn(run: seq<Action>, system: seq<Message>, maxTurns: nat, n: nat, i: nat, j: nat)
    requires Legal(run, system, maxTurns) && n <= |run|
    requires var ledger := At(run, system, maxTurns, n).ledger;
             i < |ledger| && j < |ledger| && Live(ledger[i].status) && Live(ledger[j].status)
    ensures i == j
  {
    RunKeepsInv(run, system, maxTurns, n);
  }

  /** Committed turns are counted exactly, never past the limit, and the history is theirs and nothing else. */
  lemma HistoryIsCommittedTurns(run: seq<Action>, system: seq<Message>, maxTurns: nat, n: nat)
    requires Legal(run, system, maxTurns) && n <= |run|
    ensures var s := At(run, system, maxTurns, n);
            && s.turnCount == CommittedCount(s.ledger) <= maxTurns
            && s.history == system + CommittedMessages(s.ledger)
  {
    RunKeepsInv(run, system, maxTurns, n);
  }

  function Rank(st: SessionState): nat {
    match st case Active => 0 case Desynced => 1 case Aborted => 2
  }

  /** Turns are never removed, settled turns never change, and the session state only moves forward. */
  ghost predicate Progresses(s: State, s': State) {
    && |s.ledger| <= |s'.ledger|
    && (forall i | 0 <= i < |s.ledger| ::
          && s'.ledger[i].id == s.ledger[i].id && s'.ledger[i].input == s.ledger[i].input
          && (Terminal(s.ledger[i].status) ==> s'.ledger[i] == s.ledger[i]))
    && Rank(s.session) <= Rank(s'.session)
  }

  predicate MovesTurn(a: Action) {
    a.RunStart? || a.RunCommit? || a.RunUnknown? || a.RunInterrupted? || a.CancelQueued?
  }

  lemma StepProgresses(s: State, a: Action, maxTurns: nat)
    requires LedgerInv(s) && Enabled(s, a)
    ensures Progresses(s, Step(s, a, maxTurns))
  {
    if MovesTurn(a) {
      TurnProgresses(s, a, maxTurns);
    } else if a.SubmitBegin? || a.SubmitEnd? {
      SubmitProgresses(s, a, maxTurns);
    }
  }

  lemma SubmitProgresses(s: State, a: Action, maxTurns: nat)
    requires a.SubmitBegin? || a.SubmitEnd?
    ensures Progresses(s, Step(s, a, maxTurns))
  {
    assert s.ledger <= Step(s, a, maxTurns).ledger;
  }

  lemma TurnProgresses(s: State, a: Action, maxTurns: nat)
    requires LedgerInv(s) && Enabled(s, a) && MovesTurn(a)
    ensures Progresses(s, Step(s, a, maxTurns))
  {
    var st := if HasStatus(s.ledger, a.id, Queued) then Queued else Inflight;
    LiveIsLast(s.ledger, a.id, st);
    OneTurnProgresses(s, Step(s, a, maxTurns), a.id);
  }

  /** Only the newest turn, still live, was touched. */
  lemma OneTurnProgresses(s: State, s': State, id: string)
    requires s.ledger != [] && Distinct(s.ledger)
    requires var last := s.ledger[|s.ledger| - 1]; last.id == id && Live(last.status)
    requires |s'.ledger| == |s.ledger| && Rank(s.session) <= Rank(s'.session)
    requires forall i | 0 <= i < |s.ledger| ::
               s'.ledger[i] == if s.ledger[i].id == id
                               then s.ledger[i].(status := s'.ledger[i].status, output := s'.ledger[i].output)
                               else s.ledger[i]
    ensures Progresses(s, s')
  {
  }

  lemma ProgressesTransitive(s: State, mid: State, s': State)
    requires Progresses(s, mid) && Progresses(mid, s')
    ensures Progresses(s, s')
  {
  }

  lemma RunProgresses(run: seq<Action>, system: seq<Message>, maxTurns: nat, n: nat)
    requires Legal(run, system, maxTurns) && n < |run|
    ensures Progresses(At(run, system, maxTurns, n), At(run, system, maxTurns, n + 1))
  {
    RunKeepsInv(run, system, maxTurns, n);
    var s := At(run, system, maxTurns, n);
    assert LegalAt(run, system, maxTurns, n);
    StepProgresses(s, run[n], maxTurns);
  }

  lemma {:induction false} ProgressChains(states: seq<State>, m: nat, n: nat)
    requires m <= n < |states| && forall k | m <= k < n :: Progresses(states[k], states[k + 1])
    ensures Progresses(states[m], states[n])
    decreases n - m
  {
    if m < n {
      ProgressChains(states, m, n - 1);
      assert Progresses(states[n - 1], states[n - 1 + 1]);
      ProgressesTransitive(states[m], states[n - 1], states[n]);
    }
  }

  /** From any moment to any later one, settled turns keep their result and the session state only moves forward. */
  lemma SettledTurnsNeverChange(run: seq<Action>, system: seq<Message>, maxTurns: nat, m: nat, n: nat)
    requires Legal(run, system, maxTurns) && m <= n <= |run|
    ensures Progresses(At(run, system, maxTurns, m), At(run, system, maxTurns, n))
  {
    var states := seq(|run| + 1, k requires 0 <= k <= |run| => At(run, system, maxTurns, k));
    forall k | m <= k < n ensures Progresses(states[k], states[k + 1]) {
      RunProgresses(run, system, maxTurns, k);
    }
    ProgressChains(states, m, n);
  }

  /**
    An unknown turn means the session is no longer active, is the last turn the session ever has,
    and is the only unknown one over the session's whole life.
   */
  lemma UnknownTurnEndsTheSession(run: seq<Action>, system: seq<Message>, maxTurns: nat, m: nat, n: nat, i: nat)
    requires Legal(run, system, maxTurns) && m <= n <= |run|
    requires var ledger := At(run, system, maxTurns, m).ledger; i < |ledger| && ledger[i].status == Unknown
    ensures var s := At(run, system, maxTurns, n);
            && s.session != Active
            && |s.ledger| == i + 1 && s.ledger[i].status == Unknown
            && forall j | 0 <= j < i :: s.ledger[j].status != Unknown
  {
    RunKeepsInv(run, system, maxTurns, n);
    SettledTurnsNeverChange(run, system, maxTurns, m, n);
    UnknownIsLast(At(run, system, maxTurns, m), At(run, system, maxTurns, n), i);
  }

  lemma UnknownIsLast(s: State, s': State, i: nat)
    requires Progresses(s, s') && LedgerInv(s')
    requires i < |s.ledger| && s.ledger[i].status == Unknown
    ensures s'.session != Active && |s'.ledger| == i + 1 && s'.ledger[i].status == Unknown
    ensures forall j | 0 <= j < i :: s'.ledger[j].status != Unknown
  {
    assert s'.ledger[i] == s.ledger[i];
  }

  predicate StartsWithTwins(ledger: seq<Turn>) {
    |ledger| >= 2 && ledger[0].id == ledger[1].id
  }

  lemma NoTwins(ledger: seq<Turn>)
    requires Distinct(ledger)
    ensures !StartsWithTwins(ledger)
  {
  }

  lemma SameIdsAreTwins(s: State)
    requires ModeInv(s) && s.mode.Single? && |s.ledger| >= 2
    ensures StartsWithTwins(s.ledger)
  {
  }

  lemma SingleModeHoldsOneTurn(s: State)
    requires ModeInv(s) && Distinct(s.ledger) && s.mode.Single?
    ensures |s.ledger| <= 1
  {
    NoTwins(s.ledger);
    if |s.ledger| >= 2 {
      SameIdsAreTwins(s);
    }
  }

  /** A session that generated its own turn id never holds a second turn. */
  lemma GeneratedIdMeansOneTurn(run: seq<Action>, system: seq<Message>, maxTurns: nat, n: nat)
    requires Legal(run, system, maxTurns) && n <= |run|
    requires At(run, system, maxTurns, n).mode.Single?
    ensures |At(run, system, maxTurns, n).ledger| <= 1
  {
    RunKeepsInv(run, system, maxTurns, n);
    SingleModeHoldsOneTurn(At(run, system, maxTurns, n));
  }

  // ------------------------------------------------------ what each action does

  /** The turn with this id is given status `st`; the others stay as they are. */
  ghost predicate OnlyMoves(before: seq<Turn>, after: seq<Turn>, id: string, st: Status) {
    && |after| == |before|
    && forall i | 0 <= i < |before| ::
         if before[i].id == id then after[i] == before[i].(status := st, output := after[i].output)
         else after[i] == before[i]
  }

  /** Outputs are written by a commit alone. */
  ghost predicate KeepsOutputs(before: seq<Turn>, after: seq<Turn>) {
    |after| == |before| && forall i | 0 <= i < |before| :: after[i].output == before[i].output
  }

  /** The life of a turn: started, then committed with its outputs, unknown, or cancelled. */
  lemma ActionsMoveTurns(s: State, a: Action, maxTurns: nat)
    ensures var after := Step(s, a, maxTurns).ledger;
            match a
            case RunStart(id) => OnlyMoves(s.ledger, after, id, Inflight) && KeepsOutputs(s.ledger, after)
            case RunCommit(id, outputs) =>
              && OnlyMoves(s.ledger, after, id, Committed)
              && forall i | 0 <= i < |s.ledger| && s.ledger[i].id == id :: after[i].output == outputs
            case RunUnknown(id) => OnlyMoves(s.ledger, after, id, Unknown) && KeepsOutputs(s.ledger, after)
            case RunInterrupted(id) =>
              && OnlyMoves(s.ledger, after, id, if s.shutdownStarted then Unknown else Cancelled)
              && KeepsOutputs(s.ledger, after)
            case CancelQueued(id) => OnlyMoves(s.ledger, after, id, Cancelled) && KeepsOutputs(s.ledger, after)
            case AbortSettle =>
              && KeepsOutputs(s.ledger, after) && !AnyLive(after)
              && forall i | 0 <= i < |s.ledger| && !Live(s.ledger[i].status) :: after[i] == s.ledger[i]
            case SubmitEnd(healthy) =>
              after == s.ledger + if healthy && s.pending.Some?
                                  then [Turn(s.pending.value.id, Queued, s.pending.value.input, [])] else []
            case _ => after == s.ledger
  {
    if a.SubmitEnd? {
      assert s.ledger + [] == s.ledger;
    }
  }

  /** The id a request may use in a session of this mode. */
  predicate MayUse(mode: Mode, requested: Option<string>, generated: string, id: string) {
    || (mode.Unset? && id == if requested.Some? then requested.value else generated)
    || (mode.Single? && id == mode.defaultId && (requested.None? || requested == Some(id)))
    || (mode.Explicit? && requested == Some(id))
  }

  /**
    A submit goes on to its health check if and only if the session is active and below its limit, no turn is
    live, and the id it may use is new. The first id that is used fixes the mode.
   */
  lemma SubmitIsAdmittedIff(s: State, a: Action, maxTurns: nat, id: string)
    requires a.SubmitBegin? && s.pending.None? && MayUse(s.mode, a.requested, a.generated, id)
    ensures var s' := Step(s, a, maxTurns);
            && (s'.pending == Some(Pending(id, a.input)) <==>
                  s.session == Active && s.turnCount < maxTurns && !AnyLive(s.ledger) && !Has(s.ledger, id))
            && (s'.pending.Some? ==> s'.pending.value == Pending(id, a.input))
            && (s.session == Active && s.turnCount < maxTurns && s.mode.Unset? ==>
                  s'.mode == if a.requested.Some? then Explicit else Single(id))
            && (s.session != Active || s.turnCount >= maxTurns || !s.mode.Unset? ==> s'.mode == s.mode)
  {
  }

  /** A request that names no id where ids are explicit, or another than the generated one, changes nothing. */
  lemma UnusableIdIsRefused(s: State, a: Action, maxTurns: nat)
    requires a.SubmitBegin? && s.pending.None?
    requires if a.requested.None? then s.mode.Explicit? else s.mode.Single? && s.mode.defaultId != a.requested.value
    ensures Step(s, a, maxTurns) == s
  {
  }

  /** What takes a session out of service: an abort, a turn whose outcome is unknown, a fresh backend error. */
  predicate Ends(s: State, a: Action) {
    || a.AbortSettle? || a.RunUnknown?
    || (a.RunInterrupted? && s.shutdownStarted)
    || ((a.BackendError? || (a.SubmitEnd? && !a.healthy && s.pending.Some?)) && !s.serverError)
  }

  ghost predicate EndsAt(run: seq<Action>, system: seq<Message>, maxTurns: nat, n: nat)
    requires n < |run|
  {
    Ends(At(run, system, maxTurns, n), run[n])
  }

  lemma StepEnds(s: State, a: Action, maxTurns: nat)
    ensures Step(s, a, maxTurns).session == Active <==> s.session == Active && !Ends(s, a)
    ensures Step(s, a, maxTurns).session == Aborted <==> s.session == Aborted || a.AbortSettle?
  {
  }

  /** A session is active exactly as long as none of those happened. */
  lemma {:induction false} ActiveUntilEnded(run: seq<Action>, system: seq<Message>, maxTurns: nat, n: nat)
    requires n <= |run|
    ensures At(run, system, maxTurns, n).session == Active <==>
            forall i: nat | i < n :: !EndsAt(run, system, maxTurns, i)
  {
    if n > 0 {
      ActiveUntilEnded(run, system, maxTurns, n - 1);
      StepEnds(At(run, system, maxTurns, n - 1), run[n - 1], maxTurns);
      assert EndsAt(run, system, maxTurns, n - 1) <==> Ends(At(run, system, maxTurns, n - 1), run[n - 1]);
    }
  }

  /** It is aborted exactly when an abort came, and stays so. */
  lemma {:induction false} AbortedIffAborted(run: seq<Action>, system: seq<Message>, maxTurns: nat, n: nat)
    requires n <= |run|
    ensures At(run, system, maxTurns, n).session == Aborted <==> exists i: nat | i < n :: run[i].AbortSettle?
  {
    if n > 0 {
      AbortedIffAborted(run, system, maxTurns, n - 1);
      StepEnds(At(run, system, maxTurns, n - 1), run[n - 1], maxTurns);
    }
  }

  lemma StepFlags(s: State, a: Action, maxTurns: nat)
    ensures Step(s, a, maxTurns).shutdownStarted <==> s.shutdownStarted || a.ShutdownStart?
    ensures Step(s, a, maxTurns).serverError <==>
            !a.Reregister?
            && (s.serverError || a.BackendError? || (a.SubmitEnd? && !a.healthy && s.pending.Some?))
  {
  }

  /** A submit holds the lock until its health check is over, one way or another. */
  lemma StepPending(s: State, a: Action, maxTurns: nat)
    ensures a.SubmitEnd? || a.SubmitDropped? ==> Step(s, a, maxTurns).pending.None?
    ensures !a.SubmitBegin? && !a.SubmitEnd? && !a.SubmitDropped? ==> Step(s, a, maxTurns).pending == s.pending
  {
  }

  /** Interruptions are counted as unknown from the first shutdown on. */
  lemma {:induction false} ShutdownIffStarted(run: seq<Action>, system: seq<Message>, maxTurns: nat, n: nat)
    requires n <= |run|
    ensures At(run, system, maxTurns, n).shutdownStarted <==> exists i: nat | i < n :: run[i].ShutdownStart?
  {
    if n > 0 {
      ShutdownIffStarted(run, system, maxTurns, n - 1);
      StepFlags(At(run, system, maxTurns, n - 1), run[n - 1], maxTurns);
    }
  }

  // ------------------------------------------------------------ the session

  /** What a submit answers before its health check. */
  datatype Admission = Proceed | Replay(status: Status) | Conflict | TooManyTurns | BadRequest

  class BlackboxSession {
    const system: seq<Message>
    const maxTurns: nat
    var session: SessionState
    var ledger: seq<Turn>
    var turnCount: nat
    var history: seq<Message>
    var mode: Mode
    var pending: Option<Pending>
    var shutdownStarted: bool
    var serverError: bool

    function View(): State
      reads this
    {
      State(session, ledger, turnCount, history, mode, pending, shutdownStarted, serverError)
    }

    ghost predicate Valid()
      reads this
    {
      Inv(View(), system, maxTurns)
    }

    constructor (system: seq<Message>, maxTurns: nat)
      ensures Valid() && View() == Init(system) && this.system == system && this.maxTurns == maxTurns
    {
      this.system := system;
      this.maxTurns := maxTurns;
      session, ledger, turnCount, history, mode := Active, [], 0, system, Unset;
      pending, shutdownStarted, serverError := None, false, false;
      new;
      assert system + CommittedMessages([]) == system;
    }

    method Find(id: string) returns (at: Option<nat>)
      requires Distinct(ledger)
      ensures at.Some? <==> Has(ledger, id)
      ensures at.Some? ==>
                at.value < |ledger| && forall i | 0 <= i < |ledger| :: ledger[i].id == id <==> i == at.value
    {
      for i := 0 to |ledger|
        invariant forall j | 0 <= j < i :: ledger[j].id != id
      {
        if ledger[i].id == id {
          return Some(i);
        }
      }
      return None;
    }

    method HasActiveTurn() returns (active: bool)
      ensures active == AnyLive(ledger)
    {
      for i := 0 to |ledger|
        invariant forall j | 0 <= j < i :: !Live(ledger[j].status)
      {
        if Live(ledger[i].status) {
          return true;
        }
      }
      return false;
    }

    /** Replaces one record, as the source does through the dictionary. */
    method Put(at: nat, t: Turn)
      requires at < |ledger|
      modifies this`ledger
      ensures ledger == old(ledger)[at := t]
    {
      ledger := ledger[at := t];
    }

    method ResolveTurnId(requested: Option<string>, generated: string) returns (id: Option<string>)
      modifies this`mode
      ensures id == Resolve(old(mode), requested, generated)
      ensures mode == if id.Some? then ModeAfter(old(mode), requested, generated) else old(mode)
    {
      match requested {
        case None =>
          match mode {
            case Explicit => return None;
            case Single(d) => return Some(d);
            case Unset =>
              mode := Single(generated);
              return Some(generated);
          }
        case Some(wanted) =>
          if mode.Single? {
            return if wanted == mode.defaultId then Some(wanted) else None;
          }
          if mode.Unset? {
            mode := Explicit;
          }
          return Some(wanted);
      }
    }

    /** The part of submit_turn that runs before its health check. */
    method SubmitTurn(requested: Option<string>, generated: string, input: seq<Message>) returns (r: Admission)
      requires Valid() && pending.None? && !Has(ledger, generated)
      modifies this
      ensures Valid() && View() == Step(old(View()), SubmitBegin(requested, generated, input), maxTurns)
      ensures r.Proceed? <==> Admitted(old(View()), SubmitBegin(requested, generated, input), maxTurns)
      ensures r.Replay? ==> exists t | t in old(ledger) ::
                Some(t.id) == Resolve(old(mode), requested, generated) && t.input == input && t.status == r.status
    {
      StepKeepsInv(View(), SubmitBegin(requested, generated, input), system, maxTurns);
      r := Admit(requested, generated, input);
    }

    /** Admission: refusals first, then an idempotent replay, then the one-active-turn rule. */
    method Admit(requested: Option<string>, generated: string, input: seq<Message>) returns (r: Admission)
      requires Distinct(ledger) && pending.None?
      modifies this`mode, this`pending
      ensures View() == Step(old(View()), SubmitBegin(requested, generated, input), maxTurns)
      ensures r.Proceed? <==> Admitted(old(View()), SubmitBegin(requested, generated, input), maxTurns)
      ensures r.Replay? ==> exists t | t in ledger ::
                Some(t.id) == Resolve(old(mode), requested, generated) && t.input == input && t.status == r.status
    {
      if session != Active {
        return Conflict;
      }
      if turnCount >= maxTurns {
        return TooManyTurns;
      }
      var id := ResolveTurnId(requested, generated);
      if id.None? {
        return BadRequest;
      }
      var existing := Find(id.value);
      if existing.Some? {
        var t := ledger[existing.value];
        return if t.input == input then Replay(t.status) else Conflict;
      }
      var active := HasActiveTurn();
      if active {
        return Conflict;
      }
      pending := Some(Pending(id.value, input));
      return Proceed;
    }

    /** The part of submit_turn that runs after its health check. */
    method FinishSubmit(healthy: bool) returns (queued: bool)
      requires Valid() && pending.Some?
      modifies this
      ensures Valid() && View() == Step(old(View()), SubmitEnd(healthy), maxTurns)
      ensures queued <==> healthy
    {
      StepKeepsInv(View(), SubmitEnd(healthy), system, maxTurns);
      SettleSubmit(healthy);
      return healthy;
    }

    method SettleSubmit(healthy: bool)
      requires pending.Some?
      modifies this`pending, this`ledger, this`serverError, this`session
      ensures View() == Step(old(View()), SubmitEnd(healthy), maxTurns)
    {
      var p := pending.value;
      pending := None;
      if healthy {
        ledger := ledger + [Turn(p.id, Queued, p.input, [])];
      } else {
        MarkBackendError();
      }
    }

    /** _mark_backend_error, which reaches the session through mark_all_non_aborted_desynced. */
    method MarkBackendError()
      modifies this`serverError, this`session
      ensures View() == MarkError(old(View()))
    {
      if serverError {
        return;
      }
      serverError := true;
      if session != Aborted {
        session := Desynced;
      }
    }

    /** The first lock section of _run_turn. */
    method StartTurn(id: string) returns (started: bool)
      requires Valid() && pending.None?
      modifies this
      ensures Valid() && started == HasStatus(old(ledger), id, Queued)
      ensures View() == if started then Step(old(View()), RunStart(id), maxTurns) else old(View())
    {
      var at := Find(id);
      if at.None? || ledger[at.value].status != Queued {
        return false;
      }
      assert HasStatus(ledger, id, Queued);
      StepKeepsInv(View(), RunStart(id), system, maxTurns);
      SettleAt(at.value, Inflight);
      return true;
    }

    /** The committing branch of the last lock section of _run_turn. */
    method CommitTurn(id: string, outputs: seq<Message>) returns (committed: bool)
      requires Valid() && pending.None?
      modifies this
      ensures Valid() && committed == HasStatus(old(ledger), id, Inflight)
      ensures View() == if committed then Step(old(View()), RunCommit(id, outputs), maxTurns) else old(View())
    {
      var at := Find(id);
      if at.None? || ledger[at.value].status != Inflight {
        return false;
      }
      assert HasStatus(ledger, id, Inflight);
      StepKeepsInv(View(), RunCommit(id, outputs), system, maxTurns);
      CommitAt(at.value, outputs);
      return true;
    }

    method CommitAt(at: nat, outputs: seq<Message>)
      requires Distinct(ledger) && at < |ledger|
      modifies this`ledger, this`history, this`turnCount
      ensures View() == Step(old(View()), RunCommit(old(ledger)[at].id, outputs), maxTurns)
    {
      InputOfAt(ledger, at);
      history := history + ledger[at].input + outputs;
      turnCount := turnCount + 1;
      Put(at, ledger[at].(status := Committed, output := outputs));
      assert ledger == Commit(old(ledger), old(ledger)[at].id, outputs);
    }

    /** Gives one record a new status, and desynchronizes the session when its outcome is unknown. */
    method SettleAt(at: nat, next: Status)
      requires Distinct(ledger) && at < |ledger|
      modifies this`ledger, this`session
      ensures ledger == SetStatus(old(ledger), old(ledger)[at].id, next)
      ensures session == if next == Unknown then Desync(old(session)) else old(session)
    {
      Put(at, ledger[at].(status := next));
      assert ledger == SetStatus(old(ledger), old(ledger)[at].id, next);
      if next == Unknown && session != Aborted {
        session := Desynced;
      }
    }

    /** The failing branch of the last lock section of _run_turn, with _handle_unknown_turn. */
    method LoseTurn(id: string) returns (lost: bool)
      requires Valid() && pending.None?
      modifies this
      ensures Valid() && lost == HasStatus(old(ledger), id, Inflight)
      ensures View() == if lost then Step(old(View()), RunUnknown(id), maxTurns) else old(View())
    {
      var at := Find(id);
      if at.None? || ledger[at.value].status != Inflight {
        return false;
      }
      assert HasStatus(ledger, id, Inflight);
      StepKeepsInv(View(), RunUnknown(id), system, maxTurns);
      SettleAt(at.value, Unknown);
      return true;
    }

    /** _finalize_interrupted_turn_locked. */
    method InterruptTurn(id: string) returns (settled: bool)
      requires Valid() && pending.None?
      modifies this
      ensures Valid()
      ensures settled == (HasStatus(old(ledger), id, Queued) || HasStatus(old(ledger), id, Inflight))
      ensures View() == if settled then Step(old(View()), RunInterrupted(id), maxTurns) else old(View())
    {
      var at := Find(id);
      if at.None? || Terminal(ledger[at.value].status) {
        return false;
      }
      assert HasStatus(ledger, id, ledger[at.value].status);
      StepKeepsInv(View(), RunInterrupted(id), system, maxTurns);
      SettleAt(at.value, if shutdownStarted then Unknown else Cancelled);
      return true;
    }

    /** The lock section of cancel_turn; an inflight turn is only asked to stop. */
    method CancelTurn(id: string) returns (cancelInflight: bool)
      requires Valid() && pending.None?
      modifies this
      ensures Valid() && cancelInflight == HasStatus(old(ledger), id, Inflight)
      ensures View() == if HasStatus(old(ledger), id, Queued)
                        then Step(old(View()), CancelQueued(id), maxTurns) else old(View())
    {
      var at := Find(id);
      if at.None? {
        return false;
      }
      if ledger[at.value].status == Queued {
        assert HasStatus(ledger, id, Queued);
        StepKeepsInv(View(), CancelQueued(id), system, maxTurns);
        SettleAt(at.value, Cancelled);
        return false;
      }
      return ledger[at.value].status == Inflight;
    }

    /** abort_session without a suspension in between: nothing happens to a session that is aborted already. */
    method AbortSession() returns (noop: bool)
      requires Valid()
      modifies this
      ensures Valid() && session == Aborted && noop == (old(session) == Aborted)
      ensures !noop ==> !AnyLive(ledger)
      ensures View() == if noop then old(View()) else Step(old(View()), AbortSettle, maxTurns)
    {
      if session == Aborted {
        return true;
      }
      SettleAbort();
      return false;
    }

    /** The settling part of abort_session; it follows a suspension and may run without the lock. */
    method SettleAbort()
      requires Valid()
      modifies this
      ensures Valid() && View() == Step(old(View()), AbortSettle, maxTurns)
      ensures session == Aborted && !AnyLive(ledger)
    {
      StepKeepsInv(View(), AbortSettle, system, maxTurns);
      session := Aborted;
      LoseLiveTurns();
    }

    method LoseLiveTurns()
      modifies this`ledger
      ensures ledger == LoseLive(old(ledger))
    {
      for i := 0 to |ledger|
        invariant |ledger| == |old(ledger)|
        invariant forall j | 0 <= j < i :: ledger[j] == LoseLive(old(ledger))[j]
        invariant forall j | i <= j < |ledger| :: ledger[j] == old(ledger)[j]
      {
        if Live(ledger[i].status) {
          Put(i, ledger[i].(status := Unknown));
        }
      }
      assert ledger == LoseLive(old(ledger));
    }
  }
}
