// The durable budget and loop detector: one observation as a function of a run's
// snapshot row and ledger, and what holds after any sequence of calls.

module ProgressGuard {

  datatype Option<+T> = None | Some(value: T)

  datatype Reason = ActionCountExhausted | StepsExhausted | LoopDetected | StagnationDetected

  datatype Config = Config(
    maxActionCount: int,
    maxUniqueActions: int,
    maxTotalSteps: int,
    maxWallClockMs: int,
    repeatWindow: int,
    repeatThreshold: int,
    stagnationMs: int
  )

  const DEFAULTS := Config(200, 80, 400, 1_800_000, 6, 4, 300_000)

  /** A row of progress_ledger; the rows of a run are kept in sequence order. */
  datatype LedgerRow = LedgerRow(
    sequenceNo: int,
    observedValue: int,
    budgetValue: int,
    target: string,
    reason: Option<Reason>,
    eventId: string
  )

  /** A row of progress_run_state; instants are milliseconds. */
  datatype RunState = RunState(
    actionCount: int,
    uniqueActions: int,
    totalSteps: int,
    startedAt: int,
    lastProgressAt: Option<int>,
    lastRepeatTarget: Option<string>,
    lastRepeatCount: int,
    terminated: bool,
    terminationReason: Option<Reason>
  )

  datatype Run = Run(state: Option<RunState>, ledger: seq<LedgerRow>)

  const UNTRACKED := Run(None, [])

  /** The arguments of observe, the clock it reads and the id of its audit event. */
  datatype Observation = Observation(
    target: string,
    progressDelta: Option<int>,
    asOf: Option<int>,
    clock: int,
    eventId: string
  )

  datatype Verdict =
    | InvalidArgument
    | AlreadyTerminated(reason: Option<Reason>)
    | Decided(reason: Option<Reason>, sequenceNo: int)

  /* ---------- arguments ---------- */

  predicate Letter(c: char) { 'a' <= c <= 'z' }

  predicate TargetChar(c: char) { Letter(c) || '0' <= c <= '9' || c == '_' || c == '-' || c == ':' || c == '.' }

  /** ^[a-z]+:[a-z0-9_\-:.]+$ with k letters before the first colon. */
  predicate TargetShape(s: string, k: nat) {
    && 1 <= k < |s| - 1
    && (forall i :: 0 <= i < k ==> Letter(s[i]))
    && s[k] == ':'
    && forall i :: k < i < |s| ==> TargetChar(s[i])
  }

  predicate ValidTarget(s: string) { exists k :: 0 <= k < |s| && TargetShape(s, k) }

  predicate ValidArguments(o: Observation) {
    ValidTarget(o.target) && (o.progressDelta == None || 0 <= o.progressDelta.value <= 1)
  }

  function Delta(o: Observation): int { if o.progressDelta.Some? then o.progressDelta.value else 0 }

  function Now(o: Observation): int { if o.asOf.Some? then o.asOf.value else o.clock }

  /* ---------- one call ---------- */

  /** The row that loadObservedState inserts for an unknown run counts its insertion as
      progress ... */
  function Seeded(clock: int): RunState { RunState(0, 0, 0, clock, Some(clock), None, 0, false, None) }

  /** ... but the state it returns does not. */
  function Fresh(clock: int): RunState { Seeded(clock).(lastProgressAt := None) }

  function Before(run: Run, clock: int): RunState { if run.state.Some? then run.state.value else Fresh(clock) }

  /** loadObservedState and isGuardTerminated. */
  function Peek(run: Run, clock: int): Run { if run.state.Some? then run else run.(state := Some(Seeded(clock))) }

  /** ORDER BY sequence_no DESC LIMIT w; a negative limit is no limit. */
  function Window(ledger: seq<LedgerRow>, w: int): seq<LedgerRow> {
    if w < 0 || |ledger| <= w then ledger else ledger[|ledger| - w..]
  }

  function Targets(rows: seq<LedgerRow>): set<string> { set r | r in rows :: r.target }

  /** The snapshot an observation leaves, before it is known whether it is accepted. */
  function Counted(cfg: Config, before: RunState, ledger: seq<LedgerRow>, o: Observation): RunState {
    before.(
      actionCount := before.actionCount + 1,
      uniqueActions := |Targets(Window(ledger, cfg.repeatWindow)) + {o.target}|,
      totalSteps := before.totalSteps + Delta(o),
      lastProgressAt := if Delta(o) > 0 then Some(Now(o)) else before.lastProgressAt,
      lastRepeatTarget := Some(o.target),
      lastRepeatCount := if before.lastRepeatTarget == Some(o.target) then before.lastRepeatCount + 1 else 1
    )
  }

  function When(breach: bool, r: Reason): seq<Reason> { if breach then [r] else [] }

  /** The decision matrix, in order. */
  function Breaches(cfg: Config, s: RunState, now: int): seq<Reason> {
    When(s.actionCount > cfg.maxActionCount, ActionCountExhausted)
    + When(s.totalSteps > cfg.maxTotalSteps, StepsExhausted)
    + When(s.uniqueActions > cfg.maxUniqueActions, ActionCountExhausted)
    + When(now - s.startedAt > cfg.maxWallClockMs, ActionCountExhausted)
    + When(s.lastRepeatCount >= cfg.repeatThreshold, LoopDetected)
    + When(s.lastProgressAt.Some? && now - s.lastProgressAt.value > cfg.stagnationMs, StagnationDetected)
  }

  function FirstReason(breaches: seq<Reason>): Option<Reason> { if breaches == [] then None else Some(breaches[0]) }

  function NextSequence(ledger: seq<LedgerRow>): int {
    if ledger == [] then 1 else ledger[|ledger| - 1].sequenceNo + 1
  }

  function Record(cfg: Config, run: Run, s: RunState, reason: Option<Reason>, o: Observation): Run {
    Run(Some(s.(terminated := reason.Some?, terminationReason := reason)),
        run.ledger + [LedgerRow(NextSequence(run.ledger), s.actionCount, cfg.maxActionCount, o.target, reason, o.eventId)])
  }

  function Decision(cfg: Config, before: RunState, ledger: seq<LedgerRow>, o: Observation): Option<Reason> {
    FirstReason(Breaches(cfg, Counted(cfg, before, ledger, o), Now(o)))
  }

  function DecidedReason(cfg: Config, run: Run, o: Observation): Option<Reason> {
    Decision(cfg, Before(run, o.clock), run.ledger, o)
  }

  predicate Terminated(run: Run) { run.state.Some? && run.state.value.terminated }

  function Observe(cfg: Config, run: Run, o: Observation): Run {
    if !ValidArguments(o) || Terminated(run) then run
    else Record(cfg, run, Counted(cfg, Before(run, o.clock), run.ledger, o), DecidedReason(cfg, run, o), o)
  }

  function ObserveVerdict(cfg: Config, run: Run, o: Observation): Verdict {
    if !ValidArguments(o) then InvalidArgument
    else if Terminated(run) then AlreadyTerminated(run.state.value.terminationReason)
    else Decided(DecidedReason(cfg, run, o), NextSequence(run.ledger))
  }

  /** Anything that touches a run: observe, or a read that may seed the snapshot row. */
  datatype Call = Observing(o: Observation) | Peeking(clock: int)

  function Step(cfg: Config, run: Run, c: Call): Run {
    match c
    case Observing(o) => Observe(cfg, run, o)
    case Peeking(clock) => Peek(run, clock)
  }

  function After(cfg: Config, run: Run, calls: seq<Call>): Run {
    if calls == [] then run else Step(cfg, After(cfg, run, calls[..|calls| - 1]), calls[|calls| - 1])
  }

  /* ---------- the same quantities, computed from the ledger ---------- */

  /** How often the last target was observed in a row. */
  function RepeatRun(ledger: seq<LedgerRow>): nat {
    if ledger == [] then 0
    else if |ledger| > 1 && ledger[|ledger| - 2].target == ledger[|ledger| - 1].target then
      1 + RepeatRun(ledger[..|ledger| - 1])
    else 1
  }

  /** Distinct targets of the last row and the w rows before it. */
  function RecentTargets(ledger: seq<LedgerRow>, w: int): nat {
    if ledger == [] then 0
    else |Targets(Window(ledger[..|ledger| - 1], w)) + {ledger[|ledger| - 1].target}|
  }

  /** What a row says about the observations up to it. */
  ghost predicate RowOk(cfg: Config, ledger: seq<LedgerRow>, i: nat)
    requires i < |ledger|
  {
    var r := ledger[i];
    && r.sequenceNo == i + 1 && r.observedValue == i + 1 && r.budgetValue == cfg.maxActionCount
    && (r.reason == None ==>
          && i + 1 <= cfg.maxActionCount
          && RecentTargets(ledger[..i + 1], cfg.repeatWindow) <= cfg.maxUniqueActions
          && RepeatRun(ledger[..i + 1]) < cfg.repeatThreshold)
    && (r.reason == Some(StepsExhausted) ==> i + 1 <= cfg.maxActionCount && i + 1 > cfg.maxTotalSteps)
    && (i + 1 < |ledger| ==> r.reason == None)
  }

  ghost predicate LedgerOk(cfg: Config, ledger: seq<LedgerRow>) {
    forall i :: 0 <= i < |ledger| ==> RowOk(cfg, ledger, i)
  }

  /** The snapshot counts what the ledger records. */
  ghost predicate Counts(cfg: Config, s: RunState, ledger: seq<LedgerRow>) {
    && s.actionCount == |ledger|
    && s.uniqueActions == RecentTargets(ledger, cfg.repeatWindow)
    && 0 <= s.totalSteps <= |ledger|
    && s.lastRepeatCount == RepeatRun(ledger)
    && s.lastRepeatTarget == (if ledger == [] then None else Some(ledger[|ledger| - 1].target))
  }

  ghost predicate Tracks(cfg: Config, run: Run) {
    && LedgerOk(cfg, run.ledger)
    && match run.state
       case None => run.ledger == []
       case Some(s) =>
         && Counts(cfg, s, run.ledger)
         && s.terminationReason == (if run.ledger == [] then None else run.ledger[|run.ledger| - 1].reason)
         && s.terminated == s.terminationReason.Some?
  }

  lemma CountedCounts(cfg: Config, before: RunState, ledger: seq<LedgerRow>, o: Observation, row: LedgerRow)
    requires Counts(cfg, before, ledger) && ValidArguments(o) && row.target == o.target
    ensures Counts(cfg, Counted(cfg, before, ledger, o), ledger + [row])
  {
    var longer := ledger + [row];
    assert longer[..|longer| - 1] == ledger;
  }

  lemma EmptyLedger(cfg: Config, clock: int)
    ensures Counts(cfg, Seeded(clock), []) && Counts(cfg, Fresh(clock), [])
  {
  }

  lemma NoBreach(cfg: Config, s: RunState, now: int)
    ensures FirstReason(Breaches(cfg, s, now)) == None ==>
      s.actionCount <= cfg.maxActionCount && s.uniqueActions <= cfg.maxUniqueActions && s.lastRepeatCount < cfg.repeatThreshold
    ensures FirstReason(Breaches(cfg, s, now)) == Some(StepsExhausted) ==>
      s.actionCount <= cfg.maxActionCount && s.totalSteps > cfg.maxTotalSteps
  {
  }

  lemma PushKeepsLedger(cfg: Config, ledger: seq<LedgerRow>, s: RunState, row: LedgerRow, now: int)
    requires LedgerOk(cfg, ledger) && Counts(cfg, s, ledger + [row])
    requires forall i :: 0 <= i < |ledger| ==> ledger[i].reason == None
    requires row.sequenceNo == |ledger| + 1 && row.observedValue == s.actionCount && row.budgetValue == cfg.maxActionCount
    requires row.reason == FirstReason(Breaches(cfg, s, now))
    ensures LedgerOk(cfg, ledger + [row])
  {
    NoBreach(cfg, s, now);
    hide Breaches, RepeatRun, RecentTargets;
    var longer := ledger + [row];
    forall i | 0 <= i < |longer| ensures RowOk(cfg, longer, i) {
      if i < |ledger| {
        assert RowOk(cfg, ledger, i);
        assert longer[..i + 1] == ledger[..i + 1];
      } else {
        assert longer[..i + 1] == longer;
      }
    }
  }

  lemma OpenLedger(cfg: Config, run: Run)
    requires Tracks(cfg, run) && !Terminated(run)
    ensures forall i :: 0 <= i < |run.ledger| ==> run.ledger[i].reason == None
    ensures NextSequence(run.ledger) == |run.ledger| + 1
  {
    hide Counts, RepeatRun, RecentTargets;
    forall i | 0 <= i < |run.ledger| ensures run.ledger[i].reason == None {
      assert RowOk(cfg, run.ledger, i);
    }
    if run.ledger != [] {
      assert RowOk(cfg, run.ledger, |run.ledger| - 1);
    }
  }

  lemma ObserveTracks(cfg: Config, run: Run, o: Observation)
    requires Tracks(cfg, run)
    ensures Tracks(cfg, Observe(cfg, run, o))
  {
    if ValidArguments(o) && !Terminated(run) {
      var before := Before(run, o.clock);
      EmptyLedger(cfg, o.clock);
      assert Counts(cfg, before, run.ledger);
      OpenLedger(cfg, run);
      var s := Counted(cfg, before, run.ledger, o);
      var after := Observe(cfg, run, o);
      var row := after.ledger[|run.ledger|];
      CountedCounts(cfg, before, run.ledger, o, row);
      hide Counts, Counted, Breaches, ValidArguments;
      PushKeepsLedger(cfg, run.ledger, s, row, Now(o));
      CountsIgnoreReason(cfg, s, after.ledger, row.reason);
    }
  }

  lemma CountsIgnoreReason(cfg: Config, s: RunState, ledger: seq<LedgerRow>, reason: Option<Reason>)
    requires Counts(cfg, s, ledger)
    ensures Counts(cfg, s.(terminated := reason.Some?, terminationReason := reason), ledger)
  {
  }

  /** Refinement: after any calls, by anyone, the persisted counters are the quantities
      of the ledger, and the run is terminated exactly if its last row is a rejection. */
  lemma {:induction false} SnapshotCountsLedger(cfg: Config, calls: seq<Call>)
    ensures Tracks(cfg, After(cfg, UNTRACKED, calls))
  {
    if calls != [] {
      var before := After(cfg, UNTRACKED, calls[..|calls| - 1]);
      SnapshotCountsLedger(cfg, calls[..|calls| - 1]);
      match calls[|calls| - 1]
      case Observing(o) => ObserveTracks(cfg, before, o);
      case Peeking(clock) => EmptyLedger(cfg, clock);
    }
  }

  /** When an observation is accepted, in terms of the snapshot before and the ledger after. */
  lemma AcceptedBySnapshot(cfg: Config, run: Run, o: Observation)
    requires Tracks(cfg, run) && ValidArguments(o) && !Terminated(run)
    ensures var after := Observe(cfg, run, o);
      var before := Before(run, o.clock);
      after.state.value.terminationReason == None <==>
        && |after.ledger| <= cfg.maxActionCount
        && before.totalSteps + Delta(o) <= cfg.maxTotalSteps
        && RecentTargets(after.ledger, cfg.repeatWindow) <= cfg.maxUniqueActions
        && Now(o) - before.startedAt <= cfg.maxWallClockMs
        && RepeatRun(after.ledger) < cfg.repeatThreshold
        && (if Delta(o) > 0 then 0 <= cfg.stagnationMs
            else before.lastProgressAt.Some? ==> Now(o) - before.lastProgressAt.value <= cfg.stagnationMs)
  {
    ObserveTracks(cfg, run, o);
    hide RepeatRun, RecentTargets, LedgerOk, ValidArguments;
  }

  /* ---------- budgets over whole runs ---------- */

  function AcceptedCount(ledger: seq<LedgerRow>): nat {
    if ledger == [] then 0
    else AcceptedCount(ledger[..|ledger| - 1]) + if ledger[|ledger| - 1].reason == None then 1 else 0
  }

  lemma {:induction false} AcceptedPrefix(cfg: Config, ledger: seq<LedgerRow>, n: nat)
    requires LedgerOk(cfg, ledger) && n <= |ledger|
    ensures AcceptedCount(ledger[..n]) <= n
    ensures n > 0 && ledger[n - 1].reason == None ==> n <= cfg.maxActionCount
    ensures AcceptedCount(ledger[..n]) <= if cfg.maxActionCount < 0 then 0 else cfg.maxActionCount
  {
    if n > 0 {
      assert RowOk(cfg, ledger, n - 1);
      assert ledger[..n][..n - 1] == ledger[..n - 1];
      AcceptedPrefix(cfg, ledger, n - 1);
    }
  }

  /** However a run is observed, at most maxActionCount observations are ever accepted. */
  lemma AcceptedWithinBudget(cfg: Config, calls: seq<Call>)
    ensures AcceptedCount(After(cfg, UNTRACKED, calls).ledger) <= if cfg.maxActionCount < 0 then 0 else cfg.maxActionCount
  {
    SnapshotCountsLedger(cfg, calls);
    var ledger := After(cfg, UNTRACKED, calls).ledger;
    AcceptedPrefix(cfg, ledger, |ledger|);
    assert ledger[..|ledger|] == ledger;
  }

  /** k rows with one target, ending in row i. */
  predicate SameTarget(ledger: seq<LedgerRow>, i: nat, k: nat)
    requires 1 <= k <= i + 1 <= |ledger|
  {
    forall j :: i - k < j <= i ==> ledger[j].target == ledger[i].target
  }

  lemma {:induction false} SameTargetRuns(ledger: seq<LedgerRow>, i: nat, k: nat)
    requires 1 <= k <= i + 1 <= |ledger| && SameTarget(ledger, i, k)
    ensures RepeatRun(ledger[..i + 1]) >= k
  {
    if k > 1 {
      var l := ledger[..i + 1];
      assert l[|l| - 2] == ledger[i - 1] && l[|l| - 1] == ledger[i];
      assert ledger[i - 1].target == ledger[i].target;
      assert l[..|l| - 1] == ledger[..i];
      SameTargetRuns(ledger, i - 1, k - 1);
    }
  }

  /** No loop is ever accepted: the observation that completes repeatThreshold equal
      targets in a row is rejected. */
  lemma LoopIsNeverAccepted(cfg: Config, calls: seq<Call>, i: nat, k: nat)
    requires var ledger := After(cfg, UNTRACKED, calls).ledger;
      1 <= k <= i + 1 <= |ledger| && k >= cfg.repeatThreshold && SameTarget(ledger, i, k)
    ensures After(cfg, UNTRACKED, calls).ledger[i].reason.Some?
  {
    SnapshotCountsLedger(cfg, calls);
    var ledger := After(cfg, UNTRACKED, calls).ledger;
    SameTargetRuns(ledger, i, k);
    assert RowOk(cfg, ledger, i);
  }

  /** Termination freezes the run: nothing that happens later changes ledger or counters,
      and every valid observation gets the persisted reason. */
  lemma {:induction false} TerminationFreezes(cfg: Config, run: Run, calls: seq<Call>, o: Observation)
    requires Terminated(run)
    ensures After(cfg, run, calls) == run
    ensures ValidArguments(o) ==>
      ObserveVerdict(cfg, After(cfg, run, calls), o) == AlreadyTerminated(run.state.value.terminationReason)
  {
    if calls != [] {
      TerminationFreezes(cfg, run, calls[..|calls| - 1], o);
    }
  }

  /* ---------- budgets that cannot fire ---------- */

  lemma {:induction false} FewTargets(rows: seq<LedgerRow>)
    ensures |Targets(rows)| <= |rows|
    ensures |Targets(rows)| == |rows| <==> forall i, j :: 0 <= i < j < |rows| ==> rows[i].target != rows[j].target
  {
    if rows != [] {
      var init, last := rows[..|rows| - 1], rows[|rows| - 1];
      FewTargets(init);
      assert Targets(rows) == Targets(init) + {last.target};
      if last.target in Targets(init) {
        var r :| r in init && r.target == last.target;
        var i :| 0 <= i < |init| && init[i] == r;
        assert rows[i].target == rows[|rows| - 1].target;
      } else {
        forall i | 0 <= i < |init| ensures rows[i].target != last.target {
          assert init[i] in init;
        }
      }
    }
  }

  /** The windowed count is at most one more than the window, and reaches that exactly
      with a full window of different targets and a new one. */
  lemma WindowedCount(ledger: seq<LedgerRow>, w: nat, target: string)
    ensures |Targets(Window(ledger, w)) + {target}| <= w + 1
    ensures |Targets(Window(ledger, w)) + {target}| == w + 1 <==>
      && |ledger| >= w && target !in Targets(Window(ledger, w))
      && forall i, j :: |ledger| - w <= i < j < |ledger| ==> ledger[i].target != ledger[j].target
  {
    var rows := Window(ledger, w);
    FewTargets(rows);
    if target in Targets(rows) {
      assert Targets(rows) + {target} == Targets(rows);
    }
    if |ledger| >= w {
      assert rows == ledger[|ledger| - w..];
      assert forall i :: 0 <= i < w ==> rows[i] == ledger[|ledger| - w + i];
      assert forall i :: |ledger| - w <= i < |ledger| ==> ledger[i] == rows[i - (|ledger| - w)];
    }
  }

  /** With maxUniqueActions above the window, as in the defaults, the unique budget has
      no influence: any larger value decides every observation alike. */
  lemma UniqueBudgetIsDead(cfg: Config, run: Run, o: Observation, larger: int)
    requires 0 <= cfg.repeatWindow < cfg.maxUniqueActions <= larger
    ensures Observe(cfg, run, o) == Observe(cfg.(maxUniqueActions := larger), run, o)
    ensures ObserveVerdict(cfg, run, o) == ObserveVerdict(cfg.(maxUniqueActions := larger), run, o)
  {
    WindowedCount(run.ledger, cfg.repeatWindow, o.target);
    hide Targets, Window, ValidArguments;
  }

  /** A negative window is no window, and then the unique budget counts for life. */
  lemma NegativeWindowCountsAll(cfg: Config, ledger: seq<LedgerRow>)
    requires cfg.repeatWindow < 0
    ensures RecentTargets(ledger, cfg.repeatWindow) == |Targets(ledger)|
  {
    if ledger != [] {
      assert Targets(ledger) == Targets(ledger[..|ledger| - 1]) + {ledger[|ledger| - 1].target} by {
        assert ledger == ledger[..|ledger| - 1] + [ledger[|ledger| - 1]];
      }
    }
  }

  /** A steps budget of at least the action budget, as in the defaults, is never the
      reason of a rejection. */
  lemma StepsBudgetIsDead(cfg: Config, calls: seq<Call>, i: nat)
    requires cfg.maxTotalSteps >= cfg.maxActionCount && i < |After(cfg, UNTRACKED, calls).ledger|
    ensures After(cfg, UNTRACKED, calls).ledger[i].reason != Some(StepsExhausted)
  {
    SnapshotCountsLedger(cfg, calls);
    assert RowOk(cfg, After(cfg, UNTRACKED, calls).ledger, i);
  }

  /** Under the default configuration two of the budgets never decide anything: without a
      unique budget every observation ends alike, and no rejection names the steps. */
  lemma DefaultsHaveDeadBudgets(calls: seq<Call>, o: Observation, larger: int)
    requires larger >= DEFAULTS.maxUniqueActions
    ensures var run := After(DEFAULTS, UNTRACKED, calls);
      && Observe(DEFAULTS, run, o) == Observe(DEFAULTS.(maxUniqueActions := larger), run, o)
      && forall i :: 0 <= i < |run.ledger| ==> run.ledger[i].reason != Some(StepsExhausted)
  {
    var run := After(DEFAULTS, UNTRACKED, calls);
    hide Observe, After, ObserveVerdict;
    UniqueBudgetIsDead(DEFAULTS, run, o, larger);
    forall i | 0 <= i < |run.ledger| ensures run.ledger[i].reason != Some(StepsExhausted) {
      StepsBudgetIsDead(DEFAULTS, calls, i);
    }
  }

  /* ---------- the ledger is the history ---------- */

  /** The observations with valid arguments, in order. */
  function Observations(calls: seq<Call>): seq<Observation> {
    if calls == [] then []
    else
      var rest := Observations(calls[..|calls| - 1]);
      match calls[|calls| - 1]
      case Observing(o) => if ValidArguments(o) then rest + [o] else rest
      case Peeking(_) => rest
  }

  function Progress(os: seq<Observation>): int {
    if os == [] then 0 else Progress(os[..|os| - 1]) + Delta(os[|os| - 1])
  }

  function RecordedSteps(run: Run): int { if run.state.Some? then run.state.value.totalSteps else 0 }

  /** The run has recorded a prefix of these observations: all of them, or everything up
      to the rejection that terminated it. */
  ghost predicate Recorded(run: Run, os: seq<Observation>) {
    && |run.ledger| <= |os|
    && (forall i :: 0 <= i < |run.ledger| ==> run.ledger[i].target == os[i].target && run.ledger[i].eventId == os[i].eventId)
    && RecordedSteps(run) == Progress(os[..|run.ledger|])
    && (!Terminated(run) ==> |run.ledger| == |os|)
  }

  lemma ObserveRecords(cfg: Config, run: Run, os: seq<Observation>, o: Observation)
    requires Recorded(run, os) && ValidArguments(o)
    ensures Recorded(Observe(cfg, run, o), os + [o])
  {
    hide DecidedReason, ValidArguments, Window, Targets, NextSequence;
    var longer := os + [o];
    assert os[..|os|] == os;
    if Terminated(run) {
      assert longer[..|run.ledger|] == os[..|run.ledger|];
    } else {
      assert longer[..|longer|] == longer && longer[..|longer| - 1] == os;
    }
  }

  lemma {:induction false} LedgerIsHistory(cfg: Config, calls: seq<Call>)
    ensures Recorded(After(cfg, UNTRACKED, calls), Observations(calls))
  {
    if calls == [] {
      assert Progress([]) == 0;
    } else {
      var init := calls[..|calls| - 1];
      LedgerIsHistory(cfg, init);
      var run := After(cfg, UNTRACKED, init);
      match calls[|calls| - 1]
      case Observing(o) =>
        if ValidArguments(o) {
          ObserveRecords(cfg, run, Observations(init), o);
        }
      case Peeking(clock) =>
    }
  }

  /* ---------- stagnation ---------- */

  /** The call creates the snapshot row of a run that has none. */
  predicate Touches(c: Call) { c.Peeking? || ValidArguments(c.o) }

  function FirstTouch(calls: seq<Call>): Option<Call> {
    if calls == [] then None
    else
      var earlier := FirstTouch(calls[..|calls| - 1]);
      if earlier.Some? then earlier
      else if Touches(calls[|calls| - 1]) then Some(calls[|calls| - 1])
      else None
  }

  /** When the run was read before it was ever observed: the instant of that read. */
  function SeededAt(calls: seq<Call>): Option<int> {
    match FirstTouch(calls)
    case Some(Peeking(clock)) => Some(clock)
    case _ => None
  }

  /** The instant of the last observation with progress, or else of the seeding read. */
  function LastProgress(os: seq<Observation>, seed: Option<int>): Option<int> {
    if os == [] then seed
    else if Delta(os[|os| - 1]) > 0 then Some(Now(os[|os| - 1]))
    else LastProgress(os[..|os| - 1], seed)
  }

  /** The snapshot exists once the run was touched, and remembers the last progress of
      what it recorded, counting a seeding read as progress. */
  ghost predicate ProgressKept(run: Run, os: seq<Observation>, first: Option<Call>, seed: Option<int>) {
    && |run.ledger| <= |os|
    && (run.state.Some? <==> first.Some?)
    && (run.state.Some? ==> run.state.value.lastProgressAt == LastProgress(os[..|run.ledger|], seed))
  }

  lemma ObserveKeepsProgress(cfg: Config, run: Run, os: seq<Observation>, first: Option<Call>, seed: Option<int>, o: Observation)
    requires ProgressKept(run, os, first, seed) && ValidArguments(o)
    requires !Terminated(run) ==> |run.ledger| == |os|
    requires run.state.None? ==> seed.None? && run.ledger == []
    ensures ProgressKept(Observe(cfg, run, o), os + [o], Some(if first.Some? then first.value else Observing(o)), seed)
  {
    hide DecidedReason, ValidArguments, Window, Targets, NextSequence;
    var longer := os + [o];
    assert os[..|os|] == os;
    if Terminated(run) {
      assert longer[..|run.ledger|] == os[..|run.ledger|];
    } else {
      assert longer[..|longer|] == longer && longer[..|longer| - 1] == os && longer[|longer| - 1] == o;
      assert LastProgress(longer, seed) == if Delta(o) > 0 then Some(Now(o)) else LastProgress(os, seed);
      assert run.state.None? ==> os == [] && LastProgress(os, seed) == None;
      assert os[..|run.ledger|] == os;
    }
  }

  lemma {:induction false} ProgressIsHistory(cfg: Config, calls: seq<Call>)
    ensures ProgressKept(After(cfg, UNTRACKED, calls), Observations(calls), FirstTouch(calls), SeededAt(calls))
    ensures FirstTouch(calls).None? ==> After(cfg, UNTRACKED, calls).ledger == [] && Observations(calls) == []
  {
    if calls == [] {
      assert LastProgress([], None) == None;
    } else {
      var init := calls[..|calls| - 1];
      ProgressIsHistory(cfg, init);
      LedgerIsHistory(cfg, init);
      var run, os := After(cfg, UNTRACKED, init), Observations(init);
      match calls[|calls| - 1]
      case Observing(o) =>
        if ValidArguments(o) {
          ObserveKeepsProgress(cfg, run, os, FirstTouch(init), SeededAt(init), o);
        }
      case Peeking(clock) =>
        assert os[..0] == [];
    }
  }

  /** The breaches an observation adds up, all of them. */
  function BreachesOf(cfg: Config, run: Run, o: Observation): seq<Reason> {
    Breaches(cfg, Counted(cfg, Before(run, o.clock), run.ledger, o), Now(o))
  }

  lemma StagnationBreach(cfg: Config, run: Run, o: Observation)
    ensures StagnationDetected in BreachesOf(cfg, run, o) <==>
      var at := if Delta(o) > 0 then Some(Now(o)) else Before(run, o.clock).lastProgressAt;
      at.Some? && Now(o) - at.value > cfg.stagnationMs
  {
    hide Targets, Window;
  }

  /** Exactly when an observation is stagnant, for every configuration and every history:
      if stagnationMs have passed since the last recorded progress, or, in a run that
      never progressed, since a read that came before its first observation. */
  lemma StagnantIff(cfg: Config, calls: seq<Call>, o: Observation)
    requires ValidArguments(o) && !Terminated(After(cfg, UNTRACKED, calls))
    ensures StagnationDetected in BreachesOf(cfg, After(cfg, UNTRACKED, calls), o) <==>
      var at := LastProgress(Observations(calls) + [o], SeededAt(calls));
      at.Some? && Now(o) - at.value > cfg.stagnationMs
  {
    var run, os := After(cfg, UNTRACKED, calls), Observations(calls);
    ProgressIsHistory(cfg, calls);
    LedgerIsHistory(cfg, calls);
    StagnationBreach(cfg, run, o);
    assert os[..|os|] == os;
    assert (os + [o])[..|os + [o]| - 1] == os;
    hide BreachesOf, ValidArguments, After, Observations, SeededAt, FirstTouch;
  }

  /** The clock that a call reads. */
  function ClockOf(c: Call): int {
    match c
    case Observing(o) => o.clock
    case Peeking(clock) => clock
  }

  lemma {:induction false} StartedAtFirstTouch(cfg: Config, calls: seq<Call>)
    ensures var run, first := After(cfg, UNTRACKED, calls), FirstTouch(calls);
      && (run.state.Some? <==> first.Some?)
      && (first.Some? ==> run.state.value.startedAt == ClockOf(first.value))
  {
    if calls != [] {
      hide DecidedReason, ValidArguments, Window, Targets, NextSequence;
      StartedAtFirstTouch(cfg, calls[..|calls| - 1]);
    }
  }

  /** An observation is accepted exactly if, with it on, the history of the run is within
      every budget: number of observations, sum of progress, distinct recent targets, time
      since the first touch, repetitions of the target, and time since the last progress. */
  lemma AcceptedIff(cfg: Config, calls: seq<Call>, o: Observation)
    requires ValidArguments(o) && !Terminated(After(cfg, UNTRACKED, calls))
    ensures var after := Observe(cfg, After(cfg, UNTRACKED, calls), o);
      var os, first, at := Observations(calls) + [o], FirstTouch(calls + [Observing(o)]),
        LastProgress(Observations(calls) + [o], SeededAt(calls));
      && Recorded(after, os) && after.state.Some? && first.Some?
      && (after.state.value.terminationReason == None <==>
            && |os| <= cfg.maxActionCount
            && Progress(os) <= cfg.maxTotalSteps
            && RecentTargets(after.ledger, cfg.repeatWindow) <= cfg.maxUniqueActions
            && Now(o) - ClockOf(first.value) <= cfg.maxWallClockMs
            && RepeatRun(after.ledger) < cfg.repeatThreshold
            && !(at.Some? && Now(o) - at.value > cfg.stagnationMs))
  {
    var run, os := After(cfg, UNTRACKED, calls), Observations(calls);
    SnapshotCountsLedger(cfg, calls);
    AcceptedBySnapshot(cfg, run, o);
    LedgerIsHistory(cfg, calls);
    ObserveRecords(cfg, run, os, o);
    StagnantIff(cfg, calls, o);
    StagnationBreach(cfg, run, o);
    StartedAtFirstTouch(cfg, calls);
    TouchedBy(calls, o);
    assert os[..|os|] == os && (os + [o])[..|os|] == os;
    hide RepeatRun, RecentTargets, ValidArguments, After, Observations, SeededAt, FirstTouch, Breaches, LedgerOk, LastProgress;
  }

  /** Which budget an observation is rejected for: the first one broken, in this order, and
      the reasons of three of them are one. */
  lemma DecisionIs(cfg: Config, calls: seq<Call>, o: Observation)
    requires ValidArguments(o) && !Terminated(After(cfg, UNTRACKED, calls))
    ensures FirstTouch(calls + [Observing(o)]).Some?
    ensures var run := After(cfg, UNTRACKED, calls);
      var os, longer := Observations(calls) + [o], Observe(cfg, run, o).ledger;
      var since := LastProgress(os, SeededAt(calls));
      ObserveVerdict(cfg, run, o) ==
        Decided(if |os| > cfg.maxActionCount then Some(ActionCountExhausted)
                else if Progress(os) > cfg.maxTotalSteps then Some(StepsExhausted)
                else if RecentTargets(longer, cfg.repeatWindow) > cfg.maxUniqueActions then Some(ActionCountExhausted)
                else if Now(o) - ClockOf(FirstTouch(calls + [Observing(o)]).value) > cfg.maxWallClockMs
                  then Some(ActionCountExhausted)
                else if RepeatRun(longer) >= cfg.repeatThreshold then Some(LoopDetected)
                else if since.Some? && Now(o) - since.value > cfg.stagnationMs then Some(StagnationDetected)
                else None,
                |os|)
  {
    var run, os := After(cfg, UNTRACKED, calls), Observations(calls);
    SnapshotCountsLedger(cfg, calls);
    DecisionBySnapshot(cfg, run, o);
    LedgerIsHistory(cfg, calls);
    ObserveRecords(cfg, run, os, o);
    StagnantIff(cfg, calls, o);
    StagnationBreach(cfg, run, o);
    StartedAtFirstTouch(cfg, calls);
    TouchedBy(calls, o);
    assert os[..|os|] == os && (os + [o])[..|os|] == os;
    hide RepeatRun, RecentTargets, ValidArguments, After, Observations, SeededAt, FirstTouch, Breaches, LedgerOk, LastProgress;
    hide ObserveVerdict;
  }

  lemma DecisionBySnapshot(cfg: Config, run: Run, o: Observation)
    requires Tracks(cfg, run) && ValidArguments(o) && !Terminated(run)
    ensures var longer, before := Observe(cfg, run, o).ledger, Before(run, o.clock);
      ObserveVerdict(cfg, run, o) ==
        Decided(if |longer| > cfg.maxActionCount then Some(ActionCountExhausted)
                else if before.totalSteps + Delta(o) > cfg.maxTotalSteps then Some(StepsExhausted)
                else if RecentTargets(longer, cfg.repeatWindow) > cfg.maxUniqueActions then Some(ActionCountExhausted)
                else if Now(o) - before.startedAt > cfg.maxWallClockMs then Some(ActionCountExhausted)
                else if RepeatRun(longer) >= cfg.repeatThreshold then Some(LoopDetected)
                else if (if Delta(o) > 0 then 0 > cfg.stagnationMs
                         else before.lastProgressAt.Some? && Now(o) - before.lastProgressAt.value > cfg.stagnationMs)
                  then Some(StagnationDetected)
                else None,
                |longer|)
  {
    ObserveTracks(cfg, run, o);
    OpenLedger(cfg, run);
    hide RepeatRun, RecentTargets, LedgerOk, ValidArguments;
  }

  lemma TouchedBy(calls: seq<Call>, o: Observation)
    requires ValidArguments(o)
    ensures FirstTouch(calls + [Observing(o)]) ==
      if FirstTouch(calls).Some? then FirstTouch(calls) else Some(Observing(o))
  {
    assert (calls + [Observing(o)])[..|calls|] == calls;
    hide ValidArguments;
  }

  predicate NoProgress(os: seq<Observation>) { forall i :: 0 <= i < |os| ==> Delta(os[i]) <= 0 }

  lemma {:induction false} OnlyTheSeed(os: seq<Observation>, seed: Option<int>)
    requires NoProgress(os)
    ensures LastProgress(os, seed) == seed
  {
    if os != [] {
      OnlyTheSeed(os[..|os| - 1], seed);
    }
  }

  /** A run without progress: its snapshot holds a progress instant if and only if its
      very first touch was a read, and an observation is stagnant if and only if
      stagnationMs have passed since that read. Later reads do not matter. */
  lemma ProgressFreeStagnatesIff(cfg: Config, calls: seq<Call>, o: Observation)
    requires ValidArguments(o) && !Terminated(After(cfg, UNTRACKED, calls)) && NoProgress(Observations(calls) + [o])
    ensures var run := After(cfg, UNTRACKED, calls);
      && (run.state.Some? ==> run.state.value.lastProgressAt == SeededAt(calls))
      && (StagnationDetected in BreachesOf(cfg, run, o) <==>
            SeededAt(calls).Some? && Now(o) - SeededAt(calls).value > cfg.stagnationMs)
  {
    var run, os := After(cfg, UNTRACKED, calls), Observations(calls);
    StagnantIff(cfg, calls, o);
    ProgressIsHistory(cfg, calls);
    hide BreachesOf, ValidArguments, After, Observations, SeededAt, FirstTouch;
    OnlyTheSeed(os + [o], SeededAt(calls));
    assert NoProgress(os[..|run.ledger|]) by {
      forall i | 0 <= i < |run.ledger| ensures Delta(os[..|run.ledger|][i]) <= 0 {
        assert (os + [o])[i] == os[i];
      }
    }
    OnlyTheSeed(os[..|run.ledger|], SeededAt(calls));
  }

  lemma FirstReasonIsBreach(cfg: Config, run: Run, o: Observation)
    requires DecidedReason(cfg, run, o).Some?
    ensures DecidedReason(cfg, run, o).value in BreachesOf(cfg, run, o)
  {
    hide Breaches, Counted;
  }

  /** A run without progress that nobody read before its first observation is never
      stagnant, however it is read afterwards. */
  lemma {:induction false} IdleNeverStagnates(cfg: Config, calls: seq<Call>)
    requires SeededAt(calls).None? && NoProgress(Observations(calls))
    ensures forall i :: 0 <= i < |After(cfg, UNTRACKED, calls).ledger| ==>
      After(cfg, UNTRACKED, calls).ledger[i].reason != Some(StagnationDetected)
  {
    if calls != [] {
      var init, last := calls[..|calls| - 1], calls[|calls| - 1];
      assert NoProgress(Observations(init)) by {
        forall i | 0 <= i < |Observations(init)| ensures Delta(Observations(init)[i]) <= 0 {
          assert Observations(calls)[i] == Observations(init)[i];
        }
      }
      IdleNeverStagnates(cfg, init);
      var run := After(cfg, UNTRACKED, init);
      hide BreachesOf, DecidedReason, Counted, ValidArguments, Observations, NoProgress;
      if last.Observing? && ValidArguments(last.o) && !Terminated(run) {
        assert calls == init + [last];
        ObservedLast(init, last);
        ProgressFreeStagnatesIff(cfg, init, last.o);
        if DecidedReason(cfg, run, last.o).Some? {
          FirstReasonIsBreach(cfg, run, last.o);
        }
      }
    }
  }

  lemma ObservedLast(init: seq<Call>, last: Call)
    requires last.Observing? && ValidArguments(last.o)
    ensures Observations(init + [last]) == Observations(init) + [last.o]
  {
    assert (init + [last])[..|init|] == init;
    hide ValidArguments;
  }

  /** So the documented exemption of a run that never progressed fails under the default
      configuration: isGuardTerminated, asked before the first observation and more than
      five minutes earlier, makes that observation the last. */
  lemma PeekedRunStagnates(o: Observation, peekedAt: int)
    requires ValidArguments(o) && Delta(o) == 0 && 300_000 < Now(o) - peekedAt <= 1_800_000
    ensures var run := After(DEFAULTS, UNTRACKED, [Peeking(peekedAt), Observing(o)]);
      && |run.ledger| == 1 && run.ledger[0].reason == Some(StagnationDetected) && Terminated(run)
  {
    hide ValidArguments;
    assert Targets(Window([], 6)) + {o.target} == {o.target};
    var two := [Peeking(peekedAt), Observing(o)];
    assert two[..1] == [Peeking(peekedAt)] && two[..1][..0] == [];
    assert After(DEFAULTS, UNTRACKED, two[..1]) == Peek(UNTRACKED, peekedAt);
    assert After(DEFAULTS, UNTRACKED, two) == Observe(DEFAULTS, Peek(UNTRACKED, peekedAt), o);
  }
}
