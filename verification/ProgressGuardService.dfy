// ProgressGuard in place: the snapshot and ledger tables of every run, updated by
// observe and, for an unknown run, by merely reading its state.

module ProgressGuardService {
  import opened ProgressGuard

  datatype ObserveResult =
    | Throws
    | Result(ok: bool, reason: Option<Reason>, observed: RunState, sequenceNo: Option<int>)

  predicate Reports(r: ObserveResult, v: Verdict)
    requires r.Result?
  {
    match v
    case InvalidArgument => false
    case AlreadyTerminated(reason) => !r.ok && r.reason == reason && r.sequenceNo == None
    case Decided(reason, seqNo) => r.ok == reason.None? && r.reason == reason && r.sequenceNo == Some(seqNo)
  }

  /** A run as the two tables hold it. */
  function RunIn(states: map<string, RunState>, ledgers: map<string, seq<LedgerRow>>, runId: string): Run {
    Run(if runId in states then Some(states[runId]) else None, if runId in ledgers then ledgers[runId] else [])
  }

  ghost predicate ValidRun(cfg: Config, agentRuns: set<string>, run: Run, runId: string) {
    Tracks(cfg, run) && (runId !in agentRuns ==> run == UNTRACKED)
  }

  /** The snapshot of every run counts its ledger, and there are rows only of agent runs. */
  ghost predicate ValidTables(cfg: Config, agentRuns: set<string>, states: map<string, RunState>,
    ledgers: map<string, seq<LedgerRow>>)
  {
    forall runId: string :: ValidRun(cfg, agentRuns, RunIn(states, ledgers, runId), runId)
  }

  ghost predicate OthersUnchanged(states: map<string, RunState>, ledgers: map<string, seq<LedgerRow>>,
    states': map<string, RunState>, ledgers': map<string, seq<LedgerRow>>, runId: string)
  {
    forall other: string :: other != runId ==> RunIn(states', ledgers', other) == RunIn(states, ledgers, other)
  }

  lemma UnchangedTwice(s0: map<string, RunState>, l0: map<string, seq<LedgerRow>>, s1: map<string, RunState>,
    l1: map<string, seq<LedgerRow>>, s2: map<string, RunState>, l2: map<string, seq<LedgerRow>>, runId: string)
    requires OthersUnchanged(s0, l0, s1, l1, runId) && OthersUnchanged(s1, l1, s2, l2, runId)
    ensures OthersUnchanged(s0, l0, s2, l2, runId)
  {
    hide RunIn;
  }

  lemma UpdateKeepsTables(cfg: Config, agentRuns: set<string>, states: map<string, RunState>,
    ledgers: map<string, seq<LedgerRow>>, states': map<string, RunState>, ledgers': map<string, seq<LedgerRow>>,
    runId: string)
    requires ValidTables(cfg, agentRuns, states, ledgers) && runId in agentRuns
    requires Tracks(cfg, RunIn(states', ledgers', runId))
    requires OthersUnchanged(states, ledgers, states', ledgers', runId)
    ensures ValidTables(cfg, agentRuns, states', ledgers')
  {
    hide Tracks, RunIn;
    forall other: string ensures ValidRun(cfg, agentRuns, RunIn(states', ledgers', other), other) {
      assert ValidRun(cfg, agentRuns, RunIn(states, ledgers, other), other);
    }
  }

  class Guard {
    const cfg: Config
    const agentRuns: set<string>
    var states: map<string, RunState>
    var ledgers: map<string, seq<LedgerRow>>

    ghost predicate Valid()
      reads this
    {
      ValidTables(cfg, agentRuns, states, ledgers)
    }

    constructor (cfg: Config, agentRuns: set<string>)
      ensures Valid() && this.cfg == cfg && this.agentRuns == agentRuns
      ensures forall runId: string :: RunOf(runId) == UNTRACKED
    {
      this.cfg := cfg;
      this.agentRuns := agentRuns;
      states := map[];
      ledgers := map[];
    }

    function RunOf(runId: string): Run
      reads this
    {
      RunIn(states, ledgers, runId)
    }

    /** Reads the snapshot; inserts one for a run that has none. Fails on an unknown run,
        whose row would have no agent run to refer to. */
    method LoadObservedState(runId: string, clock: int) returns (threw: bool, s: RunState)
      requires Valid()
      modifies this`states
      ensures Valid()
      ensures threw <==> runId !in agentRuns
      ensures s == Before(old(RunOf(runId)), clock)
      ensures RunOf(runId) == if threw then old(RunOf(runId)) else Peek(old(RunOf(runId)), clock)
      ensures OthersUnchanged(old(states), old(ledgers), states, ledgers, runId)
    {
      assert ValidRun(cfg, agentRuns, RunOf(runId), runId);
      hide ValidTables;
      if runId in states {
        return false, states[runId];
      }
      s := Fresh(clock);
      if runId !in agentRuns {
        return true, s;
      }
      EmptyLedger(cfg, clock);
      hide Counts, LedgerOk;
      UpdateKeepsTables(cfg, agentRuns, states, ledgers, states[runId := Seeded(clock)], ledgers, runId);
      states := states[runId := Seeded(clock)];
      threw := false;
    }

    method IsGuardTerminated(runId: string, clock: int) returns (threw: bool, terminated: bool)
      requires Valid()
      modifies this`states
      ensures Valid()
      ensures threw <==> runId !in agentRuns
      ensures terminated == Terminated(old(RunOf(runId)))
      ensures RunOf(runId) == if threw then old(RunOf(runId)) else Peek(old(RunOf(runId)), clock)
      ensures OthersUnchanged(old(states), old(ledgers), states, ledgers, runId)
    {
      assert ValidRun(cfg, agentRuns, RunOf(runId), runId);
      hide ValidTables;
      var s;
      threw, s := LoadObservedState(runId, clock);
      terminated := s.terminated;
    }

    /** Decides, records and persists; or throws, or reports the earlier termination, with
        nothing changed. */
    method Observe(runId: string, o: Observation) returns (r: ObserveResult)
      requires Valid()
      modifies this`states, this`ledgers
      ensures Valid()
      ensures r.Throws? <==> runId == "" || !ValidArguments(o) || runId !in agentRuns
      ensures RunOf(runId) == if r.Throws? then old(RunOf(runId)) else ProgressGuard.Observe(cfg, old(RunOf(runId)), o)
      ensures OthersUnchanged(old(states), old(ledgers), states, ledgers, runId)
      ensures r.Result? ==> Reports(r, ObserveVerdict(cfg, old(RunOf(runId)), o))
    {
      if runId == "" || !ValidArguments(o) {
        return Throws;
      }
      assert ValidRun(cfg, agentRuns, RunOf(runId), runId);
      hide ValidTables;
      ghost var run := RunOf(runId);
      var threw, before := LoadObservedState(runId, o.clock);
      ghost var loadedStates, loadedLedgers := states, ledgers;
      if threw {
        return Throws;
      }
      if before.terminated {
        return Result(false, before.terminationReason, before, None);
      }
      hide OthersUnchanged, ValidArguments;
      r := CountAndDecide(runId, before, o);
      UnchangedTwice(old(states), old(ledgers), loadedStates, loadedLedgers, states, ledgers, runId);
      assert RunOf(runId) == ProgressGuard.Observe(cfg, run, o);
      ObserveTracks(cfg, run, o);
      hide *;
      UpdateKeepsTables(cfg, agentRuns, old(states), old(ledgers), states, ledgers, runId);
    }

    /** The rest of observe for a run that is not terminated and has a snapshot. */
    method CountAndDecide(runId: string, before: RunState, o: Observation) returns (r: ObserveResult)
      modifies this`states, this`ledgers
      ensures RunOf(runId) ==
        Record(cfg, old(RunOf(runId)), Counted(cfg, before, old(RunOf(runId)).ledger, o),
               Decision(cfg, before, old(RunOf(runId)).ledger, o), o)
      ensures OthersUnchanged(old(states), old(ledgers), states, ledgers, runId)
      ensures r.Result? && Reports(r, Decided(Decision(cfg, before, old(RunOf(runId)).ledger, o),
                                              NextSequence(old(RunOf(runId)).ledger)))
    {
      hide ValidTables, ValidArguments, Counted, Breaches;
      var ledger := if runId in ledgers then ledgers[runId] else [];
      var after := CountObservation(before, ledger, o);
      var decisions := Decide(after, Now(o));
      var sequenceNo := NextSequence(ledger);
      var ok := |decisions| == 0;
      var reason := if ok then None else Some(decisions[0]);
      var row := LedgerRow(sequenceNo, after.actionCount, cfg.maxActionCount, o.target, reason, o.eventId);
      ledgers := ledgers[runId := ledger + [row]];
      states := states[runId := after.(terminated := !ok, terminationReason := reason)];
      r := Result(ok, reason, states[runId], Some(sequenceNo));
    }

    /** The counters with this observation, from the snapshot and the window. */
    method CountObservation(before: RunState, ledger: seq<LedgerRow>, o: Observation) returns (after: RunState)
      ensures after == Counted(cfg, before, ledger, o)
    {
      var seen := SeenInWindow(ledger, cfg.repeatWindow);
      seen := seen + {o.target};
      var delta := Delta(o);
      after := before.(
        actionCount := before.actionCount + 1,
        uniqueActions := |seen|,
        totalSteps := before.totalSteps + delta,
        lastProgressAt := if delta > 0 then Some(Now(o)) else before.lastProgressAt,
        lastRepeatTarget := Some(o.target),
        lastRepeatCount := if before.lastRepeatTarget == Some(o.target) then before.lastRepeatCount + 1 else 1
      );
    }

    /** The targets of the newest rows, newest first, at most w of them. */
    method SeenInWindow(ledger: seq<LedgerRow>, w: int) returns (seen: set<string>)
      ensures seen == Targets(Window(ledger, w))
    {
      seen := {};
      var i := |ledger|;
      while i > 0 && (w < 0 || |ledger| - i < w)
        invariant 0 <= i <= |ledger| && (w >= 0 ==> |ledger| - i <= w || i == |ledger|)
        invariant seen == Targets(ledger[i..])
      {
        i := i - 1;
        assert ledger[i..] == [ledger[i]] + ledger[i + 1..];
        seen := seen + {ledger[i].target};
      }
      if i == 0 {
        assert ledger[i..] == ledger;
      }
    }

    /** The decision matrix: every breach is added. */
    method Decide(s: RunState, now: int) returns (decisions: seq<Reason>)
      ensures decisions == Breaches(cfg, s, now)
    {
      decisions := [];
      var wall := now - s.startedAt;
      decisions := AddIf(decisions, s.actionCount > cfg.maxActionCount, ActionCountExhausted);
      decisions := AddIf(decisions, s.totalSteps > cfg.maxTotalSteps, StepsExhausted);
      decisions := AddIf(decisions, s.uniqueActions > cfg.maxUniqueActions, ActionCountExhausted);
      decisions := AddIf(decisions, wall > cfg.maxWallClockMs, ActionCountExhausted);
      decisions := AddIf(decisions, s.lastRepeatCount >= cfg.repeatThreshold, LoopDetected);
      var stagnant := false;
      if s.lastProgressAt.Some? {
        var since := now - s.lastProgressAt.value;
        stagnant := since > cfg.stagnationMs;
      }
      hide When;
      decisions := AddIf(decisions, stagnant, StagnationDetected);
    }

    method AddIf(decisions: seq<Reason>, breach: bool, reason: Reason) returns (r: seq<Reason>)
      ensures r == decisions + When(breach, reason)
    {
      r := decisions;
      if breach {
        r := r + [reason];
      }
    }
  }
}
