/** How often a handler can be invoked, when a failure is retried, what a park undoes, and the two ways a
    parked run is driven again. */
module WorkflowLimits {
  import opened Wrappers
  import opened States
  import opened Workflow
  import opened WorkflowRuns
  import opened WorkflowEffects
  import opened WorkflowHistory
  import opened WorkflowTheorems

  // ----- The attempt limit -----

  /** No step has used more than its attempts, and a running run has attempts left where it stands. */
  ghost predicate Within(status: RunStatus, steps: seq<Step>) {
    && (forall i :: 0 <= i < |steps| ==> steps[i].attempt <= MAX_ATTEMPTS)
    && (status == RunStatus.Running && Frontier(steps) < |steps| ==>
          steps[Frontier(steps)].attempt < MAX_ATTEMPTS)
  }

  ghost predicate RunWithin(w: World, r: RunId) {
    Present(w, r) ==> Within(w.runs[r].status, w.steps[r])
  }

  lemma SucceedWithin(w: World, r: RunId, i: nat, out: Output)
    requires Claimable(w, r, i) && w.runs[r].status == RunStatus.Running && RunWithin(w, r)
    ensures RunWithin(Succeed(Invoke(w, r, i), r, i, out), r)
  {
    SucceedOk(w, r, i, out);
    var v := Succeed(Invoke(w, r, i), r, i, out);
    assert RunOk(v, r);
  }

  lemma FailureWithin(w: World, r: RunId, i: nat, failure: Failure, comps: seq<Compensation>)
    requires Claimable(w, r, i) && w.runs[r].status == RunStatus.Running && RunWithin(w, r)
    ensures RunWithin(AfterFailure(Invoke(w, r, i), r, i, failure, comps).world, r)
  {
    FailOk(w, r, i);
  }

  lemma SettleWithin(w: World, r: RunId, d: Desk, to: RunStatus, end: End)
    requires RunWithin(w, r) && Present(w, r) && to != RunStatus.Running
    ensures RunWithin(Settle(w.(desk := d), r, to, end).world, r)
  {
  }

  lemma {:induction false} WalkWithin(w: World, r: RunId, def: WorkflowDef, i: nat, oracle: seq<Outcome>,
                                      now: nat, comps: seq<Compensation>)
    requires RunOk(w, r) && w.runs[r].status == RunStatus.Running && RunWithin(w, r)
    requires i <= Frontier(w.steps[r]) && |oracle| == |w.steps[r]|
    ensures RunWithin(Walk(w, r, def, i, oracle, now, comps).world, r)
    decreases |oracle| - i
  {
    hide Succeed, AfterFailure, OpenGate, NamesOf, IdemAgrees;
    var steps := w.steps[r];
    if i == |steps| {
      SettleWithin(w, r, w.desk, RunStatus.Succeeded, Completed);
    } else if i < Frontier(steps) {
      WalkWithin(w, r, def, i + 1, oracle, now, comps);
    } else if IsGate(steps[i].name) {
      SettleWithin(w, r, OpenGate(w.desk, r, steps[i].name, ConfigOf(def, steps[i].name), now),
                   AwaitingApproval, AtGate);
    } else {
      PaceClaims(w, r, def, i, oracle[i], now, comps);
      match oracle[i]
      case Returns(out, more) =>
        SucceedOk(w, r, i, OutputOf(out));
        SucceedWithin(w, r, i, OutputOf(out));
        WalkWithin(Succeed(Invoke(w, r, i), r, i, OutputOf(out)), r, def, i + 1, oracle, now, comps + more);
      case Raises(failure, more) => FailureWithin(w, r, i, failure, comps);
    }
  }

  /** The operation drives run `r` although it is parked: a direct execution, or the approval of a gate
      request of that run that is still pending. */
  ghost predicate Redrives(w: World, op: Op, r: RunId) {
    && Present(w, r) && w.runs[r].status == Parked
    && match op
       case OpExecute(q, locked, _, _) => q == r && !locked
       case OpResolve(p, approve, actor, _, now) => p.run == r && approve && Rules(w.desk, p, actor, now)
       case _ => false
  }

  lemma StillWithin(w: World, v: World, r: RunId)
    requires RunWithin(w, r) && RunStill(w, v, r)
    ensures RunWithin(v, r)
  {
  }

  lemma ExecuteWithin(w: World, defs: Registry, r: RunId, q: RunId, locked: bool, oracle: seq<Outcome>, now: nat)
    requires WorldInv(w, defs) && RunWithin(w, r) && r in w.runs && (Present(w, q) ==> |oracle| == |w.steps[q]|)
    requires q == r && !locked ==> w.runs[r].status != Parked
    ensures RunWithin(Execute(w, defs, q, locked, oracle, now).world, r)
  {
    hide Walk;
    assert RunInv(w, defs, r);
    if q != r {
      OtherStill(w, defs, r, q, locked, oracle, now);
      StillWithin(w, Execute(w, defs, q, locked, oracle, now).world, r);
    } else if !locked {
      var def := defs[w.runs[r].workflow];
      if Recoverable(w, r) {
        PromoteInv(w, defs, r);
        assert RunInv(Promote(w, r), defs, r);
        WalkWithin(Promote(w, r), r, def, 0, oracle, now, []);
      } else {
        WalkStill(w, r, def, 0, oracle, now, []);
      }
    }
  }

  lemma {:induction false} SweepWithin(w: World, defs: Registry, r: RunId, listed: seq<RunId>, oracle: Oracle, now: nat)
    requires WorldInv(w, defs) && RunWithin(w, r) && r in w.runs && Distinct(listed)
    requires r in listed ==> Recoverable(w, r)
    ensures RunWithin(SweepRuns(w, defs, listed, oracle, now), r)
    decreases |listed|
  {
    hide Execute, RunInv, RunWithin, Answers;
    if listed != [] {
      assert RunInv(w, defs, r);
      var q := listed[0];
      assert q !in listed[1..];
      if q in w.runs && w.runs[q].status != AwaitingApproval {
        var answers := AnswersFor(oracle, w, q);
        var v := Execute(w, defs, q, false, answers, now).world;
        ExecuteWithin(w, defs, r, q, false, answers, now);
        ExecuteInv(w, defs, q, false, answers, now);
        if q != r {
          OtherStill(w, defs, r, q, false, answers, now);
        } else {
          ExecuteRecovers(w, defs, r, answers, now);
        }
        SweepWithin(v, defs, r, listed[1..], oracle, now);
      } else {
        SweepWithin(w, defs, r, listed[1..], oracle, now);
      }
    }
  }

  /** A recorded ruling on a run that was not parked leaves it within its attempts. */
  lemma RuledWithin(w: World, v: World, r: RunId, approve: bool, i: nat)
    requires RunOk(w, r) && RunWithin(w, r) && RuledTo(w, v, r, approve, i) && w.runs[r].status != Parked
    requires MayMove(w, r, if approve then RunStatus.Running else Rejected)
    ensures RunWithin(v, r)
  {
    AdvanceShape(w.steps[r], i);
  }

  lemma ResolveWithin(w: World, defs: Registry, r: RunId, p: Payload, approve: bool, actor: Standing,
                      channel: Channel, now: nat)
    requires WorldInv(w, defs) && RunWithin(w, r) && r in w.runs
    requires w.runs[r].status == Parked ==> !(p.run == r && approve && Rules(w.desk, p, actor, now))
    ensures RunWithin(Resolve(w, p, approve, actor, channel, now).world, r)
  {
    hide Resolve, RunStill;
    assert RunInv(w, defs, r);
    var v := Resolve(w, p, approve, actor, channel, now).world;
    if p.run != r || !MayMove(w, r, if approve then RunStatus.Running else Rejected) {
      ResolveStill(w, r, p, approve, actor, channel, now);
      StillWithin(w, v, r);
    } else if Rules(w.desk, p, actor, now) {
      var i := AskedIndex(w, defs, p);
      RulingUnfolds(w, p, approve, actor, channel, now, i);
      RuledWithin(w, v, r, approve, i);
    } else {
      ResolveAllOrNothing(w, p, approve, actor, channel, now);
    }
  }

  lemma ApplyWithin(w: World, defs: Registry, r: RunId, op: Op)
    requires WorldInv(w, defs) && WellNamed(defs) && RunWithin(w, r) && !Redrives(w, op, r)
    ensures RunWithin(Apply(w, defs, op), r)
  {
    hide SweepRuns, Walk;
    if r !in w.runs {
      UnknownWithin(w, defs, r, op);
    } else {
      assert RunInv(w, defs, r);
      match op
      case OpStart(workflow, q, dedupe) =>
      case OpExecute(q, locked, oracle, now) => ExecuteWithin(w, defs, r, q, locked, AnswersFor(oracle, w, q), now);
      case OpResolve(p, approve, actor, channel, now) =>
        ResolveWithin(w, defs, r, p, approve, actor, channel, now);
      case OpSweep(oracle, now) =>
        ListedIs(w, w.order);
        SweepWithin(w, defs, r, Listed(w, w.order), oracle, now);
    }
  }

  /** A run that does not exist yet is at most started by the operation. */
  lemma UnknownWithin(w: World, defs: Registry, r: RunId, op: Op)
    requires r !in w.runs
    ensures RunWithin(Apply(w, defs, op), r)
  {
    match op
    case OpStart(workflow, q, dedupe) =>
      if workflow in defs {
        FanOutShape(defs[workflow].steps);
      }
    case OpExecute(q, locked, oracle, now) => ExecuteRuns(w, defs, q, locked, AnswersFor(oracle, w, q), now);
    case OpResolve(p, approve, actor, channel, now) => ResolveRuns(w, p, approve, actor, channel, now);
    case OpSweep(oracle, now) => SweepRunsKeys(w, defs, Listed(w, w.order), oracle, now);
  }

  lemma ResolveRuns(w: World, p: Payload, approve: bool, actor: Standing, channel: Channel, now: nat)
    ensures Resolve(w, p, approve, actor, channel, now).world.runs.Keys == w.runs.Keys
  {
    hide Rule;
    if p.gate in w.desk.gates && p.token in w.desk.tokens {
      RuleRuns(w.(desk := Spend(w.desk, p.token)), p, approve, actor, channel);
    }
  }

  lemma RuleRuns(w: World, p: Payload, approve: bool, actor: Standing, channel: Channel)
    requires p.gate in w.desk.gates
    ensures Rule(w, p, approve, actor, channel).world.runs.Keys == w.runs.Keys
  {
    hide RecordDecision, IndexOf;
  }

  lemma ExecuteRuns(w: World, defs: Registry, q: RunId, locked: bool, oracle: seq<Outcome>, now: nat)
    requires Present(w, q) ==> |oracle| == |w.steps[q]|
    ensures Execute(w, defs, q, locked, oracle, now).world.runs.Keys == w.runs.Keys
  {
    if Present(w, q) && !locked && w.runs[q].workflow in defs {
      WalkOnlyRun(Promote(w, q), q, defs[w.runs[q].workflow], 0, oracle, now, []);
    }
  }

  lemma {:induction false} SweepRunsKeys(w: World, defs: Registry, listed: seq<RunId>, oracle: Oracle, now: nat)
    ensures SweepRuns(w, defs, listed, oracle, now).runs.Keys == w.runs.Keys
    decreases |listed|
  {
    if listed != [] {
      var q := listed[0];
      if q in w.runs && w.runs[q].status != AwaitingApproval {
        var answers := AnswersFor(oracle, w, q);
        ExecuteRuns(w, defs, q, false, answers, now);
        SweepRunsKeys(Execute(w, defs, q, false, answers, now).world, defs, listed[1..], oracle, now);
      } else {
        SweepRunsKeys(w, defs, listed[1..], oracle, now);
      }
    }
  }

  /** No operation of the history drives run `r` while it is parked. */
  ghost predicate NeverRedriven(w: World, defs: Registry, ops: seq<Op>, r: RunId)
    decreases |ops|
  {
    ops == [] || (!Redrives(w, ops[0], r) && NeverRedriven(Apply(w, defs, ops[0]), defs, ops[1..], r))
  }

  lemma {:induction false} HistoryWithin(w: World, defs: Registry, ops: seq<Op>, r: RunId)
    requires WorldInv(w, defs) && WellNamed(defs) && RunWithin(w, r) && NeverRedriven(w, defs, ops, r)
    ensures RunWithin(History(w, defs, ops), r)
    decreases |ops|
  {
    if ops != [] {
      ApplyInv(w, defs, ops[0]);
      ApplyWithin(w, defs, r, ops[0]);
      HistoryWithin(Apply(w, defs, ops[0]), defs, ops[1..], r);
    }
  }

  /** Over any history in which the parked run is never driven again, each of its handlers is invoked at
      most MAX_ATTEMPTS times. */
  lemma HandlersInvokedWithinLimit(defs: Registry, ops: seq<Op>, r: RunId, i: nat)
    requires WellNamed(defs) && NeverRedriven(EMPTY, defs, ops, r)
    ensures var w := History(EMPTY, defs, ops);
      Present(w, r) && i < |w.steps[r]| ==> multiset(w.calls)[Call(r, w.steps[r][i].name)] <= MAX_ATTEMPTS
  {
    EmptyInv(defs);
    HistoryInv(EMPTY, defs, ops);
    HistoryWithin(EMPTY, defs, ops, r);
    var w := History(EMPTY, defs, ops);
    if Present(w, r) {
      assert RunInv(w, defs, r);
    }
  }

  // ----- How a parked run comes back -----

  /** Executing a parked run is not refused: the handler it stopped at is invoked again, however many
      attempts it has behind it. */
  lemma ParkedRunIsInvokedAgain(w: World, defs: Registry, r: RunId, oracle: seq<Outcome>, now: nat)
    requires WorldInv(w, defs) && r in w.runs && w.runs[r].status == Parked && r in w.steps
    requires |oracle| == |w.steps[r]|
    requires var k := Frontier(w.steps[r]); k < |w.steps[r]| && !IsGate(w.steps[r][k].name)
    ensures var k := Frontier(w.steps[r]);
      var v := Execute(w, defs, r, false, oracle, now).world;
      && Present(v, r) && v.runs[r].status == Parked
      && multiset(v.calls)[Call(r, w.steps[r][k].name)] == multiset(w.calls)[Call(r, w.steps[r][k].name)] + 1
  {
    var k := Frontier(w.steps[r]);
    var def := defs[w.runs[r].workflow];
    assert RunInv(w, defs, r);
    ParkedWalkInvokes(w, r, def, 0, oracle, now, []);
    WalkParked(w, r, def, 0, oracle, now, []);
    WalkCalls(w, r, def, 0, oracle, now, []);
    var v := Walk(w, r, def, 0, oracle, now, []).world;
    assert NamesOf(v.steps[r])[k] == NamesOf(w.steps[r])[k];
  }

  lemma {:induction false} ParkedWalkInvokes(w: World, r: RunId, def: WorkflowDef, i: nat, oracle: seq<Outcome>,
                                             now: nat, comps: seq<Compensation>)
    requires RunOk(w, r) && w.runs[r].status == Parked && |oracle| == |w.steps[r]|
    requires i <= Frontier(w.steps[r]) < |w.steps[r]| && !IsGate(w.steps[r][Frontier(w.steps[r])].name)
    ensures var k := Frontier(w.steps[r]);
      var v := Walk(w, r, def, i, oracle, now, comps).world;
      Present(v, r) && |v.steps[r]| == |w.steps[r]| && v.steps[r][k].attempt == w.steps[r][k].attempt + 1
    decreases |oracle| - i
  {
    if i < Frontier(w.steps[r]) {
      ParkedWalkInvokes(w, r, def, i + 1, oracle, now, comps);
    } else {
      PaceClaims(w, r, def, i, oracle[i], now, comps);
      match oracle[i]
      case Returns(out, more) =>
        WalkPrefix(Succeed(Invoke(w, r, i), r, i, OutputOf(out)), r, def, i + 1, oracle, now, comps + more);
      case Raises(failure, _) => FailureWrites(w, r, i, failure, comps);
    }
  }

  /** Approving a gate request that a parked run left pending sets the run running again. */
  lemma OldApprovalRevivesParked(w: World, defs: Registry, p: Payload, actor: Standing, channel: Channel, now: nat)
    requires WorldInv(w, defs) && Rules(w.desk, p, actor, now)
    requires p.run in w.runs && w.runs[p.run].status == Parked
    ensures var x := Resolve(w, p, true, actor, channel, now);
      x.ruling == RulingRecorded && p.run in x.world.runs && x.world.runs[p.run].status == RunStatus.Running
  {
    var i := AskedIndex(w, defs, p);
    RulingUnfolds(w, p, true, actor, channel, now, i);
    ResolveAllOrNothing(w, p, true, actor, channel, now);
  }

  // ----- Retries and compensations -----

  /** The pass stopped at a handler that failed retryably with attempts left. */
  ghost predicate StoppedForRetry(steps: seq<Step>, oracle: seq<Outcome>) {
    var k := Frontier(steps);
    && |oracle| == |steps| && k < |steps| && !IsGate(steps[k].name)
    && steps[k].status == Failed && steps[k].attempt < MAX_ATTEMPTS
    && oracle[k].Raises? && oracle[k].failure == ConnectorFailure(true)
  }

  lemma FailureRetries(w: World, r: RunId, i: nat, oracle: seq<Outcome>, comps: seq<Compensation>)
    requires Claimable(w, r, i) && w.runs[r].status == RunStatus.Running
    requires |oracle| == |w.steps[r]| && oracle[i].Raises?
    ensures var e := AfterFailure(Invoke(w, r, i), r, i, oracle[i].failure, comps);
      Present(e.world, r) && (e.end == Illegal <==> StoppedForRetry(e.world.steps[r], oracle))
  {
    FailOk(w, r, i);
  }

  lemma {:induction false} WalkRetries(w: World, r: RunId, def: WorkflowDef, i: nat, oracle: seq<Outcome>,
                                       now: nat, comps: seq<Compensation>)
    requires RunOk(w, r) && w.runs[r].status == RunStatus.Running
    requires i <= Frontier(w.steps[r]) && |oracle| == |w.steps[r]|
    ensures var e := Walk(w, r, def, i, oracle, now, comps);
      Present(e.world, r) && (e.end == Illegal <==> StoppedForRetry(e.world.steps[r], oracle))
    decreases |oracle| - i
  {
    hide Succeed, AfterFailure, OpenGate, NamesOf, IdemAgrees;
    var steps := w.steps[r];
    if i < Frontier(steps) {
      WalkRetries(w, r, def, i + 1, oracle, now, comps);
    } else if i < |steps| && !IsGate(steps[i].name) {
      PaceClaims(w, r, def, i, oracle[i], now, comps);
      match oracle[i]
      case Returns(out, more) =>
        SucceedOk(w, r, i, OutputOf(out));
        WalkRetries(Succeed(Invoke(w, r, i), r, i, OutputOf(out)), r, def, i + 1, oracle, now, comps + more);
      case Raises(failure, more) => FailureRetries(w, r, i, oracle, comps);
    }
  }

  /** A retryable failure is never retried in the same pass: `execute` on a queued or running run raises,
      with the run left running, exactly when it stopped at a handler that failed retryably with attempts
      left. */
  lemma RetryableFailureRaises(w: World, defs: Registry, r: RunId, oracle: seq<Outcome>, now: nat)
    requires WorldInv(w, defs) && Recoverable(w, r) && r in w.steps && |oracle| == |w.steps[r]|
    ensures var e := Execute(w, defs, r, false, oracle, now);
      && Present(e.world, r)
      && (e.end == Illegal <==> StoppedForRetry(e.world.steps[r], oracle))
      && (e.end == Illegal <==> e.world.runs[r].status == RunStatus.Running)
  {
    assert RunInv(w, defs, r);
    PromoteInv(w, defs, r);
    assert RunInv(Promote(w, r), defs, r);
    WalkRetries(Promote(w, r), r, defs[w.runs[r].workflow], 0, oracle, now, []);
    ExecuteRecovers(w, defs, r, oracle, now);
  }

  /** Where a pass stops that starts at step `i`: the first step not finished that is a gate or whose
      handler raises. */
  function StopsAt(steps: seq<Step>, oracle: seq<Outcome>, i: nat): (k: nat)
    requires |oracle| == |steps| && i <= |steps|
    ensures i <= k <= |steps|
    decreases |steps| - i
  {
    if i == |steps| then i
    else if !Finished(steps[i].status) && (IsGate(steps[i].name) || oracle[i].Raises?) then i
    else StopsAt(steps, oracle, i + 1)
  }

  /** The pass will stop at a handler that fails retryably and has another attempt after this one. */
  predicate WillAskRetry(steps: seq<Step>, oracle: seq<Outcome>, i: nat)
    requires |oracle| == |steps| && i <= |steps|
  {
    var k := StopsAt(steps, oracle, i);
    && k < |steps| && !IsGate(steps[k].name) && oracle[k].Raises? && oracle[k].failure == ConnectorFailure(true)
    && steps[k].attempt + 1 < MAX_ATTEMPTS
  }

  lemma {:induction false} StopsAtTail(a: seq<Step>, b: seq<Step>, oracle: seq<Outcome>, i: nat)
    requires |a| == |b| == |oracle| && i <= |a| && forall j :: i <= j < |a| ==> a[j] == b[j]
    ensures StopsAt(a, oracle, i) == StopsAt(b, oracle, i) && WillAskRetry(a, oracle, i) == WillAskRetry(b, oracle, i)
    decreases |a| - i
  {
    if i < |a| {
      StopsAtTail(a, b, oracle, i + 1);
    }
  }

  lemma WillAskStep(steps: seq<Step>, oracle: seq<Outcome>, i: nat)
    requires |oracle| == |steps| && i <= |steps|
    ensures WillAskRetry(steps, oracle, i) <==>
      (i < |steps|
       && if Finished(steps[i].status) || (!IsGate(steps[i].name) && oracle[i].Returns?)
          then WillAskRetry(steps, oracle, i + 1)
          else !IsGate(steps[i].name) && oracle[i].failure == ConnectorFailure(true)
               && steps[i].attempt + 1 < MAX_ATTEMPTS)
  {
  }

  lemma FailureAsks(w: World, r: RunId, i: nat, failure: Failure, comps: seq<Compensation>)
    requires Claimable(w, r, i) && w.runs[r].status == RunStatus.Running
    ensures AfterFailure(Invoke(w, r, i), r, i, failure, comps).end == Illegal
       <==> failure == ConnectorFailure(true) && w.steps[r][i].attempt + 1 < MAX_ATTEMPTS
  {
    hide Shape, IdemAgrees, NamesOf;
  }

  lemma {:induction false} WalkAsksRetry(w: World, r: RunId, def: WorkflowDef, i: nat, oracle: seq<Outcome>,
                                         now: nat, comps: seq<Compensation>)
    requires RunOk(w, r) && w.runs[r].status == RunStatus.Running
    requires i <= Frontier(w.steps[r]) && |oracle| == |w.steps[r]|
    ensures Walk(w, r, def, i, oracle, now, comps).end == Illegal <==> WillAskRetry(w.steps[r], oracle, i)
    decreases |oracle| - i
  {
    hide Succeed, AfterFailure, OpenGate, NamesOf, IdemAgrees, Budget, WillAskRetry, StopsAt;
    var steps := w.steps[r];
    WillAskStep(steps, oracle, i);
    if i < Frontier(steps) {
      WalkAsksRetry(w, r, def, i + 1, oracle, now, comps);
    } else if i < |steps| && !IsGate(steps[i].name) {
      PaceClaims(w, r, def, i, oracle[i], now, comps);
      match oracle[i]
      case Returns(out, more) =>
        var next := Succeed(Invoke(w, r, i), r, i, OutputOf(out));
        SucceedOk(w, r, i, OutputOf(out));
        SucceedWrites(w, r, i, OutputOf(out));
        WalkAsksRetry(next, r, def, i + 1, oracle, now, comps + more);
        StopsAtTail(steps, next.steps[r], oracle, i + 1);
      case Raises(failure, _) => FailureAsks(w, r, i, failure, comps);
    }
  }

  /** The same read off the stored steps and the handlers' answers before the call: `execute` on a queued
      or running run raises exactly if the first handler in its way that raises does so retryably, before
      any gate, with an attempt left after this one. */
  lemma ExecuteRaisesIff(w: World, defs: Registry, r: RunId, oracle: seq<Outcome>, now: nat)
    requires WorldInv(w, defs) && Recoverable(w, r) && r in w.steps && |oracle| == |w.steps[r]|
    ensures Execute(w, defs, r, false, oracle, now).end == Illegal <==> WillAskRetry(w.steps[r], oracle, 0)
  {
    hide Walk, WillAskRetry, CallsAgree, NamesOf;
    assert RunInv(w, defs, r);
    PromoteInv(w, defs, r);
    assert RunInv(Promote(w, r), defs, r);
    WalkAsksRetry(Promote(w, r), r, defs[w.runs[r].workflow], 0, oracle, now, []);
  }

  /** When `execute` parks a run it has tried, latest first, exactly the compensations registered by the
      steps that succeeded in this pass, the failing step's own excluded; otherwise it tries none. */
  lemma ParkUndoesThisPass(w: World, defs: Registry, r: RunId, oracle: seq<Outcome>, now: nat)
    requires WorldInv(w, defs) && Recoverable(w, r) && r in w.steps && |oracle| == |w.steps[r]|
    ensures var e := Execute(w, defs, r, false, oracle, now);
      && Present(e.world, r) && |e.world.steps[r]| == |oracle|
      && e.world.undone == w.undone +
           if e.end == ParkedRun then Reverse(Registrations(w.steps[r], e.world.steps[r], oracle, 0)) else []
  {
    assert RunInv(w, defs, r);
    var p := Promote(w, r);
    ParkCompensates(p, r, defs[w.runs[r].workflow], 0, oracle, now, []);
    var after := Execute(w, defs, r, false, oracle, now).world.steps[r];
    assert [] + Registrations(w.steps[r], after, oracle, 0) == Registrations(w.steps[r], after, oracle, 0);
  }
}
