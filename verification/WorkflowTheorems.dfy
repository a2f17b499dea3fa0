/** The engine's guarantees over whole sequential histories, and the two ways a parked run comes back. */
module WorkflowTheorems {
  import opened Wrappers
  import opened States
  import opened Workflow
  import opened WorkflowRuns
  import opened WorkflowEffects
  import opened WorkflowHistory

  lemma EmptyInv(defs: Registry)
    ensures WorldInv(EMPTY, defs)
  {
  }

  // ----- Approvals -----

  /** After any history, decisions and decided gates correspond one to one, every decision spent its own
      token of that gate, and its actor has exactly the role the gate requires. */
  lemma DecisionsMatchGates(defs: Registry, ops: seq<Op>)
    requires WellNamed(defs)
    ensures var d := History(EMPTY, defs, ops).desk;
      && (forall k :: 0 <= k < |d.decisions| ==> DecisionFits(d, d.decisions[k]))
      && (forall j, k :: 0 <= j < k < |d.decisions| ==>
            d.decisions[j].gate != d.decisions[k].gate && d.decisions[j].token != d.decisions[k].token)
      && (forall g :: g in d.gates ==>
            (d.gates[g].status != GatePending <==> HasDecision(d.decisions, g)))
  {
    EmptyInv(defs);
    HistoryInv(EMPTY, defs, ops);
    var d := History(EMPTY, defs, ops).desk;
    forall g | g in d.gates && HasDecision(d.decisions, g)
      ensures d.gates[g].status != GatePending
    {
      var k :| 0 <= k < |d.decisions| && d.decisions[k].gate == g;
      assert DecisionFits(d, d.decisions[k]);
    }
  }

  // ----- Rejection -----

  /** Run `r` is exactly as it was, and none of its handlers was invoked. */
  ghost predicate RunStill(w: World, v: World, r: RunId) {
    && Present(w, r) && Present(v, r) && v.runs[r] == w.runs[r] && v.steps[r] == w.steps[r]
    && forall c: Call :: c.run == r ==> multiset(v.calls)[c] == multiset(w.calls)[c]
  }

  lemma OtherStill(w: World, defs: Registry, r: RunId, q: RunId, locked: bool, oracle: seq<Outcome>, now: nat)
    requires WorldInv(w, defs) && r in w.runs && q != r && (Present(w, q) ==> |oracle| == |w.steps[q]|)
    ensures RunStill(w, Execute(w, defs, q, locked, oracle, now).world, r)
  {
    if Present(w, q) && !locked {
      PromoteInv(w, defs, q);
      assert RunStill(w, Promote(w, q), r);
      if w.runs[q].workflow in defs {
        var p := Promote(w, q);
        var def := defs[w.runs[q].workflow];
        assert RunInv(p, defs, q);
        WalkOnlyRun(p, q, def, 0, oracle, now, []);
        WalkCalls(p, q, def, 0, oracle, now, []);
      }
    }
  }

  lemma RejectedExecute(w: World, defs: Registry, r: RunId, q: RunId, locked: bool, oracle: seq<Outcome>, now: nat)
    requires WorldInv(w, defs) && r in w.runs && w.runs[r].status == Rejected
    requires Present(w, q) ==> |oracle| == |w.steps[q]|
    ensures RunStill(w, Execute(w, defs, q, locked, oracle, now).world, r)
  {
    assert RunInv(w, defs, r);
    if q != r {
      OtherStill(w, defs, r, q, locked, oracle, now);
    } else if !locked {
      WalkStill(w, r, defs[w.runs[r].workflow], 0, oracle, now, []);
    }
  }

  lemma {:induction false} RejectedSweep(w: World, defs: Registry, r: RunId, listed: seq<RunId>, oracle: Oracle,
                                         now: nat)
    requires WorldInv(w, defs) && r in w.runs && w.runs[r].status == Rejected
    ensures RunStill(w, SweepRuns(w, defs, listed, oracle, now), r)
    decreases |listed|
  {
    if listed != [] {
      var q := listed[0];
      if q in w.runs && w.runs[q].status != AwaitingApproval {
        var answers := AnswersFor(oracle, w, q);
        RejectedExecute(w, defs, r, q, false, answers, now);
        ExecuteInv(w, defs, q, false, answers, now);
        RejectedSweep(Execute(w, defs, q, false, answers, now).world, defs, r, listed[1..], oracle, now);
      } else {
        RejectedSweep(w, defs, r, listed[1..], oracle, now);
      }
    }
  }

  lemma RuleStill(w: World, r: RunId, p: Payload, approve: bool, actor: Standing, channel: Channel)
    requires Present(w, r) && (p.run == r ==> !MayMove(w, r, if approve then RunStatus.Running else Rejected))
    requires p.gate in w.desk.gates
    ensures RunStill(w, Rule(w, p, approve, actor, channel).world, r)
  {
    hide RecordDecision, IndexOf;
  }

  /** A resolve call that may not move run `r` leaves it as it was. */
  lemma ResolveStill(w: World, r: RunId, p: Payload, approve: bool, actor: Standing, channel: Channel, now: nat)
    requires Present(w, r) && (p.run == r ==> !MayMove(w, r, if approve then RunStatus.Running else Rejected))
    ensures RunStill(w, Resolve(w, p, approve, actor, channel, now).world, r)
  {
    hide Rule;
    if p.gate in w.desk.gates && p.token in w.desk.tokens {
      RuleStill(w.(desk := Spend(w.desk, p.token)), r, p, approve, actor, channel);
    }
  }

  lemma StoredRun(w: World, defs: Registry, r: RunId)
    requires WorldInv(w, defs) && r in w.runs
    ensures RunInv(w, defs, r) && Present(w, r)
  {
    assert RunInv(w, defs, r);
  }

  lemma RejectedApply(w: World, defs: Registry, r: RunId, op: Op)
    requires WorldInv(w, defs) && r in w.runs && w.runs[r].status == Rejected
    ensures RunStill(w, Apply(w, defs, op), r)
  {
    hide Execute, Resolve, SweepRuns, RunOk, CallsAgree, NoStrays, Enumerates, DeskInv, GatesPlaced;
    StoredRun(w, defs, r);
    match op
    case OpStart(workflow, q, dedupe) =>
    case OpExecute(q, locked, oracle, now) =>
      RejectedExecute(w, defs, r, q, locked, AnswersFor(oracle, w, q), now);
    case OpResolve(p, approve, actor, channel, now) => ResolveStill(w, r, p, approve, actor, channel, now);
    case OpSweep(oracle, now) => RejectedSweep(w, defs, r, Listed(w, w.order), oracle, now);
  }

  /** Rejection is final in every sequential history: whatever is executed, approved or swept later, the
      rejected run keeps its status and its steps, its first unfinished step stays a gate, and none of
      its handlers is invoked again. */
  lemma {:induction false} RejectionIsFinal(w: World, defs: Registry, r: RunId, ops: seq<Op>)
    requires WorldInv(w, defs) && WellNamed(defs) && r in w.runs && w.runs[r].status == Rejected
    ensures RunStill(w, History(w, defs, ops), r)
    ensures var k := Frontier(w.steps[r]); k < |w.steps[r]| && IsGate(w.steps[r][k].name)
    decreases |ops|
  {
    assert RunInv(w, defs, r);
    if ops != [] {
      RejectedApply(w, defs, r, ops[0]);
      ApplyInv(w, defs, ops[0]);
      RejectionIsFinal(Apply(w, defs, ops[0]), defs, r, ops[1..]);
    }
  }

  // ----- Recovery -----

  /** A sweep leaves every run it does not list exactly as it was. */
  lemma {:induction false} UnlistedStill(w: World, defs: Registry, r: RunId, listed: seq<RunId>, oracle: Oracle,
                                         now: nat)
    requires WorldInv(w, defs) && r in w.runs && r !in listed
    ensures RunStill(w, SweepRuns(w, defs, listed, oracle, now), r)
    decreases |listed|
  {
    assert RunInv(w, defs, r);
    if listed != [] {
      var q := listed[0];
      if q in w.runs && w.runs[q].status != AwaitingApproval {
        var answers := AnswersFor(oracle, w, q);
        OtherStill(w, defs, r, q, false, answers, now);
        ExecuteInv(w, defs, q, false, answers, now);
        UnlistedStill(Execute(w, defs, q, false, answers, now).world, defs, r, listed[1..], oracle, now);
      } else {
        UnlistedStill(w, defs, r, listed[1..], oracle, now);
      }
    }
  }

  lemma {:induction false} ListedIs(w: World, order: seq<RunId>)
    requires Distinct(order)
    ensures forall r :: r in Listed(w, order) <==> r in order && Recoverable(w, r)
    ensures Distinct(Listed(w, order))
  {
    if order != [] {
      assert order[0] !in order[1..];
      ListedIs(w, order[1..]);
    }
  }

  /** A sweep touches no run that is waiting, parked, or finished. */
  lemma SweepTouchesOnlyRecoverable(w: World, defs: Registry, r: RunId, oracle: Oracle, now: nat)
    requires WorldInv(w, defs) && r in w.runs && !Recoverable(w, r)
    ensures RunStill(w, Sweep(w, defs, oracle, now), r)
  {
    ListedIs(w, w.order);
    UnlistedStill(w, defs, r, Listed(w, w.order), oracle, now);
  }

  lemma ExecuteRecovers(w: World, defs: Registry, r: RunId, oracle: seq<Outcome>, now: nat)
    requires WorldInv(w, defs) && Recoverable(w, r) && |oracle| == |w.steps[r]|
    ensures Present(w, r)
    ensures GoodEnd(w, r, Execute(w, defs, r, false, oracle, now))
  {
    assert RunInv(w, defs, r);
    PromoteInv(w, defs, r);
    var p := Promote(w, r);
    var def := defs[w.runs[r].workflow];
    assert RunInv(p, defs, r);
    WalkRunning(p, r, def, 0, oracle, now, []);
    GoodEndFrom(w, p, r, Walk(p, r, def, 0, oracle, now, []));
  }

  lemma {:induction false} SweptOnce(w: World, defs: Registry, r: RunId, listed: seq<RunId>, oracle: Oracle, now: nat)
    requires WorldInv(w, defs) && Recoverable(w, r) && r in listed
    requires Distinct(listed)
    ensures var v := SweepRuns(w, defs, listed, oracle, now);
      && Present(w, r) && Present(v, r) && v.runs[r].status != Queued
      && (v.runs[r].status == RunStatus.Running ==> Budget(v.steps[r]) < Budget(w.steps[r]))
    decreases |listed|
  {
    hide Execute, Budget, Answers, OnlyRun, Shape, CallsAgree;
    assert RunInv(w, defs, r);
    var q := listed[0];
    if q == r {
      var answers := AnswersFor(oracle, w, r);
      ExecuteRecovers(w, defs, r, answers, now);
      ExecuteInv(w, defs, r, false, answers, now);
      UnlistedStill(Execute(w, defs, r, false, answers, now).world, defs, r, listed[1..], oracle, now);
    } else if q in w.runs && w.runs[q].status != AwaitingApproval {
      var answers := AnswersFor(oracle, w, q);
      OtherStill(w, defs, r, q, false, answers, now);
      ExecuteInv(w, defs, q, false, answers, now);
      SweptOnce(Execute(w, defs, q, false, answers, now).world, defs, r, listed[1..], oracle, now);
    } else {
      SweptOnce(w, defs, r, listed[1..], oracle, now);
    }
  }

  /** A sweep that leaves a queued or running run running has used up part of its attempt budget. */
  lemma SweepProgress(w: World, defs: Registry, r: RunId, oracle: Oracle, now: nat)
    requires WorldInv(w, defs) && Recoverable(w, r)
    ensures var v := Sweep(w, defs, oracle, now);
      && Present(w, r) && Present(v, r) && v.runs[r].status != Queued
      && (v.runs[r].status == RunStatus.Running ==> Budget(v.steps[r]) < Budget(w.steps[r]))
  {
    ListedIs(w, w.order);
    SweptOnce(w, defs, r, Listed(w, w.order), oracle, now);
  }

  function Sweeps(w: World, defs: Registry, oracles: seq<Oracle>, now: nat): World
    decreases |oracles|
  {
    if oracles == [] then w else Sweeps(Sweep(w, defs, oracles[0], now), defs, oracles[1..], now)
  }

  /** However the handlers answer, a run has left queued and running for good after more sweeps than its
      remaining attempts. */
  lemma {:induction false} SweepsSettle(w: World, defs: Registry, r: RunId, oracles: seq<Oracle>, now: nat)
    requires WorldInv(w, defs) && r in w.runs
    requires Recoverable(w, r) ==> r in w.steps && |oracles| > Budget(w.steps[r])
    ensures !Recoverable(Sweeps(w, defs, oracles, now), r)
    decreases |oracles|
  {
    assert RunInv(w, defs, r);
    if oracles != [] {
      var v := Sweep(w, defs, oracles[0], now);
      SweepRunsInv(w, defs, Listed(w, w.order), oracles[0], now);
      if Recoverable(w, r) {
        SweepProgress(w, defs, r, oracles[0], now);
      } else {
        SweepTouchesOnlyRecoverable(w, defs, r, oracles[0], now);
      }
      SweepsSettle(v, defs, r, oracles[1..], now);
    }
  }

  /** A fresh run starts with at most MAX_ATTEMPTS attempts per step. */
  lemma {:induction false} FreshBudget(names: seq<StepName>)
    ensures Budget(FanOut(names)) <= MAX_ATTEMPTS * |names|
  {
    if names != [] {
      assert FanOut(names)[1..] == FanOut(names[1..]);
      FreshBudget(names[1..]);
    }
  }
}
