/** Exactly when the attempt limit is passed, and histories that pass it. */
module WorkflowOverrun {
  import opened Wrappers
  import opened States
  import opened Workflow
  import opened WorkflowRuns
  import opened WorkflowEffects
  import opened WorkflowHistory
  import opened WorkflowTheorems
  import opened WorkflowLimits

  // ----- What a drive does to the attempts -----

  /** Handler step `i` gained one attempt, no other step that had one gained any, and the names stand. */
  ghost predicate Attempted(before: seq<Step>, after: seq<Step>, k: nat) {
    && |after| == |before| && NamesOf(after) == NamesOf(before)
    && forall j :: 0 <= j < |before| ==>
         if j == k && !IsGate(before[j].name) then after[j].attempt == before[j].attempt + 1
         else after[j].attempt == before[j].attempt || (before[j].attempt == 0 && after[j].attempt == 1)
  }

  lemma FailureAttempts(w: World, r: RunId, i: nat, failure: Failure, comps: seq<Compensation>)
    requires Claimable(w, r, i)
    ensures var v := AfterFailure(Invoke(w, r, i), r, i, failure, comps).world;
      Present(v, r) && Attempted(w.steps[r], v.steps[r], i)
  {
    hide AfterFailure, Invoke, Shape, IdemAgrees, StatusAgrees;
    FailureWrites(w, r, i, failure, comps);
  }

  /** The first not succeeded step, if it has a handler, is invoked once more by any pass over a running or
      parked run; steps after it are invoked at most once, and for the first time. */
  lemma {:induction false} WalkAttempts(w: World, r: RunId, def: WorkflowDef, i: nat, oracle: seq<Outcome>,
                                        now: nat, comps: seq<Compensation>)
    requires RunOk(w, r) && (w.runs[r].status == RunStatus.Running || w.runs[r].status == Parked)
    requires i <= Frontier(w.steps[r]) && |oracle| == |w.steps[r]|
    ensures var v := Walk(w, r, def, i, oracle, now, comps).world;
      Present(v, r) && Attempted(w.steps[r], v.steps[r], Frontier(w.steps[r]))
    decreases |oracle| - i
  {
    hide Succeed, AfterFailure, OpenGate, IdemAgrees, Budget, Attempted, NamesOf, Settle;
    var steps := w.steps[r];
    if i == |steps| {
      SettleSteps(w, r, w.desk, RunStatus.Succeeded, Completed);
      NoneAttempted(steps, i);
    } else if i < Frontier(steps) {
      WalkAttempts(w, r, def, i + 1, oracle, now, comps);
    } else if IsGate(steps[i].name) {
      SettleSteps(w, r, OpenGate(w.desk, r, steps[i].name, ConfigOf(def, steps[i].name), now), AwaitingApproval,
                  AtGate);
      NoneAttempted(steps, i);
    } else {
      PaceClaims(w, r, def, i, oracle[i], now, comps);
      match oracle[i]
      case Returns(out, more) =>
        var next := Succeed(Invoke(w, r, i), r, i, OutputOf(out));
        SucceedOk(w, r, i, OutputOf(out));
        WalkAttempts(next, r, def, i + 1, oracle, now, comps + more);
        WalkPrefix(next, r, def, i + 1, oracle, now, comps + more);
        SucceedWrites(w, r, i, OutputOf(out));
        AttemptedOn(steps, next.steps[r], Walk(next, r, def, i + 1, oracle, now, comps + more).world.steps[r], i);
      case Raises(failure, _) => FailureAttempts(w, r, i, failure, comps);
    }
  }

  lemma SettleSteps(w: World, r: RunId, d: Desk, to: RunStatus, end: End)
    requires Present(w, r)
    ensures Present(Settle(w.(desk := d), r, to, end).world, r)
    ensures Settle(w.(desk := d), r, to, end).world.steps == w.steps && w.(desk := w.desk) == w
  {
  }

  lemma NoneAttempted(steps: seq<Step>, k: nat)
    requires k < |steps| ==> IsGate(steps[k].name)
    ensures Attempted(steps, steps, k)
  {
  }

  lemma AttemptedOn(a: seq<Step>, b: seq<Step>, c: seq<Step>, i: nat)
    requires WroteOne(a, b, i) && !IsGate(a[i].name) && Attempted(b, c, i + 1)
    requires c[i] == b[i] && (i + 1 < |a| ==> a[i + 1].attempt == 0)
    ensures Attempted(a, c, i)
  {
    assert NamesOf(b) == NamesOf(a);
  }

  lemma ExecuteAttempts(w: World, defs: Registry, r: RunId, oracle: seq<Outcome>, now: nat)
    requires WorldInv(w, defs) && r in w.runs && r in w.steps && |oracle| == |w.steps[r]|
    ensures var v := Execute(w, defs, r, false, oracle, now).world;
      Present(v, r) && Attempted(w.steps[r], v.steps[r], Frontier(w.steps[r]))
  {
    hide Walk, Attempted, Shape, IdemAgrees, CallsAgree, NamesOf;
    assert RunInv(w, defs, r);
    var def := defs[w.runs[r].workflow];
    if w.runs[r].status in {AwaitingApproval, Rejected, RunStatus.Succeeded} {
      WalkStill(w, r, def, 0, oracle, now, []);
      NoneAttempted(w.steps[r], Frontier(w.steps[r]));
    } else {
      PromoteInv(w, defs, r);
      assert RunInv(Promote(w, r), defs, r);
      WalkAttempts(Promote(w, r), r, def, 0, oracle, now, []);
    }
  }

  // ----- One operation -----

  /** The operation drives the run: an unlocked execution, or a sweep that lists it. */
  predicate Drives(w: World, op: Op, r: RunId) {
    match op
    case OpExecute(q, locked, _, _) => q == r && !locked
    case OpSweep(_, _) => Recoverable(w, r)
    case _ => false
  }

  /** Names and attempts are the same. */
  ghost predicate SameAttempts(a: seq<Step>, b: seq<Step>) {
    |a| == |b| && NamesOf(a) == NamesOf(b) && forall j :: 0 <= j < |a| ==> a[j].attempt == b[j].attempt
  }

  lemma RuleAttempts(w: World, r: RunId, p: Payload, approve: bool, actor: Standing, channel: Channel)
    requires Present(w, r) && p.gate in w.desk.gates
    ensures var v := Rule(w, p, approve, actor, channel).world;
      Present(v, r) && SameAttempts(w.steps[r], v.steps[r])
  {
    hide RecordDecision, IndexOf;
  }

  lemma ResolveAttempts(w: World, r: RunId, p: Payload, approve: bool, actor: Standing, channel: Channel, now: nat)
    requires Present(w, r)
    ensures var v := Resolve(w, p, approve, actor, channel, now).world;
      Present(v, r) && SameAttempts(w.steps[r], v.steps[r])
  {
    hide Rule, MayDecide;
    if p.gate in w.desk.gates && p.token in w.desk.tokens {
      RuleAttempts(w.(desk := Spend(w.desk, p.token)), r, p, approve, actor, channel);
    }
  }

  lemma {:induction false} SweepAttempts(w: World, defs: Registry, r: RunId, listed: seq<RunId>, oracle: Oracle,
                                         now: nat)
    requires WorldInv(w, defs) && Recoverable(w, r) && r in listed && Distinct(listed)
    ensures var v := SweepRuns(w, defs, listed, oracle, now);
      Present(w, r) && Present(v, r) && Attempted(w.steps[r], v.steps[r], Frontier(w.steps[r]))
    decreases |listed|
  {
    hide Execute, Budget, Answers, OnlyRun, Shape, CallsAgree, Attempted;
    assert RunInv(w, defs, r);
    var q := listed[0];
    if q == r {
      var answers := AnswersFor(oracle, w, r);
      ExecuteAttempts(w, defs, r, answers, now);
      ExecuteInv(w, defs, r, false, answers, now);
      UnlistedStill(Execute(w, defs, r, false, answers, now).world, defs, r, listed[1..], oracle, now);
    } else if q in w.runs && w.runs[q].status != AwaitingApproval {
      var answers := AnswersFor(oracle, w, q);
      OtherStill(w, defs, r, q, false, answers, now);
      ExecuteInv(w, defs, q, false, answers, now);
      SweepAttempts(Execute(w, defs, q, false, answers, now).world, defs, r, listed[1..], oracle, now);
    } else {
      SweepAttempts(w, defs, r, listed[1..], oracle, now);
    }
  }

  /** A run's attempts change exactly by the operations that drive it. */
  lemma ApplyAttempts(w: World, defs: Registry, op: Op, r: RunId)
    requires WorldInv(w, defs) && r in w.runs
    ensures var v := Apply(w, defs, op);
      && Present(w, r) && Present(v, r)
      && if Drives(w, op, r) then Attempted(w.steps[r], v.steps[r], Frontier(w.steps[r]))
         else SameAttempts(w.steps[r], v.steps[r])
  {
    hide Execute, SweepRuns, Resolve, Attempted, Answers, RunInv;
    PresentRun(w, defs, r);
    match op
    case OpStart(workflow, q, dedupe) =>
    case OpExecute(q, locked, oracle, now) =>
      var answers := AnswersFor(oracle, w, q);
      if q != r {
        OtherStill(w, defs, r, q, locked, answers, now);
      } else if locked {
        LockedStill(w, defs, r, answers, now);
      } else {
        ExecuteAttempts(w, defs, r, answers, now);
      }
    case OpResolve(p, approve, actor, channel, now) => ResolveAttempts(w, r, p, approve, actor, channel, now);
    case OpSweep(oracle, now) =>
      ListedIs(w, w.order);
      if Recoverable(w, r) {
        SweepAttempts(w, defs, r, Listed(w, w.order), oracle, now);
      } else {
        UnlistedStill(w, defs, r, Listed(w, w.order), oracle, now);
      }
  }

  lemma PresentRun(w: World, defs: Registry, r: RunId)
    requires WorldInv(w, defs) && r in w.runs
    ensures Present(w, r) && r in w.order
  {
    hide RunInv, DeskInv, GatesPlaced;
  }

  lemma LockedStill(w: World, defs: Registry, r: RunId, oracle: seq<Outcome>, now: nat)
    requires Present(w, r) && |oracle| == |w.steps[r]|
    ensures Execute(w, defs, r, true, oracle, now).world == w
  {
  }

  /** Handler step `i` of run `r` is where the run stands, has used up its attempts, and is driven. */
  ghost predicate Overdrives(w: World, op: Op, r: RunId, i: nat) {
    && Present(w, r) && Drives(w, op, r)
    && i == Frontier(w.steps[r]) && i < |w.steps[r]| && !IsGate(w.steps[r][i].name)
    && w.steps[r][i].attempt >= MAX_ATTEMPTS
  }

  function Invocations(w: World, r: RunId, i: nat): nat
    requires Present(w, r) && i < |w.steps[r]|
  {
    multiset(w.calls)[Call(r, w.steps[r][i].name)]
  }

  /** An operation takes the invocations of a handler past the limit, or further past it, exactly if it
      drives the run while the run stands at that handler with its attempts used up. */
  lemma PastLimitIff(w: World, defs: Registry, op: Op, r: RunId, i: nat)
    requires WorldInv(w, defs) && WellNamed(defs) && r in w.runs && r in w.steps && i < |w.steps[r]|
    ensures var v := Apply(w, defs, op);
      && Present(v, r) && |v.steps[r]| == |w.steps[r]| && v.steps[r][i].name == w.steps[r][i].name
      && (Invocations(v, r, i) > MAX_ATTEMPTS && Invocations(v, r, i) > Invocations(w, r, i)
          <==> Overdrives(w, op, r, i))
      && Invocations(w, r, i) <= Invocations(v, r, i)
  {
    hide Apply, Drives, WorldInv, WellNamed, Invocations;
    var v := Apply(w, defs, op);
    ApplyAttempts(w, defs, op, r);
    ApplyInv(w, defs, op);
    Counted(w, defs, r, i);
    SameName(w.steps[r], v.steps[r], i);
    Counted(v, defs, r, i);
  }

  lemma SameName(a: seq<Step>, b: seq<Step>, i: nat)
    requires |a| == |b| && NamesOf(a) == NamesOf(b) && i < |a|
    ensures a[i].name == b[i].name
  {
    assert NamesOf(a)[i] == NamesOf(b)[i];
  }

  /** A step's attempts are the invocations of its handler. */
  lemma Counted(w: World, defs: Registry, r: RunId, i: nat)
    requires WorldInv(w, defs) && r in w.runs && r in w.steps && i < |w.steps[r]|
    ensures Invocations(w, r, i) == w.steps[r][i].attempt
  {
    hide DeskInv, GatesPlaced, RunOk;
    assert RunInv(w, defs, r);
  }

  // ----- Whole histories -----

  /** Some operation of the history drives the run while it stands at handler step `i` with its attempts
      used up. */
  ghost predicate Overdriven(w: World, defs: Registry, ops: seq<Op>, r: RunId, i: nat)
    decreases |ops|
  {
    ops != [] && (Overdrives(w, ops[0], r, i) || Overdriven(Apply(w, defs, ops[0]), defs, ops[1..], r, i))
  }

  lemma {:induction false} HistoryPast(w: World, defs: Registry, ops: seq<Op>, r: RunId, i: nat)
    requires WorldInv(w, defs) && WellNamed(defs) && r in w.runs && r in w.steps && i < |w.steps[r]|
    ensures var v := History(w, defs, ops);
      && Present(v, r) && |v.steps[r]| == |w.steps[r]|
      && (Invocations(v, r, i) > MAX_ATTEMPTS
          <==> Invocations(w, r, i) > MAX_ATTEMPTS || Overdriven(w, defs, ops, r, i))
    decreases |ops|
  {
    hide Apply, WorldInv, WellNamed, Overdrives, Invocations;
    if ops != [] {
      PastLimitIff(w, defs, ops[0], r, i);
      ApplyInv(w, defs, ops[0]);
      HistoryPast(Apply(w, defs, ops[0]), defs, ops[1..], r, i);
    }
  }

  lemma {:induction false} AbsentPast(w: World, defs: Registry, ops: seq<Op>, r: RunId, i: nat)
    requires WorldInv(w, defs) && WellNamed(defs) && r !in w.runs
    ensures var v := History(w, defs, ops);
      Present(v, r) && i < |v.steps[r]| ==>
        (Invocations(v, r, i) > MAX_ATTEMPTS <==> Overdriven(w, defs, ops, r, i))
    decreases |ops|
  {
    hide Apply, DeskInv, GatesPlaced, WellNamed, IdemAgrees, Shape;
    if ops != [] {
      var v := Apply(w, defs, ops[0]);
      ApplyInv(w, defs, ops[0]);
      if r !in v.runs {
        AbsentPast(v, defs, ops[1..], r, i);
      } else {
        UnknownWithin(w, defs, r, ops[0]);
        assert RunInv(v, defs, r);
        if i < |v.steps[r]| {
          HistoryPast(v, defs, ops[1..], r, i);
        } else {
          StepsKept(v, defs, ops[1..], r);
        }
      }
    }
  }

  lemma {:induction false} StepsKept(w: World, defs: Registry, ops: seq<Op>, r: RunId)
    requires WorldInv(w, defs) && WellNamed(defs) && r in w.runs && r in w.steps
    ensures var v := History(w, defs, ops);
      Present(v, r) && |v.steps[r]| == |w.steps[r]|
    decreases |ops|
  {
    hide Apply, WorldInv, WellNamed, Drives;
    if ops != [] {
      ApplyAttempts(w, defs, ops[0], r);
      ApplyInv(w, defs, ops[0]);
      StepsKept(Apply(w, defs, ops[0]), defs, ops[1..], r);
    }
  }

  /** Over every history, a handler has been invoked more than MAX_ATTEMPTS times exactly if at some point
      its run was driven while standing at it with its attempts used up. */
  lemma LimitPassedIff(defs: Registry, ops: seq<Op>, r: RunId, i: nat)
    requires WellNamed(defs)
    ensures var w := History(EMPTY, defs, ops);
      Present(w, r) && i < |w.steps[r]| ==>
        (Invocations(w, r, i) > MAX_ATTEMPTS <==> Overdriven(EMPTY, defs, ops, r, i))
  {
    hide History, Overdriven, Invocations, WorldInv;
    EmptyInv(defs);
    assert r !in EMPTY.runs;
    AbsentPast(EMPTY, defs, ops, r, i);
  }
}
