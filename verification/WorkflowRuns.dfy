/** What one `execute` pass does to a run, when calls run one after another. */
module WorkflowRuns {
  import opened Wrappers
  import opened States
  import opened Workflow

  // ----- The shape of a run's steps -----

  /** The position of the first step that has not succeeded. */
  function Frontier(steps: seq<Step>): (k: nat)
    ensures k <= |steps|
    ensures forall j :: 0 <= j < k ==> steps[j].status == StepStatus.Succeeded
    ensures k < |steps| ==> steps[k].status != StepStatus.Succeeded
  {
    if steps == [] || steps[0].status != StepStatus.Succeeded then 0
    else 1 + Frontier(steps[1..])
  }

  lemma FrontierIs(steps: seq<Step>, k: nat)
    requires k <= |steps|
    requires forall j :: 0 <= j < k ==> steps[j].status == StepStatus.Succeeded
    requires k < |steps| ==> steps[k].status != StepStatus.Succeeded
    ensures Frontier(steps) == k
  {
  }

  predicate Untouched(step: Step) {
    step == Step(step.name, Pending, 0, None)
  }

  /** Succeeded steps first, then one step that is untouched or, if it has a handler, failed, then
      untouched steps only. */
  ghost predicate Shape(steps: seq<Step>) {
    var k := Frontier(steps);
    && (k < |steps| && !Untouched(steps[k]) ==>
          steps[k].status == Failed && !IsGate(steps[k].name) && steps[k].attempt > 0)
    && forall j :: k < j < |steps| ==> Untouched(steps[j])
  }

  /** The idempotency store holds no output for a step that has not succeeded. */
  ghost predicate IdemAgrees(idem: map<Call, Output>, r: RunId, steps: seq<Step>) {
    forall i :: Frontier(steps) <= i < |steps| ==> Call(r, steps[i].name) !in idem
  }

  lemma SucceedShape(steps: seq<Step>, i: nat, step: Step)
    requires Shape(steps) && i == Frontier(steps) && i < |steps| && step.status == StepStatus.Succeeded
    ensures Shape(steps[i := step])
    ensures Frontier(steps[i := step]) == i + 1
  {
    FrontierIs(steps[i := step], i + 1);
  }

  lemma FailShape(steps: seq<Step>, i: nat, step: Step)
    requires Shape(steps) && i == Frontier(steps) && i < |steps|
    requires step.status == Failed && !IsGate(step.name) && step.attempt > 0
    ensures Shape(steps[i := step]) && Frontier(steps[i := step]) == i
  {
    FrontierIs(steps[i := step], i);
  }

  // ----- Other runs, older gates -----

  /** Nothing but run `r`, its outputs, and new gates and tokens differs. */
  ghost predicate OnlyRun(w: World, v: World, r: RunId) {
    && v.order == w.order && v.dedupe == w.dedupe
    && v.runs.Keys == w.runs.Keys && v.steps.Keys == w.steps.Keys
    && (forall q :: q in w.runs && q != r ==> v.runs[q] == w.runs[q])
    && (forall q :: q in w.steps && q != r ==> v.steps[q] == w.steps[q])
    && (forall c :: c in v.idem && c.run != r ==> c in w.idem)
  }

  lemma PutOnlyRun(w: World, d: Desk, r: RunId, run: Run)
    requires Present(w, r)
    ensures OnlyRun(w, w.(desk := d), r) && OnlyRun(w, PutRun(w.(desk := d), r, run), r)
  {
  }

  lemma SettleOnlyRun(w: World, d: Desk, r: RunId, to: RunStatus, end: End)
    requires Present(w, r)
    ensures OnlyRun(w, Settle(w.(desk := d), r, to, end).world, r)
  {
    PutOnlyRun(w, d, r, w.runs[r].(status := to));
  }

  lemma SucceedOnlyRun(w: World, r: RunId, i: nat, out: Output)
    requires Present(w, r) && i < |w.steps[r]|
    ensures OnlyRun(w, Succeed(Invoke(w, r, i), r, i, out), r)
  {
  }

  lemma FailureOnlyRun(w: World, r: RunId, i: nat, failure: Failure, comps: seq<Compensation>)
    requires Present(w, r) && i < |w.steps[r]|
    ensures OnlyRun(w, AfterFailure(Invoke(w, r, i), r, i, failure, comps).world, r)
  {
    hide Reverse, Classify;
  }

  lemma OnlyRunTrans(u: World, v: World, w: World, r: RunId)
    requires OnlyRun(u, v, r) && OnlyRun(v, w, r)
    ensures OnlyRun(u, w, r)
  {
  }

  function WorldOf(p: Stride): World {
    if p.Onward? then p.next else p.ended.world
  }

  lemma PaceOnlyRun(w: World, r: RunId, def: WorkflowDef, i: nat, answer: Outcome, now: nat,
                    comps: seq<Compensation>)
    requires Present(w, r) && i < |w.steps[r]|
    ensures OnlyRun(w, WorldOf(Pace(w, r, def, i, answer, now, comps)), r)
  {
    hide OpenGate, Settle, AfterFailure;
    var step := w.steps[r][i];
    if IsGate(step.name) {
      SettleOnlyRun(w, OpenGate(w.desk, r, step.name, ConfigOf(def, step.name), now), r, AwaitingApproval, AtGate);
    } else {
      PutOnlyRun(w, w.desk, r, w.runs[r].(current := Some(step.name)));
      match answer
      case Returns(out, more) => SucceedOnlyRun(w, r, i, OutputOf(out));
      case Raises(failure, _) => FailureOnlyRun(w, r, i, failure, comps);
    }
  }

  /** A pass over run `r` touches no other run. */
  lemma {:induction false} WalkOnlyRun(w: World, r: RunId, def: WorkflowDef, i: nat, oracle: seq<Outcome>,
                                       now: nat, comps: seq<Compensation>)
    requires Present(w, r) && i <= |w.steps[r]| == |oracle|
    ensures OnlyRun(w, Walk(w, r, def, i, oracle, now, comps).world, r)
    decreases |oracle| - i
  {
    if i == |oracle| {
      SettleOnlyRun(w, w.desk, r, RunStatus.Succeeded, Completed);
    } else {
      var p := Pace(w, r, def, i, oracle[i], now, comps);
      PaceOnlyRun(w, r, def, i, oracle[i], now, comps);
      if p.Onward? {
        WalkOnlyRun(p.next, r, def, i + 1, oracle, now, p.comps);
        OnlyRunTrans(w, p.next, Walk(p.next, r, def, i + 1, oracle, now, p.comps).world, r);
      }
    }
  }

  // ----- Statuses and progress -----

  /** A step's remaining attempts. */
  function Weight(step: Step): nat {
    if IsGate(step.name) || Finished(step.status) || step.attempt >= MAX_ATTEMPTS then 0
    else MAX_ATTEMPTS - step.attempt
  }

  /** The attempts left to a run's unfinished handler steps. */
  function Budget(steps: seq<Step>): nat {
    if steps == [] then 0 else Weight(steps[0]) + Budget(steps[1..])
  }

  lemma {:induction false} BudgetAt(steps: seq<Step>, i: nat, step: Step)
    requires i < |steps|
    ensures Budget(steps[i := step]) + Weight(steps[i]) == Budget(steps) + Weight(step)
  {
    if i == 0 {
      assert steps[0 := step][1..] == steps[1..];
    } else {
      assert steps[i := step][1..] == steps[1..][i - 1 := step];
      BudgetAt(steps[1..], i - 1, step);
    }
  }

  /** What the run's status says about its steps. */
  ghost predicate StatusAgrees(status: RunStatus, steps: seq<Step>) {
    var k := Frontier(steps);
    match status
    case Queued => k < |steps| ==> Untouched(steps[k])
    case Running => true
    case AwaitingApproval => k < |steps| && IsGate(steps[k].name)
    case Succeeded => k == |steps|
    case Rejected => k < |steps| && IsGate(steps[k].name)
    case Parked => true
    case Cancelled => false
  }

  ghost predicate RunOk(w: World, r: RunId) {
    && Present(w, r) && Shape(w.steps[r]) && Distinct(NamesOf(w.steps[r]))
    && IdemAgrees(w.idem, r, w.steps[r]) && StatusAgrees(w.runs[r].status, w.steps[r])
  }

  function NamesOf(steps: seq<Step>): (names: seq<StepName>)
    ensures |names| == |steps|
  {
    seq(|steps|, i requires 0 <= i < |steps| => steps[i].name)
  }

  lemma SucceedOk(w: World, r: RunId, i: nat, out: Output)
    requires RunOk(w, r) && i == Frontier(w.steps[r]) && i < |w.steps[r]| && !IsGate(w.steps[r][i].name)
    requires w.runs[r].status == RunStatus.Running || w.runs[r].status == Parked
    ensures var v := Succeed(Invoke(w, r, i), r, i, out);
      && RunOk(v, r) && v.runs[r].status == w.runs[r].status
      && Frontier(v.steps[r]) == i + 1 && Budget(v.steps[r]) <= Budget(w.steps[r])
      && NamesOf(v.steps[r]) == NamesOf(w.steps[r])
  {
    var steps := w.steps[r];
    var v := Succeed(Invoke(w, r, i), r, i, out);
    var done := steps[i].(status := StepStatus.Succeeded, output := Some(out), attempt := steps[i].attempt + 1);
    assert v.steps[r] == steps[i := done];
    SucceedShape(steps, i, done);
    BudgetAt(steps, i, done);
    assert NamesOf(v.steps[r]) == NamesOf(steps);
    forall j | i + 1 <= j < |steps|
      ensures Call(r, steps[j].name) !in v.idem
    {
      assert NamesOf(steps)[j] != NamesOf(steps)[i];
    }
  }

  lemma FailOk(w: World, r: RunId, i: nat)
    requires RunOk(w, r) && i == Frontier(w.steps[r]) && i < |w.steps[r]| && !IsGate(w.steps[r][i].name)
    requires w.runs[r].status == RunStatus.Running || w.runs[r].status == Parked
    ensures var v := FailStep(Invoke(w, r, i), r, i);
      && Shape(v.steps[r]) && IdemAgrees(v.idem, r, v.steps[r]) && Frontier(v.steps[r]) == i
      && NamesOf(v.steps[r]) == NamesOf(w.steps[r])
      && v.runs == w.runs && Present(v, r)
      && v.steps[r][i].attempt == w.steps[r][i].attempt + 1
      && Budget(v.steps[r]) <= Budget(w.steps[r])
      && (w.steps[r][i].attempt < MAX_ATTEMPTS ==> Budget(v.steps[r]) < Budget(w.steps[r]))
  {
    var steps := w.steps[r];
    var v := FailStep(Invoke(w, r, i), r, i);
    var failed := steps[i].(status := Failed, attempt := steps[i].attempt + 1);
    assert v.steps[r] == steps[i := failed];
    FailShape(steps, i, failed);
    BudgetAt(steps, i, failed);
    assert NamesOf(v.steps[r]) == NamesOf(steps);
    assert forall j :: i <= j < |steps| ==> v.steps[r][j].name == steps[j].name;
  }

  /** How a pass over a running run may end: completed, waiting at a gate, parked, or still running
      after using up part of the attempt budget. */
  ghost predicate GoodEnd(w: World, r: RunId, e: Ended)
    requires Present(w, r)
  {
    && RunOk(e.world, r) && NamesOf(e.world.steps[r]) == NamesOf(w.steps[r])
    && Budget(e.world.steps[r]) <= Budget(w.steps[r])
    && match e.end
       case Completed => e.world.runs[r].status == RunStatus.Succeeded
       case AtGate => e.world.runs[r].status == AwaitingApproval
       case ParkedRun => e.world.runs[r].status == Parked
       case Illegal => e.world.runs[r].status == RunStatus.Running
                       && Budget(e.world.steps[r]) < Budget(w.steps[r])
       case _ => false
  }

  lemma SettleGood(w: World, r: RunId, d: Desk, to: RunStatus, end: End)
    requires RunOk(w, r) && w.runs[r].status == RunStatus.Running && StatusAgrees(to, w.steps[r])
    requires (to == RunStatus.Succeeded && end == Completed) || (to == AwaitingApproval && end == AtGate)
    ensures GoodEnd(w, r, Settle(w.(desk := d), r, to, end))
  {
  }

  lemma FailureGood(w: World, r: RunId, i: nat, failure: Failure, comps: seq<Compensation>)
    requires RunOk(w, r) && i == Frontier(w.steps[r]) && i < |w.steps[r]| && !IsGate(w.steps[r][i].name)
    requires w.runs[r].status == RunStatus.Running
    ensures GoodEnd(w, r, AfterFailure(Invoke(w, r, i), r, i, failure, comps))
  {
    FailOk(w, r, i);
  }

  /** A claimable handler step of a run that is being driven. */
  ghost predicate Claimable(w: World, r: RunId, i: nat) {
    && RunOk(w, r) && (w.runs[r].status == RunStatus.Running || w.runs[r].status == Parked)
    && i == Frontier(w.steps[r]) && i < |w.steps[r]| && !IsGate(w.steps[r][i].name)
  }

  lemma PaceClaims(w: World, r: RunId, def: WorkflowDef, i: nat, answer: Outcome, now: nat,
                   comps: seq<Compensation>)
    requires Claimable(w, r, i)
    ensures Pace(w, r, def, i, answer, now, comps) ==
      match answer
      case Returns(out, more) => Onward(Succeed(Invoke(w, r, i), r, i, OutputOf(out)), comps + more)
      case Raises(failure, _) => Stop(AfterFailure(Invoke(w, r, i), r, i, failure, comps))
  {
    assert Call(r, w.steps[r][i].name) !in w.idem;
  }

  lemma GoodEndFrom(w: World, v: World, r: RunId, e: Ended)
    requires Present(w, r) && Present(v, r) && GoodEnd(v, r, e)
    requires NamesOf(v.steps[r]) == NamesOf(w.steps[r]) && Budget(v.steps[r]) <= Budget(w.steps[r])
    ensures GoodEnd(w, r, e)
  {
  }

  /** One pass over a running run keeps its invariant and ends well. */
  lemma {:induction false} WalkRunning(w: World, r: RunId, def: WorkflowDef, i: nat, oracle: seq<Outcome>,
                                       now: nat, comps: seq<Compensation>)
    requires RunOk(w, r) && w.runs[r].status == RunStatus.Running && i <= Frontier(w.steps[r])
    requires |oracle| == |w.steps[r]|
    ensures GoodEnd(w, r, Walk(w, r, def, i, oracle, now, comps))
    decreases |oracle| - i
  {
    hide Succeed, AfterFailure, OpenGate, Budget, NamesOf, IdemAgrees;
    var steps := w.steps[r];
    if i == |steps| {
      SettleGood(w, r, w.desk, RunStatus.Succeeded, Completed);
    } else if i < Frontier(steps) {
      WalkRunning(w, r, def, i + 1, oracle, now, comps);
    } else if IsGate(steps[i].name) {
      SettleGood(w, r, OpenGate(w.desk, r, steps[i].name, ConfigOf(def, steps[i].name), now),
                 AwaitingApproval, AtGate);
    } else {
      PaceClaims(w, r, def, i, oracle[i], now, comps);
      match oracle[i]
      case Returns(out, more) =>
        var next := Succeed(Invoke(w, r, i), r, i, OutputOf(out));
        SucceedOk(w, r, i, OutputOf(out));
        WalkRunning(next, r, def, i + 1, oracle, now, comps + more);
        GoodEndFrom(w, next, r, Walk(next, r, def, i + 1, oracle, now, comps + more));
      case Raises(failure, more) => FailureGood(w, r, i, failure, comps);
    }
  }

  // ----- Passes over runs that are not running -----

  /** A pass over a parked run ends refused, the run still parked and in shape. */
  ghost predicate ParkedEnd(names: seq<StepName>, r: RunId, e: Ended) {
    && RunOk(e.world, r) && NamesOf(e.world.steps[r]) == names
    && e.end == Illegal && e.world.runs[r].status == Parked
  }

  lemma ParkedFailure(w: World, r: RunId, i: nat, failure: Failure, comps: seq<Compensation>)
    requires Claimable(w, r, i) && w.runs[r].status == Parked
    ensures ParkedEnd(NamesOf(w.steps[r]), r, AfterFailure(Invoke(w, r, i), r, i, failure, comps))
  {
    hide Shape, Budget, IdemAgrees, NamesOf;
    FailOk(w, r, i);
  }

  lemma ParkedSettle(w: World, r: RunId, d: Desk, to: RunStatus, end: End)
    requires RunOk(w, r) && w.runs[r].status == Parked
    requires to == RunStatus.Succeeded || to == AwaitingApproval
    ensures ParkedEnd(NamesOf(w.steps[r]), r, Settle(w.(desk := d), r, to, end))
  {
  }

  /** Executing a parked run directly is not refused at the start: its handlers are invoked and their
      results stored, and only then does the table keep the run parked. */
  lemma {:induction false} WalkParked(w: World, r: RunId, def: WorkflowDef, i: nat, oracle: seq<Outcome>,
                                      now: nat, comps: seq<Compensation>)
    requires RunOk(w, r) && w.runs[r].status == Parked && i <= Frontier(w.steps[r])
    requires |oracle| == |w.steps[r]|
    ensures ParkedEnd(NamesOf(w.steps[r]), r, Walk(w, r, def, i, oracle, now, comps))
    decreases |oracle| - i
  {
    hide Succeed, AfterFailure, OpenGate, NamesOf, IdemAgrees;
    var steps := w.steps[r];
    if i == |steps| {
      ParkedSettle(w, r, w.desk, RunStatus.Succeeded, Completed);
    } else if i < Frontier(steps) {
      WalkParked(w, r, def, i + 1, oracle, now, comps);
    } else if IsGate(steps[i].name) {
      ParkedSettle(w, r, OpenGate(w.desk, r, steps[i].name, ConfigOf(def, steps[i].name), now),
                   AwaitingApproval, AtGate);
    } else {
      PaceClaims(w, r, def, i, oracle[i], now, comps);
      match oracle[i]
      case Returns(out, more) =>
        SucceedOk(w, r, i, OutputOf(out));
        WalkParked(Succeed(Invoke(w, r, i), r, i, OutputOf(out)), r, def, i + 1, oracle, now, comps + more);
      case Raises(failure, more) => ParkedFailure(w, r, i, failure, comps);
    }
  }

  /** Executing a run that is waiting, rejected or succeeded invokes nothing and raises; at a gate it
      leaves one more gate request behind. */
  lemma {:induction false} WalkStill(w: World, r: RunId, def: WorkflowDef, i: nat, oracle: seq<Outcome>,
                                     now: nat, comps: seq<Compensation>)
    requires RunOk(w, r) && i <= Frontier(w.steps[r]) && |oracle| == |w.steps[r]|
    requires w.runs[r].status in {AwaitingApproval, Rejected, RunStatus.Succeeded}
    ensures var k := Frontier(w.steps[r]);
      Walk(w, r, def, i, oracle, now, comps) ==
      if k == |w.steps[r]| then Ended(w, Illegal)
      else Ended(w.(desk := OpenGate(w.desk, r, w.steps[r][k].name, ConfigOf(def, w.steps[r][k].name), now)),
                 Illegal)
    decreases |oracle| - i
  {
    if i < Frontier(w.steps[r]) {
      WalkStill(w, r, def, i + 1, oracle, now, comps);
    }
  }
}
