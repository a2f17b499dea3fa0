/** What one `execute` pass stores, invokes and answers, read off the stored state and the handlers'
    answers before the call (src/cam/core/orchestrator/engine.py). */
module WorkflowPass {
  import opened Wrappers
  import opened States
  import opened Workflow
  import opened WorkflowRuns
  import opened WorkflowDesk

  // ----- Where a pass goes -----

  /** The step is over: succeeded, skipped or compensated. */
  predicate Over(step: Step) {
    step.status == StepStatus.Succeeded || step.status == Skipped || step.status == Compensated
  }

  /** A non-empty output is recorded for the step. */
  predicate HasOutput(w: World, r: RunId, name: StepName) {
    Call(r, name) in w.idem && w.idem[Call(r, name)] != map[]
  }

  /** A pass that comes to step `i` invokes its handler. */
  predicate Calls(w: World, r: RunId, i: nat)
    requires r in w.steps && i < |w.steps[r]|
  {
    var step := w.steps[r][i];
    && step.name.Task? && !HasOutput(w, r, step.name) && (step.status == Pending || step.status == Failed)
  }

  /** A pass that comes to step `i` goes on behind it. */
  predicate Passes(w: World, r: RunId, oracle: seq<Outcome>, i: nat)
    requires r in w.steps && i < |w.steps[r]| == |oracle|
  {
    var step := w.steps[r][i];
    || Over(step)
    || (step.name.Task? && (HasOutput(w, r, step.name) || (Calls(w, r, i) && oracle[i].Returns?)))
  }

  /** The pass goes over the first `k` steps and stops at the next, or completes. */
  ghost predicate Halts(w: World, r: RunId, oracle: seq<Outcome>, k: nat)
    requires r in w.steps && |w.steps[r]| == |oracle|
  {
    && k <= |oracle| && (forall j: nat :: j < k ==> Passes(w, r, oracle, j))
    && (k < |oracle| ==> !Passes(w, r, oracle, k))
  }

  // ----- What the steps passed leave behind -----

  /** What is kept of a handler's return: its output, or the empty one for none. */
  function Kept(answer: Outcome): Output {
    if answer.Returns? && answer.out.Some? then answer.out.value else map[]
  }

  /** The handler of step `j` is invoked and returns in a pass over the first `k` steps. */
  predicate Commits(w: World, r: RunId, k: nat, j: nat)
    requires r in w.steps && k <= |w.steps[r]|
  {
    j < k && Calls(w, r, j)
  }

  /** Each step whose handler returned is stored succeeded with what it returned and one attempt more;
      every other step is as it was. */
  ghost predicate StepsKept(w: World, after: seq<Step>, r: RunId, oracle: seq<Outcome>, k: nat)
    requires r in w.steps && k <= |w.steps[r]| == |oracle|
  {
    && |after| == |oracle|
    && forall j: nat :: j < |oracle| ==>
         var step := w.steps[r][j];
         after[j] == if Commits(w, r, k, j)
                     then Step(step.name, StepStatus.Succeeded, step.attempt + 1, Some(Kept(oracle[j])))
                     else step
  }

  /** The idempotency record of each step whose handler returned holds what it returned; every other record
      is as it was. */
  ghost predicate RecordsKept(w: World, after: map<Call, Output>, r: RunId, oracle: seq<Outcome>, k: nat)
    requires r in w.steps && k <= |w.steps[r]| == |oracle|
  {
    && (forall j: nat :: j < k && Calls(w, r, j) ==>
          Call(r, w.steps[r][j].name) in after && after[Call(r, w.steps[r][j].name)] == Kept(oracle[j]))
    && (forall c: Call :: !Rewritten(w, r, k, c) ==>
          (c in after <==> c in w.idem) && (c in w.idem ==> after[c] == w.idem[c]))
  }

  ghost predicate Rewritten(w: World, r: RunId, k: nat, c: Call)
    requires r in w.steps && k <= |w.steps[r]|
  {
    exists j: nat :: j < k && Calls(w, r, j) && c == Call(r, w.steps[r][j].name)
  }

  /** The current step names the last of the first `k` steps that was not over before. */
  function Current(w: World, r: RunId, k: nat): Option<StepName>
    requires Present(w, r) && k <= |w.steps[r]|
  {
    if k == 0 then w.runs[r].current
    else if Over(w.steps[r][k - 1]) then Current(w, r, k - 1)
    else Some(w.steps[r][k - 1].name)
  }

  /** The invocations of the first `k` steps, in declared order. */
  function Invoked(w: World, r: RunId, k: nat): seq<Call>
    requires r in w.steps && k <= |w.steps[r]|
  {
    if k == 0 then []
    else Invoked(w, r, k - 1) + if Calls(w, r, k - 1) then [Call(r, w.steps[r][k - 1].name)] else []
  }

  /** What the handlers invoked among the first `k` steps registered, in declared order. */
  function Undoing(w: World, r: RunId, oracle: seq<Outcome>, k: nat): seq<Compensation>
    requires r in w.steps && k <= |w.steps[r]| == |oracle|
  {
    if k == 0 then []
    else Undoing(w, r, oracle, k - 1) + if Calls(w, r, k - 1) then oracle[k - 1].comps else []
  }

  /** `v` is `w` after a pass went over the first `k` steps. */
  ghost predicate PassedOver(w: World, v: World, r: RunId, oracle: seq<Outcome>, k: nat)
    requires Present(w, r) && k <= |w.steps[r]| == |oracle|
  {
    && Present(v, r)
    && v == w.(steps := w.steps[r := v.steps[r]], idem := v.idem,
               runs := w.runs[r := w.runs[r].(current := Current(w, r, k))], calls := w.calls + Invoked(w, r, k))
    && StepsKept(w, v.steps[r], r, oracle, k) && RecordsKept(w, v.idem, r, oracle, k)
  }

  // ----- How it stops -----

  /** The run's status moves if it is running, with the given end; elsewhere the move is refused. */
  predicate Leaves(mid: World, v: World, r: RunId, to: RunStatus, at: End, end: End)
    requires r in mid.runs
  {
    if mid.runs[r].status == RunStatus.Running
    then v.runs == mid.runs[r := mid.runs[r].(status := to)] && end == at
    else v.runs == mid.runs && end == Illegal
  }

  /** The gate's configuration: the one given for it, or one approval by an attorney over all three
      channels within a day. */
  function Configured(def: WorkflowDef, gate: string): GateConfig {
    if gate in def.gates then def.gates[gate]
    else GateConfig(Some(Attorney), [Mcp, Web, Email], 86400)
  }

  /** The handler invoked at step `k` raised `failure`: the step is failed with one attempt more; a connector
      failure marked retryable below the fifth attempt leaves it at that and raises; any other runs the
      `undoing` backwards and parks a running run with the error. */
  ghost predicate Fails(mid: World, v: World, r: RunId, k: nat, failure: Failure, undoing: seq<Compensation>, end: End)
    requires Present(mid, r) && k < |mid.steps[r]|
  {
    var step := mid.steps[r][k];
    var retryable := failure == ConnectorFailure(true);
    && v == mid.(steps := mid.steps[r := mid.steps[r][k := step.(status := Failed, attempt := step.attempt + 1)]],
                 calls := mid.calls + [Call(r, step.name)], runs := v.runs, undone := v.undone)
    && if retryable && step.attempt + 1 < 5
       then v.runs == mid.runs && v.undone == mid.undone && end == Illegal
       else
         && Backwards(mid.undone, v.undone, undoing)
         && if mid.runs[r].status == RunStatus.Running
            then
              && end == ParkedRun
              && v.runs == mid.runs[r := mid.runs[r].(status := Parked,
                                                      error := Some(StepError(step.attempt, retryable)))]
            else v.runs == mid.runs && end == Illegal
  }

  /** `more` was appended backwards. */
  ghost predicate Backwards(before: seq<Compensation>, after: seq<Compensation>, more: seq<Compensation>) {
    && |after| == |before| + |more| && after[..|before|] == before
    && forall i :: |before| <= i < |after| ==> after[i] == more[|after| - 1 - i]
  }

  /** Stopped behind the first `k` steps in state `mid`, the pass leaves `v`: behind the last step the run
      succeeds; at a gate approval is asked; at a step marked running nothing happens and the claim is
      refused; at a handler that raises the failure is stored. */
  ghost predicate StopsWith(w: World, mid: World, v: World, r: RunId, def: WorkflowDef, oracle: seq<Outcome>, now: nat,
                            k: nat, end: End)
    requires Present(w, r) && Present(mid, r) && k <= |w.steps[r]| == |mid.steps[r]| == |oracle|
  {
    if k == |oracle| then v == mid.(runs := v.runs) && Leaves(mid, v, r, RunStatus.Succeeded, Completed, end)
    else
      match w.steps[r][k].name
      case Approval(gate) =>
        && v == mid.(desk := v.desk, runs := v.runs)
        && Asked(mid.desk, v.desk, r, w.steps[r][k].name, Configured(def, gate), now)
        && Leaves(mid, v, r, AwaitingApproval, AtGate, end)
      case Task(_) =>
        if !Calls(w, r, k) then v == mid && end == Illegal
        else oracle[k].Raises? && Fails(mid, v, r, k, oracle[k].failure, Undoing(w, r, oracle, k), end)
  }

  /** A pass that goes over the first `k` steps, is then in state `mid`, and leaves `v`. */
  ghost predicate Goes(w: World, mid: World, v: World, r: RunId, def: WorkflowDef, oracle: seq<Outcome>, now: nat,
                       k: nat, end: End)
    requires Present(w, r) && |w.steps[r]| == |oracle|
  {
    && Halts(w, r, oracle, k) && PassedOver(w, mid, r, oracle, k)
    && StopsWith(w, mid, v, r, def, oracle, now, k, end)
  }

  /** What a pass over a run's steps leaves behind, in full. */
  ghost predicate PassDone(w: World, v: World, r: RunId, def: WorkflowDef, oracle: seq<Outcome>, now: nat, end: End)
    requires Present(w, r) && |w.steps[r]| == |oracle|
  {
    exists k: nat, mid: World :: Goes(w, mid, v, r, def, oracle, now, k, end)
  }

  // ----- One round -----

  lemma SameStep(w: World, mid: World, r: RunId, oracle: seq<Outcome>, i: nat)
    requires Present(w, r) && i < |w.steps[r]| == |oracle| && Distinct(NamesOf(w.steps[r]))
    requires PassedOver(w, mid, r, oracle, i)
    ensures mid.steps[r][i] == w.steps[r][i]
    ensures HasOutput(mid, r, w.steps[r][i].name) <==> HasOutput(w, r, w.steps[r][i].name)
    ensures Calls(mid, r, i) <==> Calls(w, r, i)
  {
    hide Passes, Current, Invoked;
    forall j: nat | j < i
      ensures w.steps[r][j].name != w.steps[r][i].name
    {
      assert NamesOf(w.steps[r])[j] != NamesOf(w.steps[r])[i];
    }
    assert !Rewritten(w, r, i, Call(r, w.steps[r][i].name));
  }

  /** `next` is `mid` after a round at step `i` that goes on. */
  predicate Rounded(mid: World, next: World, r: RunId, oracle: seq<Outcome>, i: nat)
    requires Present(mid, r) && i < |mid.steps[r]| == |oracle|
  {
    var step := mid.steps[r][i];
    var done := Step(step.name, StepStatus.Succeeded, step.attempt + 1, Some(Kept(oracle[i])));
    if Calls(mid, r, i) then
      next == mid.(runs := mid.runs[r := mid.runs[r].(current := Some(step.name))],
                   calls := mid.calls + [Call(r, step.name)],
                   idem := mid.idem[Call(r, step.name) := Kept(oracle[i])],
                   steps := mid.steps[r := mid.steps[r][i := done]])
    else if Over(step) then next == mid
    else next == mid.(runs := mid.runs[r := mid.runs[r].(current := Some(step.name))])
  }

  lemma RoundCommits(mid: World, r: RunId, i: nat, out: Option<Output>, comps: seq<Compensation>, oracle: seq<Outcome>)
    requires Present(mid, r) && i < |mid.steps[r]| == |oracle| && Calls(mid, r, i)
    requires oracle[i] == Returns(out, comps)
    ensures Rounded(mid, Succeed(Invoke(mid, r, i), r, i, OutputOf(out)), r, oracle, i)
  {
    var step := mid.steps[r][i];
    var done := Step(step.name, StepStatus.Succeeded, step.attempt + 1, Some(Kept(oracle[i])));
    assert mid.steps[r][i := step.(status := StepStatus.Running)][i := done] == mid.steps[r][i := done];
  }

  /** A round at a step that lets the pass go on. */
  lemma RoundOn(mid: World, r: RunId, def: WorkflowDef, oracle: seq<Outcome>, i: nat, now: nat,
                comps: seq<Compensation>)
    requires Present(mid, r) && i < |mid.steps[r]| == |oracle| && Passes(mid, r, oracle, i)
    ensures var p := Pace(mid, r, def, i, oracle[i], now, comps);
      p.Onward? && Rounded(mid, p.next, r, oracle, i)
      && p.comps == comps + if Calls(mid, r, i) then oracle[i].comps else []
  {
    hide Succeed, Invoke, OutputOf, AfterFailure, OpenGate, Settle;
    assert comps + [] == comps;
    if Calls(mid, r, i) {
      hide Rounded;
      RoundCommits(mid, r, i, oracle[i].out, oracle[i].comps, oracle);
    }
  }

  lemma StepsOn(w: World, mid: World, next: World, r: RunId, oracle: seq<Outcome>, i: nat)
    requires Present(w, r) && i < |w.steps[r]| == |oracle| && Present(mid, r) && Present(next, r)
    requires StepsKept(w, mid.steps[r], r, oracle, i) && (Calls(mid, r, i) <==> Calls(w, r, i))
    requires Rounded(mid, next, r, oracle, i)
    ensures StepsKept(w, next.steps[r], r, oracle, i + 1)
  {
    hide Kept, Over, HasOutput;
    assert mid.steps[r][i] == w.steps[r][i];
  }

  lemma RewrittenOn(w: World, r: RunId, i: nat, c: Call)
    requires r in w.steps && i < |w.steps[r]|
    ensures Rewritten(w, r, i + 1, c) <==>
      Rewritten(w, r, i, c) || (Calls(w, r, i) && c == Call(r, w.steps[r][i].name))
  {
    hide Calls;
  }

  lemma RecordsOn(w: World, before: map<Call, Output>, after: map<Call, Output>, r: RunId, oracle: seq<Outcome>,
                  i: nat)
    requires Present(w, r) && i < |w.steps[r]| == |oracle| && Distinct(NamesOf(w.steps[r]))
    requires RecordsKept(w, before, r, oracle, i)
    requires after == if Calls(w, r, i) then before[Call(r, w.steps[r][i].name) := Kept(oracle[i])] else before
    ensures RecordsKept(w, after, r, oracle, i + 1)
  {
    hide Kept, Calls, Rewritten;
    forall j: nat | j < i
      ensures w.steps[r][j].name != w.steps[r][i].name
    {
      assert NamesOf(w.steps[r])[j] != NamesOf(w.steps[r])[i];
    }
    forall c: Call | !Rewritten(w, r, i + 1, c)
      ensures (c in after <==> c in w.idem) && (c in w.idem ==> after[c] == w.idem[c])
    {
      RewrittenOn(w, r, i, c);
    }
  }

  /** A pass over `i` steps that goes on behind the next has gone over `i + 1`. */
  lemma OverOne(w: World, mid: World, next: World, r: RunId, oracle: seq<Outcome>, i: nat)
    requires Present(w, r) && i < |w.steps[r]| == |oracle| && Distinct(NamesOf(w.steps[r]))
    requires PassedOver(w, mid, r, oracle, i) && Rounded(mid, next, r, oracle, i)
    ensures PassedOver(w, next, r, oracle, i + 1)
  {
    hide Kept, StepsKept, RecordsKept, Calls;
    SameStep(w, mid, r, oracle, i);
    StepsOn(w, mid, next, r, oracle, i);
    RecordsOn(w, mid.idem, next.idem, r, oracle, i);
    OverCalls(w, r, i);
  }

  lemma OverCalls(w: World, r: RunId, i: nat)
    requires r in w.steps && i < |w.steps[r]|
    ensures Over(w.steps[r][i]) ==> !Calls(w, r, i)
  {
  }

  // ----- The stop -----

  lemma {:induction false} ReverseAt<T>(s: seq<T>, i: nat)
    requires i < |s|
    ensures |Reverse(s)| == |s| && Reverse(s)[i] == s[|s| - 1 - i]
  {
    if |s| > 1 {
      ReverseAt(s[1..], if i < |s| - 1 then i else 0);
    }
  }

  lemma ReversedBackwards(before: seq<Compensation>, more: seq<Compensation>)
    ensures Backwards(before, before + Reverse(more), more)
  {
    hide Reverse;
    if more == [] {
      NothingReversed(more);
    } else {
      ReverseAt(more, 0);
    }
    forall i | 0 <= i < |more|
      ensures Reverse(more)[i] == more[|more| - 1 - i]
    {
      ReverseAt(more, i);
    }
  }

  lemma NothingReversed<T>(s: seq<T>)
    requires s == []
    ensures Reverse(s) == []
  {
  }

  lemma FailureStored(mid: World, r: RunId, i: nat, failure: Failure, comps: seq<Compensation>)
    requires Present(mid, r) && i < |mid.steps[r]|
    ensures var e := AfterFailure(Invoke(mid, r, i), r, i, failure, comps);
      Fails(mid, e.world, r, i, failure, comps, e.end)
  {
    hide Reverse, Backwards;
    var step := mid.steps[r][i];
    var failed := step.(status := Failed, attempt := step.attempt + 1);
    assert mid.steps[r][i := step.(status := StepStatus.Running)][i := failed] == mid.steps[r][i := failed];
    ReversedBackwards(mid.undone, comps);
  }

  lemma AskedHere(mid: World, r: RunId, def: WorkflowDef, name: StepName, now: nat)
    requires Present(mid, r) && name.Approval?
    ensures var e := Settle(mid.(desk := OpenGate(mid.desk, r, name, ConfigOf(def, name), now)), r,
                            AwaitingApproval, AtGate);
      && e.world == mid.(desk := e.world.desk, runs := e.world.runs)
      && Asked(mid.desk, e.world.desk, r, name, Configured(def, name.gate), now)
      && Leaves(mid, e.world, r, AwaitingApproval, AtGate, e.end)
  {
    hide OpenGate, Asked;
    OpenGateAsks(mid.desk, r, name, ConfigOf(def, name), now);
  }

  lemma SameCall(w: World, mid: World, r: RunId, k: nat)
    requires Present(w, r) && Present(mid, r) && k < |w.steps[r]| == |mid.steps[r]|
    requires Calls(mid, r, k) <==> Calls(w, r, k)
    requires mid.steps[r][k] == w.steps[r][k]
    requires HasOutput(mid, r, w.steps[r][k].name) <==> HasOutput(w, r, w.steps[r][k].name)
    ensures forall oracle: seq<Outcome> :: |oracle| == |w.steps[r]| ==>
      (Passes(mid, r, oracle, k) <==> Passes(w, r, oracle, k))
  {
  }

  /** A round at a step the pass does not go on behind. */
  lemma RoundOff(w: World, mid: World, r: RunId, def: WorkflowDef, oracle: seq<Outcome>, k: nat, now: nat)
    requires Present(w, r) && k < |w.steps[r]| == |oracle| && Distinct(NamesOf(w.steps[r]))
    requires PassedOver(w, mid, r, oracle, k) && !Passes(w, r, oracle, k)
    ensures var p := Pace(mid, r, def, k, oracle[k], now, Undoing(w, r, oracle, k));
      p.Stop? && StopsWith(w, mid, p.ended.world, r, def, oracle, now, k, p.ended.end)
  {
    hide PassedOver, StepsKept, RecordsKept, Undoing, Asked, Leaves, Fails, AfterFailure, Invoke, OpenGate, Settle;
    PassedSteps(w, mid, r, oracle, k);
    SameStep(w, mid, r, oracle, k);
    var step := w.steps[r][k];
    if step.name.Approval? {
      AskedHere(mid, r, def, step.name, now);
    } else if Calls(w, r, k) {
      FailureStored(mid, r, k, oracle[k].failure, Undoing(w, r, oracle, k));
    }
  }

  lemma PassedSteps(w: World, mid: World, r: RunId, oracle: seq<Outcome>, k: nat)
    requires Present(w, r) && k <= |w.steps[r]| == |oracle| && PassedOver(w, mid, r, oracle, k)
    ensures Present(mid, r) && |mid.steps[r]| == |oracle|
  {
  }

  // ----- The whole pass -----

  lemma {:induction false} WalkFrom(w: World, mid: World, r: RunId, def: WorkflowDef, i: nat, oracle: seq<Outcome>,
                                    now: nat)
    requires Present(w, r) && i <= |w.steps[r]| == |oracle| && Distinct(NamesOf(w.steps[r]))
    requires PassedOver(w, mid, r, oracle, i) && forall j: nat :: j < i ==> Passes(w, r, oracle, j)
    requires Present(mid, r) && |mid.steps[r]| == |oracle|
    ensures var e := Walk(mid, r, def, i, oracle, now, Undoing(w, r, oracle, i));
      PassDone(w, e.world, r, def, oracle, now, e.end)
    decreases |oracle| - i
  {
    hide PassedOver, StopsWith, Passes, Undoing, Calls, Pace, Rounded;
    var e := Walk(mid, r, def, i, oracle, now, Undoing(w, r, oracle, i));
    if i == |oracle| {
      Finishes(w, mid, r, def, oracle, now);
      assert Goes(w, mid, e.world, r, def, oracle, now, i, e.end);
    } else if Passes(w, r, oracle, i) {
      SameStep(w, mid, r, oracle, i);
      SameCall(w, mid, r, i);
      RoundOn(mid, r, def, oracle, i, now, Undoing(w, r, oracle, i));
      var next := Pace(mid, r, def, i, oracle[i], now, Undoing(w, r, oracle, i)).next;
      OverOne(w, mid, next, r, oracle, i);
      PassedSteps(w, next, r, oracle, i + 1);
      UndoingOn(w, r, oracle, i);
      WalkFrom(w, next, r, def, i + 1, oracle, now);
    } else {
      RoundOff(w, mid, r, def, oracle, i, now);
      assert Goes(w, mid, e.world, r, def, oracle, now, i, e.end);
    }
  }

  lemma UndoingOn(w: World, r: RunId, oracle: seq<Outcome>, i: nat)
    requires r in w.steps && i < |w.steps[r]| == |oracle|
    ensures Undoing(w, r, oracle, i + 1) ==
      Undoing(w, r, oracle, i) + if Calls(w, r, i) then oracle[i].comps else []
  {
  }

  lemma Finishes(w: World, mid: World, r: RunId, def: WorkflowDef, oracle: seq<Outcome>, now: nat)
    requires Present(w, r) && Present(mid, r) && |w.steps[r]| == |mid.steps[r]| == |oracle|
    ensures var e := Settle(mid, r, RunStatus.Succeeded, Completed);
      StopsWith(w, mid, e.world, r, def, oracle, now, |oracle|, e.end)
  {
  }

  lemma NothingPassed(w: World, r: RunId, oracle: seq<Outcome>)
    requires Present(w, r) && |w.steps[r]| == |oracle|
    ensures PassedOver(w, w, r, oracle, 0) && Undoing(w, r, oracle, 0) == []
  {
    assert w.runs[r := w.runs[r].(current := Current(w, r, 0))] == w.runs;
    assert w.calls + Invoked(w, r, 0) == w.calls;
  }

  /** A pass over a run's steps leaves behind exactly what the description says. */
  lemma WalkIs(w: World, r: RunId, def: WorkflowDef, oracle: seq<Outcome>, now: nat)
    requires Present(w, r) && |w.steps[r]| == |oracle| && Distinct(NamesOf(w.steps[r]))
    ensures var e := Walk(w, r, def, 0, oracle, now, []); PassDone(w, e.world, r, def, oracle, now, e.end)
  {
    hide Walk, PassDone, PassedOver, Undoing;
    var none := 0;
    NothingPassed(w, r, oracle);
    WalkFrom(w, w, r, def, none, oracle, now);
  }

  // ----- The description leaves no choice -----

  lemma HaltsOnce(w: World, r: RunId, oracle: seq<Outcome>, j: nat, k: nat)
    requires r in w.steps && |w.steps[r]| == |oracle| && Halts(w, r, oracle, j) && Halts(w, r, oracle, k)
    ensures j == k
  {
    hide Passes;
  }

  lemma RecordsUnique(w: World, a: map<Call, Output>, b: map<Call, Output>, r: RunId, oracle: seq<Outcome>, k: nat)
    requires r in w.steps && k <= |w.steps[r]| == |oracle|
    requires RecordsKept(w, a, r, oracle, k) && RecordsKept(w, b, r, oracle, k)
    ensures a == b
  {
    hide Calls, Kept;
    forall c: Call
      ensures (c in a <==> c in b) && (c in a ==> a[c] == b[c])
    {
    }
  }

  lemma OverUnique(w: World, a: World, b: World, r: RunId, oracle: seq<Outcome>, k: nat)
    requires Present(w, r) && k <= |w.steps[r]| == |oracle|
    requires PassedOver(w, a, r, oracle, k) && PassedOver(w, b, r, oracle, k)
    ensures a == b
  {
    hide RecordsKept, Current, Invoked, Calls, Kept;
    RecordsUnique(w, a.idem, b.idem, r, oracle, k);
    assert a.steps[r] == b.steps[r];
  }

  lemma BackwardsUnique(before: seq<Compensation>, a: seq<Compensation>, b: seq<Compensation>, more: seq<Compensation>)
    requires Backwards(before, a, more) && Backwards(before, b, more)
    ensures a == b
  {
    forall i | 0 <= i < |a|
      ensures a[i] == b[i]
    {
      if i < |before| {
        assert a[..|before|][i] == b[..|before|][i];
      }
    }
  }

  lemma FailsUnique(mid: World, a: World, b: World, r: RunId, k: nat, failure: Failure, undoing: seq<Compensation>,
                    x: End, y: End)
    requires Present(mid, r) && k < |mid.steps[r]|
    requires Fails(mid, a, r, k, failure, undoing, x) && Fails(mid, b, r, k, failure, undoing, y)
    ensures a == b && x == y
  {
    hide Backwards;
    if !(failure == ConnectorFailure(true) && mid.steps[r][k].attempt + 1 < 5) {
      BackwardsUnique(mid.undone, a.undone, b.undone, undoing);
    }
  }

  lemma StopsUnique(w: World, mid: World, a: World, b: World, r: RunId, def: WorkflowDef, oracle: seq<Outcome>,
                    now: nat, k: nat, x: End, y: End)
    requires Present(w, r) && Present(mid, r) && k <= |w.steps[r]| == |mid.steps[r]| == |oracle|
    requires StopsWith(w, mid, a, r, def, oracle, now, k, x) && StopsWith(w, mid, b, r, def, oracle, now, k, y)
    ensures a == b && x == y
  {
    hide Asked, Fails, Undoing;
    if k < |oracle| {
      match w.steps[r][k].name
      case Approval(gate) =>
        AskedUnique(mid.desk, a.desk, b.desk, r, w.steps[r][k].name, Configured(def, gate), now);
      case Task(_) =>
        if Calls(w, r, k) {
          FailsUnique(mid, a, b, r, k, oracle[k].failure, Undoing(w, r, oracle, k), x, y);
        }
    }
  }

  lemma PassUnique(w: World, a: World, b: World, r: RunId, def: WorkflowDef, oracle: seq<Outcome>, now: nat,
                   x: End, y: End)
    requires Present(w, r) && |w.steps[r]| == |oracle|
    requires PassDone(w, a, r, def, oracle, now, x) && PassDone(w, b, r, def, oracle, now, y)
    ensures a == b && x == y
  {
    hide Goes;
    var j: nat, mid: World :| Goes(w, mid, a, r, def, oracle, now, j, x);
    var k: nat, other: World :| Goes(w, other, b, r, def, oracle, now, k, y);
    GoesOnce(w, mid, other, a, b, r, def, oracle, now, j, k, x, y);
  }

  lemma GoesOnce(w: World, mid: World, other: World, a: World, b: World, r: RunId, def: WorkflowDef,
                 oracle: seq<Outcome>, now: nat, j: nat, k: nat, x: End, y: End)
    requires Present(w, r) && |w.steps[r]| == |oracle|
    requires Goes(w, mid, a, r, def, oracle, now, j, x) && Goes(w, other, b, r, def, oracle, now, k, y)
    ensures a == b && x == y
  {
    hide Passes, PassedOver, StopsWith;
    HaltsOnce(w, r, oracle, j, k);
    OverUnique(w, mid, other, r, oracle, k);
    PassedSteps(w, mid, r, oracle, k);
    StopsUnique(w, mid, a, b, r, def, oracle, now, k, x, y);
  }

  // ----- execute -----

  /** The world with the run taken from queued to running. */
  function Taken(w: World, r: RunId): World
    requires r in w.runs
  {
    if w.runs[r].status == Queued then w.(runs := w.runs[r := w.runs[r].(status := RunStatus.Running)]) else w
  }

  /** What `execute` answers and leaves behind: nothing for a run that is missing or locked, the run taken
      from queued to running if its workflow is not registered, a pass over its steps otherwise. */
  ghost predicate Executed(w: World, v: World, defs: Registry, r: RunId, locked: bool, oracle: seq<Outcome>, now: nat,
                           end: End)
    requires Present(w, r) ==> |oracle| == |w.steps[r]|
  {
    if !Present(w, r) then v == w && end == Missing
    else if locked then v == w && end == Locked
    else if w.runs[r].workflow !in defs then v == Taken(w, r) && end == Missing
    else PassDone(Taken(w, r), v, r, defs[w.runs[r].workflow], oracle, now, end)
  }

  /** The description holds of exactly one answer and one outcome, those of `execute`. */
  lemma ExecuteIff(w: World, v: World, defs: Registry, r: RunId, locked: bool, oracle: seq<Outcome>, now: nat, end: End)
    requires Present(w, r) ==> |oracle| == |w.steps[r]| && Distinct(NamesOf(w.steps[r]))
    ensures Executed(w, v, defs, r, locked, oracle, now, end) <==>
      Execute(w, defs, r, locked, oracle, now) == Ended(v, end)
  {
    hide Walk, PassDone, Distinct, NamesOf;
    var e := Execute(w, defs, r, locked, oracle, now);
    if Present(w, r) && !locked && w.runs[r].workflow in defs {
      var def := defs[w.runs[r].workflow];
      var taken := Taken(w, r);
      TakenIs(w, r);
      WalkIs(taken, r, def, oracle, now);
      if PassDone(taken, v, r, def, oracle, now, end) {
        PassUnique(taken, v, e.world, r, def, oracle, now, end, e.end);
      }
    }
  }

  lemma TakenIs(w: World, r: RunId)
    requires Present(w, r)
    ensures Taken(w, r) == Promote(w, r) && Present(Taken(w, r), r) && Taken(w, r).steps == w.steps
  {
  }

  // ----- What becomes of the outputs -----

  /** The record of `c` is the same in both. */
  predicate SameRecord(w: World, v: World, c: Call) {
    (c in v.idem <==> c in w.idem) && (c in w.idem ==> v.idem[c] == w.idem[c])
  }

  /** Step `i` was invoked and stored succeeded between `before` and `after`. */
  predicate NewlySucceeded(before: seq<Step>, after: seq<Step>, i: nat)
    requires i < |before| == |after|
  {
    after[i].attempt != before[i].attempt && after[i].status == StepStatus.Succeeded
  }

  /** Step `i`'s handler was invoked, returned, and what it returned is stored and recorded. */
  predicate OutputStored(v: World, r: RunId, i: nat, answer: Outcome)
    requires r in v.steps && i < |v.steps[r]|
  {
    && answer.Returns?
    && var output := match answer.out case Some(value) => value case None => map[];
       var key := Call(r, v.steps[r][i].name);
       v.steps[r][i].output == Some(output) && key in v.idem && v.idem[key] == output
  }

  ghost predicate OutputsStored(w: World, v: World, r: RunId, oracle: seq<Outcome>)
    requires Present(w, r) && |w.steps[r]| == |oracle|
  {
    && Present(v, r) && |v.steps[r]| == |oracle|
    && (forall i: nat :: i < |oracle| ==> v.steps[r][i].name == w.steps[r][i].name)
    && (forall i: nat :: i < |oracle| ==>
          if NewlySucceeded(w.steps[r], v.steps[r], i) then OutputStored(v, r, i, oracle[i])
          else v.steps[r][i].output == w.steps[r][i].output)
    && (forall c: Call :: !SameRecord(w, v, c) ==> (exists i: nat ::
          i < |oracle| && NewlySucceeded(w.steps[r], v.steps[r], i) && c == Call(r, w.steps[r][i].name)))
  }

  lemma StoppedKeeps(w: World, mid: World, v: World, r: RunId, def: WorkflowDef, oracle: seq<Outcome>, now: nat,
                     k: nat, end: End)
    requires Present(w, r) && Present(mid, r) && k <= |w.steps[r]| == |mid.steps[r]| == |oracle|
    requires StopsWith(w, mid, v, r, def, oracle, now, k, end)
    ensures v.idem == mid.idem && Present(v, r) && |v.steps[r]| == |oracle|
    ensures forall j: nat :: j < |oracle| && j != k ==> v.steps[r][j] == mid.steps[r][j]
    ensures k < |oracle| ==>
      && v.steps[r][k].output == mid.steps[r][k].output && v.steps[r][k].name == mid.steps[r][k].name
      && (v.steps[r][k].attempt != mid.steps[r][k].attempt ==> v.steps[r][k].status == Failed)
  {
    hide Asked, Calls, Undoing, Backwards;
  }

  lemma PassedStores(w: World, mid: World, r: RunId, oracle: seq<Outcome>, k: nat)
    requires Present(w, r) && k <= |w.steps[r]| == |oracle|
    requires PassedOver(w, mid, r, oracle, k) && forall j: nat :: j < k ==> Passes(w, r, oracle, j)
    ensures Present(mid, r) && |mid.steps[r]| == |oracle|
    ensures forall i: nat :: i < |oracle| ==>
      && mid.steps[r][i].name == w.steps[r][i].name
      && if Commits(w, r, k, i)
         then NewlySucceeded(w.steps[r], mid.steps[r], i) && OutputStored(mid, r, i, oracle[i])
         else mid.steps[r][i] == w.steps[r][i]
    ensures forall c: Call :: Rewritten(w, r, k, c) || SameRecord(w, mid, c)
  {
    hide Current, Invoked, HasOutput, Rewritten, Distinct;
    forall i: nat | i < |oracle| && Commits(w, r, k, i)
      ensures OutputStored(mid, r, i, oracle[i])
    {
      assert Passes(w, r, oracle, i);
    }
  }

  /** After a pass, every step that it stored succeeded holds the output its handler returned, as does its
      idempotency record; no other step's output and no other record differs. */
  lemma PassStores(w: World, v: World, r: RunId, def: WorkflowDef, oracle: seq<Outcome>, now: nat, end: End)
    requires Present(w, r) && |w.steps[r]| == |oracle| && PassDone(w, v, r, def, oracle, now, end)
    ensures OutputsStored(w, v, r, oracle)
  {
    hide Halts, PassedOver, StopsWith, Commits, OutputStored;
    var k: nat, mid: World :| Goes(w, mid, v, r, def, oracle, now, k, end);
    HaltsWithin(w, r, oracle, k);
    PassedStores(w, mid, r, oracle, k);
    StoppedKeeps(w, mid, v, r, def, oracle, now, k, end);
    forall i: nat | i < |oracle|
      ensures NewlySucceeded(w.steps[r], v.steps[r], i) <==> Commits(w, r, k, i)
      ensures if NewlySucceeded(w.steps[r], v.steps[r], i) then OutputStored(v, r, i, oracle[i])
              else v.steps[r][i].output == w.steps[r][i].output
    {
      CommitsBefore(w, r, k, i);
      if i != k && Commits(w, r, k, i) {
        StoredSame(mid, v, r, i, oracle[i]);
      }
    }
    forall c: Call | !SameRecord(w, v, c)
      ensures exists i: nat :: i < |oracle|
                               && NewlySucceeded(w.steps[r], v.steps[r], i) && c == Call(r, w.steps[r][i].name)
    {
      assert Rewritten(w, r, k, c);
      RewrittenCommits(w, r, k, c);
    }
  }

  lemma HaltsWithin(w: World, r: RunId, oracle: seq<Outcome>, k: nat)
    requires r in w.steps && |w.steps[r]| == |oracle| && Halts(w, r, oracle, k)
    ensures k <= |oracle| && forall j: nat :: j < k ==> Passes(w, r, oracle, j)
  {
  }

  lemma CommitsBefore(w: World, r: RunId, k: nat, i: nat)
    requires r in w.steps && k <= |w.steps[r]|
    ensures Commits(w, r, k, i) ==> i < k
  {
  }

  lemma StoredSame(mid: World, v: World, r: RunId, i: nat, answer: Outcome)
    requires Present(mid, r) && Present(v, r) && i < |mid.steps[r]| == |v.steps[r]|
    requires mid.idem == v.idem && mid.steps[r][i] == v.steps[r][i] && OutputStored(mid, r, i, answer)
    ensures OutputStored(v, r, i, answer)
  {
  }

  lemma RewrittenCommits(w: World, r: RunId, k: nat, c: Call)
    requires r in w.steps && k <= |w.steps[r]| && Rewritten(w, r, k, c)
    ensures exists i: nat :: i < |w.steps[r]| && Commits(w, r, k, i) && c == Call(r, w.steps[r][i].name)
  {
    var i: nat :| i < k && Calls(w, r, i) && c == Call(r, w.steps[r][i].name);
    assert Commits(w, r, k, i);
  }

  lemma NothingStored(w: World, v: World, r: RunId, oracle: seq<Outcome>)
    requires Present(w, r) && |w.steps[r]| == |oracle| && Present(v, r) && v.steps == w.steps && v.idem == w.idem
    ensures OutputsStored(w, v, r, oracle)
  {
  }

  lemma OutputsFrom(w: World, taken: World, v: World, r: RunId, oracle: seq<Outcome>)
    requires Present(w, r) && |w.steps[r]| == |oracle| && Present(taken, r)
    requires taken.steps == w.steps && taken.idem == w.idem && OutputsStored(taken, v, r, oracle)
    ensures OutputsStored(w, v, r, oracle)
  {
    hide OutputStored, NewlySucceeded;
    forall c: Call
      ensures SameRecord(w, v, c) <==> SameRecord(taken, v, c)
    {
    }
  }

  /** After `execute`, every step that it invoked and stored succeeded holds what its handler returned, the
      empty output for none, and its idempotency record holds the same; no other step's output and no other
      record differs. */
  lemma ExecuteStoresOutputs(w: World, defs: Registry, r: RunId, locked: bool, oracle: seq<Outcome>, now: nat)
    requires Present(w, r) && |oracle| == |w.steps[r]| && Distinct(NamesOf(w.steps[r]))
    ensures OutputsStored(w, Execute(w, defs, r, locked, oracle, now).world, r, oracle)
  {
    hide Execute, PassDone, OutputsStored, Distinct, NamesOf;
    var e := Execute(w, defs, r, locked, oracle, now);
    ExecuteIff(w, e.world, defs, r, locked, oracle, now, e.end);
    TakenIs(w, r);
    if !locked && w.runs[r].workflow in defs {
      PassStores(Taken(w, r), e.world, r, defs[w.runs[r].workflow], oracle, now, e.end);
      OutputsFrom(w, Taken(w, r), e.world, r, oracle);
    } else {
      NothingStored(w, e.world, r, oracle);
    }
  }
}
