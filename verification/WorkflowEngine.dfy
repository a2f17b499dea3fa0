/** The engine and its callers as the code runs them, each proved to do to the stores exactly what its
    function in `Workflow` says (src/cam/core/orchestrator/engine.py, gates.py, triggers.py, recovery.py). */
module WorkflowEngine {
  import opened Wrappers
  import opened States
  import opened Workflow
  import opened WorkflowRuns
  import opened WorkflowHistory
  import opened WorkflowTheorems
  import opened WorkflowDesk
  import opened WorkflowPass
  import opened WorkflowStarts
  import opened WorkflowSweeps
  import opened RunStore

  /** How one round of the step loop left the pass. */
  datatype Progress = GoOn(comps: seq<Compensation>) | Halt(end: End)

  class Engine {
    const store: InMemoryRunStore
    const idem: InMemoryIdempotencyStore
    const defs: Registry
    var calls: seq<Call>
    var undone: seq<Compensation>

    constructor (store: InMemoryRunStore, idem: InMemoryIdempotencyStore, defs: Registry)
      ensures this.store == store && this.idem == idem && this.defs == defs && calls == [] && undone == []
    {
      this.store, this.idem, this.defs := store, idem, defs;
      calls, undone := [], [];
    }

    ghost function View(): World
      reads this, store, idem
    {
      store.View().(idem := idem.outputs, calls := calls, undone := undone)
    }

    ghost predicate Names(r: RunId)
      reads store
    {
      r in store.runs && r in store.steps && Distinct(NamesOf(store.steps[r]))
    }

    /** Ask for approval: one gate request, one token per channel, then the run waits. */
    method HandleGate(r: RunId, name: StepName, cfg: GateConfig, now: nat) returns (end: End)
      requires r in store.runs
      modifies store
      ensures Ended(View(), end) ==
        Settle(old(View()).(desk := OpenGate(old(View()).desk, r, name, cfg, now)), r, AwaitingApproval, AtGate)
      ensures Asked(old(View()).desk, View().desk, r, name, cfg, now)
      ensures View() == old(View()).(desk := View().desk, runs := store.runs)
      ensures Leaves(old(View()), View(), r, AwaitingApproval, AtGate, end)
    {
      hide Asked;
      OpenGateAsks(View().desk, r, name, cfg, now);
      var gate := store.FreshId();
      store.PutGate(gate, GateRequest(r, name, cfg.role, GatePending));
      ghost var runs, order, steps, dedupe := store.runs, store.order, store.steps, store.dedupe;
      ghost var target := OpenGate(old(View()).desk, r, name, cfg, now);
      for c := 0 to |cfg.channels|
        invariant store.runs == runs && store.order == order && store.steps == steps && store.dedupe == dedupe
        invariant IssueTokens(Desk(store.gates, store.tokens, store.decisions, store.nextId), gate, r, name,
                              cfg.channels[c..], now + cfg.ttl) == target
      {
        var id := store.FreshId();
        store.SaveToken(id, ApprovalToken(gate, r, name, cfg.channels[c], now + cfg.ttl, false));
        assert cfg.channels[c..][1..] == cfg.channels[c + 1..];
      }
      var moved := store.UpdateRunStatus(r, AwaitingApproval, None, None);
      end := if moved.Ok? then AtGate else Illegal;
    }

    /** Try the registered compensations, latest first; one that raises does not stop the rest. */
    method Compensate(comps: seq<Compensation>)
      modifies this`undone
      ensures undone == old(undone) + Reverse(comps) && Backwards(old(undone), undone, comps)
    {
      hide Backwards;
      ReversedBackwards(undone, comps);
      var left := comps;
      while left != []
        invariant undone + Reverse(left) == old(undone) + Reverse(comps)
        decreases |left|
      {
        var last := left[|left| - 1];
        ReverseLast(left);
        assert undone + ([last] + Reverse(left[..|left| - 1])) == (undone + [last]) + Reverse(left[..|left| - 1]);
        undone := undone + [last];
        left := left[..|left| - 1];
      }
    }

    method ParkPass(r: RunId, error: StepError, comps: seq<Compensation>) returns (end: End)
      requires r in store.runs
      modifies this`undone, store`runs
      ensures Ended(View(), end) == ParkRun(old(View()), r, error, comps)
    {
      Compensate(comps);
      var moved := store.UpdateRunStatus(r, Parked, None, Some(error));
      end := if moved.Ok? then ParkedRun else Illegal;
    }

    /** The handler of step `i` is invoked; `answer` is what it does. */
    method InvokeHandler(r: RunId, name: StepName, answer: Outcome) returns (got: Outcome)
      modifies this`calls
      ensures calls == old(calls) + [Call(r, name)] && got == answer
    {
      calls := calls + [Call(r, name)];
      got := answer;
    }

    method Remember(key: Call, out: Output)
      modifies idem
      ensures idem.outputs == old(idem.outputs)[key := out]
    {
      var first := idem.Reserve(key);
      idem.Record(key, out);
    }

    /** A handler returned: its output is reserved and recorded, then the step is stored as succeeded. */
    method CommitStep(r: RunId, i: nat, running: Step, out: Option<Output>)
      requires Names(r) && i < |store.steps[r]| && store.steps[r][i] == running
      requires running.status == StepStatus.Running
      modifies store`steps, store`runs, idem
      ensures View() == Succeed(old(View()), r, i, OutputOf(out))
      ensures var output := if out.Some? then out.value else map[];
        var done := Step(running.name, StepStatus.Succeeded, running.attempt + 1, Some(output));
        && store.steps == old(store.steps)[r := old(store.steps)[r][i := done]]
        && store.runs == old(store.runs)[r := old(store.runs)[r].(current := Some(running.name))]
        && idem.outputs == old(idem.outputs)[Call(r, running.name) := output]
    {
      var output := if out.Some? then out.value else PLACEHOLDER;
      var key := Call(r, running.name);
      IndexOfIs(store.steps[r], i);
      Remember(key, output);
      var written := store.UpdateStep(r, running.(status := StepStatus.Succeeded, output := Some(output),
                                                  attempt := running.attempt + 1));
      var moved := store.SetCurrentStep(r, running.name);
    }

    /** A handler raised: the failure is stored, then a retryable one with attempts left asks for the
        write back to pending, which the table refuses, and any other parks the run. */
    method FailPass(r: RunId, i: nat, running: Step, failure: Failure, comps: seq<Compensation>) returns (end: End)
      requires Names(r) && i < |store.steps[r]| && store.steps[r][i] == running
      requires running.status == StepStatus.Running
      modifies this`undone, store`steps, store`runs
      ensures Ended(View(), end) == AfterFailure(old(View()), r, i, failure, comps)
    {
      IndexOfIs(store.steps[r], i);
      var error := Classify(failure, running.attempt);
      var failed := running.(status := Failed, attempt := running.attempt + 1);
      var written := store.UpdateStep(r, failed);
      if error.retryable && failed.attempt < MAX_ATTEMPTS {
        assert NamesOf(store.steps[r]) == NamesOf(old(store.steps[r]));
        IndexOfIs(store.steps[r], i);
        var retry := store.UpdateStep(r, failed.(status := Pending));
        assert retry == Err(IllegalTransition);
        return Illegal;
      }
      end := ParkPass(r, error, comps);
    }

    /** One round of the step loop on the worker's copy `step` of step `i`. */
    method RunStep(r: RunId, def: WorkflowDef, i: nat, step: Step, answer: Outcome, now: nat,
                   comps: seq<Compensation>) returns (p: Progress)
      requires Names(r) && i < |store.steps[r]| && store.steps[r][i] == step
      modifies this`calls, this`undone, store, idem
      ensures match p
        case GoOn(more) => Pace(old(View()), r, def, i, answer, now, comps) == Onward(View(), more)
        case Halt(end) => Pace(old(View()), r, def, i, answer, now, comps) == Stop(Ended(View(), end))
    {
      hide Succeed, AfterFailure;
      if Finished(step.status) {
        return GoOn(comps);
      }
      if IsGate(step.name) {
        var end := HandleGate(r, step.name, ConfigOf(def, step.name), now);
        return Halt(end);
      }
      var existing := idem.Lookup(Call(r, step.name));
      if existing.Some? {
        var moved := store.SetCurrentStep(r, step.name);
        return GoOn(comps);
      }
      IndexOfIs(store.steps[r], i);
      var running := step.(status := StepStatus.Running);
      var claimed := store.UpdateStep(r, running);
      if claimed.Err? {
        return Halt(Illegal);
      }
      assert NamesOf(store.steps[r]) == NamesOf(old(store.steps[r]));
      var got := InvokeHandler(r, step.name, answer);
      assert View() == Invoke(old(View()), r, i);
      match got
      case Returns(out, more) =>
        CommitStep(r, i, running, out);
        return GoOn(comps + more);
      case Raises(failure, _) =>
        var end := FailPass(r, i, running, failure, comps);
        return Halt(end);
    }

    /** `execute`: advance the run until it completes, waits, parks, or raises. */
    method Execute(r: RunId, locked: bool, oracle: seq<Outcome>, now: nat) returns (end: End)
      requires r in store.runs <==> r in store.steps
      requires r in store.runs ==> Names(r) && |oracle| == |store.steps[r]|
      modifies this`calls, this`undone, store, idem
      ensures Ended(View(), end) == Workflow.Execute(old(View()), defs, r, locked, oracle, now)
      ensures Executed(old(View()), View(), defs, r, locked, oracle, now, end)
    {
      ghost var w := View();
      ghost var e := Workflow.Execute(w, defs, r, locked, oracle, now);
      ExecuteIff(w, e.world, defs, r, locked, oracle, now, e.end);
      var run := store.GetRun(r);
      if run.None? {
        return Missing;
      }
      if locked {
        return Locked;
      }
      if run.value.status == Queued {
        var moved := store.UpdateRunStatus(r, RunStatus.Running, None, None);
      }
      if run.value.workflow !in defs {
        return Missing;
      }
      var def := defs[run.value.workflow];
      assert View() == Promote(old(View()), r);
      end := WalkSteps(r, def, oracle, now);
    }

    /** The step loop, over a copy of the steps taken once. */
    method WalkSteps(r: RunId, def: WorkflowDef, oracle: seq<Outcome>, now: nat) returns (end: End)
      requires Names(r) && |oracle| == |store.steps[r]|
      modifies this`calls, this`undone, store, idem
      ensures Ended(View(), end) == Walk(old(View()), r, def, 0, oracle, now, [])
    {
      var snap := store.GetSteps(r);
      var comps := [];
      for i := 0 to |snap|
        invariant Names(r) && |store.steps[r]| == |snap| == |oracle|
        invariant forall j :: i <= j < |snap| ==> store.steps[r][j] == snap[j]
        invariant Walk(View(), r, def, i, oracle, now, comps) == Walk(old(View()), r, def, 0, oracle, now, [])
      {
        label before:
        var p := RunStep(r, def, i, snap[i], oracle[i], now, comps);
        match p
        case Halt(halted) => return halted;
        case GoOn(more) =>
          PaceNames(old@before(View()), r, def, i, oracle[i], now, comps);
          comps := more;
      }
      var moved := store.UpdateRunStatus(r, RunStatus.Succeeded, None, None);
      end := if moved.Ok? then Completed else Illegal;
    }
  }

  /** `resolve_gate` on a raw token that carries `p`; `genuine` is the verdict of the ideal signature. */
  method ResolveGate(store: InMemoryRunStore, p: Payload, genuine: bool, approve: bool, actor: Standing,
                     channel: Channel, now: nat) returns (ruling: Ruling)
    requires genuine <==> Genuine(store.View().desk, p)
    modifies store
    ensures Resolved(store.View(), ruling) == Resolve(old(store.View()), p, approve, actor, channel, now)
    ensures Resolves(old(store.View()), store.View(), p, approve, actor, channel, now, ruling)
  {
    hide Rule, Resolves;
    ResolveIs(store.View(), p, approve, actor, channel, now);
    if !genuine || now > p.expires {
      return Refused(401);
    }
    var first := store.MarkTokenUsed(p.token);
    if !first {
      return Refused(409);
    }
    if p.gate !in store.gates {
      return Refused(404);
    }
    var gate := store.gates[p.gate];
    if gate.status != GatePending {
      return Refused(409);
    }
    if !MayDecide(actor, gate.role) {
      return Refused(403);
    }
    ruling := RecordRuling(store, p, approve, actor, channel);
  }

  /** Record the decision, flip the gate, move the run and advance its gate step. */
  method RecordRuling(store: InMemoryRunStore, p: Payload, approve: bool, actor: Standing, channel: Channel)
    returns (ruling: Ruling)
    requires p.gate in store.gates
    modifies store
    ensures Resolved(store.View(), ruling) == Rule(old(store.View()), p, approve, actor, channel)
  {
    var gate := store.gates[p.gate];
    store.SaveApprovalDecision(ApprovalDecision(p.gate, p.run, p.step, approve, actor, channel, p.token));
    store.PutGate(p.gate, gate.(status := if approve then Approved else RejectedGate));
    var moved := store.UpdateRunStatus(p.run, if approve then RunStatus.Running else Rejected, None, None);
    if moved.Err? {
      return Stuck;
    }
    if approve {
      store.AdvanceGateStep(p.run, p.step);
    }
    ruling := RulingRecorded;
  }

  /** `start_run`: `idemKey` overrides `triggerKey`; empty keys count as absent. */
  method Start(store: InMemoryRunStore, defs: Registry, workflow: string, r: RunId, idemKey: string,
               triggerKey: string) returns (started: Option<RunId>)
    modifies store
    ensures Starts(old(store.View()), store.View(), defs, workflow, r, if idemKey != "" then idemKey else triggerKey,
                   started)
  {
    if workflow !in defs {
      return None;
    }
    var key := if idemKey != "" then idemKey else triggerKey;
    var id := store.CreateRun(r, Run(workflow, Queued, None, None), FanOut(defs[workflow].steps), key);
    started := Some(id);
  }

  /** The sweep drives one run; whatever it raises is logged and swallowed. */
  method DriveRun(engine: Engine, r: RunId, oracle: Oracle, now: nat)
    requires WorldInv(engine.View(), engine.defs) && r in engine.store.runs
    modifies engine`calls, engine`undone, engine.store, engine.idem
    ensures WorldInv(engine.View(), engine.defs)
    ensures var w := old(engine.View());
      engine.View() == Workflow.Execute(w, engine.defs, r, false, AnswersFor(oracle, w, r), now).world
  {
    ghost var w := engine.View();
    assert RunInv(w, engine.defs, r);
    var snap := engine.store.GetSteps(r);
    var end := engine.Execute(r, false, Answers(oracle, r, |snap|), now);
    ExecuteInv(w, engine.defs, r, false, AnswersFor(oracle, w, r), now);
  }

  /** One turn of the sweep: the listed run is driven and the rest of the sweep is as before. */
  method SweepNext(engine: Engine, listed: seq<RunId>, i: nat, oracle: Oracle, now: nat) returns (driven: seq<RunId>)
    requires WorldInv(engine.View(), engine.defs) && Distinct(listed) && i < |listed|
    requires AllRecoverable(engine.View(), listed, i)
    modifies engine`calls, engine`undone, engine.store, engine.idem
    ensures WorldInv(engine.View(), engine.defs) && AllRecoverable(engine.View(), listed, i + 1)
    ensures SweepRuns(engine.View(), engine.defs, listed[i + 1..], oracle, now)
         == old(SweepRuns(engine.View(), engine.defs, listed[i..], oracle, now))
    ensures driven == [listed[i]]
  {
    ghost var w := engine.View();
    var run := engine.store.GetRun(listed[i]);
    assert Recoverable(w, listed[i]) && listed[i..][1..] == listed[i + 1..];
    driven := [];
    if run.Some? && run.value.status != AwaitingApproval {
      driven := [listed[i]];
      DriveRun(engine, listed[i], oracle, now);
      OthersRecoverable(w, engine.View(), engine.defs, listed, i, AnswersFor(oracle, w, listed[i]), now);
    }
  }

  /** `recovery_sweep`, executing in process: every listed run is driven once, and the result names exactly
      the runs that were queued or running when the sweep began. */
  method RecoverySweep(engine: Engine, oracle: Oracle, now: nat) returns (enqueued: seq<RunId>)
    requires WorldInv(engine.View(), engine.defs)
    modifies engine`calls, engine`undone, engine.store, engine.idem
    ensures WorldInv(engine.View(), engine.defs)
    ensures engine.View() == Sweep(old(engine.View()), engine.defs, oracle, now)
    ensures enqueued == Listed(old(engine.View()), old(engine.View()).order)
    ensures RecoverableInOrder(old(engine.View()), enqueued)
    ensures Swept(old(engine.View()), engine.View(), engine.defs, enqueued, oracle, now)
  {
    hide RecoverableInOrder, Swept;
    SweepIs(engine.View(), engine.defs, oracle, now);
    var listed := engine.store.FindRecoverableRuns();
    ListedSame(engine.store.View(), engine.View(), engine.store.order);
    ListedIs(engine.View(), engine.store.order);
    enqueued := [];
    for i := 0 to |listed|
      invariant WorldInv(engine.View(), engine.defs) && AllRecoverable(engine.View(), listed, i)
      invariant enqueued == listed[..i]
      invariant SweepRuns(engine.View(), engine.defs, listed[i..], oracle, now)
             == Sweep(old(engine.View()), engine.defs, oracle, now)
    {
      var driven := SweepNext(engine, listed, i, oracle, now);
      TakeNext(listed, i);
      enqueued := enqueued + driven;
    }
  }

  lemma TakeNext<T>(s: seq<T>, i: nat)
    requires i < |s|
    ensures s[..i + 1] == s[..i] + [s[i]]
  {
  }

  lemma {:induction false} ListedSame(v: World, w: World, order: seq<RunId>)
    requires v.runs == w.runs
    ensures Listed(v, order) == Listed(w, order)
    decreases |order|
  {
    if order != [] {
      ListedSame(v, w, order[1..]);
    }
  }

  /** A round that goes on keeps the names and writes no later step. */
  lemma PaceNames(w: World, r: RunId, def: WorkflowDef, i: nat, answer: Outcome, now: nat,
                  comps: seq<Compensation>)
    requires Present(w, r) && i < |w.steps[r]| && Pace(w, r, def, i, answer, now, comps).Onward?
    ensures var v := Pace(w, r, def, i, answer, now, comps).next;
      && NamesOf(v.steps[r]) == NamesOf(w.steps[r])
      && forall j :: i < j < |w.steps[r]| ==> v.steps[r][j] == w.steps[r][j]
  {
  }

  lemma {:induction false} ReverseLast<T>(s: seq<T>)
    requires s != []
    ensures Reverse(s) == [s[|s| - 1]] + Reverse(s[..|s| - 1])
    decreases |s|
  {
    if |s| > 1 {
      ReverseLast(s[1..]);
      assert s[1..][..|s| - 2] == s[..|s| - 1][1..];
    }
  }
}
