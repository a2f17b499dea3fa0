/** Concrete sequential histories: a handler invoked past the attempt limit, and a parked run revived by a
    gate request it left pending. */
module WorkflowWitnesses {
  import opened Wrappers
  import opened States
  import opened Workflow
  import opened WorkflowRuns
  import opened WorkflowEffects
  import opened WorkflowHistory
  import opened WorkflowTheorems
  import opened WorkflowLimits
  import opened WorkflowOverrun

  // ----- Any number of invocations -----

  const RUN: RunId := "r"
  const TASK := Task("t")
  const ONE_TASK: Registry := map["flow" := WorkflowDef([TASK], map[])]

  /** Handlers that always fail for good. */
  function Fatal(r: RunId, i: nat): Outcome {
    Raises(OtherFailure, [])
  }

  function Executions(n: nat): seq<Op> {
    if n == 0 then [] else [OpExecute(RUN, false, Fatal, 0)] + Executions(n - 1)
  }

  /** The run is parked at its one handler, invoked `n` times. */
  ghost predicate StoodAt(w: World, n: nat) {
    && Present(w, RUN) && w.steps[RUN] == [Step(TASK, Failed, n, None)]
    && w.runs[RUN].status == Parked && w.runs[RUN].workflow == "flow"
    && Call(RUN, TASK) !in w.idem && multiset(w.calls)[Call(RUN, TASK)] == n
  }

  /** A pass over the one-step run whose handler fails for good. */
  lemma FatalPass(w: World, n: nat)
    requires Present(w, RUN) && |w.steps[RUN]| == 1 && w.runs[RUN].workflow == "flow"
    requires w.steps[RUN][0].name == TASK && w.steps[RUN][0].attempt == n && w.steps[RUN][0].output == None
    requires w.steps[RUN][0].status == Pending || w.steps[RUN][0].status == Failed
    requires w.runs[RUN].status == RunStatus.Running || w.runs[RUN].status == Parked
    requires Call(RUN, TASK) !in w.idem && multiset(w.calls)[Call(RUN, TASK)] == n
    ensures StoodAt(Walk(w, RUN, ONE_TASK["flow"], 0, [Raises(OtherFailure, [])], 0, []).world, n + 1)
  {
    var oracle := [Raises(OtherFailure, [])];
    assert Walk(w, RUN, ONE_TASK["flow"], 0, oracle, 0, []).world
        == AfterFailure(Invoke(w, RUN, 0), RUN, 0, OtherFailure, []).world;
    var v := AfterFailure(Invoke(w, RUN, 0), RUN, 0, OtherFailure, []).world;
    assert v.calls == w.calls + [Call(RUN, TASK)];
    assert v.steps[RUN] == [Step(TASK, Failed, n + 1, None)];
  }

  lemma FatalExecute(w: World, n: nat)
    requires Present(w, RUN) && |w.steps[RUN]| == 1 && w.runs[RUN].workflow == "flow"
    requires w.steps[RUN][0].name == TASK && w.steps[RUN][0].attempt == n && w.steps[RUN][0].output == None
    requires w.steps[RUN][0].status == Pending || w.steps[RUN][0].status == Failed
    requires w.runs[RUN].status == Queued || w.runs[RUN].status == Parked
    requires Call(RUN, TASK) !in w.idem && multiset(w.calls)[Call(RUN, TASK)] == n
    ensures StoodAt(Apply(w, ONE_TASK, OpExecute(RUN, false, Fatal, 0)), n + 1)
  {
    hide Walk, StoodAt;
    assert AnswersFor(Fatal, w, RUN) == [Raises(OtherFailure, [])];
    FatalPass(Promote(w, RUN), n);
  }

  lemma {:induction false} AgainAndAgain(w: World, k: nat, n: nat)
    requires StoodAt(w, k)
    ensures StoodAt(History(w, ONE_TASK, Executions(n)), k + n)
    decreases n
  {
    hide Apply;
    if n > 0 {
      FatalExecute(w, k);
      assert Executions(n)[1..] == Executions(n - 1);
      AgainAndAgain(Apply(w, ONE_TASK, OpExecute(RUN, false, Fatal, 0)), k + 1, n - 1);
    }
  }

  /** A started run that is executed `n` times in a row, its handler failing for good each time, has had
      that handler invoked `n` times: six executions pass the limit of five. */
  lemma InvokedAnyNumberOfTimes(n: nat)
    requires n > 0
    ensures WellNamed(ONE_TASK)
    ensures StoodAt(History(EMPTY, ONE_TASK, [OpStart("flow", RUN, "")] + Executions(n)), n)
  {
    hide Walk, StoodAt;
    var ops := [OpStart("flow", RUN, "")] + Executions(n);
    var started := Apply(EMPTY, ONE_TASK, ops[0]);
    assert started.steps[RUN] == [Step(TASK, Pending, 0, None)];
    assert ops[1..] == Executions(n);
    FatalExecute(started, 0);
    var once := Apply(started, ONE_TASK, OpExecute(RUN, false, Fatal, 0));
    assert Executions(n)[1..] == Executions(n - 1);
    assert History(started, ONE_TASK, Executions(n)) == History(once, ONE_TASK, Executions(n - 1));
    AgainAndAgain(once, 1, n - 1);
  }

  // ----- A parked run revived -----

  const ASK := Approval("g")
  const CONFIG := GateConfig(Some(Attorney), [Mcp], 10)
  const GATED: Registry := map["flow" := WorkflowDef([ASK, TASK], map["g" := CONFIG])]

  const FIRST := Payload(1, 0, RUN, ASK, 10)
  const SECOND := Payload(3, 2, RUN, ASK, 10)

  /** The gated run with the given status, gate step and task step. */
  ghost predicate StandsAs(w: World, status: RunStatus, gate: StepStatus, task: Step) {
    && Present(w, RUN) && w.runs[RUN].workflow == "flow" && w.runs[RUN].status == status
    && w.steps[RUN] == [Step(ASK, gate, 0, None), task] && Call(RUN, TASK) !in w.idem
  }

  const FRESH_TASK := Step(TASK, Pending, 0, None)

  function Request(status: GateStatus): GateRequest {
    GateRequest(RUN, ASK, Some(Attorney), status)
  }

  function Mail(gate: nat, used: bool): ApprovalToken {
    ApprovalToken(gate, RUN, ASK, Mcp, 10, used)
  }

  /** The desk after the run asked twice. */
  function AskedTwice(first: GateStatus, used: bool, decisions: seq<ApprovalDecision>): Desk {
    Desk(map[0 := Request(first), 2 := Request(GatePending)], map[1 := Mail(0, used), 3 := Mail(2, false)],
         decisions, 4)
  }

  lemma OneToken(d: Desk)
    ensures OpenGate(d, RUN, ASK, CONFIG, 0)
         == Desk(d.gates[d.nextId := Request(GatePending)], d.tokens[d.nextId + 1 := Mail(d.nextId, false)],
                 d.decisions, d.nextId + 2)
  {
    var asked := d.(gates := d.gates[d.nextId := Request(GatePending)], nextId := d.nextId + 1);
    var token := Mail(d.nextId, false);
    assert [Mcp][1..] == [];
    assert IssueTokens(asked, d.nextId, RUN, ASK, [Mcp], 10)
        == IssueTokens(asked.(tokens := asked.tokens[asked.nextId := token], nextId := asked.nextId + 1),
                       d.nextId, RUN, ASK, [], 10);
  }

  const EXECUTE := OpExecute(RUN, false, Fatal, 0)

  /** Executing the run at its gate, running or waiting, adds one gate request. */
  lemma AskPass(w: World, status: RunStatus)
    requires StandsAs(w, status, Pending, FRESH_TASK) && (status == Queued || status == AwaitingApproval)
    ensures var v := Apply(w, GATED, EXECUTE);
      StandsAs(v, AwaitingApproval, Pending, FRESH_TASK) && v.desk == OpenGate(w.desk, RUN, ASK, CONFIG, 0)
  {
    hide OpenGate;
    var m := Promote(w, RUN);
    var oracle := AnswersFor(Fatal, w, RUN);
    assert Walk(m, RUN, GATED["flow"], 0, oracle, 0, []) ==
      Settle(m.(desk := OpenGate(m.desk, RUN, ASK, CONFIG, 0)), RUN, AwaitingApproval, AtGate);
  }

  /** With the gate behind it, executing the run invokes the failing handler and parks. */
  lemma ParkingPass(w: World)
    requires StandsAs(w, RunStatus.Running, StepStatus.Succeeded, FRESH_TASK)
    ensures var v := Apply(w, GATED, EXECUTE);
      StandsAs(v, Parked, StepStatus.Succeeded, Step(TASK, Failed, 1, None)) && v.desk == w.desk
  {
    var oracle := AnswersFor(Fatal, w, RUN);
    assert oracle[1] == Fatal(RUN, 1);
    var def := GATED["flow"];
    assert Walk(w, RUN, def, 0, oracle, 0, []) == Walk(w, RUN, def, 1, oracle, 0, []);
    assert Walk(w, RUN, def, 1, oracle, 0, []) == AfterFailure(Invoke(w, RUN, 1), RUN, 1, OtherFailure, []);
  }

  lemma ApprovingPass(w: World)
    requires StandsAs(w, AwaitingApproval, Pending, FRESH_TASK) && w.desk == AskedTwice(GatePending, false, [])
    ensures var v := Apply(w, GATED, OpResolve(FIRST, true, Some(Attorney), Mcp, 0));
      && StandsAs(v, RunStatus.Running, StepStatus.Succeeded, FRESH_TASK)
      && exists decisions :: v.desk == AskedTwice(Approved, true, decisions)
  {
    hide Resolve;
    var spent := w.(desk := AskedTwice(GatePending, true, []));
    assert Resolve(w, FIRST, true, Some(Attorney), Mcp, 0) == Rule(spent, FIRST, true, Some(Attorney), Mcp) by {
      FirstPasses(w);
    }
    var v := Rule(spent, FIRST, true, Some(Attorney), Mcp).world;
    assert IndexOf(w.steps[RUN], ASK) == 0;
    assert v.desk == AskedTwice(Approved, true, v.desk.decisions);
  }

  lemma FirstPasses(w: World)
    requires w.desk == AskedTwice(GatePending, false, [])
    ensures var spent := w.(desk := AskedTwice(GatePending, true, []));
      Resolve(w, FIRST, true, Some(Attorney), Mcp, 0) == Rule(spent, FIRST, true, Some(Attorney), Mcp)
  {
    hide Rule;
    assert Spend(w.desk, 1) == AskedTwice(GatePending, true, []);
  }

  function UpToPark(): seq<Op> {
    [OpStart("flow", RUN, ""), EXECUTE, EXECUTE, OpResolve(FIRST, true, Some(Attorney), Mcp, 0), EXECUTE]
  }

  lemma {:induction false} HistorySnoc(w: World, defs: Registry, ops: seq<Op>, op: Op)
    ensures History(w, defs, ops + [op]) == Apply(History(w, defs, ops), defs, op)
    decreases |ops|
  {
    hide Apply;
    if ops == [] {
      assert [op][1..] == [] && [] + [op] == [op];
    } else {
      assert (ops + [op])[1..] == ops[1..] + [op];
      HistorySnoc(Apply(w, defs, ops[0]), defs, ops[1..], op);
    }
  }

  /** A waiting run is executed once more and so asks twice; the first request is approved; the handler
      behind it fails for good and the run parks; approving the request left pending sets it running. */
  lemma ParkedRunRevived()
    ensures WellNamed(GATED)
    ensures var w := History(EMPTY, GATED, UpToPark());
      && WorldInv(w, GATED) && Rules(w.desk, SECOND, Some(Attorney), 0)
      && RUN in w.runs && w.runs[RUN].status == Parked
      && var v := History(EMPTY, GATED, UpToPark() + [OpResolve(SECOND, true, Some(Attorney), Mcp, 0)]);
      RUN in v.runs && v.runs[RUN].status == RunStatus.Running
  {
    hide Apply, WorldInv, Rules, StandsAs, UpToPark, AskedTwice;
    var w := History(EMPTY, GATED, UpToPark());
    GatedNames();
    FiveSteps();
    var w1 := FirstAsk();
    var w3 := SecondAsk(w1);
    ApprovingPass(w3);
    var w4 := Apply(w3, GATED, OpResolve(FIRST, true, Some(Attorney), Mcp, 0));
    ParkingPass(w4);
    Standing(w, Parked, StepStatus.Succeeded, Step(TASK, Failed, 1, None));
    EmptyInv(GATED);
    HistoryInv(EMPTY, GATED, UpToPark());
    StillPending(w);
    OldApprovalRevivesParked(w, GATED, SECOND, Some(Attorney), Mcp, 0);
    ApplyResolve(w, SECOND);
    HistorySnoc(EMPTY, GATED, UpToPark(), OpResolve(SECOND, true, Some(Attorney), Mcp, 0));
  }

  lemma GatedNames()
    ensures WellNamed(GATED)
  {
  }

  lemma ApplyResolve(w: World, p: Payload)
    ensures Apply(w, GATED, OpResolve(p, true, Some(Attorney), Mcp, 0))
         == Resolve(w, p, true, Some(Attorney), Mcp, 0).world
  {
    hide Resolve;
  }

  lemma Standing(w: World, status: RunStatus, gate: StepStatus, task: Step)
    requires StandsAs(w, status, gate, task)
    ensures RUN in w.runs && w.runs[RUN].status == status
  {
  }

  lemma FirstAsk() returns (w: World)
    ensures w == Apply(Apply(EMPTY, GATED, OpStart("flow", RUN, "")), GATED, EXECUTE)
    ensures StandsAs(w, AwaitingApproval, Pending, FRESH_TASK)
    ensures w.desk == Desk(map[0 := Request(GatePending)], map[1 := Mail(0, false)], [], 2)
  {
    hide Execute, OpenGate;
    var started := Apply(EMPTY, GATED, OpStart("flow", RUN, ""));
    assert started.steps[RUN] == [Step(ASK, Pending, 0, None), FRESH_TASK];
    AskPass(started, Queued);
    OneToken(started.desk);
    w := Apply(started, GATED, EXECUTE);
  }

  lemma SecondAsk(w: World) returns (v: World)
    requires StandsAs(w, AwaitingApproval, Pending, FRESH_TASK)
    requires w.desk == Desk(map[0 := Request(GatePending)], map[1 := Mail(0, false)], [], 2)
    ensures v == Apply(w, GATED, EXECUTE)
    ensures StandsAs(v, AwaitingApproval, Pending, FRESH_TASK) && v.desk == AskedTwice(GatePending, false, [])
  {
    hide Apply, OpenGate, StandsAs;
    AskPass(w, AwaitingApproval);
    OneToken(w.desk);
    v := Apply(w, GATED, EXECUTE);
  }

  lemma StillPending(w: World)
    requires exists decisions :: w.desk == AskedTwice(Approved, true, decisions)
    ensures Rules(w.desk, SECOND, Some(Attorney), 0)
  {
  }

  lemma FiveSteps()
    ensures var w1 := Apply(EMPTY, GATED, OpStart("flow", RUN, ""));
      var w2 := Apply(w1, GATED, EXECUTE);
      var w3 := Apply(w2, GATED, EXECUTE);
      var w4 := Apply(w3, GATED, OpResolve(FIRST, true, Some(Attorney), Mcp, 0));
      History(EMPTY, GATED, UpToPark()) == Apply(w4, GATED, EXECUTE)
  {
    hide Apply;
    var approve := OpResolve(FIRST, true, Some(Attorney), Mcp, 0);
    var start := OpStart("flow", RUN, "");
    HistorySnoc(EMPTY, GATED, [], start);
    HistorySnoc(EMPTY, GATED, [start], EXECUTE);
    HistorySnoc(EMPTY, GATED, [start, EXECUTE], EXECUTE);
    HistorySnoc(EMPTY, GATED, [start, EXECUTE, EXECUTE], approve);
    HistorySnoc(EMPTY, GATED, [start, EXECUTE, EXECUTE, approve], EXECUTE);
    assert [] + [start] == [start];
    assert [start] + [EXECUTE] == [start, EXECUTE];
    assert [start, EXECUTE] + [EXECUTE] == [start, EXECUTE, EXECUTE];
    assert [start, EXECUTE, EXECUTE] + [approve] == [start, EXECUTE, EXECUTE, approve];
    assert [start, EXECUTE, EXECUTE, approve] + [EXECUTE] == UpToPark();
  }
}
