/** What the engine, `resolve_gate`, `start_run` and `recovery_sweep` do to the stores when calls run
    one after another: each operation as a function from the stored world to the stored world. */
module Workflow {
  import opened Wrappers
  import opened States

  type RunId = string

  datatype Channel = Mcp | Web | Email

  datatype GateConfig = GateConfig(role: Standing, channels: seq<Channel>, ttl: nat)

  const DEFAULT_GATE := GateConfig(Some(Attorney), [Mcp, Web, Email], 86400)

  datatype WorkflowDef = WorkflowDef(steps: seq<StepName>, gates: map<string, GateConfig>)

  type Registry = map<string, WorkflowDef>

  function ConfigOf(def: WorkflowDef, name: StepName): GateConfig {
    if name.Approval? && name.gate in def.gates then def.gates[name.gate] else DEFAULT_GATE
  }

  /** Step names within a workflow are distinct (src/cam/core/orchestrator/orm.py:48). */
  ghost predicate WellNamed(defs: Registry) {
    forall k :: k in defs ==> Distinct(defs[k].steps)
  }

  datatype StepError = StepError(attempt: nat, retryable: bool)

  datatype Run = Run(workflow: string, status: RunStatus, current: Option<StepName>, error: Option<StepError>)

  datatype GateRequest = GateRequest(run: RunId, step: StepName, role: Standing, status: GateStatus)

  datatype ApprovalToken = ApprovalToken(gate: nat, run: RunId, step: StepName, channel: Channel,
                                         expires: nat, used: bool)

  datatype ApprovalDecision = ApprovalDecision(gate: nat, run: RunId, step: StepName, approve: bool,
                                               actor: Standing, channel: Channel, token: nat)

  datatype Desk = Desk(gates: map<nat, GateRequest>, tokens: map<nat, ApprovalToken>,
                       decisions: seq<ApprovalDecision>, nextId: nat)

  /** A compensation hook; one that raises is logged and passed over. */
  datatype Compensation = Compensation(id: nat, raises: bool)

  datatype Failure = ConnectorFailure(retryable: bool) | OtherFailure

  /** How a handler answers: its output (None stands for Python's None) or the exception it raises,
      with the compensations it registered either way. */
  datatype Outcome =
    | Returns(out: Option<Output>, comps: seq<Compensation>)
    | Raises(failure: Failure, comps: seq<Compensation>)

  datatype Call = Call(run: RunId, step: StepName)

  /** Everything stored. `calls` and `undone` observe the handler invocations and the compensations
      tried, in order. */
  datatype World = World(
    runs: map<RunId, Run>,
    order: seq<RunId>,
    steps: map<RunId, seq<Step>>,
    dedupe: map<string, RunId>,
    desk: Desk,
    idem: map<Call, Output>,
    calls: seq<Call>,
    undone: seq<Compensation>)

  function Classify(failure: Failure, attempt: nat): StepError {
    match failure
    case ConnectorFailure(retryable) => StepError(attempt, retryable)
    case OtherFailure => StepError(attempt, false)
  }

  function Reverse<T>(s: seq<T>): seq<T> {
    if s == [] then [] else Reverse(s[1..]) + [s[0]]
  }

  // ----- Store calls -----

  predicate Present(w: World, r: RunId) {
    r in w.runs && r in w.steps
  }

  function PutRun(w: World, r: RunId, run: Run): World {
    w.(runs := w.runs[r := run])
  }

  predicate MayMove(w: World, r: RunId, to: RunStatus) {
    r in w.runs && LegalRun(w.runs[r].status, to)
  }

  function MoveRun(w: World, r: RunId, to: RunStatus): World
    requires r in w.runs
  {
    PutRun(w, r, w.runs[r].(status := to))
  }

  function SetCurrent(w: World, r: RunId, name: StepName): World
    requires r in w.runs
  {
    PutRun(w, r, w.runs[r].(current := Some(name)))
  }

  function PutStep(w: World, r: RunId, i: nat, step: Step): World
    requires r in w.steps && i < |w.steps[r]|
  {
    w.(steps := w.steps[r := w.steps[r][i := step]])
  }

  predicate Recorded(w: World, key: Call) {
    key in w.idem && w.idem[key] != PLACEHOLDER
  }

  function RecordOutput(w: World, key: Call, out: Output): World {
    w.(idem := w.idem[key := out])
  }

  /** The first step of that name, the position past the end if there is none. */
  function IndexOf(steps: seq<Step>, name: StepName): (i: nat)
    ensures i <= |steps|
    ensures i < |steps| ==> steps[i].name == name
    ensures forall j :: 0 <= j < i ==> steps[j].name != name
  {
    if steps == [] then 0
    else if steps[0].name == name then 0
    else 1 + IndexOf(steps[1..], name)
  }

  // ----- Gates -----

  /** Issue one token per channel. */
  function IssueTokens(d: Desk, gate: nat, run: RunId, step: StepName, channels: seq<Channel>, expires: nat): Desk
    decreases |channels|
  {
    if channels == [] then d
    else
      var token := ApprovalToken(gate, run, step, channels[0], expires, false);
      IssueTokens(d.(tokens := d.tokens[d.nextId := token], nextId := d.nextId + 1),
                  gate, run, step, channels[1..], expires)
  }

  function OpenGate(d: Desk, run: RunId, step: StepName, cfg: GateConfig, now: nat): Desk {
    var gate := GateRequest(run, step, cfg.role, GatePending);
    IssueTokens(d.(gates := d.gates[d.nextId := gate], nextId := d.nextId + 1),
                d.nextId, run, step, cfg.channels, now + cfg.ttl)
  }

  // ----- execute -----

  datatype End = Completed | AtGate | ParkedRun | Illegal | Missing | Locked

  datatype Ended = Ended(world: World, end: End)

  /** Move the run to `to` or, when the table refuses, raise. */
  function Settle(w: World, r: RunId, to: RunStatus, end: End): Ended
    requires r in w.runs
  {
    if MayMove(w, r, to) then Ended(MoveRun(w, r, to), end) else Ended(w, Illegal)
  }

  function ParkRun(w: World, r: RunId, error: StepError, comps: seq<Compensation>): Ended
    requires r in w.runs
  {
    var undone := w.(undone := w.undone + Reverse(comps));
    if MayMove(w, r, Parked)
    then Ended(PutRun(undone, r, w.runs[r].(status := Parked, error := Some(error))), ParkedRun)
    else Ended(undone, Illegal)
  }

  /** The claim of a step and the invocation of its handler. */
  function Invoke(w: World, r: RunId, i: nat): World
    requires Present(w, r) && i < |w.steps[r]|
  {
    var step := w.steps[r][i];
    PutStep(w, r, i, step.(status := StepStatus.Running)).(calls := w.calls + [Call(r, step.name)])
  }

  function OutputOf(out: Option<Output>): Output {
    if out.Some? then out.value else PLACEHOLDER
  }

  function Succeed(w: World, r: RunId, i: nat, out: Output): World
    requires Present(w, r) && i < |w.steps[r]|
  {
    var step := w.steps[r][i];
    var kept := RecordOutput(w, Call(r, step.name), out);
    var done := step.(status := StepStatus.Succeeded, output := Some(out), attempt := step.attempt + 1);
    SetCurrent(PutStep(kept, r, i, done), r, step.name)
  }

  function FailStep(w: World, r: RunId, i: nat): World
    requires Present(w, r) && i < |w.steps[r]|
  {
    var step := w.steps[r][i];
    PutStep(w, r, i, step.(status := Failed, attempt := step.attempt + 1))
  }

  /** A failed handler: the failure is stored; a retryable one with attempts left then asks for the
      refused write back to pending and raises, any other parks the run. */
  function AfterFailure(w: World, r: RunId, i: nat, failure: Failure, comps: seq<Compensation>): Ended
    requires Present(w, r) && i < |w.steps[r]|
  {
    var error := Classify(failure, w.steps[r][i].attempt);
    var failed := FailStep(w, r, i);
    if error.retryable && w.steps[r][i].attempt + 1 < MAX_ATTEMPTS
    then Ended(failed, Illegal)
    else ParkRun(failed, r, error, comps)
  }

  /** One round of the step loop: on to the next step with the registrations so far, or out. */
  datatype Stride = Onward(next: World, comps: seq<Compensation>) | Stop(ended: Ended)

  function Pace(w: World, r: RunId, def: WorkflowDef, i: nat, answer: Outcome, now: nat,
                comps: seq<Compensation>): (p: Stride)
    requires Present(w, r) && i < |w.steps[r]|
    ensures p.Onward? ==> Present(p.next, r) && |p.next.steps[r]| == |w.steps[r]|
  {
    var step := w.steps[r][i];
    if Finished(step.status) then Onward(w, comps)
    else if IsGate(step.name) then
      Stop(Settle(w.(desk := OpenGate(w.desk, r, step.name, ConfigOf(def, step.name), now)),
                  r, AwaitingApproval, AtGate))
    else if Recorded(w, Call(r, step.name)) then Onward(SetCurrent(w, r, step.name), comps)
    else if !LegalStep(step.status, StepStatus.Running) then Stop(Ended(w, Illegal))
    else
      match answer
      case Returns(out, more) => Onward(Succeed(Invoke(w, r, i), r, i, OutputOf(out)), comps + more)
      case Raises(failure, _) => Stop(AfterFailure(Invoke(w, r, i), r, i, failure, comps))
  }

  /** The step loop from step `i` on; `comps` are the registrations of this pass so far. */
  function Walk(w: World, r: RunId, def: WorkflowDef, i: nat, oracle: seq<Outcome>, now: nat,
                comps: seq<Compensation>): Ended
    requires Present(w, r) && i <= |w.steps[r]| == |oracle|
    decreases |oracle| - i
  {
    if i == |oracle| then Settle(w, r, RunStatus.Succeeded, Completed)
    else
      match Pace(w, r, def, i, oracle[i], now, comps)
      case Onward(next, more) => Walk(next, r, def, i + 1, oracle, now, more)
      case Stop(ended) => ended
  }

  function Promote(w: World, r: RunId): World
    requires r in w.runs
  {
    if w.runs[r].status == Queued then MoveRun(w, r, RunStatus.Running) else w
  }

  /** `execute`, with the handlers' answers supplied per step. */
  function Execute(w: World, defs: Registry, r: RunId, locked: bool, oracle: seq<Outcome>, now: nat): Ended
    requires Present(w, r) ==> |oracle| == |w.steps[r]|
  {
    if !Present(w, r) then Ended(w, Missing)
    else if locked then Ended(w, Locked)
    else
      var running := Promote(w, r);
      if w.runs[r].workflow !in defs then Ended(running, Missing)
      else Walk(running, r, defs[w.runs[r].workflow], 0, oracle, now, [])
  }

  // ----- resolve_gate -----

  /** What a raw token carries once its signature verifies. */
  datatype Payload = Payload(token: nat, gate: nat, run: RunId, step: StepName, expires: nat)

  /** The ideal signature: exactly the payloads the engine issued verify. */
  predicate Genuine(d: Desk, p: Payload) {
    && p.token in d.tokens
    && d.tokens[p.token].gate == p.gate && d.tokens[p.token].run == p.run
    && d.tokens[p.token].step == p.step && d.tokens[p.token].expires == p.expires
  }

  datatype Resolved = Resolved(world: World, ruling: Ruling)

  /** Recorded: the decision is stored and the run moved. Refused: nothing but the token may change.
      Stuck: the decision is stored but the run's transition was refused. */
  datatype Ruling = RulingRecorded | Refused(code: nat) | Stuck

  function AdvanceGateStep(w: World, r: RunId, name: StepName): World {
    if r !in w.steps then w
    else
      var i := IndexOf(w.steps[r], name);
      if i < |w.steps[r]|
      then PutStep(w, r, i, w.steps[r][i].(status := StepStatus.Succeeded))
      else w
  }

  function Spend(d: Desk, t: nat): Desk
    requires t in d.tokens
  {
    d.(tokens := d.tokens[t := d.tokens[t].(used := true)])
  }

  function RecordDecision(d: Desk, p: Payload, approve: bool, actor: Standing, channel: Channel): Desk
    requires p.gate in d.gates
  {
    var made := ApprovalDecision(p.gate, p.run, p.step, approve, actor, channel, p.token);
    d.(decisions := d.decisions + [made],
       gates := d.gates[p.gate := d.gates[p.gate].(status := if approve then Approved else RejectedGate)])
  }

  /** The part of the call past every check: record, then move the run if the table allows it. */
  function Rule(w: World, p: Payload, approve: bool, actor: Standing, channel: Channel): Resolved
    requires p.gate in w.desk.gates
  {
    var ruled := w.(desk := RecordDecision(w.desk, p, approve, actor, channel));
    var to := if approve then RunStatus.Running else Rejected;
    if !MayMove(ruled, p.run, to) then Resolved(ruled, Stuck)
    else if approve then Resolved(AdvanceGateStep(MoveRun(ruled, p.run, to), p.run, p.step), RulingRecorded)
    else Resolved(MoveRun(ruled, p.run, to), RulingRecorded)
  }

  function Resolve(w: World, p: Payload, approve: bool, actor: Standing, channel: Channel, now: nat): Resolved {
    if !Genuine(w.desk, p) || now > p.expires then Resolved(w, Refused(401))
    else if w.desk.tokens[p.token].used then Resolved(w, Refused(409))
    else
      var spent := w.(desk := Spend(w.desk, p.token));
      if p.gate !in w.desk.gates then Resolved(spent, Refused(404))
      else if w.desk.gates[p.gate].status != GatePending then Resolved(spent, Refused(409))
      else if !MayDecide(actor, w.desk.gates[p.gate].role) then Resolved(spent, Refused(403))
      else
        Rule(spent, p, approve, actor, channel)
  }

  // ----- start_run -----

  datatype Started = Started(world: World, run: RunId) | UnknownWorkflow

  /** `dedupe` is empty when neither an idempotency key nor a trigger key is given. */
  function StartRun(w: World, defs: Registry, workflow: string, r: RunId, dedupe: string): Started {
    if workflow !in defs then UnknownWorkflow
    else if dedupe != "" && dedupe in w.dedupe then Started(w, w.dedupe[dedupe])
    else
      var order := if r in w.runs then w.order else w.order + [r];
      Started(w.(runs := w.runs[r := Run(workflow, Queued, None, None)], order := order,
                 steps := w.steps[r := FanOut(defs[workflow].steps)],
                 dedupe := if dedupe != "" then w.dedupe[dedupe := r] else w.dedupe), r)
  }

  // ----- recovery_sweep -----

  predicate Recoverable(w: World, r: RunId) {
    r in w.runs && (w.runs[r].status == Queued || w.runs[r].status == RunStatus.Running)
  }

  function Listed(w: World, order: seq<RunId>): seq<RunId> {
    if order == [] then []
    else if Recoverable(w, order[0]) then [order[0]] + Listed(w, order[1..])
    else Listed(w, order[1..])
  }

  /** The handlers' answers, per run and step position. */
  type Oracle = (RunId, nat) -> Outcome

  function Answers(oracle: Oracle, r: RunId, n: nat): (answers: seq<Outcome>)
    ensures |answers| == n
    ensures forall i :: 0 <= i < n ==> answers[i] == oracle(r, i)
  {
    seq(n, i requires 0 <= i => oracle(r, i))
  }

  function AnswersFor(oracle: Oracle, w: World, r: RunId): seq<Outcome> {
    Answers(oracle, r, if r in w.steps then |w.steps[r]| else 0)
  }

  /** Execute the listed runs in turn, passing over any that is missing or awaiting approval by now. */
  function SweepRuns(w: World, defs: Registry, listed: seq<RunId>, oracle: Oracle, now: nat): World
    decreases |listed|
  {
    if listed == [] then w
    else
      var r := listed[0];
      var next :=
        if r !in w.runs || w.runs[r].status == AwaitingApproval then w
        else Execute(w, defs, r, false, AnswersFor(oracle, w, r), now).world;
      SweepRuns(next, defs, listed[1..], oracle, now)
  }

  function Sweep(w: World, defs: Registry, oracle: Oracle, now: nat): World {
    SweepRuns(w, defs, Listed(w, w.order), oracle, now)
  }

  // ----- Histories -----

  datatype Op =
    | OpStart(workflow: string, run: RunId, dedupe: string)
    | OpExecute(run: RunId, locked: bool, oracle: Oracle, now: nat)
    | OpResolve(payload: Payload, approve: bool, actor: Standing, channel: Channel, now: nat)
    | OpSweep(oracle: Oracle, now: nat)

  /** One operation. Run ids are fresh: a start naming a stored run is not in the model's histories. */
  function Apply(w: World, defs: Registry, op: Op): World {
    match op
    case OpStart(workflow, r, dedupe) =>
      if r in w.runs then w
      else
        var s := StartRun(w, defs, workflow, r, dedupe);
        if s.Started? then s.world else w
    case OpExecute(r, locked, oracle, now) =>
      Execute(w, defs, r, locked, AnswersFor(oracle, w, r), now).world
    case OpResolve(p, approve, actor, channel, now) => Resolve(w, p, approve, actor, channel, now).world
    case OpSweep(oracle, now) => Sweep(w, defs, oracle, now)
  }

  function History(w: World, defs: Registry, ops: seq<Op>): World
    decreases |ops|
  {
    if ops == [] then w else History(Apply(w, defs, ops[0]), defs, ops[1..])
  }

  const EMPTY := World(map[], [], map[], map[], Desk(map[], map[], [], 0), map[], [], [])
}
