/** The durable workflow engine as a protocol over one run: any number of workers executing
    `WorkflowEngine._execute` and any number of callers inside `resolve_gate`, interleaved one store
    call at a time, with crashes between any two calls, no working run lock, and an idempotency
    store that may forget records or raise (src/cam/core/orchestrator/engine.py, store.py, gates.py). */
module Protocol {
  import opened Wrappers
  import opened States

  /** The stored run. `log`, `successes` and `faults` are observations: the steps in the order of
      their first completion, and per step how often its handler returned and how often the
      idempotency store raised on it. */
  datatype Core = Core(
    names: seq<StepName>,
    status: RunStatus,
    steps: seq<Step>,
    idem: map<nat, Output>,
    log: seq<nat>,
    successes: seq<nat>,
    faults: seq<nat>)

  datatype Gate = Gate(step: nat, role: Standing, status: GateStatus)

  datatype Token = Token(gate: nat, step: nat, used: bool)

  datatype Decision = Decision(gate: nat, step: nat, approve: bool, actor: Standing, token: nat)

  /** The approvals desk: gate requests, single-use tokens, stored decisions, and the id source. */
  datatype Desk = Desk(
    gates: map<nat, Gate>,
    tokens: map<nat, Token>,
    decisions: seq<Decision>,
    nextId: nat)

  /** Where a worker stands: the store call it makes next, with the locals the call needs.
      `snap` is the worker's own copy of the steps, taken once and never refreshed. */
  datatype Phase =
    | Fetch
    | Promote
    | Load
    | Visit(i: nat, snap: seq<Step>)
    | Claim(i: nat, snap: seq<Step>)
    | Handling(i: nat, snap: seq<Step>)
    | Reserve(i: nat, snap: seq<Step>, out: Output)
    | Record(i: nat, snap: seq<Step>, out: Output)
    | Commit(i: nat, snap: seq<Step>, out: Output)
    | Fail(i: nat, snap: seq<Step>, retryable: bool)
    | Retry(i: nat, snap: seq<Step>)
    | Park
    | OpenGate(i: nat)
    | IssueTokens(gate: nat, left: nat)
    | Await
    | Finish
    | Gone

  /** Where a caller of `resolve_gate` stands after presenting a genuine token. */
  datatype Resolution =
    | Spend(token: nat, approve: bool, actor: Standing)
    | ReadGate(token: nat, approve: bool, actor: Standing)
    | Decide(token: nat, approve: bool, actor: Standing, seen: Gate)
    | Flip(token: nat, approve: bool, seen: Gate)
    | Move(token: nat, approve: bool)
    | Advance(token: nat)
    | Closed

  datatype State = State(
    core: Core,
    desk: Desk,
    workers: map<nat, Phase>,
    resolvers: map<nat, Resolution>)

  /** What the outside world answers when a worker moves. */
  datatype Choice =
    | Proceed
    | Returned(out: Output)
    | Raised(retryable: bool)
    | IdemRaised
    | Channels(count: nat, role: Standing)

  datatype Event =
    | Spawn(w: nat)
    | Tick(w: nat, choice: Choice)
    | Crash(w: nat)
    | Forget(i: nat)
    | Present(r: nat, token: nat, approve: bool, actor: Standing)
    | Resolve(r: nat)
    | CrashResolver(r: nat)
    | Operator(to: RunStatus)

  function Zeros(n: nat): (zs: seq<nat>)
    ensures |zs| == n
  {
    seq(n, _ => 0)
  }

  function Init(names: seq<StepName>): State {
    State(Core(names, Queued, FanOut(names), map[], [], Zeros(|names|), Zeros(|names|)),
          Desk(map[], map[], [], 0), map[], map[])
  }

  // ----- Store calls -----

  function SetStatus(c: Core, to: RunStatus): Core {
    if LegalRun(c.status, to) then c.(status := to) else c
  }

  predicate Recorded(c: Core, i: nat) {
    i in c.idem && c.idem[i] != PLACEHOLDER
  }

  /** `update_step`: refused unless the stored status allows it. */
  predicate MayWrite(c: Core, i: nat, status: StepStatus) {
    i < |c.steps| && LegalStep(c.steps[i].status, status)
  }

  function WriteStep(c: Core, i: nat, step: Step): Core
    requires i < |c.steps|
  {
    c.(steps := c.steps[i := step])
  }

  /** Log the first completion of step `i`. */
  function Complete(c: Core, i: nat): Core {
    if i in c.log then c else c.(log := c.log + [i])
  }

  function Bump(counts: seq<nat>, i: nat): (c: seq<nat>)
    ensures |c| == |counts|
  {
    if i < |counts| then counts[i := counts[i] + 1] else counts
  }

  // ----- One move of a worker: the new stored run, the new desk, the worker's new phase -----

  datatype Move = Made(core: Core, desk: Desk, phase: Phase)

  function VisitStep(c: Core, i: nat, snap: seq<Step>): Phase {
    if i >= |snap| then Finish
    else if Finished(snap[i].status) then Visit(i + 1, snap)
    else if IsGate(snap[i].name) then OpenGate(i)
    else if Recorded(c, i) then Visit(i + 1, snap)
    else Claim(i, snap)
  }

  function ClaimStep(c: Core, d: Desk, i: nat, snap: seq<Step>): Move {
    if i < |snap| && MayWrite(c, i, StepStatus.Running) then
      var mine := snap[i].(status := StepStatus.Running);
      Made(WriteStep(c, i, mine), d, Handling(i, snap[i := mine]))
    else Made(c, d, Gone)
  }

  function Return(c: Core, d: Desk, i: nat, snap: seq<Step>, out: Output): Move {
    Made(Complete(c, i).(successes := Bump(c.successes, i)), d, Reserve(i, snap, out))
  }

  function IdemFault(c: Core, d: Desk, i: nat, snap: seq<Step>): Move {
    Made(c.(faults := Bump(c.faults, i)), d, Fail(i, snap, false))
  }

  function ReserveKey(c: Core, i: nat): Core {
    if i in c.idem then c else c.(idem := c.idem[i := PLACEHOLDER])
  }

  function CommitStep(c: Core, d: Desk, i: nat, snap: seq<Step>, out: Output): Move {
    if i < |snap| && MayWrite(c, i, StepStatus.Succeeded) then
      var mine := snap[i].(status := StepStatus.Succeeded, output := Some(out),
                           attempt := snap[i].attempt + 1);
      Made(WriteStep(c, i, mine), d, Visit(i + 1, snap))
    else Made(c, d, Fail(i, snap, false))
  }

  function FailStep(c: Core, d: Desk, i: nat, snap: seq<Step>, retryable: bool): Move {
    if i < |snap| && MayWrite(c, i, Failed) then
      var mine := snap[i].(status := Failed, attempt := snap[i].attempt + 1);
      Made(WriteStep(c, i, mine), d,
           if retryable && mine.attempt < MAX_ATTEMPTS then Retry(i, snap[i := mine]) else Park)
    else Made(c, d, Gone)
  }

  function RetryStep(c: Core, d: Desk, i: nat, snap: seq<Step>): Move {
    if i < |snap| && MayWrite(c, i, Pending)
    then Made(WriteStep(c, i, snap[i].(status := Pending)), d, Fetch)
    else Made(c, d, Gone)
  }

  function AddGate(d: Desk, i: nat, role: Standing): Desk {
    d.(gates := d.gates[d.nextId := Gate(i, role, GatePending)], nextId := d.nextId + 1)
  }

  function AddToken(d: Desk, gate: nat): Desk
    requires gate in d.gates
  {
    d.(tokens := d.tokens[d.nextId := Token(gate, d.gates[gate].step, false)], nextId := d.nextId + 1)
  }

  function TickWorker(c: Core, d: Desk, p: Phase, choice: Choice): Move {
    match p
    case Fetch => Made(c, d, if c.status == Queued then Promote else Load)
    case Promote =>
      if LegalRun(c.status, RunStatus.Running)
      then Made(c.(status := RunStatus.Running), d, Load)
      else Made(c, d, Gone)
    case Load => Made(c, d, Visit(0, c.steps))
    case Visit(i, snap) => Made(c, d, VisitStep(c, i, snap))
    case Claim(i, snap) => ClaimStep(c, d, i, snap)
    case Handling(i, snap) =>
      if choice.Returned? then Return(c, d, i, snap, choice.out)
      else if choice.Raised? then Made(c, d, Fail(i, snap, choice.retryable))
      else Made(c, d, p)
    case Reserve(i, snap, out) =>
      if choice.IdemRaised? then IdemFault(c, d, i, snap)
      else Made(ReserveKey(c, i), d, Record(i, snap, out))
    case Record(i, snap, out) =>
      if choice.IdemRaised? then IdemFault(c, d, i, snap)
      else Made(c.(idem := c.idem[i := out]), d, Commit(i, snap, out))
    case Commit(i, snap, out) => CommitStep(c, d, i, snap, out)
    case Fail(i, snap, retryable) => FailStep(c, d, i, snap, retryable)
    case Retry(i, snap) => RetryStep(c, d, i, snap)
    case Park => Made(SetStatus(c, Parked), d, Gone)
    case OpenGate(i) =>
      if choice.Channels?
      then Made(c, AddGate(d, i, choice.role), IssueTokens(d.nextId, choice.count))
      else Made(c, d, p)
    case IssueTokens(gate, left) =>
      if left == 0 || gate !in d.gates then Made(c, d, Await)
      else Made(c, AddToken(d, gate), IssueTokens(gate, left - 1))
    case Await => Made(SetStatus(c, AwaitingApproval), d, Gone)
    case Finish => Made(SetStatus(c, RunStatus.Succeeded), d, Gone)
    case Gone => Made(c, d, Gone)
  }

  // ----- One move of a resolver -----

  datatype Ruling = Ruled(core: Core, desk: Desk, next: Resolution)

  function SpendToken(c: Core, d: Desk, t: nat, approve: bool, actor: Standing): Ruling {
    if t in d.tokens && !d.tokens[t].used
    then Ruled(c, d.(tokens := d.tokens[t := d.tokens[t].(used := true)]), ReadGate(t, approve, actor))
    else Ruled(c, d, Closed)
  }

  function InspectGate(c: Core, d: Desk, t: nat, approve: bool, actor: Standing): Ruling {
    if t in d.tokens && d.tokens[t].gate in d.gates then
      var gate := d.gates[d.tokens[t].gate];
      if gate.status == GatePending && MayDecide(actor, gate.role)
      then Ruled(c, d, Decide(t, approve, actor, gate))
      else Ruled(c, d, Closed)
    else Ruled(c, d, Closed)
  }

  function SaveDecision(c: Core, d: Desk, t: nat, approve: bool, actor: Standing, seen: Gate): Ruling {
    if t in d.tokens then
      var made := Decision(d.tokens[t].gate, d.tokens[t].step, approve, actor, t);
      Ruled(c, d.(decisions := d.decisions + [made]), Flip(t, approve, seen))
    else Ruled(c, d, Closed)
  }

  function FlipGate(c: Core, d: Desk, t: nat, approve: bool, seen: Gate): Ruling {
    if t in d.tokens then
      var gate := seen.(status := if approve then Approved else RejectedGate);
      Ruled(c, d.(gates := d.gates[d.tokens[t].gate := gate]), Move(t, approve))
    else Ruled(c, d, Closed)
  }

  function MoveRun(c: Core, d: Desk, t: nat, approve: bool): Ruling {
    var to := if approve then RunStatus.Running else Rejected;
    if LegalRun(c.status, to)
    then Ruled(c.(status := to), d, if approve then Advance(t) else Closed)
    else Ruled(c, d, Closed)
  }

  /** `advance_gate_step` writes past the transition guard. */
  function AdvanceGate(c: Core, d: Desk, t: nat): Ruling {
    if t in d.tokens && d.tokens[t].step < |c.steps| then
      var i := d.tokens[t].step;
      Ruled(Complete(WriteStep(c, i, c.steps[i].(status := StepStatus.Succeeded)), i), d, Closed)
    else Ruled(c, d, Closed)
  }

  function TickResolver(c: Core, d: Desk, q: Resolution): Ruling {
    match q
    case Spend(t, approve, actor) => SpendToken(c, d, t, approve, actor)
    case ReadGate(t, approve, actor) => InspectGate(c, d, t, approve, actor)
    case Decide(t, approve, actor, seen) => SaveDecision(c, d, t, approve, actor, seen)
    case Flip(t, approve, seen) => FlipGate(c, d, t, approve, seen)
    case Move(t, approve) => MoveRun(c, d, t, approve)
    case Advance(t) => AdvanceGate(c, d, t)
    case Closed => Ruled(c, d, Closed)
  }

  // ----- Whole-system moves and runs -----

  function MoveWorker(s: State, w: nat, choice: Choice): State
    requires w in s.workers
  {
    var m := TickWorker(s.core, s.desk, s.workers[w], choice);
    State(m.core, m.desk, s.workers[w := m.phase], s.resolvers)
  }

  function MoveResolver(s: State, r: nat): State
    requires r in s.resolvers
  {
    var m := TickResolver(s.core, s.desk, s.resolvers[r]);
    State(m.core, m.desk, s.workers, s.resolvers[r := m.next])
  }

  /** One atomic move; an event that is not enabled changes nothing. The operator re-drives a parked
      run or cancels one, the only edges of the table that no code path uses. */
  function Next(s: State, e: Event): State {
    match e
    case Spawn(w) => if w in s.workers then s else s.(workers := s.workers[w := Fetch])
    case Tick(w, choice) => if w in s.workers then MoveWorker(s, w, choice) else s
    case Crash(w) => if w in s.workers then s.(workers := s.workers[w := Gone]) else s
    case Forget(i) => s.(core := s.core.(idem := s.core.idem - {i}))
    case Present(r, t, approve, actor) =>
      if r in s.resolvers then s else s.(resolvers := s.resolvers[r := Spend(t, approve, actor)])
    case Resolve(r) => if r in s.resolvers then MoveResolver(s, r) else s
    case CrashResolver(r) => if r in s.resolvers then s.(resolvers := s.resolvers[r := Closed]) else s
    case Operator(to) =>
      if to == Cancelled || (s.core.status == Parked && to == RunStatus.Running)
      then s.(core := SetStatus(s.core, to)) else s
  }

  function Exec(s: State, events: seq<Event>): State
    decreases |events|
  {
    if events == [] then s else Exec(Next(s, events[0]), events[1..])
  }
}
